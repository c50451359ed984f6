/**
 What a stream-json line means. JSON text is abstracted to a function from bytes
 to Doc; how the two readers of the stream treat a decoded line is spelled out here.
 */
module StreamJson {
  import opened Bytes

  /** Token counts. The source's uint64 fields never undergo arithmetic here. */
  datatype Usage = Usage(inputTokens: nat, outputTokens: nat)

  /** One JSON field seen by a Go struct decoder; Mistyped makes the whole decode fail. */
  datatype Field<+T> = Absent | Null | Mistyped | Value(value: T) {
    /** A pointer field: absent and null both leave it nil. */
    function Nilable(): Option<T> {
      match this
      case Value(v) => Some(v)
      case _ => None
    }

    /** A value field: absent and null both leave its zero value. */
    function Or(zero: T): T {
      match this
      case Value(v) => v
      case _ => zero
    }
  }

  datatype Block =
    | Text(text: string)
    | ToolUse(raw: seq<byte>)
    | Opaque(raw: seq<byte>)
    | Unreadable

  datatype Message = Message(
    id: string, kind: string, role: string, model: string, content: seq<Block>,
    stopReason: Option<string>, stopSequence: Option<string>, usage: Option<Usage>)

  const ZERO_MESSAGE := Message("", "", "", "", [], None, None, None)

  /** A decoded line: not JSON, or an object with the fields the readers look at. */
  datatype Doc =
    | Invalid
    | Object(kind: Field<string>, subtype: Field<string>, isError: Field<bool>,
             usage: Field<Usage>, message: Field<Message>)

  type Decoder = seq<byte> -> Doc

  /** How the translator treats a line. */
  datatype Line = Assistant(message: Message) | Result(isError: bool, usage: Option<Usage>) | Dropped

  /** The translator's reading of one JSON document: header first, then the full shape. */
  function Read(d: Doc): Line {
    if d.Invalid? || d.kind.Mistyped? || d.subtype.Mistyped? then Dropped
    else if d.kind.Or("") == "assistant" then
      if d.message.Mistyped? then Dropped else Assistant(d.message.Or(ZERO_MESSAGE))
    else if d.kind.Or("") == "result" then
      if d.isError.Mistyped? || d.usage.Mistyped? then Dropped
      else Result(d.isError.Or(false), d.usage.Nilable())
    else Dropped
  }

  /** bytes.TrimRight(line, "\r\n"). */
  function TrimEnd(line: seq<byte>): (body: seq<byte>)
    ensures body <= line
    ensures body != [] ==> body[|body| - 1] != LF && body[|body| - 1] != CR
  {
    if line == [] || (line[|line| - 1] != LF && line[|line| - 1] != CR) then line
    else TrimEnd(line[..|line| - 1])
  }

  function Classify(decode: Decoder, line: seq<byte>): Line {
    var body := TrimEnd(line);
    if body == [] || body[0] != BRACE then Dropped else Read(decode(body))
  }

  function ClassifyAll(decode: Decoder, lines: seq<seq<byte>>): (r: seq<Line>)
    ensures |r| == |lines|
  {
    seq(|lines|, i requires 0 <= i < |lines| => Classify(decode, lines[i]))
  }

  // ---------- the bridge's own reading of the same lines ----------

  /** What the bridge extracts from a document: the usage of a result, nothing otherwise. */
  function ProbeDoc(d: Doc): Option<Usage> {
    if d.Invalid? || d.kind.Mistyped? || d.usage.Mistyped? || d.kind.Or("") != "result" then None
    else Some(d.usage.Or(Usage(0, 0)))
  }

  /** The bridge strips one newline and no carriage return. */
  function Probe(decode: Decoder, line: seq<byte>): Option<Usage> {
    var body := if line != [] && line[|line| - 1] == LF then line[..|line| - 1] else line;
    if body == [] || body[0] != BRACE then None else ProbeDoc(decode(body))
  }

  /** A carriage return after a document is insignificant whitespace (section 2 of RFC 8259). */
  ghost predicate IgnoresTrailingCR(decode: Decoder) {
    forall body :: decode(body + [CR]) == decode(body)
  }
}
