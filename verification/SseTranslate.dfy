/**
 The stream-json to server-sent-events translator: what one line does to the
 translator's state and which events it emits.
 */
module SseTranslate {
  import opened Bytes
  import opened StreamJson

  datatype StartBody = StartBody(
    id: string, kind: string, role: string, model: string,
    stopReason: Option<string>, stopSequence: Option<string>, usage: Option<Usage>)

  /** The content_block of a content_block_start: the empty text block, or a block shipped whole. */
  datatype Opening = EmptyText | Whole(raw: seq<byte>)

  datatype Event =
    | MessageStart(body: StartBody)
    | BlockStart(index: nat, block: Opening)
    | TextDelta(index: nat, text: string)
    | BlockStop(index: nat)
    | MessageDelta(stopReason: Option<string>, stopSequence: Option<string>, usage: Option<Usage>)
    | MessageStop

  datatype State = Idle | InMessage | Done

  datatype Envelope = Envelope(
    id: string, openBlockIdx: nat, hasOpenBlock: bool, nextBlockIdx: nat,
    stopReason: Option<string>, stopSequence: Option<string>, finalUsage: Option<Usage>)

  datatype Translator = Translator(state: State, envel: Envelope)

  const INITIAL := Translator(Idle, Envelope("", 0, false, 0, None, None, None))

  function StartOf(m: Message): StartBody {
    StartBody(m.id, m.kind, m.role, m.model, m.stopReason, m.stopSequence, m.usage)
  }

  /** The events that close the open block, if there is one. */
  function CloseBlock(e: Envelope): (Envelope, seq<Event>) {
    if e.hasOpenBlock then (e.(hasOpenBlock := false), [BlockStop(e.openBlockIdx)]) else (e, [])
  }

  function OnText(e: Envelope, text: string): (Envelope, seq<Event>) {
    var after := if e.hasOpenBlock then e
                  else e.(openBlockIdx := e.nextBlockIdx, hasOpenBlock := true, nextBlockIdx := e.nextBlockIdx + 1);
    var start := if e.hasOpenBlock then [] else [BlockStart(e.nextBlockIdx, EmptyText)];
    var delta := if text == "" then [] else [TextDelta(after.openBlockIdx, text)];
    (after, start + delta)
  }

  function OnWhole(e: Envelope, raw: seq<byte>): (Envelope, seq<Event>) {
    var (closed, stop) := CloseBlock(e);
    (closed.(nextBlockIdx := e.nextBlockIdx + 1),
     stop + [BlockStart(e.nextBlockIdx, Whole(raw)), BlockStop(e.nextBlockIdx)])
  }

  function OnBlock(e: Envelope, b: Block): (Envelope, seq<Event>) {
    match b
    case Text(text) => OnText(e, text)
    case ToolUse(raw) => OnWhole(e, raw)
    case Opaque(raw) => OnWhole(e, raw)
    case Unreadable => (e, [])
  }

  function OnBlocks(e: Envelope, bs: seq<Block>): (Envelope, seq<Event>)
    decreases |bs|
  {
    if bs == [] then (e, [])
    else
      var (e1, evs1) := OnBlock(e, bs[0]);
      var (e2, evs2) := OnBlocks(e1, bs[1..]);
      (e2, evs1 + evs2)
  }

  /** The envelope after the rolling fields of a new assistant cycle are cached. */
  function Cache(e: Envelope, m: Message): Envelope {
    e.(stopReason := m.stopReason, stopSequence := m.stopSequence,
       finalUsage := if m.usage.Some? then m.usage else e.finalUsage)
  }

  function OnAssistant(t: Translator, m: Message): (Translator, seq<Event>) {
    if t.state == Done then (t, [])
    else
      var start := if t.state == Idle then [MessageStart(StartOf(m))] else [];
      var e := if t.state == Idle then t.envel.(id := m.id) else t.envel;
      var (e', evs) := OnBlocks(Cache(e, m), m.content);
      (Translator(InMessage, e'), start + evs)
  }

  function Finish(t: Translator, stopReason: Option<string>, stopSequence: Option<string>, usage: Option<Usage>)
    : (Translator, seq<Event>)
  {
    var (e, stop) := CloseBlock(t.envel);
    (Translator(Done, e), stop + [MessageDelta(stopReason, stopSequence, usage), MessageStop])
  }

  function OrElse<T>(a: Option<T>, b: Option<T>): Option<T> {
    if a.Some? then a else b
  }

  function DefaultReason(isError: bool): Option<string> {
    Some(if isError then "error" else "end_turn")
  }

  function OnResult(t: Translator, isError: bool, usage: Option<Usage>): (Translator, seq<Event>) {
    if t.state != InMessage then (t, [])
    else Finish(t, OrElse(t.envel.stopReason, DefaultReason(isError)), t.envel.stopSequence,
                OrElse(usage, t.envel.finalUsage))
  }

  function OnLine(t: Translator, line: Line): (Translator, seq<Event>) {
    match line
    case Assistant(m) => OnAssistant(t, m)
    case Result(isError, usage) => OnResult(t, isError, usage)
    case Dropped => (t, [])
  }

  function OnLines(t: Translator, lines: seq<Line>): (Translator, seq<Event>)
    decreases |lines|
  {
    if lines == [] then (t, [])
    else
      var (t1, evs1) := OnLine(t, lines[0]);
      var (t2, evs2) := OnLines(t1, lines[1..]);
      (t2, evs1 + evs2)
  }

  /** Close synthesises the end of an unfinished message. */
  function OnClose(t: Translator): (Translator, seq<Event>) {
    if t.state == InMessage then Finish(t, Some("end_turn"), None, t.envel.finalUsage) else (t, [])
  }

  lemma {:induction false} OnLinesAppend(t: Translator, a: seq<Line>, b: seq<Line>)
    ensures var (t1, evs1) := OnLines(t, a);
            var (t2, evs2) := OnLines(t1, b);
            OnLines(t, a + b) == (t2, evs1 + evs2)
    decreases |a|
  {
    if a == [] {
      assert a + b == b;
      var evs := OnLines(t, b).1;
      assert [] + evs == evs;
    } else {
      assert (a + b)[0] == a[0] && (a + b)[1..] == a[1..] + b;
      var (u, evs) := OnLine(t, a[0]);
      OnLinesAppend(u, a[1..], b);
      var (t1, evs1) := OnLines(u, a[1..]);
      assert evs + (evs1 + OnLines(t1, b).1) == (evs + evs1) + OnLines(t1, b).1;
    }
  }
}
