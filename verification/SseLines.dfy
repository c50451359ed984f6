/**
 What one more line does to the client, said of the document the line holds and of nothing in
 between: the kind of the document, its message, its usage and its error flag.
 */
module SseLines {
  import opened Bytes
  import opened StreamJson
  import opened SseTranslate
  import opened SseClient
  import opened SseOutput

  /** A line: its text, any number of carriage returns, and the newline. */
  function LineOf(body: seq<byte>, crs: nat): seq<byte>
    decreases crs
  {
    if crs == 0 then body + [10] else LineOf(body + [13], crs - 1)
  }

  ghost predicate IsBody(body: seq<byte>) {
    body != [] && body[|body| - 1] != 13 && forall k :: 0 <= k < |body| ==> body[k] != 10
  }

  lemma {:induction false} TrimsTo(body: seq<byte>, crs: nat)
    requires forall k :: 0 <= k < |body| ==> body[k] != 10
    ensures IsLine(LineOf(body, crs)) && TrimEnd(LineOf(body, crs)) == TrimEnd(body)
    decreases crs
  {
    if crs == 0 {
      assert (body + [10])[..|body|] == body;
    } else {
      TrimsTo(body + [13], crs - 1);
      assert (body + [13])[..|body|] == body;
    }
  }

  lemma ReadsBody(decode: Decoder, body: seq<byte>, crs: nat)
    requires IsBody(body)
    ensures Classify(decode, LineOf(body, crs)) == if body[0] == 123 then Read(decode(body)) else Dropped
    ensures IsLine(LineOf(body, crs))
  {
    TrimsTo(body, crs);
  }

  // ---------- one more line ----------

  lemma {:induction false} FirstResultSnoc(lines: seq<Line>, x: Line)
    ensures FirstResult(lines + [x])
            == if FirstResult(lines).Some? then FirstResult(lines) else if x.Result? then Some(x) else None
    ensures Cycles(lines + [x])
            == if FirstResult(lines).None? && x.Assistant? then Cycles(lines) + [x.message] else Cycles(lines)
  {
    if lines == [] {
      assert [] + [x] == [x];
      assert [x][1..] == [];
    } else {
      assert (lines + [x])[0] == lines[0] && (lines + [x])[1..] == lines[1..] + [x];
      FirstResultSnoc(lines[1..], x);
    }
  }

  lemma {:induction false} FromFirstSnoc(lines: seq<Line>, x: Line)
    ensures FromFirstAssistant(lines + [x])
            == if FromFirstAssistant(lines) != [] || x.Assistant? then FromFirstAssistant(lines) + [x] else []
    ensures (FromFirstAssistant(lines) == []) == (TurnOf(lines) == [])
  {
    if lines == [] {
      assert [] + [x] == [x];
      assert [x][1..] == [];
    } else {
      assert (lines + [x])[0] == lines[0] && (lines + [x])[1..] == lines[1..] + [x];
      FromFirstSnoc(lines[1..], x);
    }
  }

  /** The turn after one more line. */
  lemma TurnSnoc(lines: seq<Line>, x: Line)
    ensures TurnOf(lines + [x])
            == if TerminatorOf(lines).None? && x.Assistant? then TurnOf(lines) + [x.message] else TurnOf(lines)
    ensures TerminatorOf(lines + [x])
            == if TerminatorOf(lines).Some? then TerminatorOf(lines)
               else if TurnOf(lines) != [] && x.Result? then Some(x) else None
  {
    FromFirstSnoc(lines, x);
    FirstResultSnoc(FromFirstAssistant(lines), x);
    assert [] + [x] == [x] && [x][1..] == [];
  }

  lemma LineAlone(line: seq<byte>)
    requires IsLine(line)
    ensures Lines(line) == [line]
  {
    assert [line][1..] == [];
    assert Flatten([line]) == line + Flatten([]) == line;
    assert Flatten([line]) + [] == line;
    LinesUnique([line], []);
  }

  lemma ClassifySnoc(decode: Decoder, ls: seq<seq<byte>>, l: seq<byte>)
    ensures ClassifyAll(decode, ls + [l]) == ClassifyAll(decode, ls) + [Classify(decode, l)]
  {
  }

  /** The lines of complete lines p followed by one more. */
  lemma LinesSnoc(decode: Decoder, p: seq<byte>, line: seq<byte>)
    requires Tail(p) == [] && IsLine(line)
    ensures ClassifyAll(decode, Lines(p + line)) == ClassifyAll(decode, Lines(p)) + [Classify(decode, line)]
  {
    LinesAppend(p, line);
    assert [] + line == line;
    LineAlone(line);
    ClassifySnoc(decode, Lines(p), line);
  }

  lemma ClientAfterLine(decode: Decoder, p: seq<byte>, line: seq<byte>)
    requires Tail(p) == [] && IsLine(line)
    ensures var lines, x := ClassifyAll(decode, Lines(p)), Classify(decode, line);
            && ClientOf(decode, p) == Some(Expected(TurnOf(lines), EndingOf(lines)))
            && ClientOf(decode, p + line) == Some(Expected(TurnOf(lines + [x]), EndingOf(lines + [x])))
  {
    ClientOfInput(decode, p);
    ClientOfInput(decode, p + line);
    LinesSnoc(decode, p, line);
  }

  // ---------- assistant lines ----------

  lemma {:induction false} ContentsSnoc(ms: seq<Message>, m: Message)
    ensures Contents(ms + [m]) == Contents(ms) + m.content
  {
    if ms == [] {
      assert [] + [m] == [m];
      assert [m][1..] == [];
    } else {
      assert (ms + [m])[1..] == ms[1..] + [m];
      ContentsSnoc(ms[1..], m);
    }
  }

  lemma MergedAppend(a: seq<Block>, b: seq<Block>)
    ensures Merged(a + b) == Glue(Merged(a), Merged(b))
  {
    PushAllAppend([], a, b);
    PushAllMerges([], a + b);
    PushAllMerges([], a);
    PushAllMerges(PushAll([], a), b);
    assert Glue([], Merged(a + b)) == Merged(a + b) && Glue([], Merged(a)) == Merged(a);
  }

  /** What an assistant message makes of the client. */
  function WithMessage(c: Client, m: Message): Client {
    var blocks := Merged(m.content);
    if c.phase == Fresh then
      Client(Streaming, Some(StartBody(m.id, m.kind, m.role, m.model, m.stopReason, m.stopSequence, m.usage)),
             blocks, EndsInText(blocks), None)
    else if c.phase == Streaming then
      Client(Streaming, c.head, Glue(c.blocks, blocks), EndsInText(Glue(c.blocks, blocks)), None)
    else c
  }

  lemma AssistantSnoc(lines: seq<Line>, m: Message)
    ensures Expected(TurnOf(lines + [Assistant(m)]), EndingOf(lines + [Assistant(m)]))
            == WithMessage(Expected(TurnOf(lines), EndingOf(lines)), m)
  {
    var turn := TurnOf(lines);
    TurnSnoc(lines, Assistant(m));
    ContentsSnoc(turn, m);
    if turn == [] {
      NoTurnNoEnd(lines);
      assert Contents(turn) + m.content == m.content;
    } else {
      MergedAppend(Contents(turn), m.content);
    }
  }

  lemma {:induction false} NoTurnNoEnd(lines: seq<Line>)
    requires TurnOf(lines) == []
    ensures TerminatorOf(lines).None?
  {
    if lines != [] && !lines[0].Assistant? {
      NoTurnNoEnd(lines[1..]);
    }
  }

  /**
   A well-typed assistant document starts the message with its own header, adds its own content to
   a message that has begun, and is ignored once the message has ended.
   */
  lemma AssistantLine(decode: Decoder, p: seq<byte>, body: seq<byte>, crs: nat, m: Message)
    requires Tail(p) == [] && IsBody(body) && body[0] == 123
    requires var d := decode(body);
             d.Object? && d.kind == Value("assistant") && !d.subtype.Mistyped? && d.message == Value(m)
    ensures ClientOf(decode, p).Some?
    ensures ClientOf(decode, p + LineOf(body, crs)) == Some(WithMessage(ClientOf(decode, p).value, m))
  {
    ReadsBody(decode, body, crs);
    ClientAfterLine(decode, p, LineOf(body, crs));
    AssistantSnoc(ClassifyAll(decode, Lines(p)), m);
  }

  // ---------- result lines ----------

  /** The messages of the turn the client is in. */
  function TurnSoFar(decode: Decoder, p: seq<byte>): seq<Message> {
    TurnOf(ClassifyAll(decode, Lines(p)))
  }

  /** A client told an end: what it had, and this usage, stop reason and stop sequence. */
  ghost predicate Ended(c: Client, c': Client, turn: seq<Message>, isError: bool, usage: Option<Usage>) {
    && turn != [] && c'.phase == Complete && c'.head == c.head && c'.blocks == c.blocks && c'.ending.Some?
    && var last, end := turn[|turn| - 1], c'.ending.value;
       && end.stopSequence == last.stopSequence
       && end.usage == (if usage.Some? then usage else LastUsage(turn))
       && (last.stopReason.Some? ==> end.stopReason == last.stopReason)
       && (last.stopReason.None? ==> end.stopReason == Some(if isError then "error" else "end_turn"))
  }

  lemma ResultSnoc(lines: seq<Line>, isError: bool, usage: Option<Usage>)
    ensures var c := Expected(TurnOf(lines), EndingOf(lines));
            var more := lines + [Result(isError, usage)];
            var c' := Expected(TurnOf(more), EndingOf(more));
            if c.phase == Streaming then Ended(c, c', TurnOf(lines), isError, usage) else c' == c
  {
    TurnSnoc(lines, Result(isError, usage));
    if TurnOf(lines) == [] {
      NoTurnNoEnd(lines);
    }
  }

  /**
   A well-typed result document ends a message that has begun: with its own usage, or failing that
   the last an assistant line carried; with the last cycle's stop reason and sequence, or failing a
   reason "error" when it says is_error and "end_turn" when it does not. Outside a message it is
   ignored.
   */
  lemma ResultLine(decode: Decoder, p: seq<byte>, body: seq<byte>, crs: nat)
    requires Tail(p) == [] && IsBody(body) && body[0] == 123
    requires var d := decode(body);
             d.Object? && d.kind == Value("result")
             && !d.subtype.Mistyped? && !d.isError.Mistyped? && !d.usage.Mistyped?
    ensures ClientOf(decode, p).Some? && ClientOf(decode, p + LineOf(body, crs)).Some?
    ensures var d, c, c' := decode(body), ClientOf(decode, p).value, ClientOf(decode, p + LineOf(body, crs)).value;
            if c.phase != Streaming then c' == c
            else Ended(c, c', TurnSoFar(decode, p), d.isError == Value(true),
                       if d.usage.Value? then Some(d.usage.value) else None)
  {
    var d, line := decode(body), LineOf(body, crs);
    ReadsBody(decode, body, crs);
    ResultRead(d);
    ClientAfterLine(decode, p, line);
    ResultSnoc(ClassifyAll(decode, Lines(p)), d.isError == Value(true), if d.usage.Value? then Some(d.usage.value) else None);
  }

  lemma ResultRead(d: Doc)
    requires d.Object? && d.kind == Value("result")
    requires !d.subtype.Mistyped? && !d.isError.Mistyped? && !d.usage.Mistyped?
    ensures Read(d) == Result(d.isError == Value(true), if d.usage.Value? then Some(d.usage.value) else None)
  {
  }

  // ---------- every other line ----------

  /** Not JSON, of another kind, or with a field of the wrong type. */
  predicate IsOther(d: Doc) {
    d.Invalid? || d.kind.Mistyped? || d.subtype.Mistyped?
    || (d.kind != Value("assistant") && d.kind != Value("result"))
    || (d.kind == Value("assistant") && d.message.Mistyped?)
    || (d.kind == Value("result") && (d.isError.Mistyped? || d.usage.Mistyped?))
  }

  /** Any other line, and any that does not begin with a brace, changes nothing. */
  lemma OtherLine(decode: Decoder, p: seq<byte>, body: seq<byte>, crs: nat)
    requires Tail(p) == [] && IsBody(body)
    requires body[0] == 123 ==> IsOther(decode(body))
    ensures EventsOf(decode, [Write(p + LineOf(body, crs))]) == EventsOf(decode, [Write(p)])
  {
    ReadsBody(decode, body, crs);
    if body[0] == 123 {
      OtherIsDropped(decode(body));
    }
    LinesSnoc(decode, p, LineOf(body, crs));
    EventsOfInput(decode, p);
    EventsOfInput(decode, p + LineOf(body, crs));
    DroppedEmitsNothing(ClassifyAll(decode, Lines(p)));
  }

  lemma OtherIsDropped(d: Doc)
    requires IsOther(d)
    ensures Read(d) == Dropped
  {
  }

  lemma DroppedEmitsNothing(lines: seq<Line>)
    ensures OnLines(INITIAL, lines + [Dropped]) == OnLines(INITIAL, lines)
  {
    OnLinesAppend(INITIAL, lines, [Dropped]);
    var (t, evs) := OnLines(INITIAL, lines);
    var none: seq<Event> := [];
    assert [Dropped][1..] == [];
    assert OnLine(t, Dropped) == (t, none) && none + none == none;
    assert OnLines(t, [Dropped]) == (t, none);
    assert evs + none == evs;
  }

  lemma OneChunk(input: seq<byte>)
    ensures Flatten(ChunksOf([Write(input)])) == input && !Closes([Write(input)])
  {
    assert [Write(input)][1..] == [];
    assert ChunksOf([Write(input)]) == [input];
    assert Flatten([input]) == input + Flatten([]) == input;
  }

  lemma EventsOfInput(decode: Decoder, input: seq<byte>)
    ensures EventsOf(decode, [Write(input)]) == OnLines(INITIAL, ClassifyAll(decode, Lines(input))).1
  {
    OneChunk(input);
    var evs := OnLines(INITIAL, InputLines(decode, [Write(input)])).1;
    assert evs + [] == evs;
  }

  /** An assistant document without a message is one with an empty message. */
  lemma EmptyAssistantLine(decode: Decoder, body: seq<byte>, crs: nat)
    requires IsBody(body) && body[0] == 123
    requires var d := decode(body);
             d.Object? && d.kind == Value("assistant") && !d.subtype.Mistyped? && (d.message.Absent? || d.message.Null?)
    ensures ClientOf(decode, LineOf(body, crs))
            == Some(Client(Streaming, Some(StartBody("", "", "", "", None, None, None)), [], false, None))
  {
    ReadsBody(decode, body, crs);
    ClientAfterLine(decode, [], LineOf(body, crs));
    assert [] + LineOf(body, crs) == LineOf(body, crs);
    AssistantSnoc(ClassifyAll(decode, Lines([])), ZERO_MESSAGE);
    assert ClassifyAll(decode, Lines([])) == [];
  }

  // ---------- the bridge's reading ----------

  /** The bridge takes from a well-typed result document its own usage, zero when it has none, and nothing from any other. */
  lemma BridgeReads(decode: Decoder, body: seq<byte>)
    requires body != [] && body[|body| - 1] != 10
    ensures var d := decode(body);
            Probe(decode, body + [10])
            == if body[0] != 123 || d.Invalid? || d.usage.Mistyped? || d.kind != Value("result") then None
               else Some(if d.usage.Value? then d.usage.value else Usage(0, 0))
  {
    assert (body + [10])[..|body|] == body;
  }
}
