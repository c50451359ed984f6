/**
 A client that rebuilds a message from the event stream, and the proof that the
 translator's events are always legal to it and rebuild the assistant content.
 */
module SseClient {
  import opened Bytes
  import opened StreamJson
  import opened SseTranslate

  datatype Built = BuiltText(text: string) | BuiltWhole(raw: seq<byte>)

  datatype Ending = Ending(stopReason: Option<string>, stopSequence: Option<string>, usage: Option<Usage>)

  /** Receiving: no event yet, inside the message, after message_delta, after message_stop. */
  datatype Phase = Fresh | Streaming | Ended | Complete

  datatype Client = Client(phase: Phase, head: Option<StartBody>, blocks: seq<Built>, isOpen: bool, ending: Option<Ending>)

  const FRESH := Client(Fresh, None, [], false, None)

  /**
   One event, or None when the protocol does not allow it here: message_start first,
   then blocks numbered 0, 1, 2, ... each start, deltas, stop, then message_delta, message_stop.
   */
  function Receive(c: Client, e: Event): Option<Client> {
    match e
    case MessageStart(body) =>
      if c.phase == Fresh then Some(c.(phase := Streaming, head := Some(body))) else None
    case BlockStart(i, block) =>
      if c.phase == Streaming && !c.isOpen && i == |c.blocks| then
        var b := if block.EmptyText? then BuiltText("") else BuiltWhole(block.raw);
        Some(c.(blocks := c.blocks + [b], isOpen := true))
      else None
    case TextDelta(i, text) =>
      if c.phase == Streaming && c.isOpen && i + 1 == |c.blocks| && c.blocks[i].BuiltText? then
        Some(c.(blocks := c.blocks[i := BuiltText(c.blocks[i].text + text)]))
      else None
    case BlockStop(i) =>
      if c.phase == Streaming && c.isOpen && i + 1 == |c.blocks| then Some(c.(isOpen := false)) else None
    case MessageDelta(reason, sequence, usage) =>
      if c.phase == Streaming && !c.isOpen then
        Some(c.(phase := Ended, ending := Some(Ending(reason, sequence, usage))))
      else None
    case MessageStop =>
      if c.phase == Ended then Some(c.(phase := Complete)) else None
  }

  function Replay(c: Client, evs: seq<Event>): Option<Client>
    decreases |evs|
  {
    if evs == [] then Some(c)
    else match Receive(c, evs[0])
      case None => None
      case Some(c') => Replay(c', evs[1..])
  }

  lemma {:induction false} ReplayAppend(c: Client, a: seq<Event>, b: seq<Event>)
    requires Replay(c, a).Some?
    ensures Replay(c, a + b) == Replay(Replay(c, a).value, b)
    decreases |a|
  {
    if a == [] {
      assert a + b == b;
    } else {
      assert (a + b)[0] == a[0] && (a + b)[1..] == a[1..] + b;
      ReplayAppend(Receive(c, a[0]).value, a[1..], b);
    }
  }

  /** Every event stream the client accepts so far has only legal prefixes. */
  lemma {:induction false} ReplayPrefix(c: Client, a: seq<Event>, b: seq<Event>)
    requires Replay(c, a + b).Some?
    ensures Replay(c, a).Some?
    decreases |a|
  {
    if a != [] {
      assert (a + b)[0] == a[0] && (a + b)[1..] == a[1..] + b;
      ReplayPrefix(Receive(c, a[0]).value, a[1..], b);
    }
  }

  // ---------- what the input means, without the translator ----------

  /** A block in front of already merged blocks. */
  function MergeOnto(b: Block, rest: seq<Built>): seq<Built> {
    match b
    case Unreadable => rest
    case ToolUse(raw) => [BuiltWhole(raw)] + rest
    case Opaque(raw) => [BuiltWhole(raw)] + rest
    case Text(t) =>
      if rest != [] && rest[0].BuiltText? then [BuiltText(t + rest[0].text)] + rest[1..]
      else [BuiltText(t)] + rest
  }

  /** Content blocks with unreadable ones dropped and adjacent text merged. */
  function Merged(bs: seq<Block>): seq<Built> {
    if bs == [] then [] else MergeOnto(bs[0], Merged(bs[1..]))
  }

  /** Splitting off the lines before the first assistant line. */
  function FromFirstAssistant(lines: seq<Line>): seq<Line> {
    if lines == [] || lines[0].Assistant? then lines else FromFirstAssistant(lines[1..])
  }

  /** The assistant cycles up to the next result. */
  function Cycles(lines: seq<Line>): seq<Message> {
    if lines == [] || lines[0].Result? then []
    else if lines[0].Assistant? then [lines[0].message] + Cycles(lines[1..])
    else Cycles(lines[1..])
  }

  /** The next result. */
  function FirstResult(lines: seq<Line>): (r: Option<Line>)
    ensures r.Some? ==> r.value.Result?
  {
    if lines == [] then None
    else if lines[0].Result? then Some(lines[0])
    else FirstResult(lines[1..])
  }

  /** The assistant messages of the turn: from the first one to the result that follows it. */
  function TurnOf(lines: seq<Line>): seq<Message> {
    Cycles(FromFirstAssistant(lines))
  }

  function TerminatorOf(lines: seq<Line>): (r: Option<Line>)
    ensures r.Some? ==> r.value.Result?
  {
    FirstResult(FromFirstAssistant(lines))
  }

  function Contents(ms: seq<Message>): seq<Block> {
    if ms == [] then [] else ms[0].content + Contents(ms[1..])
  }

  /** The last usage any of the messages carried. */
  function LastUsage(ms: seq<Message>): Option<Usage> {
    if ms == [] then None
    else if ms[|ms| - 1].usage.Some? then ms[|ms| - 1].usage
    else LastUsage(ms[..|ms| - 1])
  }

  /** What message_delta must say once the turn's result has been read. */
  function EndingFor(ms: seq<Message>, r: Line): Ending
    requires ms != [] && r.Result?
  {
    var last := ms[|ms| - 1];
    Ending(if last.stopReason.Some? then last.stopReason else Some(if r.isError then "error" else "end_turn"),
           last.stopSequence, if r.usage.Some? then r.usage else LastUsage(ms))
  }

  /** What message_start must say. */
  function HeadOf(m: Message): StartBody {
    StartBody(m.id, m.kind, m.role, m.model, m.stopReason, m.stopSequence, m.usage)
  }

  /** The client a turn's messages and its optional end should produce. */
  function Expected(ms: seq<Message>, ending: Option<Ending>): Client {
    if ms == [] then FRESH
    else
      var blocks := Merged(Contents(ms));
      Client(if ending.Some? then Complete else Streaming, Some(HeadOf(ms[0])), blocks,
             ending.None? && EndsInText(blocks), ending)
  }

  predicate EndsInText(blocks: seq<Built>) {
    blocks != [] && blocks[|blocks| - 1].BuiltText?
  }

  // ---------- merging block by block is merging at once ----------

  /** What receiving one more content block does to the rebuilt blocks. */
  function Push(blocks: seq<Built>, b: Block): seq<Built> {
    match b
    case Unreadable => blocks
    case ToolUse(raw) => blocks + [BuiltWhole(raw)]
    case Opaque(raw) => blocks + [BuiltWhole(raw)]
    case Text(t) => Glue(blocks, [BuiltText(t)])
  }

  function PushAll(blocks: seq<Built>, bs: seq<Block>): seq<Built>
    decreases |bs|
  {
    if bs == [] then blocks else PushAll(Push(blocks, bs[0]), bs[1..])
  }

  /** Concatenation that merges text across the seam. */
  function Glue(xs: seq<Built>, ys: seq<Built>): seq<Built> {
    if EndsInText(xs) && ys != [] && ys[0].BuiltText? then
      xs[..|xs| - 1] + [BuiltText(xs[|xs| - 1].text + ys[0].text)] + ys[1..]
    else xs + ys
  }

  lemma GlueTexts(init: seq<Built>, a: string, b: string, tail: seq<Built>)
    ensures Glue(init + [BuiltText(a)], [BuiltText(b)] + tail) == init + [BuiltText(a + b)] + tail
  {
    var xs, ys := init + [BuiltText(a)], [BuiltText(b)] + tail;
    assert xs[..|xs| - 1] == init && ys[1..] == tail;
  }

  lemma GlueTwoTexts(xs: seq<Built>, t: string, u: string, tail: seq<Built>)
    ensures Glue(Glue(xs, [BuiltText(t)]), [BuiltText(u)] + tail) == Glue(xs, [BuiltText(t + u)] + tail)
  {
    if EndsInText(xs) {
      var init, x := xs[..|xs| - 1], xs[|xs| - 1].text;
      assert xs == init + [BuiltText(x)];
      GlueTexts(init, x, t, []);
      GlueTexts(init, x + t, u, tail);
      GlueTexts(init, x, t + u, tail);
      assert (x + t) + u == x + (t + u);
    } else {
      GlueTexts(xs, t, u, tail);
    }
  }

  lemma GlueTextThenOther(xs: seq<Built>, t: string, ys: seq<Built>)
    requires ys == [] || !ys[0].BuiltText?
    ensures Glue(xs, [BuiltText(t)]) + ys == Glue(xs, [BuiltText(t)] + ys)
  {
    if EndsInText(xs) {
      var init, x := xs[..|xs| - 1], xs[|xs| - 1].text;
      assert xs == init + [BuiltText(x)];
      GlueTexts(init, x, t, []);
      GlueTexts(init, x, t, ys);
    }
  }

  /** Receiving a block and then merged blocks is receiving them all merged. */
  lemma PushThenGlue(blocks: seq<Built>, b: Block, rest: seq<Built>)
    ensures Glue(Push(blocks, b), rest) == Glue(blocks, MergeOnto(b, rest))
  {
    match b
    case Unreadable =>
    case ToolUse(raw) => assert blocks + [BuiltWhole(raw)] + rest == blocks + ([BuiltWhole(raw)] + rest);
    case Opaque(raw) => assert blocks + [BuiltWhole(raw)] + rest == blocks + ([BuiltWhole(raw)] + rest);
    case Text(t) =>
      if rest != [] && rest[0].BuiltText? {
        assert rest == [BuiltText(rest[0].text)] + rest[1..];
        GlueTwoTexts(blocks, t, rest[0].text, rest[1..]);
      } else {
        GlueTextThenOther(blocks, t, rest);
      }
  }

  lemma {:induction false} PushAllMerges(blocks: seq<Built>, bs: seq<Block>)
    ensures PushAll(blocks, bs) == Glue(blocks, Merged(bs))
    decreases |bs|
  {
    if bs == [] {
      assert blocks + [] == blocks;
    } else {
      PushAllMerges(Push(blocks, bs[0]), bs[1..]);
      PushThenGlue(blocks, bs[0], Merged(bs[1..]));
    }
  }

  lemma {:induction false} PushAllAppend(blocks: seq<Built>, a: seq<Block>, b: seq<Block>)
    ensures PushAll(blocks, a + b) == PushAll(PushAll(blocks, a), b)
    decreases |a|
  {
    if a == [] {
      assert a + b == b;
    } else {
      assert (a + b)[0] == a[0] && (a + b)[1..] == a[1..] + b;
      PushAllAppend(Push(blocks, a[0]), a[1..], b);
    }
  }

  // ---------- the translator and the client move together ----------

  /** The client mirrors the translator's envelope while the message is open. */
  predicate Mirrors(e: Envelope, c: Client) {
    && c.phase == Streaming
    && c.ending.None?
    && c.isOpen == e.hasOpenBlock == EndsInText(c.blocks)
    && |c.blocks| == e.nextBlockIdx
    && (e.hasOpenBlock ==> e.openBlockIdx + 1 == e.nextBlockIdx)
  }

  lemma CloseBlockMirrors(e: Envelope, c: Client)
    requires Mirrors(e, c)
    ensures Replay(c, CloseBlock(e).1) == Some(c.(isOpen := false))
  {
    if e.hasOpenBlock {
      assert Replay(c, [BlockStop(e.openBlockIdx)]) == Replay(c.(isOpen := false), []);
    }
  }

  lemma TextMirrors(e: Envelope, c: Client, text: string)
    requires Mirrors(e, c)
    ensures var (e', evs) := OnText(e, text);
            var r := Replay(c, evs);
            r.Some? && Mirrors(e', r.value) && r.value == c.(blocks := Push(c.blocks, Text(text)), isOpen := true)
  {
    var (e', evs) := OnText(e, text);
    var start := if e.hasOpenBlock then [] else [BlockStart(e.nextBlockIdx, EmptyText)];
    var delta := if text == "" then [] else [TextDelta(e'.openBlockIdx, text)];
    var c1 := if e.hasOpenBlock then c else c.(blocks := c.blocks + [BuiltText("")], isOpen := true);
    assert Replay(c, start) == Some(c1) by {
      if !e.hasOpenBlock { assert Receive(c, start[0]) == Some(c1); }
    }
    ReplayAppend(c, start, delta);
    var n := |c1.blocks| - 1;
    assert c1.blocks[n].BuiltText?;
    if text != "" {
      assert Receive(c1, delta[0]).Some?;
      assert Replay(c1, delta) == Receive(c1, delta[0]);
      var appended := BuiltText(c1.blocks[n].text + text);
      if e.hasOpenBlock {
        assert c1.blocks[n := appended] == c.blocks[..n] + [appended] + [BuiltText(text)][1..];
      } else {
        assert appended == BuiltText(text);
        assert c1.blocks[n := appended] == c.blocks + [appended];
      }
    } else {
      assert c1.blocks[n].text + text == c1.blocks[n].text;
      assert c1.blocks == Glue(c.blocks, [BuiltText(text)]);
    }
  }

  lemma WholeMirrors(e: Envelope, c: Client, raw: seq<byte>)
    requires Mirrors(e, c)
    ensures var (e', evs) := OnWhole(e, raw);
            var r := Replay(c, evs);
            r.Some? && Mirrors(e', r.value) && r.value == c.(blocks := c.blocks + [BuiltWhole(raw)], isOpen := false)
  {
    CloseBlockMirrors(e, c);
    var pair := [BlockStart(e.nextBlockIdx, Whole(raw)), BlockStop(e.nextBlockIdx)];
    var c1 := c.(isOpen := false);
    ReplayAppend(c, CloseBlock(e).1, pair);
    var c2 := c.(blocks := c.blocks + [BuiltWhole(raw)], isOpen := true);
    assert Receive(c1, pair[0]) == Some(c2);
    assert pair[1..] == [pair[1]];
    assert Replay(c2, pair[1..]) == Replay(c2.(isOpen := false), []);
  }

  lemma {:induction false} BlocksMirror(e: Envelope, c: Client, bs: seq<Block>)
    requires Mirrors(e, c)
    ensures var (e', evs) := OnBlocks(e, bs);
            var r := Replay(c, evs);
            && r.Some? && Mirrors(e', r.value)
            && r.value.blocks == PushAll(c.blocks, bs) && r.value.head == c.head
            && e'.stopReason == e.stopReason && e'.stopSequence == e.stopSequence && e'.finalUsage == e.finalUsage
    decreases |bs|
  {
    if bs != [] {
      var (e1, evs1) := OnBlock(e, bs[0]);
      match bs[0] {
        case Text(t) => TextMirrors(e, c, t);
        case ToolUse(raw) => WholeMirrors(e, c, raw);
        case Opaque(raw) => WholeMirrors(e, c, raw);
        case Unreadable =>
      }
      var c1 := Replay(c, evs1).value;
      assert c1.blocks == Push(c.blocks, bs[0]);
      BlocksMirror(e1, c1, bs[1..]);
      ReplayAppend(c, evs1, OnBlocks(e1, bs[1..]).1);
    }
  }

  lemma FinishMirrors(t: Translator, c: Client, ending: Ending)
    requires Mirrors(t.envel, c)
    ensures var (t', evs) := Finish(t, ending.stopReason, ending.stopSequence, ending.usage);
            t'.state == Done &&
            Replay(c, evs) == Some(c.(phase := Complete, isOpen := false, ending := Some(ending)))
  {
    CloseBlockMirrors(t.envel, c);
    var last := [MessageDelta(ending.stopReason, ending.stopSequence, ending.usage), MessageStop];
    var c1 := c.(isOpen := false);
    ReplayAppend(c, CloseBlock(t.envel).1, last);
    var c2 := c1.(phase := Ended, ending := Some(ending));
    assert Receive(c1, last[0]) == Some(c2);
    assert last[1..] == [MessageStop];
    assert Receive(c2, MessageStop) == Some(c2.(phase := Complete));
    assert Replay(c2, last[1..]) == Replay(c2.(phase := Complete), []);
  }

  // ---------- the rolling fields ----------

  /** The fields each assistant cycle overwrites. */
  datatype Rolling = Rolling(stopReason: Option<string>, stopSequence: Option<string>, usage: Option<Usage>)

  function RollingOf(e: Envelope): Rolling {
    Rolling(e.stopReason, e.stopSequence, e.finalUsage)
  }

  function Roll(r: Rolling, m: Message): Rolling {
    Rolling(m.stopReason, m.stopSequence, if m.usage.Some? then m.usage else r.usage)
  }

  function RollAll(r: Rolling, ms: seq<Message>): Rolling
    decreases |ms|
  {
    if ms == [] then r else RollAll(Roll(r, ms[0]), ms[1..])
  }

  /** The end a result gives to an envelope with these rolling fields. */
  function EndingFrom(r: Rolling, result: Line): Ending
    requires result.Result?
  {
    Ending(if r.stopReason.Some? then r.stopReason else Some(if result.isError then "error" else "end_turn"),
           r.stopSequence, if result.usage.Some? then result.usage else r.usage)
  }

  /** Rolling forward keeps the last cycle's reason and sequence, and the last usage seen. */
  lemma {:induction false} RollAllIsLast(r: Rolling, ms: seq<Message>)
    requires ms != []
    ensures var last := ms[|ms| - 1];
            RollAll(r, ms) == Rolling(last.stopReason, last.stopSequence, OrElse(LastUsage(ms), r.usage))
    decreases |ms|
  {
    if |ms| > 1 {
      RollAllIsLast(Roll(r, ms[0]), ms[1..]);
      LastUsageCons(ms[0], ms[1..]);
      assert ms == [ms[0]] + ms[1..];
    } else {
      assert RollAll(Roll(r, ms[0]), ms[1..]) == Roll(r, ms[0]);
    }
  }

  lemma {:induction false} LastUsageCons(m: Message, ms: seq<Message>)
    ensures LastUsage([m] + ms) == OrElse(LastUsage(ms), m.usage)
    decreases |ms|
  {
    var all, n := [m] + ms, |ms|;
    assert all[n] == if n == 0 then m else ms[n - 1];
    if ms == [] {
      assert LastUsage(all[..0]) == None;
    } else {
      assert all[..n] == [m] + ms[..n - 1];
      LastUsageCons(m, ms[..n - 1]);
    }
  }

  // ---------- a whole run ----------

  /** A later assistant line extends the client's blocks by its content. */
  lemma LaterAssistant(t: Translator, c: Client, m: Message)
    requires t.state == InMessage && Mirrors(t.envel, c)
    ensures var (t', evs) := OnAssistant(t, m);
            var r := Replay(c, evs);
            && t'.state == InMessage && r.Some? && Mirrors(t'.envel, r.value)
            && r.value.head == c.head && r.value.blocks == PushAll(c.blocks, m.content)
            && RollingOf(t'.envel) == Roll(RollingOf(t.envel), m)
  {
    BlocksMirror(Cache(t.envel, m), c, m.content);
    var evs := OnBlocks(Cache(t.envel, m), m.content).1;
    assert [] + evs == evs;
  }

  /** The first assistant line starts the message. */
  lemma FirstAssistant(m: Message)
    ensures var (t', evs) := OnAssistant(INITIAL, m);
            var r := Replay(FRESH, evs);
            && t'.state == InMessage && r.Some? && Mirrors(t'.envel, r.value)
            && r.value.head == Some(StartOf(m)) && r.value.blocks == PushAll([], m.content)
            && RollingOf(t'.envel) == Roll(Rolling(None, None, None), m)
  {
    var e := Cache(INITIAL.envel.(id := m.id), m);
    var start := MessageStart(StartOf(m));
    var c := FRESH.(phase := Streaming, head := Some(StartOf(m)));
    BlocksMirror(e, c, m.content);
    var evs := OnBlocks(e, m.content).1;
    assert Receive(FRESH, start) == Some(c);
    assert ([start] + evs)[1..] == evs;
  }

  /** After message_stop nothing more is emitted. */
  lemma {:induction false} DoneIsSilent(t: Translator, lines: seq<Line>)
    requires t.state == Done
    ensures OnLines(t, lines) == (t, [])
  {
    if lines != [] {
      DoneIsSilent(t, lines[1..]);
      var none: seq<Event> := [];
      assert none + none == none;
    }
  }

  /** What reading the remaining lines from inside the message must leave behind. */
  ghost predicate Rebuilds(c: Client, rolling: Rolling, lines: seq<Line>, t': Translator, r: Option<Client>) {
    var cycles := Cycles(lines);
    && r.Some?
    && r.value.head == c.head
    && r.value.blocks == PushAll(c.blocks, Contents(cycles))
    && match FirstResult(lines)
       case None =>
         t'.state == InMessage && Mirrors(t'.envel, r.value) && RollingOf(t'.envel) == RollAll(rolling, cycles)
       case Some(result) =>
         && t'.state == Done && r.value.phase == Complete && !r.value.isOpen
         && r.value.ending == Some(EndingFrom(RollAll(rolling, cycles), result))
  }

  /** From inside the message: the cycles and the result of the remaining lines decide the rest. */
  lemma {:induction false} RestRebuilds(t: Translator, c: Client, lines: seq<Line>)
    requires t.state == InMessage && Mirrors(t.envel, c)
    ensures var (t', evs) := OnLines(t, lines);
            Rebuilds(c, RollingOf(t.envel), lines, t', Replay(c, evs))
    decreases |lines|
  {
    if lines != [] {
      var rest := lines[1..];
      var (t1, evs1) := OnLine(t, lines[0]);
      var (t2, evs2) := OnLines(t1, rest);
      match lines[0] {
        case Dropped =>
          RestRebuilds(t, c, rest);
          assert [] + evs2 == evs2;
        case Assistant(m) =>
          LaterAssistant(t, c, m);
          var c1 := Replay(c, evs1).value;
          RestRebuilds(t1, c1, rest);
          ReplayAppend(c, evs1, evs2);
          PushAllAppend(c.blocks, m.content, Contents(Cycles(rest)));
          assert Cycles(lines)[1..] == Cycles(rest);
        case Result(_, _) =>
          FinishMirrors(t, c, EndingFrom(RollingOf(t.envel), lines[0]));
          DoneIsSilent(t1, rest);
          assert evs1 + [] == evs1;
      }
    }
  }

  /** The end the input gives to the turn, if it does. */
  function EndingOf(lines: seq<Line>): Option<Ending> {
    if TurnOf(lines) != [] && TerminatorOf(lines).Some?
    then Some(EndingFor(TurnOf(lines), TerminatorOf(lines).value)) else None
  }

  /**
   Meaning preservation. For every sequence of lines the emitted events are legal, and
   replaying them rebuilds exactly the content of the turn, its first header and its end.
   */
  lemma {:induction false} MeaningPreserved(lines: seq<Line>)
    ensures var (t', evs) := OnLines(INITIAL, lines);
            Replay(FRESH, evs) == Some(Expected(TurnOf(lines), EndingOf(lines)))
  {
    if lines == [] {
    } else if lines[0].Assistant? {
      TurnRebuilds(lines);
    } else {
      MeaningPreserved(lines[1..]);
      var evs := OnLines(INITIAL, lines[1..]).1;
      assert [] + evs == evs;
    }
  }

  /** What the cycles of a turn add up to: its content merged, and the rolling fields of its last. */
  lemma TurnAdds(m: Message, cycles: seq<Message>)
    ensures var turn := [m] + cycles;
            var last := turn[|turn| - 1];
            && PushAll(PushAll([], m.content), Contents(cycles)) == Merged(Contents(turn))
            && RollAll(Roll(Rolling(None, None, None), m), cycles)
               == Rolling(last.stopReason, last.stopSequence, LastUsage(turn))
  {
    var turn := [m] + cycles;
    assert turn[0] == m && turn[1..] == cycles;
    PushAllAppend([], m.content, Contents(cycles));
    PushAllMerges([], Contents(turn));
    assert Glue([], Merged(Contents(turn))) == [] + Merged(Contents(turn)) == Merged(Contents(turn));
    RollAllIsLast(Rolling(None, None, None), turn);
  }

  /** The same for lines that begin with an assistant line, with what the envelope then holds. */
  lemma TurnRebuilds(lines: seq<Line>)
    requires lines != [] && lines[0].Assistant?
    ensures var (t', evs) := OnLines(INITIAL, lines);
            && Replay(FRESH, evs) == Some(Expected(TurnOf(lines), EndingOf(lines)))
            && (TerminatorOf(lines).None? ==>
                  && t'.state == InMessage && Mirrors(t'.envel, Expected(TurnOf(lines), None))
                  && t'.envel.finalUsage == LastUsage(TurnOf(lines)))
            && (TerminatorOf(lines).Some? ==> t'.state == Done)
  {
    var m, rest := lines[0].message, lines[1..];
    var (t1, evs1) := OnAssistant(INITIAL, m);
    var (t2, evs2) := OnLines(t1, rest);
    FirstAssistant(m);
    var c1 := Replay(FRESH, evs1).value;
    RestRebuilds(t1, c1, rest);
    ReplayAppend(FRESH, evs1, evs2);
    TurnAdds(m, Cycles(rest));
    assert TurnOf(lines) == [m] + Cycles(rest);
  }

  /** The end Close gives to a turn whose result never came. */
  function ClosedEnding(lines: seq<Line>): Option<Ending> {
    if TurnOf(lines) == [] then None
    else if TerminatorOf(lines).Some? then EndingOf(lines)
    else Some(Ending(Some("end_turn"), None, LastUsage(TurnOf(lines))))
  }

  /** After Close the output is empty, or one complete message with the turn's content. */
  lemma {:induction false} ClosedIsComplete(lines: seq<Line>)
    ensures var (t, evs) := OnLines(INITIAL, lines);
            var all := evs + OnClose(t).1;
            && Replay(FRESH, all) == Some(Expected(TurnOf(lines), ClosedEnding(lines)))
            && (TurnOf(lines) == [] ==> all == [])
            && (TurnOf(lines) != [] ==> Replay(FRESH, all).value.phase == Complete)
  {
    if lines == [] {
    } else if lines[0].Assistant? {
      TurnRebuilds(lines);
      var (t, evs) := OnLines(INITIAL, lines);
      ReplayAppend(FRESH, evs, OnClose(t).1);
      if TerminatorOf(lines).None? {
        FinishMirrors(t, Expected(TurnOf(lines), None), Ending(Some("end_turn"), None, LastUsage(TurnOf(lines))));
      }
    } else {
      ClosedIsComplete(lines[1..]);
      var evs := OnLines(INITIAL, lines[1..]).1;
      assert [] + evs == evs;
    }
  }
}
