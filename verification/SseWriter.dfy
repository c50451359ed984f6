/**
 The incremental writer: arbitrary chunks in, event frames out, a sink that may
 fail at any frame. Run is the value-level account the class is proved against.
 */
module SseWriter {
  import opened Bytes
  import opened StreamJson
  import opened SseTranslate

  /** The wire name of an event. */
  function NameOf(e: Event): string {
    match e
    case MessageStart(_) => "message_start"
    case BlockStart(_, _) => "content_block_start"
    case TextDelta(_, _) => "content_block_delta"
    case BlockStop(_) => "content_block_stop"
    case MessageDelta(_, _, _) => "message_delta"
    case MessageStop => "message_stop"
  }

  /** The names on the wire, one for each kind of event. */
  lemma WireNames(e: Event)
    ensures e.MessageStart? <==> NameOf(e) == "message_start"
    ensures e.BlockStart? <==> NameOf(e) == "content_block_start"
    ensures e.TextDelta? <==> NameOf(e) == "content_block_delta"
    ensures e.BlockStop? <==> NameOf(e) == "content_block_stop"
    ensures e.MessageDelta? <==> NameOf(e) == "message_delta"
    ensures e.MessageStop? <==> NameOf(e) == "message_stop"
  {
  }

  type Marshaller = Event -> seq<byte>

  /** "event: NAME\ndata: PAYLOAD\n\n". */
  function Frame(marshal: Marshaller, e: Event): seq<byte> {
    Ascii("event: ") + Ascii(NameOf(e)) + [LF] + (Ascii("data: ") + marshal(e) + [LF]) + [LF]
  }

  function Frames(marshal: Marshaller, evs: seq<Event>): seq<byte> {
    if evs == [] then [] else Frame(marshal, evs[0]) + Frames(marshal, evs[1..])
  }

  /**
   What the sink does to its n-th call: None accepts every byte; Some(k) keeps
   at most the first k bytes and reports an error.
   */
  type FaultPlan = nat -> Option<nat>

  datatype SinkState = SinkState(out: seq<byte>, calls: nat)

  datatype Config = Config(decode: Decoder, marshal: Marshaller, plan: FaultPlan)

  datatype Delivery = Delivery(sink: SinkState, ok: bool)

  function Put(plan: FaultPlan, s: SinkState, p: seq<byte>): Delivery {
    match plan(s.calls)
    case None => Delivery(SinkState(s.out + p, s.calls + 1), true)
    case Some(k) => Delivery(SinkState(s.out + if k < |p| then p[..k] else p, s.calls + 1), false)
  }

  /** Writing events one frame at a time, stopping at the first error. */
  function Deliver(c: Config, s: SinkState, evs: seq<Event>): Delivery
    decreases |evs|
  {
    if evs == [] then Delivery(s, true)
    else
      var d := Put(c.plan, s, Frame(c.marshal, evs[0]));
      if d.ok then Deliver(c, d.sink, evs[1..]) else d
  }

  /** The sink is called once for every frame, up to and including the first that fails. */
  lemma {:induction false} CallsCounted(c: Config, s: SinkState, evs: seq<Event>)
    ensures var d := Deliver(c, s, evs);
            && s.calls <= d.sink.calls <= s.calls + |evs|
            && (forall n :: s.calls <= n < d.sink.calls - 1 ==> c.plan(n) == None)
            && (d.ok ==> d.sink.calls == s.calls + |evs| && (evs != [] ==> c.plan(d.sink.calls - 1) == None))
            && (!d.ok ==> d.sink.calls > s.calls && c.plan(d.sink.calls - 1).Some?)
    decreases |evs|
  {
    if evs != [] {
      var d := Put(c.plan, s, Frame(c.marshal, evs[0]));
      if d.ok {
        CallsCounted(c, d.sink, evs[1..]);
      }
    }
  }

  /** Everything a writer's later behaviour depends on. */
  datatype Run = Run(buf: seq<byte>, tr: Translator, failed: bool, closed: bool, sink: SinkState)

  function Emit(c: Config, r: Run, tr: Translator, evs: seq<Event>): Run {
    var d := Deliver(c, r.sink, evs);
    if d.ok then r.(tr := tr, sink := d.sink) else r.(failed := true, sink := d.sink)
  }

  function RunLine(c: Config, r: Run, line: seq<byte>): Run {
    var (tr, evs) := OnLine(r.tr, Classify(c.decode, line));
    Emit(c, r, tr, evs)
  }

  /** Handle buffered lines until none is complete or the sink fails. */
  function Drain(c: Config, r: Run): Run
    decreases |r.buf|
  {
    var i := IndexOf(r.buf, LF);
    if r.failed || i == |r.buf| then r
    else Drain(c, RunLine(c, r.(buf := r.buf[i + 1..]), r.buf[..i + 1]))
  }

  function WriteRun(c: Config, r: Run, p: seq<byte>): Run {
    if r.failed || r.closed then r else Drain(c, r.(buf := r.buf + p))
  }

  function WriteAll(c: Config, r: Run, chunks: seq<seq<byte>>): Run
    decreases |chunks|
  {
    if chunks == [] then r else WriteAll(c, WriteRun(c, r, chunks[0]), chunks[1..])
  }

  function CloseRun(c: Config, r: Run): Run {
    if r.closed then r
    else if r.failed then r.(closed := true)
    else
      var (tr, evs) := OnClose(r.tr);
      Emit(c, r.(closed := true), tr, evs)
  }

  /** A run as nobody can tell apart: once the sink has failed, no call looks at buf and tr again. */
  ghost predicate Same(a: Run, b: Run) {
    a.failed == b.failed && a.closed == b.closed && a.sink == b.sink && (!a.failed ==> a == b)
  }

  lemma {:induction false} DeliverAppend(c: Config, s: SinkState, a: seq<Event>, b: seq<Event>)
    ensures var d := Deliver(c, s, a);
            Deliver(c, s, a + b) == if d.ok then Deliver(c, d.sink, b) else d
    decreases |a|
  {
    if a == [] {
      assert a + b == b;
    } else {
      assert (a + b)[0] == a[0] && (a + b)[1..] == a[1..] + b;
      DeliverAppend(c, Put(c.plan, s, Frame(c.marshal, a[0])).sink, a[1..], b);
    }
  }

  // ---------- chunk invariance ----------

  /** The simple reading: one event sequence for all complete lines, and the tail kept. */
  function FoldLines(c: Config, r: Run, lines: seq<seq<byte>>, tail: seq<byte>): Run {
    var (tr, evs) := OnLines(r.tr, ClassifyAll(c.decode, lines));
    Emit(c, r.(buf := tail), tr, evs)
  }

  function FoldText(c: Config, r: Run, text: seq<byte>): Run {
    FoldLines(c, r, Lines(text), Tail(text))
  }

  lemma FoldOneLine(c: Config, r: Run, line: seq<byte>, rest: seq<byte>)
    ensures FoldLines(c, r, [line], rest) == RunLine(c, r.(buf := rest), line)
  {
    var doc := Classify(c.decode, line);
    assert ClassifyAll(c.decode, [line]) == [doc];
    assert [doc][1..] == [];
    var (t, evs) := OnLine(r.tr, doc);
    assert evs + [] == evs;
    assert OnLines(r.tr, [doc]) == (t, evs);
  }

  /** Folding over lines is handling the first and folding over the others. */
  lemma FoldFirstLine(c: Config, r: Run, line: seq<byte>, rest: seq<byte>, later: seq<seq<byte>>, tail: seq<byte>)
    requires !r.failed
    ensures var r1 := RunLine(c, r.(buf := rest), line);
            Same(FoldLines(c, r, [line] + later, tail), if r1.failed then r1 else FoldLines(c, r1, later, tail))
  {
    FoldOneLine(c, r, line, rest);
    FoldAppend(c, r, [line], rest, later, tail);
  }

  lemma FoldNothing(c: Config, r: Run)
    ensures FoldLines(c, r, [], r.buf) == r
  {
    assert ClassifyAll(c.decode, []) == [];
  }

  lemma DrainStep(c: Config, r: Run, line: seq<byte>, rest: seq<byte>)
    requires !r.failed && IsLine(line) && r.buf == line + rest
    ensures Drain(c, r) == Drain(c, RunLine(c, r.(buf := rest), line))
  {
    assert IndexOf(r.buf, LF) == |line| - 1 by {
      assert r.buf[|line| - 1] == LF;
      assert forall k :: 0 <= k < |line| - 1 ==> r.buf[k] == line[k];
    }
    assert r.buf[..|line|] == line && r.buf[|line|..] == rest;
  }

  lemma DrainNothing(c: Config, r: Run)
    requires r.failed || Without(r.buf, LF)
    ensures Drain(c, r) == r
  {
  }

  lemma {:induction false} DrainLines(c: Config, r: Run, lines: seq<seq<byte>>, tail: seq<byte>)
    requires !r.failed && r.buf == Flatten(lines) + tail
    requires (forall l :: l in lines ==> IsLine(l)) && Without(tail, LF)
    ensures Same(Drain(c, r), FoldLines(c, r, lines, tail))
    decreases |lines|
  {
    if lines == [] {
      assert r.buf == tail;
      DrainNothing(c, r);
      FoldNothing(c, r);
    } else {
      var line, later, rest := lines[0], lines[1..], Flatten(lines[1..]) + tail;
      var r1 := RunLine(c, r.(buf := rest), line);
      assert r.buf == line + rest && lines == [line] + later;
      DrainStep(c, r, line, rest);
      FoldFirstLine(c, r, line, rest, later, tail);
      if r1.failed {
        DrainNothing(c, r1);
      } else {
        DrainLines(c, r1, later, tail);
      }
    }
  }

  lemma DrainIsFold(c: Config, r: Run)
    requires !r.failed
    ensures Same(Drain(c, r), FoldText(c, r, r.buf))
  {
    LinesPartition(r.buf);
    DrainLines(c, r, Lines(r.buf), Tail(r.buf));
  }

  /**
   Write is a fold over the newline-terminated lines of what was buffered and what
   arrives, with the unterminated rest held in the buffer.
   */
  lemma WriteIsFold(c: Config, r: Run, p: seq<byte>)
    requires !r.failed && !r.closed
    ensures Same(WriteRun(c, r, p), FoldText(c, r, r.buf + p))
  {
    DrainIsFold(c, r.(buf := r.buf + p));
  }

  lemma FoldAppend(c: Config, r: Run, a: seq<seq<byte>>, t: seq<byte>, b: seq<seq<byte>>, u: seq<byte>)
    requires !r.failed
    ensures var mid := FoldLines(c, r, a, t);
            Same(FoldLines(c, r, a + b, u), if mid.failed then mid else FoldLines(c, mid, b, u))
  {
    assert ClassifyAll(c.decode, a + b) == ClassifyAll(c.decode, a) + ClassifyAll(c.decode, b);
    OnLinesAppend(r.tr, ClassifyAll(c.decode, a), ClassifyAll(c.decode, b));
    var (t1, evs1) := OnLines(r.tr, ClassifyAll(c.decode, a));
    DeliverAppend(c, r.sink, evs1, OnLines(t1, ClassifyAll(c.decode, b)).1);
  }

  lemma FoldSplit(c: Config, r: Run, p: seq<byte>, q: seq<byte>)
    requires !r.failed
    ensures var mid := FoldText(c, r, p);
            && (!mid.failed ==> mid.buf == Tail(p) && mid.closed == r.closed)
            && Same(FoldText(c, r, p + q), if mid.failed then mid else FoldText(c, mid, Tail(p) + q))
  {
    LinesAppend(p, q);
    FoldAppend(c, r, Lines(p), Tail(p), Lines(Tail(p) + q), Tail(Tail(p) + q));
  }

  /** A write after a write whose state is known only up to Same. */
  lemma SecondWrite(c: Config, mid: Run, fold: Run, q: seq<byte>)
    requires Same(mid, fold) && !mid.closed
    ensures Same(WriteRun(c, mid, q), if fold.failed then fold else FoldText(c, fold, fold.buf + q))
  {
    if !mid.failed {
      WriteIsFold(c, mid, q);
    }
  }

  lemma TwoWritesFold(c: Config, r: Run, p: seq<byte>, q: seq<byte>)
    requires !r.failed && !r.closed
    ensures Same(WriteRun(c, WriteRun(c, r, p), q), FoldText(c, r, (r.buf + p) + q))
  {
    WriteIsFold(c, r, p);
    FoldSplit(c, r, r.buf + p, q);
    SecondWrite(c, WriteRun(c, r, p), FoldText(c, r, r.buf + p), q);
  }

  lemma OneWriteFolds(c: Config, r: Run, p: seq<byte>, q: seq<byte>)
    requires !r.failed && !r.closed
    ensures Same(WriteRun(c, r, p + q), FoldText(c, r, (r.buf + p) + q))
  {
    WriteIsFold(c, r, p + q);
    assert r.buf + (p + q) == (r.buf + p) + q;
  }

  /** Two writes cannot be told from one write of both. */
  lemma TwoWrites(c: Config, r: Run, p: seq<byte>, q: seq<byte>)
    ensures Same(WriteRun(c, WriteRun(c, r, p), q), WriteRun(c, r, p + q))
  {
    if !r.failed && !r.closed {
      TwoWritesFold(c, r, p, q);
      OneWriteFolds(c, r, p, q);
    }
  }

  lemma {:induction false} WriteAllSame(c: Config, a: Run, b: Run, chunks: seq<seq<byte>>)
    requires Same(a, b)
    ensures Same(WriteAll(c, a, chunks), WriteAll(c, b, chunks))
    decreases |chunks|
  {
    if chunks != [] {
      WriteAllSame(c, WriteRun(c, a, chunks[0]), WriteRun(c, b, chunks[0]), chunks[1..]);
    }
  }

  /** No complete line waits in the buffer: true of a new writer and after every Write. */
  ghost predicate Drained(r: Run) {
    !r.failed && !r.closed ==> Lines(r.buf) == []
  }

  lemma WriteDrains(c: Config, r: Run, p: seq<byte>)
    requires Drained(r)
    ensures Drained(WriteRun(c, r, p))
  {
    if !r.failed && !r.closed {
      WriteIsFold(c, r, p);
      LinesPartition(r.buf + p);
    }
  }

  /** Chunk invariance: how the input is split into Write calls cannot be observed. */
  lemma {:induction false} ChunkInvariance(c: Config, r: Run, chunks: seq<seq<byte>>)
    requires Drained(r)
    ensures Same(WriteAll(c, r, chunks), WriteRun(c, r, Flatten(chunks)))
    decreases |chunks|
  {
    if chunks == [] {
      assert r.buf + [] == r.buf;
    } else {
      WriteDrains(c, r, chunks[0]);
      ChunkInvariance(c, WriteRun(c, r, chunks[0]), chunks[1..]);
      TwoWrites(c, r, chunks[0], Flatten(chunks[1..]));
    }
  }

  // ---------- the writer itself ----------

  /** The writer under the translator; it fails where its plan says. */
  class Sink {
    var out: seq<byte>
    var calls: nat
    const plan: FaultPlan

    constructor (plan: FaultPlan)
      ensures this.plan == plan && View() == SinkState([], 0)
    {
      this.out, this.calls, this.plan := [], 0, plan;
    }

    ghost function View(): SinkState
      reads this
    {
      SinkState(out, calls)
    }

    method Write(p: seq<byte>) returns (ok: bool)
      modifies this
      ensures Delivery(View(), ok) == Put(plan, old(View()), p)
    {
      var fault := plan(calls);
      calls := calls + 1;
      match fault {
        case None =>
          out := out + p;
          ok := true;
        case Some(k) =>
          out := out + if k < |p| then p[..k] else p;
          ok := false;
      }
    }
  }

  class Writer {
    const inner: Sink
    const decode: Decoder
    const marshal: Marshaller
    var buf: seq<byte>
    var state: State
    var envel: Envelope
    var firstWriteErr: bool
    var closed: bool

    constructor (inner: Sink, decode: Decoder, marshal: Marshaller)
      ensures this.inner == inner && Cfg() == Config(decode, marshal, inner.plan)
      ensures View() == Run([], INITIAL, false, false, inner.View()) && Drained(View())
    {
      this.inner, this.decode, this.marshal := inner, decode, marshal;
      buf, state, envel := [], Idle, INITIAL.envel;
      firstWriteErr, closed := false, false;
    }

    ghost function Cfg(): Config {
      Config(decode, marshal, inner.plan)
    }

    ghost function View(): Run
      reads this, inner
    {
      Run(buf, Translator(state, envel), firstWriteErr, closed, inner.View())
    }

    /** Emits one frame; every emit helper of the writer comes down to this. */
    method Put(e: Event) returns (ok: bool)
      modifies inner
      ensures Delivery(inner.View(), ok) == Deliver(Cfg(), old(inner.View()), [e])
    {
      ok := inner.Write(Frame(marshal, e));
    }

    method StopOpenBlock() returns (ok: bool)
      modifies this`envel, inner
      ensures var (e, evs) := CloseBlock(old(envel));
              Delivery(inner.View(), ok) == Deliver(Cfg(), old(inner.View()), evs) && (ok ==> envel == e)
    {
      ok := true;
      if envel.hasOpenBlock {
        ok := Put(BlockStop(envel.openBlockIdx));
        if ok {
          envel := envel.(hasOpenBlock := false);
        }
      }
    }

    method HandleTextBlock(text: string) returns (ok: bool)
      modifies this`envel, inner
      ensures var (e, evs) := OnText(old(envel), text);
              Delivery(inner.View(), ok) == Deliver(Cfg(), old(inner.View()), evs) && (ok ==> envel == e)
    {
      ghost var s := inner.View();
      ghost var start := if envel.hasOpenBlock then [] else [BlockStart(envel.nextBlockIdx, EmptyText)];
      if !envel.hasOpenBlock {
        var idx := envel.nextBlockIdx;
        ok := Put(BlockStart(idx, EmptyText));
        if !ok {
          DeliverAppend(Cfg(), s, start, if text == "" then [] else [TextDelta(idx, text)]);
          return;
        }
        envel := envel.(openBlockIdx := idx, hasOpenBlock := true, nextBlockIdx := idx + 1);
      }
      ok := true;
      DeliverAppend(Cfg(), s, start, if text == "" then [] else [TextDelta(envel.openBlockIdx, text)]);
      if text != "" {
        ok := Put(TextDelta(envel.openBlockIdx, text));
      }
    }

    /** Tool-use blocks and blocks of unknown type are shipped the same way. */
    method ShipWhole(raw: seq<byte>) returns (ok: bool)
      modifies this`envel, inner
      ensures var (e, evs) := OnWhole(old(envel), raw);
              Delivery(inner.View(), ok) == Deliver(Cfg(), old(inner.View()), evs) && (ok ==> envel == e)
    {
      ghost var s, stop := inner.View(), CloseBlock(envel).1;
      var idx := envel.nextBlockIdx;
      ghost var start, end := [BlockStart(idx, Whole(raw))], [BlockStop(idx)];
      DeliverAppend(Cfg(), s, stop, start + end);
      assert start + end == [BlockStart(idx, Whole(raw)), BlockStop(idx)];
      ok := StopOpenBlock();
      if ok {
        DeliverAppend(Cfg(), inner.View(), start, end);
        ok := Put(BlockStart(idx, Whole(raw)));
        if ok {
          ok := Put(BlockStop(idx));
          if ok {
            envel := envel.(nextBlockIdx := envel.nextBlockIdx + 1);
          }
        }
      }
    }

    method HandleContentBlock(b: Block) returns (ok: bool)
      modifies this`envel, inner
      ensures var (e, evs) := OnBlock(old(envel), b);
              Delivery(inner.View(), ok) == Deliver(Cfg(), old(inner.View()), evs) && (ok ==> envel == e)
    {
      match b {
        case Text(text) => ok := HandleTextBlock(text);
        case ToolUse(raw) => ok := ShipWhole(raw);
        case Opaque(raw) => ok := ShipWhole(raw);
        case Unreadable => ok := true;
      }
    }

    method HandleBlocks(content: seq<Block>) returns (ok: bool)
      modifies this`envel, inner
      ensures var (e, evs) := OnBlocks(old(envel), content);
              Delivery(inner.View(), ok) == Deliver(Cfg(), old(inner.View()), evs) && (ok ==> envel == e)
    {
      ghost var s, all := inner.View(), OnBlocks(envel, content);
      assert content[0..] == content;
      var i := 0;
      while i < |content|
        invariant i <= |content|
        invariant OnBlocks(envel, content[i..]).0 == all.0
        invariant Deliver(Cfg(), inner.View(), OnBlocks(envel, content[i..]).1) == Deliver(Cfg(), s, all.1)
      {
        ghost var (e, evs) := OnBlock(envel, content[i]);
        assert content[i..][1..] == content[i + 1..];
        DeliverAppend(Cfg(), inner.View(), evs, OnBlocks(e, content[i + 1..]).1);
        ok := HandleContentBlock(content[i]);
        if !ok {
          return;
        }
        i := i + 1;
      }
      ok := true;
    }

    method HandleAssistant(m: Message) returns (ok: bool)
      modifies this`state, this`envel, inner
      ensures var (t, evs) := OnAssistant(old(Translator(state, envel)), m);
              Delivery(inner.View(), ok) == Deliver(Cfg(), old(inner.View()), evs) && (ok ==> Translator(state, envel) == t)
    {
      if state == Done {
        return true;
      }
      ghost var s := inner.View();
      ghost var start := if state == Idle then [MessageStart(StartOf(m))] else [];
      ghost var e := Cache(if state == Idle then envel.(id := m.id) else envel, m);
      DeliverAppend(Cfg(), s, start, OnBlocks(e, m.content).1);
      if state == Idle {
        ok := Put(MessageStart(StartOf(m)));
        if !ok {
          return;
        }
        state := InMessage;
        envel := envel.(id := m.id);
      }
      envel := envel.(stopReason := m.stopReason, stopSequence := m.stopSequence);
      if m.usage.Some? {
        envel := envel.(finalUsage := m.usage);
      }
      ok := HandleBlocks(m.content);
    }

    method FinishMessage(reason: Option<string>, sequence: Option<string>, usage: Option<Usage>) returns (ok: bool)
      modifies this`state, this`envel, inner
      ensures var (t, evs) := Finish(old(Translator(state, envel)), reason, sequence, usage);
              Delivery(inner.View(), ok) == Deliver(Cfg(), old(inner.View()), evs) && (ok ==> Translator(state, envel) == t)
    {
      ghost var s, stop := inner.View(), CloseBlock(envel).1;
      ghost var delta, end := [MessageDelta(reason, sequence, usage)], [MessageStop];
      DeliverAppend(Cfg(), s, stop, delta + end);
      assert delta + end == [MessageDelta(reason, sequence, usage), MessageStop];
      ok := StopOpenBlock();
      if ok {
        DeliverAppend(Cfg(), inner.View(), delta, end);
        ok := Put(MessageDelta(reason, sequence, usage));
        if ok {
          ok := Put(MessageStop);
          if ok {
            state := Done;
          }
        }
      }
    }

    method HandleResult(isError: bool, usage: Option<Usage>) returns (ok: bool)
      modifies this`state, this`envel, inner
      ensures var (t, evs) := OnResult(old(Translator(state, envel)), isError, usage);
              Delivery(inner.View(), ok) == Deliver(Cfg(), old(inner.View()), evs) && (ok ==> Translator(state, envel) == t)
    {
      if state != InMessage {
        return true;
      }
      var stopReason := envel.stopReason;
      if stopReason == None {
        stopReason := Some(if isError then "error" else "end_turn");
      }
      var useUsage := usage;
      if useUsage == None {
        useUsage := envel.finalUsage;
      }
      ok := FinishMessage(stopReason, envel.stopSequence, useUsage);
    }

    method HandleLine(line: seq<byte>) returns (ok: bool)
      modifies this`state, this`envel, inner
      ensures var (t, evs) := OnLine(old(Translator(state, envel)), Classify(decode, line));
              Delivery(inner.View(), ok) == Deliver(Cfg(), old(inner.View()), evs) && (ok ==> Translator(state, envel) == t)
    {
      match Classify(decode, line) {
        case Assistant(m) => ok := HandleAssistant(m);
        case Result(isError, usage) => ok := HandleResult(isError, usage);
        case Dropped => ok := true;
      }
    }

    /** Ingests a chunk; n is |p| on success and 0 on any error. */
    method Write(p: seq<byte>) returns (n: nat, ok: bool)
      modifies this, inner
      ensures Same(View(), WriteRun(Cfg(), old(View()), p))
      ensures ok == (!firstWriteErr && !old(closed)) && n == if ok then |p| else 0
      ensures Drained(old(View())) ==> Drained(View())
    {
      if Drained(View()) {
        WriteDrains(Cfg(), View(), p);
      }
      if firstWriteErr || closed {
        return 0, false;
      }
      ghost var target := WriteRun(Cfg(), View(), p);
      buf := buf + p;
      while IndexOf(buf, LF) < |buf|
        invariant !firstWriteErr && closed == old(closed)
        invariant Drain(Cfg(), View()) == target
        decreases |buf|
      {
        ghost var before := View();
        var i := IndexOf(buf, LF);
        var line := buf[..i + 1];
        buf := buf[i + 1..];
        var handled := HandleLine(line);
        ghost var after := RunLine(Cfg(), before.(buf := buf), line);
        assert target == Drain(Cfg(), after);
        if !handled {
          firstWriteErr := true;
          return 0, false;
        }
      }
      return |p|, true;
    }

    /** Finalizes an open envelope; a second Close does nothing. */
    method Close() returns (ok: bool)
      modifies this, inner
      ensures Same(View(), CloseRun(Cfg(), old(View())))
      ensures ok == (old(closed) || old(firstWriteErr) || !firstWriteErr)
      ensures Drained(old(View())) ==> Drained(View())
    {
      if closed {
        return true;
      }
      closed := true;
      if firstWriteErr {
        return true;
      }
      ok := true;
      if state == InMessage {
        ok := FinishMessage(Some("end_turn"), None, envel.finalUsage);
        if !ok {
          firstWriteErr := true;
        }
      }
    }
  }
}
