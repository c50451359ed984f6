/**
 Whole runs of the writer: the bytes any sequence of calls leaves in the sink, with and
 without faults, and what a server-sent-events parser makes of them.
 */
module SseOutput {
  import opened Bytes
  import opened StreamJson
  import opened SseTranslate
  import opened SseWriter
  import SseClient

  datatype Call = Write(p: seq<byte>) | Close

  const START := Run([], INITIAL, false, false, SinkState([], 0))

  function Exec(c: Config, r: Run, calls: seq<Call>): Run
    decreases |calls|
  {
    if calls == [] then r
    else
      var r' := match calls[0] case Write(p) => WriteRun(c, r, p) case Close => CloseRun(c, r);
      Exec(c, r', calls[1..])
  }

  /** The chunks written before the first Close. */
  function ChunksOf(calls: seq<Call>): seq<seq<byte>> {
    if calls == [] || calls[0].Close? then [] else [calls[0].p] + ChunksOf(calls[1..])
  }

  predicate Closes(calls: seq<Call>) {
    calls != [] && (calls[0].Close? || Closes(calls[1..]))
  }

  /** The lines of a call sequence: cut from its whole input, however it was chunked. */
  function InputLines(decode: Decoder, calls: seq<Call>): seq<Line> {
    ClassifyAll(decode, Lines(Flatten(ChunksOf(calls))))
  }

  /** The events a faultless run of these calls emits. */
  function EventsOf(decode: Decoder, calls: seq<Call>): seq<Event> {
    var (t, evs) := OnLines(INITIAL, InputLines(decode, calls));
    evs + if Closes(calls) then OnClose(t).1 else []
  }

  /** Calls after Close change nothing. */
  lemma {:induction false} ClosedIsFinal(c: Config, r: Run, calls: seq<Call>)
    requires r.closed
    ensures Exec(c, r, calls) == r
    decreases |calls|
  {
    if calls != [] {
      ClosedIsFinal(c, r, calls[1..]);
    }
  }

  lemma {:induction false} ExecIsWritesThenClose(c: Config, r: Run, calls: seq<Call>)
    requires !r.closed
    ensures var w := WriteAll(c, r, ChunksOf(calls));
            Exec(c, r, calls) == if Closes(calls) then CloseRun(c, w) else w
    decreases |calls|
  {
    if calls != [] {
      match calls[0] {
        case Write(p) =>
          WriteKeepsOpen(c, r, p);
          ExecIsWritesThenClose(c, WriteRun(c, r, p), calls[1..]);
          assert ChunksOf(calls)[1..] == ChunksOf(calls[1..]);
        case Close => ClosedIsFinal(c, CloseRun(c, r), calls[1..]);
      }
    }
  }

  lemma WriteKeepsOpen(c: Config, r: Run, p: seq<byte>)
    requires !r.closed
    ensures !WriteRun(c, r, p).closed
  {
    if !r.failed {
      WriteIsFold(c, r, p);
    }
  }

  lemma PutBytes(plan: FaultPlan, s: SinkState, p: seq<byte>)
    ensures var d := Put(plan, s, p);
            s.out <= d.sink.out && d.sink.out <= s.out + p && (d.ok ==> d.sink.out == s.out + p)
  {
    match plan(s.calls)
    case None =>
    case Some(k) => assert k < |p| ==> s.out + p == (s.out + p[..k]) + p[k..];
  }

  lemma PrefixAppend(short: seq<byte>, s: seq<byte>, more: seq<byte>)
    requires short <= s
    ensures short <= s + more
  {
  }

  lemma FramesStep(c: Config, out: seq<byte>, evs: seq<Event>)
    requires evs != []
    ensures out + Frames(c.marshal, evs) == (out + Frame(c.marshal, evs[0])) + Frames(c.marshal, evs[1..])
  {
  }

  /** Delivered bytes: all frames on success, otherwise some prefix of them. */
  lemma {:induction false} DeliveredBytes(c: Config, s: SinkState, evs: seq<Event>)
    ensures var d := Deliver(c, s, evs);
            var full := s.out + Frames(c.marshal, evs);
            d.sink.out <= full && (d.ok ==> d.sink.out == full)
    decreases |evs|
  {
    if evs == [] {
      assert s.out + Frames(c.marshal, evs) == s.out;
    } else {
      var d := Put(c.plan, s, Frame(c.marshal, evs[0]));
      FramesStep(c, s.out, evs);
      PutBytes(c.plan, s, Frame(c.marshal, evs[0]));
      if d.ok {
        DeliveredBytes(c, d.sink, evs[1..]);
      } else {
        PrefixAppend(d.sink.out, s.out + Frame(c.marshal, evs[0]), Frames(c.marshal, evs[1..]));
      }
    }
  }

  lemma {:induction false} NeverFails(c: Config, s: SinkState, evs: seq<Event>)
    requires forall n: nat :: c.plan(n) == None
    ensures Deliver(c, s, evs).ok
    decreases |evs|
  {
    if evs != [] {
      NeverFails(c, Put(c.plan, s, Frame(c.marshal, evs[0])).sink, evs[1..]);
    }
  }

  /** One delivery of all the events of a run accounts for its sink and its failure. */
  lemma RunIsOneDelivery(c: Config, calls: seq<Call>)
    ensures var r := Exec(c, START, calls);
            Delivery(r.sink, !r.failed) == Deliver(c, START.sink, EventsOf(c.decode, calls))
  {
    var chunks := ChunksOf(calls);
    var input := Flatten(chunks);
    var w := WriteAll(c, START, chunks);
    ExecIsWritesThenClose(c, START, calls);
    ChunkInvariance(c, START, chunks);
    WriteIsFold(c, START, input);
    assert [] + input == input;
    var (t, evs) := OnLines(INITIAL, InputLines(c.decode, calls));
    assert Delivery(w.sink, !w.failed) == Deliver(c, START.sink, evs);
    assert !w.failed ==> w.tr == t && !w.closed;
    var closing := if Closes(calls) then OnClose(t).1 else [];
    DeliverAppend(c, START.sink, evs, closing);
    assert evs + [] == evs;
  }

  /**
   Faults. Whatever the sink does, the bytes it holds are a prefix of the frames of a
   faultless run of the same calls, and all of them unless some call failed.
   */
  lemma OutputOfRun(c: Config, calls: seq<Call>)
    ensures var r := Exec(c, START, calls);
            var full := Frames(c.marshal, EventsOf(c.decode, calls));
            && r.sink.out <= full
            && (!r.failed ==> r.sink.out == full)
            && ((forall n: nat :: c.plan(n) == None) ==> !r.failed)
  {
    RunIsOneDelivery(c, calls);
    DeliveredBytes(c, START.sink, EventsOf(c.decode, calls));
    assert [] + Frames(c.marshal, EventsOf(c.decode, calls)) == Frames(c.marshal, EventsOf(c.decode, calls));
    if forall n: nat :: c.plan(n) == None {
      NeverFails(c, START.sink, EventsOf(c.decode, calls));
    }
  }

  function First(k: nat, s: seq<byte>): seq<byte> {
    if k < |s| then s[..k] else s
  }

  /** The frames one by one. */
  function FrameList(marshal: Marshaller, evs: seq<Event>): (fs: seq<seq<byte>>)
    ensures |fs| == |evs|
  {
    if evs == [] then [] else [Frame(marshal, evs[0])] + FrameList(marshal, evs[1..])
  }

  lemma {:induction false} FramesOfList(marshal: Marshaller, evs: seq<Event>)
    ensures Frames(marshal, evs) == Flatten(FrameList(marshal, evs))
    decreases |evs|
  {
    if evs != [] {
      FramesOfList(marshal, evs[1..]);
      assert FrameList(marshal, evs)[1..] == FrameList(marshal, evs[1..]);
    }
  }

  /** Deliver with the frames given as byte strings. */
  function Pushed(plan: FaultPlan, s: SinkState, ps: seq<seq<byte>>): Delivery
    decreases |ps|
  {
    if ps == [] then Delivery(s, true)
    else
      var d := Put(plan, s, ps[0]);
      if d.ok then Pushed(plan, d.sink, ps[1..]) else d
  }

  lemma {:induction false} DeliverPushes(c: Config, s: SinkState, evs: seq<Event>)
    ensures Deliver(c, s, evs) == Pushed(c.plan, s, FrameList(c.marshal, evs))
    decreases |evs|
  {
    if evs != [] {
      assert FrameList(c.marshal, evs)[1..] == FrameList(c.marshal, evs[1..]);
      DeliverPushes(c, Put(c.plan, s, Frame(c.marshal, evs[0])).sink, evs[1..]);
    }
  }

  /** The n-th byte string failed: the ones before it are there in full, and as much of its own as the sink kept. */
  ghost predicate CutAt(plan: FaultPlan, s: SinkState, ps: seq<seq<byte>>, d: Delivery, n: nat) {
    && n < |ps| && d.sink.calls == s.calls + n + 1 && plan(s.calls + n).Some?
    && (forall i: nat :: s.calls <= i < s.calls + n ==> plan(i) == None)
    && d.sink.out == (s.out + Flatten(ps[..n])) + First(plan(s.calls + n).value, ps[n])
  }

  lemma {:induction false} PushCut(plan: FaultPlan, s: SinkState, ps: seq<seq<byte>>) returns (n: nat)
    requires !Pushed(plan, s, ps).ok
    ensures CutAt(plan, s, ps, Pushed(plan, s, ps), n)
    decreases |ps|
  {
    var d := Put(plan, s, ps[0]);
    if d.ok {
      var m := PushCut(plan, d.sink, ps[1..]);
      n := m + 1;
      assert ps[..n][1..] == ps[1..][..m];
      assert (s.out + ps[0]) + Flatten(ps[1..][..m]) == s.out + Flatten(ps[..n]);
    } else {
      n := 0;
      assert s.out + Flatten(ps[..0]) == s.out;
    }
  }

  lemma {:induction false} PushedAll(plan: FaultPlan, s: SinkState, ps: seq<seq<byte>>)
    requires Pushed(plan, s, ps).ok
    ensures forall i: nat :: s.calls <= i < s.calls + |ps| ==> plan(i) == None
    decreases |ps|
  {
    if ps != [] {
      PushedAll(plan, Put(plan, s, ps[0]).sink, ps[1..]);
    }
  }

  lemma PushesDecide(plan: FaultPlan, ps: seq<seq<byte>>)
    ensures var d := Pushed(plan, START.sink, ps);
            && (!d.ok <==> exists n: nat :: n < |ps| && plan(n).Some?)
            && (!d.ok ==>
                  var n := d.sink.calls - 1;
                  && 0 <= n < |ps| && plan(n).Some? && (forall i: nat :: i < n ==> plan(i) == None)
                  && d.sink.out == Flatten(ps[..n]) + First(plan(n).value, ps[n]))
  {
    if Pushed(plan, START.sink, ps).ok {
      PushedAll(plan, START.sink, ps);
    } else {
      var n := PushCut(plan, START.sink, ps);
      assert [] + Flatten(ps[..n]) == Flatten(ps[..n]);
    }
  }

  /**
   The first sink call that fails decides the output of a run: the frames before it in full,
   the bytes it kept of its own frame, and nothing after it.
   */
  lemma OutputCutExactly(c: Config, calls: seq<Call>)
    ensures var r := Exec(c, START, calls);
            var frames := FrameList(c.marshal, EventsOf(c.decode, calls));
            && (r.failed <==> exists n: nat :: n < |frames| && c.plan(n).Some?)
            && (r.failed ==>
                  var n := r.sink.calls - 1;
                  && 0 <= n < |frames| && c.plan(n).Some? && (forall i: nat :: i < n ==> c.plan(i) == None)
                  && r.sink.out == Flatten(frames[..n]) + First(c.plan(n).value, frames[n]))
  {
    var evs := EventsOf(c.decode, calls);
    RunIsOneDelivery(c, calls);
    DeliverPushes(c, START.sink, evs);
    PushesDecide(c.plan, FrameList(c.marshal, evs));
  }

  /** Two sinks that fail differently see outputs of which one is a prefix of the other. */
  lemma FaultyIsPrefixOfFaultless(c: Config, good: FaultPlan, calls: seq<Call>)
    requires forall n: nat :: good(n) == None
    ensures Exec(c, START, calls).sink.out <= Exec(c.(plan := good), START, calls).sink.out
  {
    OutputOfRun(c, calls);
    OutputOfRun(c.(plan := good), calls);
  }

  /**
   Grammar and meaning of whole runs: the events are always legal; after a Close they are
   nothing or one complete message that carries the turn's content.
   */
  lemma GrammarOfRun(decode: Decoder, calls: seq<Call>)
    ensures var lines := InputLines(decode, calls);
            var turn := SseClient.TurnOf(lines);
            var ending := if Closes(calls) then SseClient.ClosedEnding(lines) else SseClient.EndingOf(lines);
            var evs := EventsOf(decode, calls);
            && SseClient.Replay(SseClient.FRESH, evs) == Some(SseClient.Expected(turn, ending))
            && (Closes(calls) && turn == [] ==> evs == [])
            && (Closes(calls) && turn != [] ==> SseClient.Expected(turn, ending).phase == SseClient.Complete)
  {
    var lines := InputLines(decode, calls);
    var (t, evs) := OnLines(INITIAL, lines);
    if Closes(calls) {
      SseClient.ClosedIsComplete(lines);
    } else {
      SseClient.MeaningPreserved(lines);
      assert evs + [] == evs;
    }
  }

  /** A client that has received every event of input. */
  function ClientOf(decode: Decoder, input: seq<byte>): Option<SseClient.Client> {
    SseClient.Replay(SseClient.FRESH, EventsOf(decode, [Write(input)]))
  }

  lemma ClientOfInput(decode: Decoder, input: seq<byte>)
    ensures var lines := ClassifyAll(decode, Lines(input));
            ClientOf(decode, input) == Some(SseClient.Expected(SseClient.TurnOf(lines), SseClient.EndingOf(lines)))
  {
    var calls := [Write(input)];
    assert ChunksOf(calls) == [input] by {
      assert calls[1..] == [];
    }
    assert Flatten([input]) == input + Flatten([]) == input;
    assert !Closes(calls);
    GrammarOfRun(decode, calls);
  }

  // ---------- server-sent events, section 9.2 of the WHATWG HTML Living Standard ----------

  datatype Dispatched = Dispatched(kind: seq<byte>, data: seq<byte>)

  /** The parser between two bytes. */
  datatype Parser = Parser(line: seq<byte>, afterCR: bool, kind: seq<byte>, data: seq<byte>, done: seq<Dispatched>)

  const PARSER := Parser([], false, [], [], [])
  const COLON: byte := 58
  const SPACE: byte := 32

  /** One field of a block; id and retry do not reach the message. */
  function Field(p: Parser, name: seq<byte>, value: seq<byte>): Parser {
    if name == Ascii("event") then p.(kind := value)
    else if name == Ascii("data") then p.(data := p.data + value + [LF])
    else p
  }

  /** A complete line: an empty one dispatches, a comment is ignored, anything else is a field. */
  function EndLine(p: Parser): Parser {
    var line, q := p.line, p.(line := []);
    var i := IndexOf(line, COLON);
    if line == [] then
      if q.data == [] then q.(kind := [])
      else
        var kind := if q.kind == [] then Ascii("message") else q.kind;
        q.(kind := [], data := [], done := q.done + [Dispatched(kind, q.data[..|q.data| - 1])])
    else if i == |line| then Field(q, line, [])
    else if i == 0 then q
    else
      var value := line[i + 1..];
      Field(q, line[..i], if value != [] && value[0] == SPACE then value[1..] else value)
  }

  function Feed(p: Parser, b: byte): Parser {
    if b == LF then if p.afterCR then p.(afterCR := false) else EndLine(p)
    else if b == CR then EndLine(p).(afterCR := true)
    else p.(line := p.line + [b], afterCR := false)
  }

  function FeedAll(p: Parser, bs: seq<byte>): Parser
    decreases |bs|
  {
    if bs == [] then p else FeedAll(Feed(p, bs[0]), bs[1..])
  }

  /** The messages a client has seen; an unfinished block at the end is discarded. */
  function Parse(bs: seq<byte>): seq<Dispatched> {
    FeedAll(PARSER, bs).done
  }

  lemma {:induction false} FeedAllAppend(p: Parser, a: seq<byte>, b: seq<byte>)
    ensures FeedAll(p, a + b) == FeedAll(FeedAll(p, a), b)
    decreases |a|
  {
    if a == [] {
      assert a + b == b;
    } else {
      assert (a + b)[0] == a[0] && (a + b)[1..] == a[1..] + b;
      FeedAllAppend(Feed(p, a[0]), a[1..], b);
    }
  }

  lemma {:induction false} DispatchedGrows(p: Parser, bs: seq<byte>)
    ensures p.done <= FeedAll(p, bs).done
    decreases |bs|
  {
    if bs != [] {
      DispatchedGrows(Feed(p, bs[0]), bs[1..]);
    }
  }

  ghost predicate NoBreaks(bs: seq<byte>) {
    Without(bs, LF) && Without(bs, CR)
  }

  /** Bytes that are no line break only lengthen the current line. */
  lemma {:induction false} FeedText(p: Parser, bs: seq<byte>)
    requires NoBreaks(bs) && !p.afterCR
    ensures FeedAll(p, bs) == p.(line := p.line + bs)
    decreases |bs|
  {
    if bs == [] {
      assert p.line + bs == p.line;
    } else {
      FeedText(Feed(p, bs[0]), bs[1..]);
      assert p.line + [bs[0]] + bs[1..] == p.line + bs;
    }
  }

  function FieldText(name: seq<byte>, value: seq<byte>): seq<byte> {
    name + [COLON, SPACE] + value
  }

  /** A line "NAME: VALUE" is split at its first colon and loses one space. */
  lemma SplitField(p: Parser, name: seq<byte>, value: seq<byte>)
    requires Without(name, COLON) && name != []
    requires p.line == FieldText(name, value)
    ensures EndLine(p) == Field(p.(line := []), name, value)
  {
    var line, n := p.line, |name|;
    assert IndexOf(line, COLON) == n by {
      assert line[n] == COLON;
      assert forall k :: 0 <= k < n ==> line[k] == name[k];
    }
    assert line[..n] == name;
    assert line[n + 1..] == [SPACE] + value;
    assert ([SPACE] + value)[1..] == value;
  }

  lemma FeedLF(p: Parser)
    requires !p.afterCR
    ensures FeedAll(p, [LF]) == EndLine(p)
  {
    assert FeedAll(p, [LF]) == FeedAll(Feed(p, LF), []);
  }

  /** A line "NAME: VALUE" sets its field. */
  lemma FeedField(p: Parser, name: seq<byte>, value: seq<byte>)
    requires NoBreaks(name) && Without(name, COLON) && name != [] && NoBreaks(value)
    requires p.line == [] && !p.afterCR
    ensures FeedAll(p, FieldText(name, value) + [LF]) == Field(p, name, value)
  {
    var line := FieldText(name, value);
    FeedAllAppend(p, line, [LF]);
    FeedText(p, line);
    assert [] + line == line;
    FeedLF(p.(line := line));
    SplitField(p.(line := line), name, value);
  }

  /** A payload on one line, as a JSON encoder that escapes control characters writes it. */
  ghost predicate OneLine(marshal: Marshaller) {
    forall e :: NoBreaks(marshal(e))
  }

  lemma FrameShape(marshal: Marshaller, e: Event)
    ensures Frame(marshal, e) == (FieldText(Ascii("event"), Ascii(NameOf(e))) + [LF])
                                 + ((FieldText(Ascii("data"), marshal(e)) + [LF]) + [LF])
  {
    assert Ascii("event: ") == Ascii("event") + [COLON, SPACE];
    assert Ascii("data: ") == Ascii("data") + [COLON, SPACE];
  }

  /** Letters and underscores only: nothing the parser treats specially. */
  ghost predicate Letters(s: string) {
    s != "" && forall i :: 0 <= i < |s| ==> 'a' <= s[i] <= 'z' || s[i] == '_'
  }

  lemma LettersArePlain(s: string)
    requires Letters(s)
    ensures NoBreaks(Ascii(s)) && Without(Ascii(s), COLON) && Ascii(s) != []
  {
  }

  lemma NamesAreLetters(e: Event)
    ensures Letters(NameOf(e))
  {
    match e
    case MessageStart(_) =>
    case BlockStart(_, _) =>
    case TextDelta(_, _) =>
    case BlockStop(_) =>
    case MessageDelta(_, _, _) =>
    case MessageStop =>
  }

  lemma FieldNamesArePlain()
    ensures NoBreaks(Ascii("event")) && Without(Ascii("event"), COLON) && Ascii("event") != []
    ensures NoBreaks(Ascii("data")) && Without(Ascii("data"), COLON) && Ascii("data") != []
    ensures Ascii("event") != Ascii("data")
  {
    assert Letters("event") && Letters("data");
    LettersArePlain("event");
    LettersArePlain("data");
    assert |Ascii("event")| != |Ascii("data")|;
  }

  /** A blank line dispatches the block. */
  lemma FeedBlank(p: Parser, payload: seq<byte>)
    requires p.line == [] && !p.afterCR && p.kind != [] && p.data == payload + [LF]
    ensures FeedAll(p, [LF]) == p.(kind := [], data := [], done := p.done + [Dispatched(p.kind, payload)])
  {
    FeedLF(p);
    assert p.data[..|p.data| - 1] == payload;
  }

  lemma FeedFrame(p: Parser, marshal: Marshaller, e: Event)
    requires OneLine(marshal)
    requires p.line == [] && !p.afterCR && p.kind == [] && p.data == []
    ensures FeedAll(p, Frame(marshal, e)) == p.(done := p.done + [Dispatched(Ascii(NameOf(e)), marshal(e))])
  {
    var name, payload := Ascii(NameOf(e)), marshal(e);
    var first, second := FieldText(Ascii("event"), name) + [LF], FieldText(Ascii("data"), payload) + [LF];
    NamesAreLetters(e);
    LettersArePlain(NameOf(e));
    FieldNamesArePlain();
    FrameShape(marshal, e);
    FeedAllAppend(p, first, second + [LF]);
    FeedField(p, Ascii("event"), name);
    var p1 := p.(kind := name);
    FeedAllAppend(p1, second, [LF]);
    FeedField(p1, Ascii("data"), payload);
    assert [] + payload + [LF] == payload + [LF];
    FeedBlank(p1.(data := payload + [LF]), payload);
  }

  function DispatchesOf(marshal: Marshaller, evs: seq<Event>): (r: seq<Dispatched>)
    ensures |r| == |evs|
  {
    seq(|evs|, i requires 0 <= i < |evs| => Dispatched(Ascii(NameOf(evs[i])), marshal(evs[i])))
  }

  /** Framing round trip: parsing the frames gives back each event's name and payload, in order. */
  lemma {:induction false} FramesParse(p: Parser, marshal: Marshaller, evs: seq<Event>)
    requires OneLine(marshal)
    requires p.line == [] && !p.afterCR && p.kind == [] && p.data == []
    ensures FeedAll(p, Frames(marshal, evs)) == p.(done := p.done + DispatchesOf(marshal, evs))
    decreases |evs|
  {
    if evs == [] {
      assert p.done + DispatchesOf(marshal, evs) == p.done;
    } else {
      FeedAllAppend(p, Frame(marshal, evs[0]), Frames(marshal, evs[1..]));
      FeedFrame(p, marshal, evs[0]);
      var head := [Dispatched(Ascii(NameOf(evs[0])), marshal(evs[0]))];
      FramesParse(p.(done := p.done + head), marshal, evs[1..]);
      assert DispatchesOf(marshal, evs) == head + DispatchesOf(marshal, evs[1..]);
      assert p.done + head + DispatchesOf(marshal, evs[1..]) == p.done + DispatchesOf(marshal, evs);
    }
  }

  /**
   End to end: a client parsing the sink's bytes sees a prefix of the run's events, whole
   events only, even when the sink cut a frame in two; without a failure it sees them all.
   */
  lemma ClientSeesPrefix(c: Config, calls: seq<Call>)
    requires OneLine(c.marshal)
    ensures var r := Exec(c, START, calls);
            var all := DispatchesOf(c.marshal, EventsOf(c.decode, calls));
            Parse(r.sink.out) <= all && (!r.failed ==> Parse(r.sink.out) == all)
  {
    var r, evs := Exec(c, START, calls), EventsOf(c.decode, calls);
    var full := Frames(c.marshal, evs);
    OutputOfRun(c, calls);
    FramesParse(PARSER, c.marshal, evs);
    assert [] + DispatchesOf(c.marshal, evs) == DispatchesOf(c.marshal, evs);
    var lost := full[|r.sink.out|..];
    assert r.sink.out + lost == full;
    FeedAllAppend(PARSER, r.sink.out, lost);
    DispatchedGrows(FeedAll(PARSER, r.sink.out), lost);
  }

  /** And what it sees is legal: some first events of the run, which the client accepts one by one. */
  lemma FaultyIsLegal(c: Config, calls: seq<Call>) returns (k: nat)
    requires OneLine(c.marshal)
    ensures k <= |EventsOf(c.decode, calls)|
    ensures var seen := EventsOf(c.decode, calls)[..k];
            && Parse(Exec(c, START, calls).sink.out) == DispatchesOf(c.marshal, seen)
            && SseClient.Replay(SseClient.FRESH, seen).Some?
  {
    var evs, parsed := EventsOf(c.decode, calls), Parse(Exec(c, START, calls).sink.out);
    ClientSeesPrefix(c, calls);
    GrammarOfRun(c.decode, calls);
    k := |parsed|;
    assert evs == evs[..k] + evs[k..];
    SseClient.ReplayPrefix(SseClient.FRESH, evs[..k], evs[k..]);
    assert parsed == DispatchesOf(c.marshal, evs)[..k] == DispatchesOf(c.marshal, evs[..k]);
  }
}
