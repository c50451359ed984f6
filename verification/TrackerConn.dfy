/**
 The tracker connection: the holder that hands the current connection to waiting callers,
 and the supervisor that publishes connections to it. Steps are the critical sections and
 channel operations; any order of enabled steps is a run.
 */
module TrackerConn {
  import opened Bytes

  type Conn = nat
  type WaiterId = nat
  type CallId = nat

  /** A channel of capacity one, and how many values were ever sent into it. */
  datatype Channel = Channel(buf: Option<Conn>, closed: bool, sends: nat)

  const NEW_CHANNEL := Channel(None, false, 0)

  /** A set (conn is Some) or close (None) call between its unlock and its last waiter. */
  datatype HandOff = HandOff(conn: Option<Conn>, rest: seq<WaiterId>)

  datatype Getter = Waiting | Got(conn: Conn) | GotClosed | GaveUp

  /** chans and getters are indexed by waiter; lost counts dropped sends, broken says a channel operation panicked. */
  datatype Holder = Holder(
    current: Option<Conn>, closed: bool, waiters: seq<WaiterId>, calls: map<CallId, HandOff>,
    chans: seq<Channel>, getters: seq<Getter>, handed: set<Conn>, lost: nat, broken: bool)

  const NEW_HOLDER := Holder(None, false, [], map[], [], [], {}, 0, false)

  datatype HolderStep =
    | Get                               // the locked part of get; the unlocked first look changes nothing
    | Set(call: CallId, conn: Conn)     // the locked part of set
    | Close(call: CallId)               // the locked part of close
    | HandOne(call: CallId)             // one send or one channel close, outside the lock
    | Return(call: CallId)
    | Clear
    | Receive(w: WaiterId)
    | Cancel(w: WaiterId)

  predicate CanStep(h: Holder, step: HolderStep) {
    match step
    case Get => true
    case Set(call, _) => call !in h.calls
    case Close(call) => call !in h.calls
    case HandOne(call) => call in h.calls && h.calls[call].rest != []
    case Return(call) => call in h.calls && h.calls[call].rest == []
    case Clear => true
    case Receive(w) =>
      w < |h.getters| && w < |h.chans| && h.getters[w] == Waiting && (h.chans[w].buf.Some? || h.chans[w].closed)
    case Cancel(w) => w < |h.getters| && h.getters[w] == Waiting
  }

  /** A non-blocking send: dropped when the buffer is full, a panic when the channel is closed. */
  function Send(h: Holder, w: WaiterId, c: Conn): Holder {
    if w >= |h.chans| || h.chans[w].closed then h.(broken := true)
    else if h.chans[w].buf.Some? then h.(lost := h.lost + 1)
    else h.(chans := h.chans[w := Channel(Some(c), false, h.chans[w].sends + 1)])
  }

  function CloseChannel(h: Holder, w: WaiterId): Holder {
    if w >= |h.chans| || h.chans[w].closed then h.(broken := true)
    else h.(chans := h.chans[w := h.chans[w].(closed := true)])
  }

  function Step(h: Holder, step: HolderStep): Holder
    requires CanStep(h, step)
  {
    match step
    case Get =>
      if h.closed then h
      else if h.current.Some? then h.(handed := h.handed + {h.current.value})
      else h.(waiters := h.waiters + [|h.chans|], chans := h.chans + [NEW_CHANNEL], getters := h.getters + [Waiting])
    case Set(call, c) =>
      h.(current := Some(c), waiters := [], calls := h.calls[call := HandOff(Some(c), h.waiters)])
    case Close(call) =>
      h.(closed := true, waiters := [], calls := h.calls[call := HandOff(None, h.waiters)])
    case HandOne(call) =>
      var x := h.calls[call];
      var h1 := h.(calls := h.calls[call := x.(rest := x.rest[1..])]);
      if x.conn.Some? then Send(h1, x.rest[0], x.conn.value) else CloseChannel(h1, x.rest[0])
    case Return(call) => h.(calls := h.calls - {call})
    case Clear => h.(current := None)
    case Receive(w) =>
      if h.chans[w].buf.Some? then
        var c := h.chans[w].buf.value;
        h.(chans := h.chans[w := h.chans[w].(buf := None)], getters := h.getters[w := Got(c)], handed := h.handed + {c})
      else h.(getters := h.getters[w := GotClosed])
    case Cancel(w) => h.(getters := h.getters[w := GaveUp])
  }

  // ---------- waiter hand-off ----------

  ghost predicate Distinct(s: seq<WaiterId>) {
    forall i, j :: 0 <= i < j < |s| ==> s[i] != s[j]
  }

  /** The waiter is in the private slice of this call. */
  predicate InCall(h: Holder, call: CallId, w: WaiterId) {
    call in h.calls && w in h.calls[call].rest
  }

  ghost predicate Unresolved(h: Holder, w: WaiterId) {
    w in h.waiters || exists call: CallId :: InCall(h, call, w)
  }

  /** Resolved exactly once: closed, or sent one value that is in the buffer until its waiter takes it. */
  predicate ResolvedOnce(c: Channel, g: Getter) {
    if c.closed then c.sends == 0 && c.buf.None? && !g.Got? else c.sends == 1 && c.buf.Some? == !g.Got? && !g.GotClosed?
  }

  /**
   Each registered waiter is in exactly one of the list, one call's private slice, or resolved
   once; a waiting list means there is nothing to hand out yet; nothing was dropped or broken.
   */
  ghost predicate HandOffInv(h: Holder) {
    && |h.getters| == |h.chans|
    && Distinct(h.waiters)
    && (forall call :: call in h.calls ==> Distinct(h.calls[call].rest))
    && (forall call: CallId, w: WaiterId :: InCall(h, call, w) ==> w !in h.waiters && w < |h.chans|)
    && (forall call: CallId, other: CallId, w: WaiterId :: InCall(h, call, w) && InCall(h, other, w) ==> call == other)
    && (forall w :: w in h.waiters ==> w < |h.chans|)
    && (forall w: nat :: w < |h.chans| ==>
          if Unresolved(h, w) then h.chans[w] == NEW_CHANNEL && (h.getters[w] == Waiting || h.getters[w] == GaveUp)
          else ResolvedOnce(h.chans[w], h.getters[w]))
    && (h.waiters != [] ==> h.current.None? && !h.closed)
    && h.lost == 0 && !h.broken
  }

  /** A send or close panics exactly on a channel that is closed, and a send is lost exactly on one that is full. */
  lemma OperationsExactly(h: Holder, w: WaiterId, c: Conn)
    requires w < |h.chans|
    ensures Send(h, w, c).broken == (h.broken || h.chans[w].closed)
    ensures CloseChannel(h, w).broken == (h.broken || h.chans[w].closed)
    ensures Send(h, w, c).lost == h.lost + if !h.chans[w].closed && h.chans[w].buf.Some? then 1 else 0
  {
  }

  /** A caller that gave up is handed nothing any more. */
  lemma {:induction false} GaveUpStays(h: Holder, w: WaiterId, steps: seq<HolderStep>)
    requires HolderRuns(h, steps) && w < |h.getters| && h.getters[w] == GaveUp
    ensures var h' := HolderAfter(h, steps);
            w < |h'.getters| && h'.getters[w] == GaveUp && !CanStep(h', Receive(w))
    decreases |steps|
  {
    if steps != [] {
      GaveUpStays(Step(h, steps[0]), w, steps[1..]);
    }
  }

  lemma CancelIsFinal(h: Holder, w: WaiterId, steps: seq<HolderStep>)
    requires w < |h.getters| && h.getters[w] == Waiting
    ensures CanStep(h, Cancel(w))
    ensures HolderRuns(Step(h, Cancel(w)), steps) ==> !CanStep(HolderAfter(Step(h, Cancel(w)), steps), Receive(w))
  {
    if HolderRuns(Step(h, Cancel(w)), steps) {
      GaveUpStays(Step(h, Cancel(w)), w, steps);
    }
  }

  /** Who is unresolved depends on the list and the private slices only. */
  lemma SameQueues(h: Holder, h': Holder)
    requires h'.waiters == h.waiters
    requires forall call: CallId, w: WaiterId :: InCall(h', call, w) == InCall(h, call, w)
    ensures forall w: nat :: Unresolved(h', w) == Unresolved(h, w)
  {
    forall w: nat ensures Unresolved(h', w) == Unresolved(h, w) {
      if w !in h.waiters && Unresolved(h, w) {
        var call :| InCall(h, call, w);
        assert InCall(h', call, w);
      }
    }
  }

  lemma GetKeeps(h: Holder)
    requires HandOffInv(h)
    ensures HandOffInv(Step(h, Get))
  {
    var h', n := Step(h, Get), |h.chans|;
    assert forall call: CallId, w: WaiterId :: InCall(h', call, w) == InCall(h, call, w);
    if !h.closed && h.current.None? {
      assert n !in h.waiters;
      assert forall w :: w in h'.waiters <==> w in h.waiters || w == n;
      var queued := h.(waiters := h'.waiters);
      assert forall call: CallId, w: WaiterId :: InCall(queued, call, w) == InCall(h, call, w);
      SameQueues(queued, h');
      forall w: nat ensures Unresolved(queued, w) == (Unresolved(h, w) || w == n) {
        if w !in h.waiters && Unresolved(h, w) {
          var call :| InCall(h, call, w);
          assert InCall(queued, call, w);
        }
      }
    } else {
      SameQueues(h, h');
    }
  }

  /** Taking the whole list into a call's private slice moves the waiters and changes none. */
  lemma TakeKeeps(h: Holder, call: CallId, conn: Option<Conn>, h': Holder)
    requires HandOffInv(h) && call !in h.calls
    requires h'.waiters == [] && h'.calls == h.calls[call := HandOff(conn, h.waiters)]
    requires h'.chans == h.chans && h'.getters == h.getters && h'.lost == h.lost && h'.broken == h.broken
    ensures HandOffInv(h')
  {
    assert forall c: CallId, w: WaiterId :: InCall(h', c, w) <==> InCall(h, c, w) || (c == call && w in h.waiters);
    forall w: nat ensures Unresolved(h', w) == Unresolved(h, w) {
      if w in h.waiters {
        assert InCall(h', call, w);
      } else if Unresolved(h, w) {
        var c :| InCall(h, c, w);
        assert InCall(h', c, w);
      }
    }
  }

  /** Handing over the head of a private slice resolves exactly that waiter. */
  lemma HandOneKeeps(h: Holder, call: CallId)
    requires HandOffInv(h) && CanStep(h, HandOne(call))
    ensures HandOffInv(Step(h, HandOne(call)))
  {
    var h', x := Step(h, HandOne(call)), h.calls[call];
    var head := x.rest[0];
    assert InCall(h, call, head);
    assert h.chans[head] == NEW_CHANNEL by {
      assert Unresolved(h, head);
    }
    assert h'.calls == h.calls[call := x.(rest := x.rest[1..])];
    assert forall w :: w in x.rest <==> w == head || w in x.rest[1..];
    assert head !in x.rest[1..];
    assert forall c: CallId, w: WaiterId :: InCall(h', c, w) <==> InCall(h, c, w) && w != head;
    forall w: nat ensures Unresolved(h', w) == (Unresolved(h, w) && w != head) {
      if Unresolved(h, w) && w != head && w !in h.waiters {
        var c :| InCall(h, c, w);
        assert InCall(h', c, w);
      }
    }
  }

  /** Steps that touch neither list nor slices: giving up, receiving, returning, clearing. */
  lemma QuietKeeps(h: Holder, step: HolderStep)
    requires HandOffInv(h) && CanStep(h, step)
    requires step.Receive? || step.Cancel? || step.Return? || step.Clear?
    ensures HandOffInv(Step(h, step))
  {
    var h' := Step(h, step);
    assert forall call: CallId, w: WaiterId :: InCall(h', call, w) == InCall(h, call, w);
    SameQueues(h, h');
  }

  lemma HolderStepKeeps(h: Holder, step: HolderStep)
    requires HandOffInv(h) && CanStep(h, step)
    ensures HandOffInv(Step(h, step))
  {
    match step
    case Get => GetKeeps(h);
    case Set(call, c) => TakeKeeps(h, call, Some(c), Step(h, step));
    case Close(call) => TakeKeeps(h, call, None, Step(h, step));
    case HandOne(call) => HandOneKeeps(h, call);
    case _ => QuietKeeps(h, step);
  }

  ghost predicate HolderRuns(h: Holder, steps: seq<HolderStep>)
    decreases |steps|
  {
    steps == [] || (CanStep(h, steps[0]) && HolderRuns(Step(h, steps[0]), steps[1..]))
  }

  function HolderAfter(h: Holder, steps: seq<HolderStep>): Holder
    requires HolderRuns(h, steps)
    decreases |steps|
  {
    if steps == [] then h else HolderAfter(Step(h, steps[0]), steps[1..])
  }

  lemma {:induction false} HolderRunKeeps(h: Holder, steps: seq<HolderStep>)
    requires HandOffInv(h) && HolderRuns(h, steps)
    ensures HandOffInv(HolderAfter(h, steps))
    decreases |steps|
  {
    if steps != [] {
      HolderStepKeeps(h, steps[0]);
      HolderRunKeeps(Step(h, steps[0]), steps[1..]);
    }
  }

  /** Waiter hand-off in every interleaving of any number of get, set, clear and close calls. */
  lemma WaiterHandOff(steps: seq<HolderStep>)
    requires HolderRuns(NEW_HOLDER, steps)
    ensures HandOffInv(HolderAfter(NEW_HOLDER, steps))
  {
    HolderRunKeeps(NEW_HOLDER, steps);
  }

  /** Once no call is under way and the holder has a connection or is closed, every waiter can go on. */
  lemma NobodyForgotten(h: Holder, w: WaiterId)
    requires HandOffInv(h) && h.calls == map[] && (h.current.Some? || h.closed)
    requires w < |h.getters| && h.getters[w] == Waiting
    ensures CanStep(h, Receive(w))
  {
    assert !Unresolved(h, w);
  }

  /** The rest of a set or close call run without interruption: every hand-over, then the return. */
  function Finish(h: Holder, call: CallId): Holder
    requires call in h.calls
    decreases |h.calls[call].rest|
  {
    if h.calls[call].rest == [] then Step(h, Return(call)) else Finish(Step(h, HandOne(call)), call)
  }

  /** What each hand-over leaves on its waiter's channel. */
  function HandedOver(conn: Option<Conn>): Channel {
    if conn.Some? then Channel(conn, false, 1) else Channel(None, true, 0)
  }

  /** A call run to its end serves every waiter it took, each with its connection or its close, and no one else. */
  lemma {:induction false} FinishServesAll(h: Holder, call: CallId)
    requires HandOffInv(h) && call in h.calls
    ensures var h' := Finish(h, call);
            && HandOffInv(h') && call !in h'.calls && |h'.chans| == |h.chans|
            && h'.waiters == h.waiters && h'.current == h.current && h'.closed == h.closed
            && forall w: nat :: w < |h.chans| ==>
                 h'.chans[w] == if InCall(h, call, w) then HandedOver(h.calls[call].conn) else h.chans[w]
    decreases |h.calls[call].rest|
  {
    if h.calls[call].rest == [] {
      QuietKeeps(h, Return(call));
    } else {
      var h1, head := Step(h, HandOne(call)), h.calls[call].rest[0];
      assert InCall(h, call, head) && Unresolved(h, head);
      HandOneKeeps(h, call);
      FinishServesAll(h1, call);
      assert h1.calls[call].rest == h.calls[call].rest[1..] && h1.calls[call].conn == h.calls[call].conn;
      assert forall w :: w in h.calls[call].rest <==> w == head || w in h1.calls[call].rest;
      assert h1.chans[head] == HandedOver(h.calls[call].conn);
      assert !InCall(h1, call, head);
    }
  }

  // ---------- the supervisor ----------

  datatype Opener = Heartbeat | Rpc

  datatype Supervisor = Dialing | Dialed(conn: Conn) | HeartbeatUp(conn: Conn) | Connected(conn: Conn) | Stopped

  /** streams[c] lists who opened the client-initiated streams of connection c, in order. */
  datatype System = System(holder: Holder, sup: Supervisor, streams: seq<seq<Opener>>)

  const NEW_SYSTEM := System(NEW_HOLDER, Dialing, [])

  datatype SystemStep =
    | DialOk
    | OpenHeartbeat
    | OpenHeartbeatFails
    | Publish(call: CallId)
    | ConnectionLost
    | Stop
    | CloseHolder(call: CallId)
    | Caller(step: HolderStep)
    | OpenRpc(conn: Conn)

  /** Callers get, wait, receive and give up; set, clear and close belong to the supervisor. */
  predicate SystemCan(s: System, step: SystemStep) {
    match step
    case DialOk => s.sup.Dialing?
    case OpenHeartbeat => s.sup.Dialed? && s.sup.conn < |s.streams|
    case OpenHeartbeatFails => s.sup.Dialed?
    case Publish(call) => s.sup.HeartbeatUp? && CanStep(s.holder, Set(call, s.sup.conn))
    case ConnectionLost => s.sup.Connected?
    case Stop => s.sup.Dialing? || s.sup.Connected?
    case CloseHolder(call) => s.sup.Stopped? && CanStep(s.holder, Close(call))
    case Caller(step) => !step.Set? && !step.Close? && !step.Clear? && CanStep(s.holder, step)
    case OpenRpc(c) => c in s.holder.handed && c < |s.streams|
  }

  function SystemNext(s: System, step: SystemStep): System
    requires SystemCan(s, step)
  {
    match step
    case DialOk => s.(sup := Dialed(|s.streams|), streams := s.streams + [[]])
    case OpenHeartbeat =>
      var c := s.sup.conn;
      s.(sup := HeartbeatUp(c), streams := s.streams[c := s.streams[c] + [Heartbeat]])
    case OpenHeartbeatFails => s.(sup := Dialing)
    case Publish(call) => s.(sup := Connected(s.sup.conn), holder := Step(s.holder, Set(call, s.sup.conn)))
    case ConnectionLost => s.(sup := Dialing, holder := Step(s.holder, Clear))
    case Stop => s.(sup := Stopped, holder := if s.sup.Connected? then Step(s.holder, Clear) else s.holder)
    case CloseHolder(call) => s.(holder := Step(s.holder, Close(call)))
    case Caller(step) => s.(holder := Step(s.holder, step))
    case OpenRpc(c) => s.(streams := s.streams[c := s.streams[c] + [Rpc]])
  }

  /** The connection's first stream is the heartbeat's. */
  predicate HeartbeatLeads(s: System, c: Conn) {
    c < |s.streams| && s.streams[c] != [] && s.streams[c][0] == Heartbeat
  }

  /** Every connection a caller can hold or be about to be handed. */
  ghost predicate Reachable(h: Holder, c: Conn) {
    || h.current == Some(c)
    || c in h.handed
    || (exists call :: call in h.calls && h.calls[call].conn == Some(c))
    || (exists w: nat :: w < |h.chans| && h.chans[w].buf == Some(c))
  }

  ghost predicate SystemInv(s: System) {
    && (forall c :: Reachable(s.holder, c) ==> HeartbeatLeads(s, c))
    && (s.sup.Dialed? ==> s.sup.conn < |s.streams| && s.streams[s.sup.conn] == [])
    && (s.sup.HeartbeatUp? ==> HeartbeatLeads(s, s.sup.conn))
    && (forall c: nat :: c < |s.streams| && s.streams[c] != [] ==> s.streams[c][0] == Heartbeat)
  }

  /** A call that carries c did so before the step, or is the set of c. */
  lemma CalledWas(h: Holder, step: HolderStep, c: Conn)
    requires CanStep(h, step)
    requires exists call :: call in Step(h, step).calls && Step(h, step).calls[call].conn == Some(c)
    ensures (exists call :: call in h.calls && h.calls[call].conn == Some(c)) || (step.Set? && step.conn == c)
  {
    var h' := Step(h, step);
    var call :| call in h'.calls && h'.calls[call].conn == Some(c);
    assert call in h.calls ==> h'.calls[call].conn == h.calls[call].conn || step.Set? || step.Close?;
  }

  /** What a step leaves in a buffer was there, or a call under way sent it. */
  lemma BufferedWas(h: Holder, step: HolderStep, w: nat, c: Conn)
    requires CanStep(h, step) && w < |Step(h, step).chans| && Step(h, step).chans[w].buf == Some(c)
    ensures (w < |h.chans| && h.chans[w].buf == Some(c)) || (step.HandOne? && h.calls[step.call].conn == Some(c))
  {
  }

  /** No holder step but set makes a connection reachable. */
  lemma StepReaches(h: Holder, step: HolderStep, c: Conn)
    requires CanStep(h, step)
    requires Reachable(Step(h, step), c)
    ensures Reachable(h, c) || (step.Set? && step.conn == c)
  {
    var h' := Step(h, step);
    if h'.current != Some(c) && c !in h'.handed {
      if exists call :: call in h'.calls && h'.calls[call].conn == Some(c) {
        CalledWas(h, step, c);
      } else {
        var w: nat :| w < |h'.chans| && h'.chans[w].buf == Some(c);
        BufferedWas(h, step, w, c);
      }
    } else if h'.current != Some(c) && step.Receive? && c !in h.handed {
      assert h.chans[step.w].buf == Some(c);
    }
  }

  lemma SystemStepKeeps(s: System, step: SystemStep)
    requires SystemInv(s) && SystemCan(s, step)
    ensures SystemInv(SystemNext(s, step))
  {
    var s' := SystemNext(s, step);
    forall c | Reachable(s'.holder, c) ensures HeartbeatLeads(s', c) {
      match step {
        case Publish(call) => StepReaches(s.holder, Set(call, s.sup.conn), c);
        case ConnectionLost => StepReaches(s.holder, Clear, c);
        case Stop => if s.sup.Connected? { StepReaches(s.holder, Clear, c); }
        case CloseHolder(call) => StepReaches(s.holder, Close(call), c);
        case Caller(hs) => StepReaches(s.holder, hs, c);
        case _ =>
      }
      assert HeartbeatLeads(s, c);
    }
    if step.OpenRpc? {
      assert Reachable(s.holder, step.conn);
    }
  }

  ghost predicate SystemRuns(s: System, steps: seq<SystemStep>)
    decreases |steps|
  {
    steps == [] || (SystemCan(s, steps[0]) && SystemRuns(SystemNext(s, steps[0]), steps[1..]))
  }

  function SystemAfter(s: System, steps: seq<SystemStep>): System
    requires SystemRuns(s, steps)
    decreases |steps|
  {
    if steps == [] then s else SystemAfter(SystemNext(s, steps[0]), steps[1..])
  }

  lemma {:induction false} SystemKeeps(s: System, steps: seq<SystemStep>)
    requires SystemInv(s) && SystemRuns(s, steps)
    ensures SystemInv(SystemAfter(s, steps))
    decreases |steps|
  {
    if steps != [] {
      SystemStepKeeps(s, steps[0]);
      SystemKeeps(SystemNext(s, steps[0]), steps[1..]);
    }
  }

  /**
   Heartbeat first: in every interleaving of the supervisor and any number of callers, over any
   number of reconnects, the first client-opened stream of every connection is the heartbeat's.
   */
  lemma HeartbeatFirst(steps: seq<SystemStep>, c: Conn)
    requires SystemRuns(NEW_SYSTEM, steps)
    requires c < |SystemAfter(NEW_SYSTEM, steps).streams| && SystemAfter(NEW_SYSTEM, steps).streams[c] != []
    ensures SystemAfter(NEW_SYSTEM, steps).streams[c][0] == Heartbeat
  {
    SystemKeeps(NEW_SYSTEM, steps);
  }

  /**
   The supervisor's cycle: a dial and a heartbeat stream lead to a published fresh connection, whose
   only stream is the heartbeat's; without that stream it dials again, as it does after a loss.
   */
  lemma SupervisorCycle(s: System, call: CallId)
    requires s.sup.Dialing? && call !in s.holder.calls
    ensures SystemCan(s, DialOk) && SystemCan(s, Stop) && SystemNext(s, Stop).sup == Stopped
    ensures var dialed := SystemNext(s, DialOk);
            && SystemCan(dialed, OpenHeartbeat) && SystemCan(dialed, OpenHeartbeatFails)
            && SystemNext(dialed, OpenHeartbeatFails) == s.(streams := s.streams + [[]])
            && var up := SystemNext(dialed, OpenHeartbeat);
               && up.streams == s.streams + [[Heartbeat]] && SystemCan(up, Publish(call))
               && var live := SystemNext(up, Publish(call));
                  && live.sup == Connected(|s.streams|) && live.holder.current == Some(|s.streams|)
                  && SystemCan(live, ConnectionLost) && SystemNext(live, ConnectionLost).sup == Dialing
                  && SystemCan(live, Stop) && SystemNext(live, Stop).sup == Stopped
  {
    var n := |s.streams|;
    var dialed := SystemNext(s, DialOk);
    assert dialed.streams[n] == [] && [] + [Heartbeat] == [Heartbeat];
    assert SystemNext(dialed, OpenHeartbeat).streams == s.streams + [[Heartbeat]];
  }

  lemma SystemUnroll(s: System, step: SystemStep, rest: seq<SystemStep>)
    requires SystemCan(s, step) && SystemRuns(SystemNext(s, step), rest)
    ensures SystemRuns(s, [step] + rest) && SystemAfter(s, [step] + rest) == SystemAfter(SystemNext(s, step), rest)
  {
    assert ([step] + rest)[1..] == rest;
  }

  /** A connection brought up, handed to a caller that opens a stream over it, and lost again. */
  function OneConnection(n: Conn, call: CallId): seq<SystemStep> {
    [DialOk] + ([OpenHeartbeat] + ([Publish(call)] + ([Caller(Get)] + ([OpenRpc(n)] + ([ConnectionLost] + [])))))
  }

  /** The caller's stream comes second, and after the loss there is nothing to hand out. */
  lemma ConnectionServes(s: System, call: CallId)
    requires s.sup.Dialing? && call !in s.holder.calls && !s.holder.closed
    ensures var n := |s.streams|;
            && SystemRuns(s, OneConnection(n, call))
            && var s' := SystemAfter(s, OneConnection(n, call));
               && s'.sup == Dialing && s'.holder.current == None && s'.holder.handed == s.holder.handed + {n}
               && s'.streams == s.streams + [[Heartbeat, Rpc]]
               && s'.holder.waiters == [] && call in s'.holder.calls
               && s'.holder.calls[call] == HandOff(Some(n), s.holder.waiters)
  {
    var n := |s.streams|;
    SupervisorCycle(s, call);
    var s1 := SystemNext(s, DialOk);
    var s2 := SystemNext(s1, OpenHeartbeat);
    var s3 := SystemNext(s2, Publish(call));
    var s4 := SystemNext(s3, Caller(Get));
    assert s4.streams == s.streams + [[Heartbeat]] && n in s4.holder.handed;
    var s5 := SystemNext(s4, OpenRpc(n));
    assert [Heartbeat] + [Rpc] == [Heartbeat, Rpc] && s4.streams[n] == [Heartbeat];
    assert s5.streams == s.streams + [[Heartbeat, Rpc]];
    SystemUnroll(s5, ConnectionLost, []);
    SystemUnroll(s4, OpenRpc(n), [ConnectionLost] + []);
    SystemUnroll(s3, Caller(Get), [OpenRpc(n)] + ([ConnectionLost] + []));
    SystemUnroll(s2, Publish(call), [Caller(Get)] + ([OpenRpc(n)] + ([ConnectionLost] + [])));
    SystemUnroll(s1, OpenHeartbeat, [Publish(call)] + ([Caller(Get)] + ([OpenRpc(n)] + ([ConnectionLost] + []))));
    SystemUnroll(s, DialOk, [OpenHeartbeat] + ([Publish(call)] + ([Caller(Get)] + ([OpenRpc(n)] + ([ConnectionLost] + [])))));
  }

  /** The holder's current connection is the one the supervisor is connected with. */
  ghost predicate InStep(s: System) {
    s.holder.current == if s.sup.Connected? then Some(s.sup.conn) else None
  }

  lemma {:induction false} StepsInStep(s: System, steps: seq<SystemStep>)
    requires InStep(s) && SystemRuns(s, steps)
    ensures InStep(SystemAfter(s, steps))
    decreases |steps|
  {
    if steps != [] {
      OneStepInStep(s, steps[0]);
      StepsInStep(SystemNext(s, steps[0]), steps[1..]);
    }
  }

  lemma OneStepInStep(s: System, step: SystemStep)
    requires InStep(s) && SystemCan(s, step)
    ensures InStep(SystemNext(s, step))
  {
  }

  /**
   In every run callers find exactly the connection the supervisor holds: between a loss or a stop
   and the next publication get hands out nothing, and while connected it hands out that connection.
   */
  lemma CurrentIsConnected(steps: seq<SystemStep>)
    requires SystemRuns(NEW_SYSTEM, steps)
    ensures var s := SystemAfter(NEW_SYSTEM, steps);
            var s' := SystemNext(s, Caller(Get));
            && s.holder.current == (if s.sup.Connected? then Some(s.sup.conn) else None)
            && (!s.sup.Connected? ==> s'.holder.handed == s.holder.handed)
            && (s.sup.Connected? && !s.holder.closed ==> s'.holder.handed == s.holder.handed + {s.sup.conn})
  {
    StepsInStep(NEW_SYSTEM, steps);
  }

  // ---------- the holder itself ----------

  /** These waiters are all different and none has been served. */
  ghost predicate Unserved(ws: seq<WaiterId>, chans: seq<Channel>) {
    Distinct(ws) && forall k :: 0 <= k < |ws| ==> ws[k] < |chans| && chans[ws[k]] == NEW_CHANNEL
  }

  lemma OneServed(h: Holder, call: CallId)
    requires CanStep(h, HandOne(call)) && Unserved(h.calls[call].rest, h.chans)
    ensures var h' := Step(h, HandOne(call));
            && Finish(h, call) == Finish(h', call) && |h'.chans| == |h.chans|
            && h'.calls.Keys == h.calls.Keys && h'.calls[call] == HandOff(h.calls[call].conn, h.calls[call].rest[1..])
            && Unserved(h'.calls[call].rest, h'.chans)
  {
    var h', rest := Step(h, HandOne(call)), h.calls[call].rest;
    forall k | 0 <= k < |rest| - 1 ensures rest[1..][k] < |h'.chans| && h'.chans[rest[1..][k]] == NEW_CHANNEL {
      assert rest[1..][k] == rest[k + 1];
    }
  }

  lemma FinishAtEnd(h: Holder, call: CallId)
    requires call in h.calls && h.calls[call].rest == []
    ensures Finish(h, call) == h.(calls := h.calls - {call})
  {
  }

  lemma ListUnserved(h: Holder)
    requires HandOffInv(h)
    ensures Unserved(h.waiters, h.chans)
  {
    forall k | 0 <= k < |h.waiters| ensures h.waiters[k] < |h.chans| && h.chans[h.waiters[k]] == NEW_CHANNEL {
      assert h.waiters[k] in h.waiters;
      assert Unresolved(h, h.waiters[k]);
    }
  }

  /** A set or close call from its start to its end: what it leaves, and what each waiter it took is left with. */
  lemma WholeCall(h: Holder, step: HolderStep)
    requires HandOffInv(h) && CanStep(h, step) && (step.Set? || step.Close?)
    ensures var h' := Finish(Step(h, step), step.call);
            && HandOffInv(h') && h'.waiters == []
            && h'.current == (if step.Set? then Some(step.conn) else h.current) && h'.closed == (h.closed || step.Close?)
            && |h'.chans| == |h.chans|
            && forall w :: w in h.waiters ==>
                 w < |h.chans| && h'.chans[w] == HandedOver(if step.Set? then Some(step.conn) else None)
  {
    HolderStepKeeps(h, step);
    var h1 := Step(h, step);
    FinishServesAll(h1, step.call);
    forall w | w in h.waiters ensures InCall(h1, step.call, w) {
    }
  }

  /** The steps of Finish, one hand-over for each waiter and the return. */
  function FinishSteps(call: CallId, n: nat): seq<HolderStep> {
    if n == 0 then [Return(call)] else [HandOne(call)] + FinishSteps(call, n - 1)
  }

  lemma {:induction false} FinishIsRun(h: Holder, call: CallId)
    requires call in h.calls
    ensures var steps := FinishSteps(call, |h.calls[call].rest|);
            HolderRuns(h, steps) && HolderAfter(h, steps) == Finish(h, call)
    decreases |h.calls[call].rest|
  {
    var steps := FinishSteps(call, |h.calls[call].rest|);
    if h.calls[call].rest == [] {
      assert steps[1..] == [];
    } else {
      assert steps[1..] == FinishSteps(call, |h.calls[call].rest| - 1);
      FinishIsRun(Step(h, HandOne(call)), call);
    }
  }

  /**
   A set or close call from its start to its end is a run, after which each waiter it found
   waiting in the list takes the connection out of its channel, or finds it closed.
   */
  lemma ServedReceives(h: Holder, step: HolderStep, w: WaiterId)
    requires HandOffInv(h) && CanStep(h, step) && (step.Set? || step.Close?) && w in h.waiters
    ensures var steps := [step] + FinishSteps(step.call, |h.waiters|);
            && HolderRuns(h, steps)
            && var h' := HolderAfter(h, steps);
               && w < |h'.chans| == |h'.getters| && h'.getters == h.getters && h'.handed == h.handed
               && (h.getters[w] == Waiting ==>
                     && CanStep(h', Receive(w))
                     && var r := Step(h', Receive(w));
                        if step.Set? then r.getters[w] == Got(step.conn) && r.handed == h.handed + {step.conn}
                        else r.getters[w] == GotClosed && r.handed == h.handed)
  {
    var steps := [step] + FinishSteps(step.call, |h.waiters|);
    assert steps[1..] == FinishSteps(step.call, |h.waiters|);
    WholeCall(h, step);
    FinishIsRun(Step(h, step), step.call);
    FinishGetters(Step(h, step), step.call);
  }

  lemma {:induction false} FinishGetters(h: Holder, call: CallId)
    requires call in h.calls
    ensures Finish(h, call).getters == h.getters && Finish(h, call).handed == h.handed
    decreases |h.calls[call].rest|
  {
    if h.calls[call].rest != [] {
      FinishGetters(Step(h, HandOne(call)), call);
    }
  }

  class Chan {
    var buf: Option<Conn>
    var closed: bool

    constructor ()
      ensures buf.None? && !closed
    {
      buf, closed := None, false;
    }
  }

  datatype Looked = ErrClosed | Have(conn: Conn) | Wait(ch: Chan)

  /**
   The holder as it is kept. The ghost fields number the waiters' channels and record what is
   in each, who waits, the calls under way and what was handed out, so that View is the state
   the step relation speaks of.
   */
  class ConnHolder {
    var current: Option<Conn>
    var waiters: seq<Chan>
    var closed: bool
    ghost var ids: seq<WaiterId>
    ghost var chans: seq<Chan>
    ghost var slots: seq<Channel>
    ghost var getters: seq<Getter>
    ghost var calls: map<CallId, HandOff>
    ghost var handed: set<Conn>
    ghost var lost: nat
    ghost var broken: bool

    ghost function View(): Holder
      reads this
    {
      Holder(current, closed, ids, calls, slots, getters, handed, lost, broken)
    }

    /** These channels are the objects with these numbers. */
    ghost predicate Numbered(list: seq<Chan>, ws: seq<WaiterId>)
      reads this
    {
      |list| == |ws| && forall k :: 0 <= k < |ws| ==> ws[k] < |chans| && chans[ws[k]] == list[k]
    }

    /** The ghost numbering and records fit the objects. */
    ghost predicate Tied()
      reads this, chans
    {
      && |slots| == |chans|
      && (forall i, j :: 0 <= i < j < |chans| ==> chans[i] != chans[j])
      && (forall i :: 0 <= i < |chans| ==> chans[i].buf == slots[i].buf && chans[i].closed == slots[i].closed)
      && Numbered(waiters, ids)
    }

    ghost predicate Valid()
      reads this, chans
    {
      Tied() && HandOffInv(View())
    }

    constructor ()
      ensures Valid() && View() == NEW_HOLDER
    {
      current, waiters, closed := None, [], false;
      ids, chans, slots, getters, calls, handed, lost, broken := [], [], [], [], map[], {}, 0, false;
    }

    /** A fresh channel at the end of the list. */
    method Enlist() returns (ch: Chan)
      requires Tied()
      modifies this`waiters, this`ids, this`chans, this`slots, this`getters
      ensures Tied() && fresh(ch) && waiters == old(waiters) + [ch] && chans == old(chans) + [ch]
      ensures ids == old(ids) + [old(|slots|)] && slots == old(slots) + [NEW_CHANNEL]
      ensures getters == old(getters) + [Waiting]
    {
      ch := new Chan();
      waiters, ids, chans := waiters + [ch], ids + [|chans|], chans + [ch];
      slots, getters := slots + [NEW_CHANNEL], getters + [Waiting];
    }

    /** Up to the point where the caller starts to wait on its own channel. */
    method Get() returns (r: Looked)
      requires Valid()
      modifies this
      ensures Valid() && View() == Step(old(View()), HolderStep.Get)
      ensures closed ==> r == ErrClosed
      ensures !closed && current.Some? ==> r == Have(current.value) && current.value in handed
      ensures !closed && current.None? ==> r.Wait? && fresh(r.ch) && waiters == old(waiters) + [r.ch]
    {
      GetKeeps(View());
      if closed {
        return ErrClosed;
      }
      if current.Some? {
        handed := handed + {current.value};
        return Have(current.value);
      }
      var ch := Enlist();
      return Wait(ch);
    }

    /** One non-blocking send, or one channel close, to the next waiter of a call. */
    method HandOne(w: Chan, conn: Option<Conn>, ghost call: CallId)
      requires Tied() && CanStep(View(), HolderStep.HandOne(call)) && conn == calls[call].conn
      requires calls[call].rest[0] < |chans| && chans[calls[call].rest[0]] == w && !w.closed
      modifies w, this`slots, this`calls, this`lost
      ensures Tied() && View() == Step(old(View()), HolderStep.HandOne(call))
    {
      ghost var x := calls[call];
      ghost var head := x.rest[0];
      calls := calls[call := x.(rest := x.rest[1..])];
      if conn.None? {
        w.closed := true;
        slots := slots[head := slots[head].(closed := true)];
      } else if w.buf.None? {
        w.buf := conn;
        slots := slots[head := Channel(conn, false, slots[head].sends + 1)];
      } else {
        lost := lost + 1;
      }
    }

    /** Serves a call's list, one waiter after the other. */
    method ServeList(list: seq<Chan>, conn: Option<Conn>, ghost call: CallId)
      requires Tied() && call in calls && calls[call].conn == conn
      requires Numbered(list, calls[call].rest) && Unserved(calls[call].rest, slots)
      modifies this`calls, this`slots, this`lost, list
      ensures Tied() && call in calls && calls[call].rest == []
      ensures Finish(View(), call) == Finish(old(View()), call)
    {
      ghost var ws := calls[call].rest;
      var i := 0;
      while i < |list|
        invariant i <= |list| && Tied()
        invariant call in calls && calls[call].conn == conn && Unserved(calls[call].rest, slots)
        invariant Numbered(list, ws) && calls[call].rest == ws[i..]
        invariant Finish(View(), call) == Finish(old(View()), call)
      {
        OneServed(View(), call);
        HandOne(list[i], conn, call);
        assert ws[i..][1..] == ws[i + 1..];
        i := i + 1;
      }
    }

    /** Takes the list, serves it and returns. */
    method HandAll(conn: Option<Conn>, ghost call: CallId)
      requires Tied() && call !in calls && Unserved(ids, slots)
      modifies this`waiters, this`ids, this`calls, this`slots, this`lost, waiters
      ensures Tied()
      ensures View() == Finish(old(View()).(waiters := [], calls := old(calls)[call := HandOff(conn, old(ids))]), call)
    {
      var list := waiters;
      waiters := [];
      ids, calls := [], calls[call := HandOff(conn, ids)];
      ServeList(list, conn, call);
      FinishAtEnd(View(), call);
      calls := calls - {call};
    }

    /** Publishes c and hands it to every waiter. */
    method Set(c: Conn, ghost call: CallId)
      requires Valid() && call !in calls
      modifies this, waiters
      ensures Valid() && View() == Finish(Step(old(View()), HolderStep.Set(call, c)), call)
      ensures current == Some(c) && waiters == [] && closed == old(closed)
      ensures forall w :: w in old(waiters) ==> w.buf == Some(c) && !w.closed
    {
      WholeCall(View(), HolderStep.Set(call, c));
      ListUnserved(View());
      ghost var list, ws := waiters, ids;
      current := Some(c);
      HandAll(Some(c), call);
      forall k | 0 <= k < |list| ensures list[k].buf == Some(c) && !list[k].closed {
        assert ws[k] in ws;
      }
    }

    method Clear()
      requires Valid()
      modifies this`current
      ensures Valid() && View() == Step(old(View()), HolderStep.Clear) && current.None?
    {
      QuietKeeps(View(), HolderStep.Clear);
      current := None;
    }

    /** Closes the holder and the channel of every waiter. */
    method Close(ghost call: CallId)
      requires Valid() && call !in calls
      modifies this, waiters
      ensures Valid() && View() == Finish(Step(old(View()), HolderStep.Close(call)), call)
      ensures closed && waiters == [] && current == old(current)
      ensures forall w :: w in old(waiters) ==> w.buf.None? && w.closed
    {
      WholeCall(View(), HolderStep.Close(call));
      ListUnserved(View());
      ghost var list, ws := waiters, ids;
      closed := true;
      HandAll(None, call);
      forall k | 0 <= k < |list| ensures list[k].buf.None? && list[k].closed {
        assert ws[k] in ws;
      }
    }

    /** The end of get: a connection out of the caller's channel, or its close. */
    method Receive(ch: Chan, ghost w: WaiterId) returns (r: Looked)
      requires Valid() && w < |chans| && chans[w] == ch && CanStep(View(), HolderStep.Receive(w))
      modifies ch, this`slots, this`getters, this`handed
      ensures Valid() && View() == Step(old(View()), HolderStep.Receive(w))
      ensures r == if old(ch.buf).Some? then Have(old(ch.buf).value) else ErrClosed
    {
      QuietKeeps(View(), HolderStep.Receive(w));
      if ch.buf.None? {
        getters := getters[w := GotClosed];
        return ErrClosed;
      }
      var c := ch.buf.value;
      ch.buf := None;
      slots, getters, handed := slots[w := slots[w].(buf := None)], getters[w := Got(c)], handed + {c};
      return Have(c);
    }
  }
}
