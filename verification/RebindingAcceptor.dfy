/**
 The acceptor that swaps its listener on every Bind. Steps are its critical sections, the
 factory call and the closes outside the lock; any order of enabled steps is a run.
 */
module RebindingAcceptor {
  import opened Bytes

  type Listener = nat
  type ChanId = nat
  type CallId = nat

  /** A Bind between two of its steps. */
  datatype Binder =
    | Looked(prev: Option<Listener>)
    | Made(prev: Option<Listener>, next: Listener)
    | Installed(prev: Option<Listener>, prevBound: ChanId)
    | Woken(prev: Option<Listener>)
    | Rejected(next: Listener)

  /** A Close between two of its steps. */
  datatype Closer = Locked(cur: Option<Listener>, bound: ChanId) | Signalled(cur: Option<Listener>)

  /** chans and listeners count how often each channel and listener was closed. */
  datatype State = State(
    cur: Option<Listener>, bound: ChanId, closed: bool, chans: seq<nat>, listeners: seq<nat>,
    binders: map<CallId, Binder>, closers: map<CallId, Closer>, waiting: map<CallId, ChanId>)

  const NEW := State(None, 0, false, [0], [], map[], map[], map[])

  datatype Step =
    | BindLook(id: CallId)
    | BindMake(id: CallId, ok: bool)
    | BindInstall(id: CallId)
    | BindWake(id: CallId)
    | BindClosePrev(id: CallId)
    | BindReject(id: CallId)
    | CloseLock(id: CallId)
    | CloseWake(id: CallId)
    | CloseCurrent(id: CallId)
    | AcceptLook(id: CallId)
    | AcceptWake(id: CallId)
    | AcceptCancel(id: CallId)

  predicate Can(s: State, step: Step) {
    match step
    case BindLook(id) => id !in s.binders
    case BindMake(id, _) => id in s.binders && s.binders[id].Looked?
    case BindInstall(id) => id in s.binders && s.binders[id].Made?
    case BindWake(id) => id in s.binders && s.binders[id].Installed? && s.binders[id].prevBound < |s.chans|
    case BindClosePrev(id) =>
      id in s.binders && s.binders[id].Woken?
      && (s.binders[id].prev.Some? ==> s.binders[id].prev.value < |s.listeners|)
    case BindReject(id) => id in s.binders && s.binders[id].Rejected? && s.binders[id].next < |s.listeners|
    case CloseLock(id) => id !in s.closers
    case CloseWake(id) => id in s.closers && s.closers[id].Locked? && s.closers[id].bound < |s.chans|
    case CloseCurrent(id) =>
      id in s.closers && s.closers[id].Signalled?
      && (s.closers[id].cur.Some? ==> s.closers[id].cur.value < |s.listeners|)
    case AcceptLook(id) => id !in s.waiting
    case AcceptWake(id) => id in s.waiting && s.waiting[id] < |s.chans| && s.chans[s.waiting[id]] > 0
    case AcceptCancel(id) => id in s.waiting
  }

  function Bump(counts: seq<nat>, i: nat): seq<nat>
    requires i < |counts|
  {
    counts[i := counts[i] + 1]
  }

  function Next(s: State, step: Step): State
    requires Can(s, step)
  {
    match step
    case BindLook(id) => if s.closed then s else s.(binders := s.binders[id := Looked(s.cur)])
    case BindMake(id, ok) =>
      if !ok then s.(binders := s.binders - {id})
      else s.(binders := s.binders[id := Made(s.binders[id].prev, |s.listeners|)], listeners := s.listeners + [0])
    case BindInstall(id) =>
      var b := s.binders[id];
      if s.closed then s.(binders := s.binders[id := Rejected(b.next)])
      else s.(cur := Some(b.next), bound := |s.chans|, chans := s.chans + [0],
              binders := s.binders[id := Installed(b.prev, s.bound)])
    case BindWake(id) =>
      var b := s.binders[id];
      s.(chans := Bump(s.chans, b.prevBound), binders := s.binders[id := Woken(b.prev)])
    case BindClosePrev(id) =>
      var p := s.binders[id].prev;
      s.(listeners := if p.Some? then Bump(s.listeners, p.value) else s.listeners, binders := s.binders - {id})
    case BindReject(id) => s.(listeners := Bump(s.listeners, s.binders[id].next), binders := s.binders - {id})
    case CloseLock(id) =>
      if s.closed then s else s.(closed := true, cur := None, closers := s.closers[id := Locked(s.cur, s.bound)])
    case CloseWake(id) =>
      var c := s.closers[id];
      s.(chans := Bump(s.chans, c.bound), closers := s.closers[id := Signalled(c.cur)])
    case CloseCurrent(id) =>
      var p := s.closers[id].cur;
      s.(listeners := if p.Some? then Bump(s.listeners, p.value) else s.listeners, closers := s.closers - {id})
    case AcceptLook(id) =>
      if s.closed || s.cur.Some? then s else s.(waiting := s.waiting[id := s.bound])
    case AcceptWake(id) => s.(waiting := s.waiting - {id})
    case AcceptCancel(id) => s.(waiting := s.waiting - {id})
  }

  ghost predicate Runs(s: State, steps: seq<Step>)
    decreases |steps|
  {
    steps == [] || (Can(s, steps[0]) && Runs(Next(s, steps[0]), steps[1..]))
  }

  function After(s: State, steps: seq<Step>): State
    requires Runs(s, steps)
    decreases |steps|
  {
    if steps == [] then s else After(Next(s, steps[0]), steps[1..])
  }

  // ---------- bound channels ----------

  /** An installed Bind is about to close this channel. */
  predicate BinderOwes(s: State, id: CallId, ch: ChanId) {
    id in s.binders && s.binders[id].Installed? && s.binders[id].prevBound == ch
  }

  predicate CloserOwes(s: State, id: CallId, ch: ChanId) {
    id in s.closers && s.closers[id].Locked? && s.closers[id].bound == ch
  }

  ghost predicate Owed(s: State, ch: ChanId) {
    (exists id: CallId :: BinderOwes(s, id, ch)) || (exists id: CallId :: CloserOwes(s, id, ch))
  }

  predicate Current(s: State, ch: ChanId) {
    !s.closed && ch == s.bound
  }

  /**
   Each channel is current, or owed one close by exactly one call, or closed exactly once;
   who waits on the current channel of an open acceptor waits because no listener is bound.
   */
  ghost predicate ChannelInv(s: State) {
    && s.bound < |s.chans|
    && (forall ch: nat :: ch < |s.chans| ==> s.chans[ch] == if Current(s, ch) || Owed(s, ch) then 0 else 1)
    && (forall id: CallId, ch: ChanId :: BinderOwes(s, id, ch) ==> ch < |s.chans| && !Current(s, ch))
    && (forall id: CallId, ch: ChanId :: CloserOwes(s, id, ch) ==> ch < |s.chans| && !Current(s, ch))
    && (forall id: CallId, other: CallId, ch: ChanId :: BinderOwes(s, id, ch) && BinderOwes(s, other, ch) ==> id == other)
    && (forall id: CallId, other: CallId, ch: ChanId :: CloserOwes(s, id, ch) && CloserOwes(s, other, ch) ==> id == other)
    && (forall id: CallId, other: CallId, ch: ChanId :: BinderOwes(s, id, ch) ==> !CloserOwes(s, other, ch))
    && (forall id: CallId :: id in s.waiting ==> s.waiting[id] < |s.chans|)
    && (forall id: CallId :: id in s.waiting && Current(s, s.waiting[id]) ==> s.cur.None?)
  }

  /** Steps that leave the channels, the owed closes and the current channel alone. */
  lemma ChannelsUntouched(s: State, s': State)
    requires ChannelInv(s)
    requires s'.bound == s.bound && s'.closed == s.closed && s'.chans == s.chans && s'.cur == s.cur
    requires forall id: CallId, ch: ChanId :: BinderOwes(s', id, ch) == BinderOwes(s, id, ch)
    requires forall id: CallId, ch: ChanId :: CloserOwes(s', id, ch) == CloserOwes(s, id, ch)
    requires forall id: CallId :: id in s'.waiting ==>
               (id in s.waiting && s'.waiting[id] == s.waiting[id]) || (s'.waiting[id] == s.bound && s.cur.None?)
    ensures ChannelInv(s')
  {
    forall ch: nat ensures Owed(s', ch) == Owed(s, ch) {
      if id: CallId :| BinderOwes(s, id, ch) { assert BinderOwes(s', id, ch); }
      if id: CallId :| CloserOwes(s, id, ch) { assert CloserOwes(s', id, ch); }
    }
    assert forall ch: nat :: Current(s', ch) == Current(s, ch);
  }

  lemma InstallKeepsChannels(s: State, id: CallId)
    requires ChannelInv(s) && Can(s, BindInstall(id)) && !s.closed
    ensures ChannelInv(Next(s, BindInstall(id)))
  {
    var s', n := Next(s, BindInstall(id)), |s.chans|;
    assert forall x: CallId, ch: ChanId :: BinderOwes(s', x, ch) <==> BinderOwes(s, x, ch) || (x == id && ch == s.bound);
    assert forall x: CallId, ch: ChanId :: CloserOwes(s', x, ch) == CloserOwes(s, x, ch);
    assert Current(s, s.bound);
    forall ch: nat ensures Owed(s', ch) == (Owed(s, ch) || ch == s.bound) {
      assert BinderOwes(s', id, s.bound);
      if x: CallId :| BinderOwes(s, x, ch) { assert BinderOwes(s', x, ch); }
      if x: CallId :| CloserOwes(s, x, ch) { assert CloserOwes(s', x, ch); }
    }
  }

  lemma CloseLockKeepsChannels(s: State, id: CallId)
    requires ChannelInv(s) && Can(s, CloseLock(id)) && !s.closed
    ensures ChannelInv(Next(s, CloseLock(id)))
  {
    var s' := Next(s, CloseLock(id));
    assert forall x: CallId, ch: ChanId :: BinderOwes(s', x, ch) == BinderOwes(s, x, ch);
    assert forall x: CallId, ch: ChanId :: CloserOwes(s', x, ch) <==> CloserOwes(s, x, ch) || (x == id && ch == s.bound);
    assert Current(s, s.bound);
    forall ch: nat ensures Owed(s', ch) == (Owed(s, ch) || ch == s.bound) {
      assert CloserOwes(s', id, s.bound);
      if x: CallId :| BinderOwes(s, x, ch) { assert BinderOwes(s', x, ch); }
      if x: CallId :| CloserOwes(s, x, ch) { assert CloserOwes(s', x, ch); }
    }
  }

  /** Paying an owed close: the channel is closed once and owed no longer. */
  lemma PayKeepsChannels(s: State, s': State, paid: ChanId)
    requires ChannelInv(s) && Owed(s, paid) && paid < |s.chans| && !Current(s, paid)
    requires s'.bound == s.bound && s'.closed == s.closed && s'.cur == s.cur && s'.waiting == s.waiting
    requires s'.chans == Bump(s.chans, paid)
    requires forall x: CallId, ch: ChanId :: BinderOwes(s', x, ch) <==> BinderOwes(s, x, ch) && ch != paid
    requires forall x: CallId, ch: ChanId :: CloserOwes(s', x, ch) <==> CloserOwes(s, x, ch) && ch != paid
    ensures ChannelInv(s')
  {
    forall ch: nat ensures Owed(s', ch) == (Owed(s, ch) && ch != paid) {
      if ch != paid {
        if x: CallId :| BinderOwes(s, x, ch) { assert BinderOwes(s', x, ch); }
        if x: CallId :| CloserOwes(s, x, ch) { assert CloserOwes(s', x, ch); }
      }
    }
    assert forall ch: nat :: Current(s', ch) == Current(s, ch);
  }

  lemma BindWakeKeepsChannels(s: State, id: CallId)
    requires ChannelInv(s) && Can(s, BindWake(id))
    ensures ChannelInv(Next(s, BindWake(id)))
  {
    var s', paid := Next(s, BindWake(id)), s.binders[id].prevBound;
    assert BinderOwes(s, id, paid);
    forall x: CallId, ch: ChanId ensures BinderOwes(s', x, ch) <==> BinderOwes(s, x, ch) && ch != paid {
      assert BinderOwes(s, x, paid) ==> x == id;
      assert !BinderOwes(s', id, ch) && (BinderOwes(s, id, ch) ==> ch == paid);
    }
    forall x: CallId, ch: ChanId ensures CloserOwes(s', x, ch) <==> CloserOwes(s, x, ch) && ch != paid {
      assert !CloserOwes(s, x, paid);
    }
    PayKeepsChannels(s, s', paid);
  }

  lemma CloseWakeKeepsChannels(s: State, id: CallId)
    requires ChannelInv(s) && Can(s, CloseWake(id))
    ensures ChannelInv(Next(s, CloseWake(id)))
  {
    var s', paid := Next(s, CloseWake(id)), s.closers[id].bound;
    assert CloserOwes(s, id, paid);
    forall x: CallId, ch: ChanId ensures CloserOwes(s', x, ch) <==> CloserOwes(s, x, ch) && ch != paid {
      assert CloserOwes(s, x, paid) ==> x == id;
      assert !CloserOwes(s', id, ch) && (CloserOwes(s, id, ch) ==> ch == paid);
    }
    forall x: CallId, ch: ChanId ensures BinderOwes(s', x, ch) <==> BinderOwes(s, x, ch) && ch != paid {
      assert BinderOwes(s, x, paid) ==> !CloserOwes(s, id, paid);
    }
    PayKeepsChannels(s, s', paid);
  }

  lemma StepKeepsChannels(s: State, step: Step)
    requires ChannelInv(s) && Can(s, step)
    ensures ChannelInv(Next(s, step))
  {
    var s' := Next(s, step);
    match step {
      case BindInstall(id) =>
        if !s.closed { InstallKeepsChannels(s, id); } else { ChannelsUntouched(s, s'); }
      case BindWake(id) => BindWakeKeepsChannels(s, id);
      case CloseLock(id) =>
        if !s.closed { CloseLockKeepsChannels(s, id); } else { ChannelsUntouched(s, s'); }
      case CloseWake(id) => CloseWakeKeepsChannels(s, id);
      case _ => ChannelsUntouched(s, s');
    }
  }

  lemma {:induction false} RunKeepsChannels(s: State, steps: seq<Step>)
    requires ChannelInv(s) && Runs(s, steps)
    ensures ChannelInv(After(s, steps))
    decreases |steps|
  {
    if steps != [] {
      StepKeepsChannels(s, steps[0]);
      RunKeepsChannels(Next(s, steps[0]), steps[1..]);
    }
  }

  /** In every interleaving each bound channel is closed at most once, and exactly once unless current or owed a close. */
  lemma ChannelsClosedOnce(steps: seq<Step>, ch: ChanId)
    requires Runs(NEW, steps) && ch < |After(NEW, steps).chans|
    ensures var s := After(NEW, steps); s.chans[ch] == if Current(s, ch) || Owed(s, ch) then 0 else 1
  {
    RunKeepsChannels(NEW, steps);
  }

  /**
   No missed wake-up: a waiting Accept can go on, or some call is about to wake it, or the
   acceptor is open with no listener bound, which is what it is waiting for.
   */
  lemma NoMissedWake(steps: seq<Step>, id: CallId)
    requires Runs(NEW, steps) && id in After(NEW, steps).waiting
    ensures var s := After(NEW, steps);
            && s.waiting[id] < |s.chans| && (Can(s, AcceptWake(id)) <==> s.chans[s.waiting[id]] > 0)
            && (s.chans[s.waiting[id]] > 0 || Owed(s, s.waiting[id]) || (!s.closed && s.cur.None?))
  {
    RunKeepsChannels(NEW, steps);
  }

  /** An Accept waits on the current channel exactly when the acceptor is open and no listener is bound. */
  lemma AcceptBegins(s: State, id: CallId)
    requires id !in s.waiting
    ensures Can(s, AcceptLook(id))
    ensures Next(s, AcceptLook(id)) == if !s.closed && s.cur.None? then s.(waiting := s.waiting[id := s.bound]) else s
  {
  }

  /** An Accept that wakes or is cancelled waits no longer, and nothing else changes. */
  lemma AcceptEnds(s: State, id: CallId)
    requires id in s.waiting
    ensures Can(s, AcceptCancel(id)) && !Can(s, AcceptLook(id))
    ensures Next(s, AcceptCancel(id)) == s.(waiting := s.waiting - {id})
    ensures Can(s, AcceptWake(id)) ==> Next(s, AcceptWake(id)) == s.(waiting := s.waiting - {id})
  {
  }

  // ---------- listeners ----------

  /** A call in flight holds this listener and will close it. */
  predicate BinderHolds(s: State, id: CallId, l: Listener) {
    id in s.binders &&
    match s.binders[id]
    case Looked(_) => false
    case Made(_, next) => next == l
    case Installed(prev, _) => prev == Some(l)
    case Woken(prev) => prev == Some(l)
    case Rejected(next) => next == l
  }

  predicate CloserHolds(s: State, id: CallId, l: Listener) {
    id in s.closers && s.closers[id].cur == Some(l)
  }

  /** The listener is current, or held by a call in flight. */
  ghost predicate InHands(s: State, l: Listener) {
    || s.cur == Some(l)
    || (exists id: CallId :: BinderHolds(s, id, l))
    || (exists id: CallId :: CloserHolds(s, id, l))
  }

  /** The step does not overwrite a listener its Bind has not seen. */
  predicate FreshStep(s: State, step: Step)
    requires Can(s, step)
  {
    step.BindInstall? && !s.closed ==> s.binders[step.id].prev == s.cur
  }

  /** Runs in which every install finds the listener its Bind looked at still current. */
  ghost predicate FreshInstalls(s: State, steps: seq<Step>)
    requires Runs(s, steps)
    decreases |steps|
  {
    steps == [] || (FreshStep(s, steps[0]) && FreshInstalls(Next(s, steps[0]), steps[1..]))
  }

  // In such runs every listener is in exactly one hand and open, or in none and closed once.

  ghost predicate Kept(s: State) {
    && (s.cur.Some? ==> s.cur.value < |s.listeners|)
    && (forall id: CallId, l: Listener :: BinderHolds(s, id, l) ==> l < |s.listeners| && s.cur != Some(l))
    && (forall id: CallId, l: Listener :: CloserHolds(s, id, l) ==> l < |s.listeners| && s.cur != Some(l))
    && (forall id: CallId, other: CallId, l: Listener :: BinderHolds(s, id, l) && BinderHolds(s, other, l) ==> id == other)
    && (forall id: CallId, other: CallId, l: Listener :: CloserHolds(s, id, l) && CloserHolds(s, other, l) ==> id == other)
    && (forall id: CallId, other: CallId, l: Listener :: BinderHolds(s, id, l) ==> !CloserHolds(s, other, l))
    && (forall l: nat :: l < |s.listeners| ==> s.listeners[l] == if InHands(s, l) then 0 else 1)
  }

  /** Whoever holds a listener in either state holds it in both. */
  lemma SameHands(s: State, s': State)
    requires Kept(s) && s'.cur == s.cur && s'.listeners == s.listeners
    requires forall id: CallId, l: Listener :: BinderHolds(s', id, l) == BinderHolds(s, id, l)
    requires forall id: CallId, l: Listener :: CloserHolds(s', id, l) == CloserHolds(s, id, l)
    ensures Kept(s')
  {
    forall l: nat ensures InHands(s', l) == InHands(s, l) {
      if id: CallId :| BinderHolds(s, id, l) { assert BinderHolds(s', id, l); }
      if id: CallId :| CloserHolds(s, id, l) { assert CloserHolds(s', id, l); }
    }
  }

  /** Closing a held listener takes it out of its hand. */
  lemma PayKeepsHands(s: State, s': State, paid: Listener)
    requires Kept(s) && InHands(s, paid) && paid < |s.listeners| && s.cur != Some(paid)
    requires s'.cur == s.cur && s'.listeners == Bump(s.listeners, paid)
    requires forall id: CallId, l: Listener :: BinderHolds(s', id, l) <==> BinderHolds(s, id, l) && l != paid
    requires forall id: CallId, l: Listener :: CloserHolds(s', id, l) <==> CloserHolds(s, id, l) && l != paid
    ensures Kept(s')
  {
    forall l: nat ensures InHands(s', l) == (InHands(s, l) && l != paid) {
      if l != paid {
        if id: CallId :| BinderHolds(s, id, l) { assert BinderHolds(s', id, l); }
        if id: CallId :| CloserHolds(s, id, l) { assert CloserHolds(s', id, l); }
      }
    }
  }

  lemma MakeKeepsHands(s: State, id: CallId)
    requires Kept(s) && Can(s, BindMake(id, true))
    ensures Kept(Next(s, BindMake(id, true)))
  {
    var s', n := Next(s, BindMake(id, true)), |s.listeners|;
    assert forall x: CallId, l: Listener :: BinderHolds(s', x, l) <==> BinderHolds(s, x, l) || (x == id && l == n);
    assert forall x: CallId, l: Listener :: CloserHolds(s', x, l) == CloserHolds(s, x, l);
    forall l: nat ensures InHands(s', l) == (InHands(s, l) || l == n) {
      assert BinderHolds(s', id, n);
      if x: CallId :| BinderHolds(s, x, l) { assert BinderHolds(s', x, l); }
      if x: CallId :| CloserHolds(s, x, l) { assert CloserHolds(s', x, l); }
    }
  }

  /** A fresh install passes the new listener to the acceptor and the old one to the Bind. */
  lemma InstallKeepsHands(s: State, id: CallId)
    requires Kept(s) && Can(s, BindInstall(id)) && FreshStep(s, BindInstall(id)) && !s.closed
    ensures Kept(Next(s, BindInstall(id)))
  {
    var s', next := Next(s, BindInstall(id)), s.binders[id].next;
    assert BinderHolds(s, id, next);
    assert forall x: CallId, l: Listener ::
      BinderHolds(s', x, l) <==> if x == id then s.cur == Some(l) else BinderHolds(s, x, l);
    assert forall x: CallId, l: Listener :: CloserHolds(s', x, l) == CloserHolds(s, x, l);
    forall l: nat ensures InHands(s', l) == InHands(s, l) {
      if s.cur == Some(l) { assert BinderHolds(s', id, l); }
      if x: CallId :| BinderHolds(s, x, l) {
        if x == id { assert l == next; } else { assert BinderHolds(s', x, l); }
      }
      if x: CallId :| CloserHolds(s, x, l) { assert CloserHolds(s', x, l); }
      if x: CallId :| BinderHolds(s', x, l) { assert x != id ==> BinderHolds(s, x, l); }
      if x: CallId :| CloserHolds(s', x, l) { assert CloserHolds(s, x, l); }
    }
  }

  /** Close takes the current listener out of the acceptor. */
  lemma LockKeepsHands(s: State, id: CallId)
    requires Kept(s) && Can(s, CloseLock(id)) && !s.closed
    ensures Kept(Next(s, CloseLock(id)))
  {
    var s' := Next(s, CloseLock(id));
    assert forall x: CallId, l: Listener :: BinderHolds(s', x, l) == BinderHolds(s, x, l);
    assert forall x: CallId, l: Listener :: CloserHolds(s', x, l) <==> CloserHolds(s, x, l) || (x == id && s.cur == Some(l));
    forall l: nat ensures InHands(s', l) == InHands(s, l) {
      if s.cur == Some(l) { assert CloserHolds(s', id, l); }
      if x: CallId :| BinderHolds(s, x, l) { assert BinderHolds(s', x, l); }
      if x: CallId :| CloserHolds(s, x, l) { assert CloserHolds(s', x, l); }
    }
  }

  /** A Bind's last step: it closes the one listener it holds, if any, and holds none afterwards. */
  lemma BinderPays(s: State, step: Step)
    requires Kept(s) && Can(s, step) && (step.BindClosePrev? || step.BindReject?)
    ensures Kept(Next(s, step))
  {
    var s', b := Next(s, step), s.binders[step.id];
    var held := if b.Rejected? then Some(b.next) else b.prev;
    assert forall l: Listener :: BinderHolds(s, step.id, l) <==> held == Some(l);
    assert forall x: CallId, l: Listener :: BinderHolds(s', x, l) <==> BinderHolds(s, x, l) && x != step.id;
    assert forall x: CallId, l: Listener :: CloserHolds(s', x, l) == CloserHolds(s, x, l);
    if held.Some? {
      assert BinderHolds(s, step.id, held.value);
      PayKeepsHands(s, s', held.value);
    } else {
      SameHands(s, s');
    }
  }

  lemma CloserPays(s: State, id: CallId)
    requires Kept(s) && Can(s, CloseCurrent(id))
    ensures Kept(Next(s, CloseCurrent(id)))
  {
    var s', held := Next(s, CloseCurrent(id)), s.closers[id].cur;
    assert forall l: Listener :: CloserHolds(s, id, l) <==> held == Some(l);
    assert forall x: CallId, l: Listener :: CloserHolds(s', x, l) <==> CloserHolds(s, x, l) && x != id;
    assert forall x: CallId, l: Listener :: BinderHolds(s', x, l) == BinderHolds(s, x, l);
    if held.Some? {
      assert CloserHolds(s, id, held.value);
      PayKeepsHands(s, s', held.value);
    } else {
      SameHands(s, s');
    }
  }

  lemma StepKeepsListeners(s: State, step: Step)
    requires Kept(s) && Can(s, step) && FreshStep(s, step)
    ensures Kept(Next(s, step))
  {
    var s' := Next(s, step);
    match step {
      case BindMake(id, ok) => if ok { MakeKeepsHands(s, id); } else { SameHands(s, s'); }
      case BindInstall(id) => if !s.closed { InstallKeepsHands(s, id); } else { SameHands(s, s'); }
      case CloseLock(id) => if !s.closed { LockKeepsHands(s, id); } else { SameHands(s, s'); }
      case BindClosePrev(_) => BinderPays(s, step);
      case BindReject(_) => BinderPays(s, step);
      case CloseCurrent(id) => CloserPays(s, id);
      case _ => SameHands(s, s');
    }
  }

  lemma {:induction false} FreshKeepsListeners(s: State, steps: seq<Step>)
    requires Kept(s) && Runs(s, steps) && FreshInstalls(s, steps)
    ensures Kept(After(s, steps))
    decreases |steps|
  {
    if steps != [] {
      StepKeepsListeners(s, steps[0]);
      FreshKeepsListeners(Next(s, steps[0]), steps[1..]);
    }
  }

  // In every other run a listener is lost: open, not current, and in nobody's hands.

  ghost predicate Lost(s: State, l: Listener) {
    l < |s.listeners| && s.listeners[l] == 0 && !InHands(s, l)
  }

  predicate Saw(s: State, id: CallId, l: Listener) {
    id in s.binders && !s.binders[id].Rejected? && s.binders[id].prev == Some(l)
  }

  /** This listener was made and not installed yet. */
  predicate Waits(s: State, id: CallId, l: Listener) {
    id in s.binders && s.binders[id].Made? && s.binders[id].next == l
  }

  /** What every run keeps: the current listener and those not yet installed are open and nobody else's to close. */
  ghost predicate Sound(s: State) {
    && (forall id: CallId, l: Listener :: Saw(s, id, l) ==> l < |s.listeners| && (s.cur.Some? || s.closed))
    && (forall id: CallId, l: Listener :: CloserHolds(s, id, l) ==> l < |s.listeners|)
    && (s.cur.Some? ==> s.cur.value < |s.listeners| && s.listeners[s.cur.value] == 0)
    && (forall id: CallId, l: Listener :: BinderHolds(s, id, l) || CloserHolds(s, id, l) ==> s.cur != Some(l))
    && (forall id: CallId, l: Listener :: Waits(s, id, l) ==> l < |s.listeners| && s.listeners[l] == 0)
    && (forall id: CallId, other: CallId, l: Listener :: Waits(s, id, l) && other != id ==> !BinderHolds(s, other, l))
    && (forall id: CallId, other: CallId, l: Listener :: Waits(s, id, l) ==> !Saw(s, other, l))
    && (forall id: CallId, other: CallId, l: Listener :: Waits(s, id, l) ==> !CloserHolds(s, other, l))
    && (forall id: CallId, l: Listener :: BinderHolds(s, id, l) ==> l < |s.listeners|)
  }

  /** Steps that only pass listeners on: what is held or waits in s' did so in s, or was just taken from cur. */
  lemma PassOnKeepsSound(s: State, s': State)
    requires Sound(s) && (s'.cur.None? ==> s'.closed || s.cur.None?) && (s.closed ==> s'.closed)
    requires s'.cur.Some? ==> s'.cur == s.cur
    requires |s'.listeners| == |s.listeners|
    requires forall l: nat :: l < |s.listeners| && s'.listeners[l] != s.listeners[l] ==>
               s.cur != Some(l) && forall x: CallId :: !Waits(s', x, l)
    requires forall x: CallId, l: Listener :: Waits(s', x, l) ==> Waits(s, x, l)
    requires forall x: CallId, l: Listener :: Saw(s', x, l) ==> Saw(s, x, l) || s.cur == Some(l)
    requires forall x: CallId, l: Listener :: BinderHolds(s', x, l) ==> BinderHolds(s, x, l)
    requires forall x: CallId, l: Listener :: CloserHolds(s', x, l) ==> CloserHolds(s, x, l) || (s.cur == Some(l) && s'.cur.None?)
    ensures Sound(s')
  {
    forall id: CallId, l: Listener | Waits(s', id, l) ensures s.cur != Some(l) {
      assert BinderHolds(s, id, l);
    }
  }

  lemma MakeKeepsSound(s: State, id: CallId)
    requires Sound(s) && Can(s, BindMake(id, true))
    ensures Sound(Next(s, BindMake(id, true)))
  {
    var s', n := Next(s, BindMake(id, true)), |s.listeners|;
    assert forall x: CallId, l: Listener :: Waits(s', x, l) <==> (x != id && Waits(s, x, l)) || (x == id && l == n);
    assert forall x: CallId, l: Listener :: Saw(s', x, l) == Saw(s, x, l);
    assert forall x: CallId, l: Listener :: BinderHolds(s', x, l) <==> BinderHolds(s, x, l) || (x == id && l == n);
    assert forall x: CallId, l: Listener :: CloserHolds(s', x, l) == CloserHolds(s, x, l);
  }

  lemma InstallKeepsSound(s: State, id: CallId)
    requires Sound(s) && Can(s, BindInstall(id)) && !s.closed
    ensures Sound(Next(s, BindInstall(id)))
  {
    var s', next := Next(s, BindInstall(id)), s.binders[id].next;
    assert Waits(s, id, next) && BinderHolds(s, id, next);
    assert forall x: CallId, l: Listener :: Waits(s', x, l) <==> Waits(s, x, l) && x != id;
    assert forall x: CallId, l: Listener :: Saw(s', x, l) == Saw(s, x, l);
    assert forall x: CallId, l: Listener :: BinderHolds(s', x, l) <==> if x == id then Saw(s, x, l) else BinderHolds(s, x, l);
    assert forall x: CallId, l: Listener :: CloserHolds(s', x, l) == CloserHolds(s, x, l);
    assert forall x: CallId, l: Listener :: Waits(s, x, l) ==> BinderHolds(s, x, l);
    forall x: CallId ensures !BinderHolds(s', x, next) && !CloserHolds(s', x, next) {
      assert !Saw(s, x, next) && !CloserHolds(s, x, next);
      assert x != id ==> !BinderHolds(s, x, next);
    }
  }

  lemma PayKeepsSound(s: State, step: Step)
    requires Sound(s) && Can(s, step) && (step.BindClosePrev? || step.BindReject? || step.CloseCurrent?)
    ensures Sound(Next(s, step))
  {
    var s' := Next(s, step);
    forall l: nat | l < |s.listeners| && s'.listeners[l] != s.listeners[l]
      ensures s.cur != Some(l) && forall x: CallId :: !Waits(s', x, l)
    {
      if step.CloseCurrent? {
        assert CloserHolds(s, step.id, l);
        forall x: CallId ensures !Waits(s', x, l) {
          assert Waits(s', x, l) == Waits(s, x, l);
        }
      } else {
        assert BinderHolds(s, step.id, l);
        forall x: CallId ensures !Waits(s', x, l) {
          assert x != step.id ==> Waits(s', x, l) == Waits(s, x, l);
        }
      }
    }
    PassOnKeepsSound(s, s');
  }

  lemma StepKeepsSound(s: State, step: Step)
    requires Sound(s) && Can(s, step)
    ensures Sound(Next(s, step))
  {
    var s' := Next(s, step);
    match step {
      case BindMake(id, true) => MakeKeepsSound(s, id);
      case BindInstall(id) =>
        if s.closed {
          PassOnKeepsSound(s, s');
        } else {
          InstallKeepsSound(s, id);
        }
      case BindClosePrev(_) => PayKeepsSound(s, step);
      case BindReject(_) => PayKeepsSound(s, step);
      case CloseCurrent(_) => PayKeepsSound(s, step);
      case _ => PassOnKeepsSound(s, s');
    }
  }

  /** An install that overwrites a listener its Bind has not seen loses that listener. */
  lemma StaleInstallLoses(s: State, step: Step)
    requires Sound(s) && Can(s, step) && !FreshStep(s, step)
    ensures s.cur.Some? && Lost(Next(s, step), s.cur.value)
  {
    var id := step.id;
    assert s.binders[id].prev.Some? ==> Saw(s, id, s.binders[id].prev.value);
    var s', l := Next(s, step), s.cur.value;
    assert Waits(s, id, s.binders[id].next) && BinderHolds(s, id, s.binders[id].next);
    forall x: CallId ensures !BinderHolds(s', x, l) && !CloserHolds(s', x, l) {
      assert x != id ==> BinderHolds(s', x, l) == BinderHolds(s, x, l);
      assert CloserHolds(s', x, l) == CloserHolds(s, x, l);
    }
  }

  /** Nobody finds a lost listener again. */
  lemma LostStays(s: State, step: Step, l: Listener)
    requires Lost(s, l) && Can(s, step) && FreshStep(s, step)
    ensures Lost(Next(s, step), l)
  {
    var s' := Next(s, step);
    forall x: CallId ensures !BinderHolds(s', x, l) && !CloserHolds(s', x, l) {
      assert !BinderHolds(s, x, l) && !CloserHolds(s, x, l);
    }
    if step.BindInstall? { assert !BinderHolds(s, step.id, l); }
    if step.BindClosePrev? || step.BindReject? || step.CloseCurrent? {
      assert !BinderHolds(s, step.id, l) && !CloserHolds(s, step.id, l);
    }
  }

  lemma {:induction false} FreshLosesForGood(s: State, steps: seq<Step>, l: Listener)
    requires Lost(s, l) && Runs(s, steps) && FreshInstalls(s, steps)
    ensures Lost(After(s, steps), l)
    decreases |steps|
  {
    if steps != [] {
      LostStays(s, steps[0], l);
      FreshLosesForGood(Next(s, steps[0]), steps[1..], l);
    }
  }

  /** The listener overwritten by the last stale install is lost when the run ends. */
  lemma {:induction false} StaleRunLoses(s: State, steps: seq<Step>) returns (l: Listener)
    requires Sound(s) && Runs(s, steps) && !FreshInstalls(s, steps)
    ensures Lost(After(s, steps), l)
    decreases |steps|
  {
    var s' := Next(s, steps[0]);
    StepKeepsSound(s, steps[0]);
    if FreshInstalls(s', steps[1..]) {
      StaleInstallLoses(s, steps[0]);
      l := s.cur.value;
      FreshLosesForGood(s', steps[1..], l);
    } else {
      l := StaleRunLoses(s', steps[1..]);
    }
  }

  /**
   Every listener, exactly: when the calls are done, each one made is closed exactly once, the
   current one not at all, if and only if every install found the listener its Bind had looked at
   still current.
   */
  lemma ListenersClosedOnce(steps: seq<Step>)
    requires Runs(NEW, steps) && After(NEW, steps).binders == map[] && After(NEW, steps).closers == map[]
    ensures var s := After(NEW, steps);
            FreshInstalls(NEW, steps) <==>
            forall l: nat :: l < |s.listeners| ==> s.listeners[l] == if s.cur == Some(l) then 0 else 1
  {
    var s := After(NEW, steps);
    assert forall id: CallId, l: Listener :: !BinderHolds(s, id, l) && !CloserHolds(s, id, l);
    if FreshInstalls(NEW, steps) {
      FreshKeepsListeners(NEW, steps);
    } else {
      var l := StaleRunLoses(NEW, steps);
      assert s.listeners[l] == 0 && s.cur != Some(l);
    }
  }

  /** Before the calls are done: a listener is open exactly while it is current or in the hands of a call in flight. */
  lemma OpenWhileInHands(steps: seq<Step>, l: Listener)
    requires Runs(NEW, steps) && FreshInstalls(NEW, steps) && l < |After(NEW, steps).listeners|
    ensures var s := After(NEW, steps); s.listeners[l] == if InHands(s, l) then 0 else 1
  {
    FreshKeepsListeners(NEW, steps);
  }

  /** So a listener besides the current one is open exactly while some call in flight is about to close one. */
  lemma SecondOpenListener(steps: seq<Step>)
    requires Runs(NEW, steps) && FreshInstalls(NEW, steps)
    ensures var s := After(NEW, steps);
            (exists l: nat :: l < |s.listeners| && s.cur != Some(l) && s.listeners[l] == 0)
            <==> exists id: CallId, l: Listener :: BinderHolds(s, id, l) || CloserHolds(s, id, l)
  {
    FreshKeepsListeners(NEW, steps);
    var s := After(NEW, steps);
    if l: nat :| l < |s.listeners| && s.cur != Some(l) && s.listeners[l] == 0 {
      assert InHands(s, l);
    }
    if id: CallId, l: Listener :| BinderHolds(s, id, l) || CloserHolds(s, id, l) {
      assert InHands(s, l);
    }
  }

  /** In particular right after an install: the new listener is current and the old one still open. */
  lemma InstalledBeforeClosed(s: State, id: CallId)
    requires Kept(s) && Can(s, BindInstall(id)) && FreshStep(s, BindInstall(id)) && !s.closed && s.cur.Some?
    ensures var s', next := Next(s, BindInstall(id)), s.binders[id].next;
            && s'.cur == Some(next) && next != s.cur.value && next < |s'.listeners| && s.cur.value < |s'.listeners|
            && s'.listeners[next] == 0 && s'.listeners[s.cur.value] == 0
  {
    assert BinderHolds(s, id, s.binders[id].next);
    assert InHands(s, s.binders[id].next) && InHands(s, s.cur.value);
  }

  lemma {:induction false} NoneSurvivesClose(s: State, steps: seq<Step>)
    requires Runs(s, steps) && (s.closed ==> s.cur.None?)
    ensures After(s, steps).closed ==> After(s, steps).cur.None?
    decreases |steps|
  {
    if steps != [] {
      NoneSurvivesClose(Next(s, steps[0]), steps[1..]);
    }
  }

  // ---------- Binds that do not overlap ----------

  /** Runs in which a Bind starts only when none is under way. */
  ghost predicate Serial(s: State, steps: seq<Step>)
    decreases |steps|
  {
    steps == [] ||
    (Can(s, steps[0]) && (steps[0].BindLook? ==> s.binders == map[]) && Serial(Next(s, steps[0]), steps[1..]))
  }

  /** At most one Bind, and until it installs it has seen the current listener. */
  ghost predicate OneBinder(s: State) {
    && (forall id, other :: id in s.binders && other in s.binders ==> id == other)
    && (forall id :: id in s.binders && (s.binders[id].Looked? || s.binders[id].Made?) && !s.closed ==>
          s.binders[id].prev == s.cur)
  }

  lemma {:induction false} SerialIsFresh(s: State, steps: seq<Step>)
    requires OneBinder(s) && Serial(s, steps)
    ensures Runs(s, steps) && FreshInstalls(s, steps)
    decreases |steps|
  {
    if steps != [] {
      assert OneBinder(Next(s, steps[0]));
      SerialIsFresh(Next(s, steps[0]), steps[1..]);
    }
  }

  // ---------- two Binds that overlap ----------

  /** Two Binds that both look before either installs. */
  const OVERLAP_MAKE: seq<Step> := [BindLook(1), BindLook(2), BindMake(1, true), BindMake(2, true)]

  const OVERLAP_INSTALL: seq<Step> := [BindInstall(1), BindInstall(2), BindWake(1)]

  const OVERLAP_FINISH: seq<Step> := [BindClosePrev(1), BindWake(2), BindClosePrev(2)]

  const BOTH_MADE := State(None, 0, false, [0], [0, 0], map[1 := Made(None, 0), 2 := Made(None, 1)], map[], map[])

  const FIRST_WOKEN := State(Some(1), 2, false, [1, 0, 0], [0, 0],
    map[1 := Woken(None), 2 := Installed(None, 1)], map[], map[])

  const LEAKED := State(Some(1), 2, false, [1, 1, 0], [0, 0], map[], map[], map[])

  lemma Unroll(s: State, steps: seq<Step>, s1: State)
    requires steps != [] && Can(s, steps[0]) && s1 == Next(s, steps[0])
    ensures Runs(s, steps) == Runs(s1, steps[1..])
    ensures Runs(s, steps) ==> After(s, steps) == After(s1, steps[1..])
  {
  }

  lemma OverlapMakes()
    ensures Runs(NEW, OVERLAP_MAKE) && After(NEW, OVERLAP_MAKE) == BOTH_MADE
  {
    var s1 := NEW.(binders := map[1 := Looked(None)]);
    var s2 := NEW.(binders := map[1 := Looked(None), 2 := Looked(None)]);
    var s3 := s2.(binders := map[1 := Made(None, 0), 2 := Looked(None)], listeners := [0]);
    Unroll(NEW, OVERLAP_MAKE, s1);
    Unroll(s1, OVERLAP_MAKE[1..], s2);
    Unroll(s2, OVERLAP_MAKE[2..], s3);
    Unroll(s3, OVERLAP_MAKE[3..], BOTH_MADE);
  }

  lemma OverlapInstalls()
    ensures Runs(BOTH_MADE, OVERLAP_INSTALL) && After(BOTH_MADE, OVERLAP_INSTALL) == FIRST_WOKEN
  {
    var s1 := BOTH_MADE.(binders := map[1 := Installed(None, 0), 2 := Made(None, 1)], cur := Some(0), bound := 1, chans := [0, 0]);
    var s2 := FIRST_WOKEN.(binders := map[1 := Installed(None, 0), 2 := Installed(None, 1)], chans := [0, 0, 0]);
    Unroll(BOTH_MADE, OVERLAP_INSTALL, s1);
    Unroll(s1, OVERLAP_INSTALL[1..], s2);
    Unroll(s2, OVERLAP_INSTALL[2..], FIRST_WOKEN);
  }

  lemma OverlapFinishes()
    ensures Runs(FIRST_WOKEN, OVERLAP_FINISH) && After(FIRST_WOKEN, OVERLAP_FINISH) == LEAKED
  {
    var s1 := FIRST_WOKEN.(binders := map[2 := Installed(None, 1)]);
    var s2 := LEAKED.(binders := map[2 := Woken(None)]);
    Unroll(FIRST_WOKEN, OVERLAP_FINISH, s1);
    Unroll(s1, OVERLAP_FINISH[1..], s2);
    Unroll(s2, OVERLAP_FINISH[2..], LEAKED);
  }

  lemma {:induction false} RunsAppend(s: State, a: seq<Step>, b: seq<Step>)
    requires Runs(s, a) && Runs(After(s, a), b)
    ensures Runs(s, a + b) && After(s, a + b) == After(After(s, a), b)
    decreases |a|
  {
    if a == [] {
      assert a + b == b;
    } else {
      RunsAppend(Next(s, a[0]), a[1..], b);
      assert (a + b)[1..] == a[1..] + b;
    }
  }

  /** Both Binds saw the same previous listener, so at rest the first one's listener is live and not current. */
  lemma OverlappingBindsLeak()
    ensures Runs(NEW, OVERLAP_MAKE + (OVERLAP_INSTALL + OVERLAP_FINISH))
    ensures var s := After(NEW, OVERLAP_MAKE + (OVERLAP_INSTALL + OVERLAP_FINISH));
            s.binders == map[] && s.closers == map[] && s.cur == Some(1) && s.listeners == [0, 0]
  {
    OverlapMakes();
    OverlapInstalls();
    OverlapFinishes();
    RunsAppend(BOTH_MADE, OVERLAP_INSTALL, OVERLAP_FINISH);
    RunsAppend(NEW, OVERLAP_MAKE, OVERLAP_INSTALL + OVERLAP_FINISH);
  }

  // ---------- the acceptor itself ----------

  class Channel {
    var closed: bool

    constructor ()
      ensures !closed
    {
      closed := false;
    }
  }

  class TunnelListener {
    var closed: bool

    constructor ()
      ensures !closed
    {
      closed := false;
    }
  }

  datatype Accepting = Closed | On(listener: TunnelListener) | WaitFor(bound: Channel)

  /** The steps of one Bind that nothing interrupts. */
  function BindSteps(s: State, id: CallId, factoryOk: bool): seq<Step> {
    if s.closed then [BindLook(id)]
    else if !factoryOk then [BindLook(id), BindMake(id, false)]
    else [BindLook(id), BindMake(id, true), BindInstall(id), BindWake(id), BindClosePrev(id)]
  }

  function CloseSteps(s: State, id: CallId): seq<Step> {
    if s.closed then [CloseLock(id)] else [CloseLock(id), CloseWake(id), CloseCurrent(id)]
  }

  function CloseIn(listeners: seq<nat>, l: Option<Listener>): (r: seq<nat>)
    requires l.Some? ==> l.value < |listeners|
    ensures |r| == |listeners|
  {
    if l.Some? then Bump(listeners, l.value) else listeners
  }

  /** The state when an uninterrupted Bind is done. */
  function Rebound(s: State): State
    requires s.bound < |s.chans| && (s.cur.Some? ==> s.cur.value < |s.listeners|)
  {
    s.(cur := Some(|s.listeners|), bound := |s.chans|, chans := Bump(s.chans, s.bound) + [0],
       listeners := CloseIn(s.listeners, s.cur) + [0])
  }

  function Shut(s: State): State
    requires s.bound < |s.chans| && (s.cur.Some? ==> s.cur.value < |s.listeners|)
  {
    s.(cur := None, closed := true, chans := Bump(s.chans, s.bound), listeners := CloseIn(s.listeners, s.cur))
  }

  /** The first step of a run that begins with a fresh one. */
  lemma FreshUnroll(s: State, steps: seq<Step>, s1: State)
    requires steps != [] && Can(s, steps[0]) && s1 == Next(s, steps[0]) && FreshStep(s, steps[0])
    requires Runs(s1, steps[1..]) && FreshInstalls(s1, steps[1..])
    ensures Runs(s, steps) && FreshInstalls(s, steps) && After(s, steps) == After(s1, steps[1..])
  {
  }

  /** The last two steps of a Bind that has installed its listener. */
  lemma BindFinishes(s: State, id: CallId)
    requires Can(s, BindWake(id))
    requires s.binders[id].prev.Some? ==> s.binders[id].prev.value < |s.listeners|
    ensures Runs(s, [BindWake(id), BindClosePrev(id)]) && FreshInstalls(s, [BindWake(id), BindClosePrev(id)])
    ensures After(s, [BindWake(id), BindClosePrev(id)]) ==
            s.(chans := Bump(s.chans, s.binders[id].prevBound), listeners := CloseIn(s.listeners, s.binders[id].prev),
               binders := s.binders - {id})
  {
    var s1 := Next(s, BindWake(id));
    assert s1.binders - {id} == s.binders - {id};
    FreshUnroll(s1, [BindClosePrev(id)], Next(s1, BindClosePrev(id)));
    FreshUnroll(s, [BindWake(id), BindClosePrev(id)], s1);
  }

  lemma BindInstalls(s: State, id: CallId)
    requires Can(s, BindInstall(id)) && FreshStep(s, BindInstall(id)) && !s.closed && s.bound < |s.chans|
    requires s.cur.Some? ==> s.cur.value < |s.listeners|
    ensures var steps := [BindInstall(id), BindWake(id), BindClosePrev(id)];
            && Runs(s, steps) && FreshInstalls(s, steps)
            && After(s, steps) ==
               s.(cur := Some(s.binders[id].next), bound := |s.chans|, chans := Bump(s.chans, s.bound) + [0],
                  listeners := CloseIn(s.listeners, s.cur), binders := s.binders - {id})
  {
    var s1 := Next(s, BindInstall(id));
    assert s1.binders - {id} == s.binders - {id};
    assert Bump(s.chans + [0], s.bound) == Bump(s.chans, s.bound) + [0];
    BindFinishes(s1, id);
    FreshUnroll(s, [BindInstall(id), BindWake(id), BindClosePrev(id)], s1);
  }

  lemma BindFails(s: State, id: CallId)
    requires id !in s.binders && !s.closed
    ensures var steps := [BindLook(id), BindMake(id, false)];
            Runs(s, steps) && FreshInstalls(s, steps) && After(s, steps) == s
  {
    var s1 := Next(s, BindLook(id));
    assert s1.binders - {id} == s.binders;
    FreshUnroll(s1, [BindMake(id, false)], s);
    FreshUnroll(s, [BindLook(id), BindMake(id, false)], s1);
  }

  lemma BindSucceeds(s: State, id: CallId)
    requires id !in s.binders && !s.closed && s.bound < |s.chans| && (s.cur.Some? ==> s.cur.value < |s.listeners|)
    ensures var steps := BindSteps(s, id, true);
            Runs(s, steps) && FreshInstalls(s, steps) && After(s, steps) == Rebound(s)
  {
    var rest := [BindInstall(id), BindWake(id), BindClosePrev(id)];
    var s1 := Next(s, BindLook(id));
    var s2 := Next(s1, BindMake(id, true));
    BindInstalls(s2, id);
    assert After(s2, rest) == Rebound(s) by {
      assert s2.binders - {id} == s.binders;
      assert CloseIn(s.listeners + [0], s.cur) == CloseIn(s.listeners, s.cur) + [0];
    }
    FreshUnroll(s1, [BindMake(id, true)] + rest, s2);
    FreshUnroll(s, [BindLook(id)] + ([BindMake(id, true)] + rest), s1);
    assert [BindLook(id)] + ([BindMake(id, true)] + rest) == BindSteps(s, id, true);
  }

  /** An uninterrupted Bind is a fresh run, and leaves no call in flight behind. */
  lemma BindUninterrupted(s: State, id: CallId, factoryOk: bool)
    requires id !in s.binders && s.bound < |s.chans| && (s.cur.Some? ==> s.cur.value < |s.listeners|)
    ensures Runs(s, BindSteps(s, id, factoryOk)) && FreshInstalls(s, BindSteps(s, id, factoryOk))
    ensures After(s, BindSteps(s, id, factoryOk)) == if s.closed || !factoryOk then s else Rebound(s)
  {
    if s.closed {
      FreshUnroll(s, [BindLook(id)], s);
    } else if factoryOk {
      BindSucceeds(s, id);
    } else {
      BindFails(s, id);
    }
  }

  lemma CloseUninterrupted(s: State, id: CallId)
    requires id !in s.closers && s.bound < |s.chans| && (s.cur.Some? ==> s.cur.value < |s.listeners|)
    ensures Runs(s, CloseSteps(s, id)) && FreshInstalls(s, CloseSteps(s, id))
    ensures After(s, CloseSteps(s, id)) == if s.closed then s else Shut(s)
  {
    var steps := CloseSteps(s, id);
    var s1 := Next(s, CloseLock(id));
    if !s.closed {
      var s2 := Next(s1, CloseWake(id));
      assert s2.closers - {id} == s.closers;
      FreshUnroll(s2, steps[2..], Next(s2, CloseCurrent(id)));
      FreshUnroll(s1, steps[1..], s2);
    }
    FreshUnroll(s, steps, s1);
  }

  /**
   The acceptor as it is kept. Its ghost fields number the channels and listeners it has made,
   count how often each was closed and record the calls in flight, so that View is the state the
   step relation speaks of.
   */
  class Acceptor {
    var cur: TunnelListener?
    var bound: Channel
    var closed: bool
    ghost var chans: seq<Channel>
    ghost var listeners: seq<TunnelListener>
    ghost var chanCloses: seq<nat>
    ghost var listenerCloses: seq<nat>
    ghost var binders: map<CallId, Binder>
    ghost var closers: map<CallId, Closer>
    ghost var waiting: map<CallId, ChanId>
    ghost var curId: Option<Listener>
    ghost var boundId: ChanId

    ghost function View(): State
      reads this
    {
      State(curId, boundId, closed, chanCloses, listenerCloses, binders, closers, waiting)
    }

    /** The ghost numbering and counts fit the objects. */
    ghost predicate Tied()
      reads this, chans, listeners
    {
      && |chans| == |chanCloses| && |listeners| == |listenerCloses|
      && (forall i, j :: 0 <= i < j < |chans| ==> chans[i] != chans[j])
      && (forall i, j :: 0 <= i < j < |listeners| ==> listeners[i] != listeners[j])
      && (forall i :: 0 <= i < |chans| ==> chans[i].closed == (chanCloses[i] > 0))
      && (forall i :: 0 <= i < |listeners| ==> listeners[i].closed == (listenerCloses[i] > 0))
      && boundId < |chans| && chans[boundId] == bound
      && (curId.None? <==> cur == null)
      && (curId.Some? ==> curId.value < |listeners| && listeners[curId.value] == cur)
    }

    ghost predicate Valid()
      reads this, chans, listeners
    {
      Tied() && ChannelInv(View())
    }

    constructor ()
      ensures Valid() && View() == NEW
    {
      cur, closed := null, false;
      var ch := new Channel();
      bound := ch;
      chans, listeners, chanCloses, listenerCloses := [ch], [], [0], [];
      binders, closers, waiting, curId, boundId := map[], map[], map[], None, 0;
    }

    method CloseChannel(ch: Channel, ghost id: ChanId)
      requires Tied() && id < |chans| && chans[id] == ch
      modifies ch, this`chanCloses
      ensures Tied() && ch.closed && chanCloses == Bump(old(chanCloses), id)
    {
      ch.closed := true;
      chanCloses := Bump(chanCloses, id);
    }

    method CloseListener(l: TunnelListener, ghost id: Listener)
      requires Tied() && id < |listeners| && listeners[id] == l
      modifies l, this`listenerCloses
      ensures Tied() && l.closed && listenerCloses == Bump(old(listenerCloses), id)
    {
      l.closed := true;
      listenerCloses := Bump(listenerCloses, id);
    }

    /** Closes what was current. */
    method CloseOld(l: TunnelListener?, ch: Channel, ghost id: Option<Listener>, ghost chId: ChanId)
      requires Tied() && chId < |chans| && chans[chId] == ch && (id.None? <==> l == null)
      requires id.Some? ==> id.value < |listeners| && listeners[id.value] == l
      modifies ch, l, this`chanCloses, this`listenerCloses
      ensures Tied() && ch.closed && (l != null ==> l.closed)
      ensures chanCloses == Bump(old(chanCloses), chId) && listenerCloses == CloseIn(old(listenerCloses), id)
    {
      CloseChannel(ch, chId);
      if l != null {
        CloseListener(l, id.value);
      }
    }

    method NewListener()
      requires Tied()
      modifies this`cur, this`curId, this`listeners, this`listenerCloses
      ensures Tied() && cur != null && fresh(cur) && !cur.closed && listeners == old(listeners) + [cur]
      ensures View() == old(View()).(cur := Some(old(|listeners|)), listeners := old(listenerCloses) + [0])
    {
      var next := new TunnelListener();
      cur, curId, listeners, listenerCloses := next, Some(|listeners|), listeners + [next], listenerCloses + [0];
    }

    method NewChannel()
      requires Tied()
      modifies this`bound, this`boundId, this`chans, this`chanCloses
      ensures Tied() && fresh(bound) && chans == old(chans) + [bound]
      ensures View() == old(View()).(bound := old(|chans|), chans := old(chanCloses) + [0])
    {
      bound := new Channel();
      boundId, chans, chanCloses := |chans|, chans + [bound], chanCloses + [0];
    }

    /** Installs a fresh listener and channel, then closes the old ones. */
    method Install()
      requires Tied()
      modifies this, bound, cur
      ensures Tied() && View() == Rebound(old(View()))
      ensures cur != null && fresh(cur) && !cur.closed && fresh(bound)
      ensures old(bound).closed && (old(cur) != null ==> old(cur).closed)
    {
      var prev, prevBound := cur, bound;
      ghost var prevId, prevBoundId := curId, boundId;
      NewListener();
      NewChannel();
      CloseOld(prev, prevBound, prevId, prevBoundId);
    }

    /** Wakes who waited on the old channel and closes the old listener once the fresh ones are in place. */
    method Bind(ghost id: CallId, factoryOk: bool) returns (ok: bool)
      requires Valid() && id !in binders
      modifies this, bound, cur
      ensures Valid()
      ensures Runs(old(View()), BindSteps(old(View()), id, factoryOk))
      ensures View() == After(old(View()), BindSteps(old(View()), id, factoryOk))
      ensures ok == (factoryOk && !old(closed))
      ensures ok ==> cur != null && fresh(cur) && !cur.closed && fresh(bound) && old(bound).closed
      ensures ok && old(cur) != null ==> old(cur).closed
    {
      BindUninterrupted(View(), id, factoryOk);
      RunKeepsChannels(View(), BindSteps(View(), id, factoryOk));
      ok := factoryOk && !closed;
      if ok {
        Install();
      }
    }

    /** One turn of Accept's loop: closed, the current listener, or an open channel to wait on. */
    method Look(ghost id: CallId) returns (r: Accepting)
      requires Valid() && id !in waiting
      modifies this`waiting
      ensures Valid() && View() == Next(old(View()), AcceptLook(id))
      ensures r == if closed then Closed else if cur != null then On(cur) else WaitFor(bound)
      ensures r.WaitFor? ==> !r.bound.closed && id in waiting
    {
      StepKeepsChannels(View(), AcceptLook(id));
      if closed {
        return Closed;
      }
      if cur == null {
        waiting := waiting[id := boundId];
        return WaitFor(bound);
      }
      return On(cur);
    }

    /** Closes what is current and leaves nothing in its place. */
    method Drop()
      requires Tied()
      modifies this, bound, cur
      ensures Tied() && View() == Shut(old(View()))
      ensures bound == old(bound) && bound.closed && (old(cur) != null ==> old(cur).closed)
    {
      closed := true;
      var l := cur;
      ghost var prevId := curId;
      cur, curId := null, None;
      CloseOld(l, bound, prevId, boundId);
    }

    /** Idempotent. */
    method Close(ghost id: CallId)
      requires Valid() && id !in closers
      modifies this, bound, cur
      ensures Valid() && closed && bound == old(bound)
      ensures Runs(old(View()), CloseSteps(old(View()), id))
      ensures View() == After(old(View()), CloseSteps(old(View()), id))
      ensures !old(closed) ==> cur == null && bound.closed && (old(cur) != null ==> old(cur).closed)
    {
      CloseUninterrupted(View(), id);
      RunKeepsChannels(View(), CloseSteps(View(), id));
      if !closed {
        Drop();
      }
    }
  }
}
