/**
 The consumer side of a fallback: active sessions, routed sessions and pending settlements.
 Steps are the critical sections of the hooks, the reaper and the settlement handler; any order
 of enabled steps is a run, and history records what happened.
 */
module ConsumerFlow {
  import opened Bytes
  import opened UsageAssertion

  /** An instant; ZERO_TIME is the unset instant. */
  type Time = int

  type CallId = nat

  const ZERO_TIME: Time := 0

  datatype ActiveEntry = ActiveEntry(enteredAt: Time, expiresAt: Time, sidecarURL: string)

  datatype PendingSettlement = PendingSettlement(sessionId: string, maxOutputTokens: uint64, seederPubkey: seq<byte>)

  datatype EntryMetadata = EntryMetadata(enteredAt: Time, expiresAt: Time, seederPubkey: seq<byte>)

  /**
   Settled is the settle call that the tracker accepted, Consumed the delete that follows it;
   lookedAt is how much had happened when the settlement's handler found its reservation.
   */
  datatype Happened =
    | Registered(key: seq<byte>, sessionId: string, ceiling: uint64)
    | Settled(key: seq<byte>, body: seq<byte>, lookedAt: nat)
    | Consumed(key: seq<byte>)
    | Exited(sessionId: string)

  /** A broker assignment and the instants at which it is acted on. */
  datatype Assignment = Assignment(now: Time, expiresAt: Time, sidecarURL: string, reservationToken: seq<byte>,
                                   seederPubkey: seq<byte>, maxOutputTokens: uint64)

  /** A call between two of its critical sections. */
  datatype Handler =
    | Entering(session: string, assignment: Assignment)   // routed; settings.json is being redirected
    | Exiting(rest: seq<string>)                          // these sessions are to be exited in turn
    | Clearing(session: string, rest: seq<string>)        // unrouted; the maps are still to be cleared
    | Settling(key: seq<byte>, body: seq<byte>, lookedAt: nat)
    | Consuming(key: seq<byte>)                           // settled; the reservation is still to be deleted

  datatype State = State(
    active: map<string, ActiveEntry>, pending: map<seq<byte>, PendingSettlement>,
    routed: map<string, EntryMetadata>, history: seq<Happened>, handlers: map<CallId, Handler>)

  const EMPTY := State(map[], map[], map[], [], map[])

  datatype Step =
    | Route(id: CallId, session: string, assignment: Assignment)
    | Activate(id: CallId, settingsOk: bool)
    | EndSession(id: CallId, session: string)
    | CollectExpired(id: CallId, now: Time, order: seq<string>)
    | Unroute(id: CallId)
    | Clear(id: CallId)
    | Return(id: CallId)
    | Look(id: CallId, body: seq<byte>, hashMatches: bool)
    | Countersign(id: CallId, signOk: bool, settleOk: bool)
    | Consume(id: CallId)

  datatype Outcome =
    | Countersigned | UnknownRequest | OverBudget | PreimageMismatch | DecodeError | SignError | SettleError

  // ---------- what each step does ----------

  predicate Lapsed(expiresAt: Time, now: Time) {
    expiresAt != ZERO_TIME && now > expiresAt
  }

  function Expired(s: State, now: Time): set<string> {
    set id | id in s.active && Lapsed(s.active[id].expiresAt, now)
  }

  /** The sessions once each, in whatever order the map yields them. */
  ghost predicate Lists(order: seq<string>, ids: set<string>) {
    (forall id :: id in order <==> id in ids) && forall i, j :: 0 <= i < j < |order| ==> order[i] != order[j]
  }

  ghost predicate Can(s: State, step: Step) {
    match step
    case Route(id, _, _) => id !in s.handlers
    case Activate(id, _) => id in s.handlers && s.handlers[id].Entering?
    case EndSession(id, _) => id !in s.handlers
    case CollectExpired(id, now, order) => id !in s.handlers && Lists(order, Expired(s, now))
    case Unroute(id) => id in s.handlers && s.handlers[id].Exiting? && s.handlers[id].rest != []
    case Clear(id) => id in s.handlers && s.handlers[id].Clearing?
    case Return(id) => id in s.handlers && s.handlers[id].Exiting? && s.handlers[id].rest == []
    case Look(id, _, _) => id !in s.handlers
    case Countersign(id, _, _) => id in s.handlers && s.handlers[id].Settling?
    case Consume(id) => id in s.handlers && s.handlers[id].Consuming?
  }

  /** The session becomes active and, under a 16-byte token, its settlement pending. */
  function Enlist(s: State, session: string, a: Assignment): State {
    var s1 := s.(active := s.active[session := ActiveEntry(a.now, a.expiresAt, a.sidecarURL)]);
    if |a.reservationToken| != 16 then s1
    else s1.(pending := s.pending[a.reservationToken := PendingSettlement(session, a.maxOutputTokens, a.seederPubkey)],
             history := s.history + [Registered(a.reservationToken, session, a.maxOutputTokens)])
  }

  function Others(pending: map<seq<byte>, PendingSettlement>, session: string): map<seq<byte>, PendingSettlement> {
    map k | k in pending && pending[k].sessionId != session :: pending[k]
  }

  /** Why a settlement is refused before anything is signed, None when it is not. */
  function Refusal(s: State, body: seq<byte>, hashMatches: bool): Option<Outcome> {
    if !hashMatches then Some(PreimageMismatch)
    else match Parse(body)
      case Err(_) => Some(DecodeError)
      case Ok(a) =>
        if a.requestId !in s.pending then Some(UnknownRequest)
        else if a.outputTokens > s.pending[a.requestId].maxOutputTokens then Some(OverBudget)
        else None
  }

  function Next(s: State, step: Step): State
    requires Can(s, step)
  {
    match step
    case Route(id, session, a) =>
      s.(routed := s.routed[session := EntryMetadata(a.now, a.expiresAt, a.seederPubkey)],
         handlers := s.handlers[id := Entering(session, a)])
    case Activate(id, settingsOk) =>
      var x, s1 := s.handlers[id], s.(handlers := s.handlers - {id});
      if settingsOk then Enlist(s1, x.session, x.assignment) else s1.(routed := s.routed - {x.session})
    case EndSession(id, session) =>
      if session == "" || session !in s.active then s else s.(handlers := s.handlers[id := Exiting([session])])
    case CollectExpired(id, _, order) => s.(handlers := s.handlers[id := Exiting(order)])
    case Unroute(id) =>
      var rest := s.handlers[id].rest;
      s.(routed := s.routed - {rest[0]}, handlers := s.handlers[id := Clearing(rest[0], rest[1..])])
    case Clear(id) =>
      var x := s.handlers[id];
      s.(active := s.active - {x.session}, pending := Others(s.pending, x.session),
         history := s.history + [Exited(x.session)], handlers := s.handlers[id := Exiting(x.rest)])
    case Return(id) => s.(handlers := s.handlers - {id})
    case Look(id, body, hashMatches) =>
      if Refusal(s, body, hashMatches).Some? then s
      else s.(handlers := s.handlers[id := Settling(Parse(body).value.requestId, body, |s.history|)])
    case Countersign(id, signOk, settleOk) =>
      var x := s.handlers[id];
      if signOk && settleOk then
        s.(history := s.history + [Settled(x.key, x.body, x.lookedAt)], handlers := s.handlers[id := Consuming(x.key)])
      else s.(handlers := s.handlers - {id})
    case Consume(id) =>
      var key := s.handlers[id].key;
      s.(pending := s.pending - {key}, history := s.history + [Consumed(key)], handlers := s.handlers - {id})
  }

  /** A run: a sequence of steps each enabled where it is taken. */
  ghost predicate Runs(s: State, steps: seq<Step>)
    decreases |steps|
  {
    steps == [] || (Can(s, steps[0]) && Runs(Next(s, steps[0]), steps[1..]))
  }

  function After(s: State, steps: seq<Step>): State
    requires Runs(s, steps)
    decreases |steps|
  {
    if steps == [] then s else After(Next(s, steps[0]), steps[1..])
  }

  // ---------- the story a history must tell ----------

  /** Does this event take a registration of key for session out of the pending map, or replace it? */
  predicate Removes(e: Happened, key: seq<byte>, session: string) {
    match e
    case Registered(k, _, _) => k == key
    case Settled(_, _, _) => false
    case Consumed(k) => k == key
    case Exited(id) => id == session
  }

  /** Or is it a settlement of that key? */
  predicate Ends(e: Happened, key: seq<byte>, session: string) {
    Removes(e, key, session) || (e.Settled? && e.key == key)
  }

  /** The registration at i is for key and still pending just before position j. */
  ghost predicate PendingAt(h: seq<Happened>, i: nat, key: seq<byte>, j: nat) {
    && i < j <= |h|
    && h[i].Registered? && h[i].key == key
    && forall m :: i < m < j ==> !Removes(h[m], key, h[i].sessionId)
  }

  /** And not settled either. */
  ghost predicate OpenAt(h: seq<Happened>, i: nat, key: seq<byte>, j: nat) {
    && i < j <= |h|
    && h[i].Registered? && h[i].key == key
    && forall m :: i < m < j ==> !Ends(h[m], key, h[i].sessionId)
  }

  /** A look at position l for this canonical body finds the registration at i pending, with room for its tokens. */
  ghost predicate Finds(h: seq<Happened>, i: nat, body: seq<byte>, l: nat) {
    && l <= |h| && Parse(body).Ok?
    && var a := Parse(body).value;
       && Encode(a) == Ok(body)
       && PendingAt(h, i, a.requestId, l)
       && a.outputTokens <= h[i].ceiling
  }

  /** The settlement at j rests on the registration at i, which its handler found. */
  ghost predicate FoundBy(h: seq<Happened>, i: nat, j: nat) {
    && j < |h| && h[j].Settled? && h[j].lookedAt <= j
    && Finds(h, i, h[j].body, h[j].lookedAt) && h[j].key == Parse(h[j].body).value.requestId
  }

  /** And that registration was still open when it settled: not settled, replaced or exited since. */
  ghost predicate JustifiedBy(h: seq<Happened>, i: nat, j: nat) {
    FoundBy(h, i, j) && OpenAt(h, i, h[j].key, j)
  }

  /** No registration accounts for the settlement at j. */
  ghost predicate Unjustified(h: seq<Happened>, j: nat) {
    forall i: nat :: !JustifiedBy(h, i, j)
  }

  /** Nothing from the look to the settlement at j ends the registration at i, and no settlement did before the look. */
  ghost predicate Undisturbed(h: seq<Happened>, i: nat, j: nat)
    requires FoundBy(h, i, j)
  {
    && (forall m :: h[j].lookedAt <= m < j ==> !Ends(h[m], h[j].key, h[i].sessionId))
    && (forall m :: i < m < h[j].lookedAt ==> !(h[m].Settled? && h[m].key == h[j].key))
  }

  ghost predicate RegisteredAs(e: Happened, k: seq<byte>, p: PendingSettlement) {
    e == Registered(k, p.sessionId, p.maxOutputTokens)
  }

  /** The pending map has exactly the registrations still pending. */
  ghost predicate PendingIsRegistered(h: seq<Happened>, pending: map<seq<byte>, PendingSettlement>) {
    && (forall k :: k in pending ==> exists i: nat :: PendingAt(h, i, k, |h|) && RegisteredAs(h[i], k, pending[k]))
    && (forall i: nat, k :: PendingAt(h, i, k, |h|) ==> k in pending && RegisteredAs(h[i], k, pending[k]))
  }

  ghost predicate AllFound(h: seq<Happened>) {
    forall j: nat :: j < |h| && h[j].Settled? ==> exists i: nat :: FoundBy(h, i, j)
  }

  /** A handler that passed its look found a registration. */
  ghost predicate LookedUp(h: seq<Happened>, x: Handler) {
    x.Settling? ==>
      && x.lookedAt <= |h| && Parse(x.body).Ok? && x.key == Parse(x.body).value.requestId
      && exists i: nat :: Finds(h, i, x.body, x.lookedAt)
  }

  ghost predicate Story(s: State) {
    && PendingIsRegistered(s.history, s.pending) && AllFound(s.history)
    && forall id :: id in s.handlers ==> LookedUp(s.history, s.handlers[id])
  }

  /** Pending settlements belong to active sessions. */
  ghost predicate Books(s: State) {
    forall k :: k in s.pending ==> s.pending[k].sessionId in s.active
  }

  lemma PendingAtAppend(h: seq<Happened>, e: Happened, i: nat, key: seq<byte>, j: nat)
    requires j <= |h|
    ensures PendingAt(h + [e], i, key, j) == PendingAt(h, i, key, j)
    ensures j == |h| && PendingAt(h, i, key, j) && !Removes(e, key, h[i].sessionId) ==> PendingAt(h + [e], i, key, j + 1)
  {
    var g := h + [e];
    assert forall m :: 0 <= m < |h| ==> g[m] == h[m];
  }

  lemma FindsAppend(h: seq<Happened>, e: Happened, i: nat, body: seq<byte>, l: nat)
    requires Finds(h, i, body, l)
    ensures Finds(h + [e], i, body, l)
  {
    PendingAtAppend(h, e, i, Parse(body).value.requestId, l);
    assert (h + [e])[i] == h[i];
  }

  lemma FoundAppend(h: seq<Happened>, e: Happened)
    requires AllFound(h)
    requires e.Settled? ==> LookedUp(h, Settling(e.key, e.body, e.lookedAt))
    ensures AllFound(h + [e])
  {
    var g := h + [e];
    forall j: nat | j < |g| && g[j].Settled? ensures exists i: nat :: FoundBy(g, i, j) {
      var i: nat;
      if j < |h| {
        assert g[j] == h[j];
        i :| FoundBy(h, i, j);
      } else {
        i :| Finds(h, i, e.body, e.lookedAt);
      }
      FindsAppend(h, e, i, g[j].body, g[j].lookedAt);
      assert FoundBy(g, i, j);
    }
  }

  /** What is pending after one more event was so before it, or is its own registration. */
  lemma PendingAfter(h: seq<Happened>, e: Happened, i: nat, k: seq<byte>)
    requires PendingAt(h + [e], i, k, |h| + 1)
    ensures i < |h| ==> PendingAt(h, i, k, |h|) && !Removes(e, k, h[i].sessionId)
    ensures i == |h| ==> e.Registered? && e.key == k
  {
    var g := h + [e];
    assert forall m :: 0 <= m < |h| ==> g[m] == h[m];
    assert g[|h|] == e;
  }

  /** A row that the event leaves: it was there, and the event does not end it. */
  predicate Survives(k: seq<byte>, pending: map<seq<byte>, PendingSettlement>, e: Happened) {
    k in pending && !Removes(e, k, pending[k].sessionId)
  }

  /** Appending an event keeps history and map the same when the map loses what the event ends and gains what it registers. */
  lemma PendingAppend(h: seq<Happened>, e: Happened,
                   before: map<seq<byte>, PendingSettlement>, after: map<seq<byte>, PendingSettlement>)
    requires PendingIsRegistered(h, before)
    requires forall k :: k in after ==> (Survives(k, before, e) && after[k] == before[k]) || RegisteredAs(e, k, after[k])
    requires forall k :: Survives(k, before, e) ==> k in after && after[k] == before[k]
    requires e.Registered? ==> e.key in after && RegisteredAs(e, e.key, after[e.key])
    ensures PendingIsRegistered(h + [e], after)
  {
    var g := h + [e];
    forall k | k in after ensures exists i: nat :: PendingAt(g, i, k, |g|) && RegisteredAs(g[i], k, after[k]) {
      if RegisteredAs(e, k, after[k]) {
        assert PendingAt(g, |h|, k, |g|) && g[|h|] == e;
      } else {
        var i: nat :| PendingAt(h, i, k, |h|) && RegisteredAs(h[i], k, before[k]);
        PendingAtAppend(h, e, i, k, |h|);
        assert g[i] == h[i];
      }
    }
    forall i: nat, k | PendingAt(g, i, k, |g|) ensures k in after && RegisteredAs(g[i], k, after[k]) {
      PendingAfter(h, e, i, k);
      if i < |h| {
        assert g[i] == h[i] && Survives(k, before, e);
      }
    }
  }

  /** A step that appends an event and hands no handler a look. */
  lemma EventKeeps(s: State, s': State, e: Happened)
    requires Story(s) && s'.history == s.history + [e] && PendingIsRegistered(s'.history, s'.pending)
    requires e.Settled? ==> LookedUp(s.history, Settling(e.key, e.body, e.lookedAt))
    requires forall id :: id in s'.handlers && s'.handlers[id].Settling? ==> id in s.handlers && s.handlers[id] == s'.handlers[id]
    ensures Story(s')
  {
    FoundAppend(s.history, e);
    forall id | id in s'.handlers && s'.handlers[id].Settling? ensures LookedUp(s'.history, s'.handlers[id]) {
      var x := s.handlers[id];
      assert LookedUp(s.history, x);
      var i: nat :| Finds(s.history, i, x.body, x.lookedAt);
      FindsAppend(s.history, e, i, x.body, x.lookedAt);
    }
  }

  lemma ActivateKeeps(s: State, id: CallId)
    requires Story(s) && Can(s, Activate(id, true))
    ensures Story(Next(s, Activate(id, true)))
  {
    var a, s' := s.handlers[id].assignment, Next(s, Activate(id, true));
    if |a.reservationToken| == 16 {
      var e := Registered(a.reservationToken, s.handlers[id].session, a.maxOutputTokens);
      PendingAppend(s.history, e, s.pending, s'.pending);
      EventKeeps(s, s', e);
    }
  }

  lemma ClearKeeps(s: State, id: CallId)
    requires Story(s) && Can(s, Clear(id))
    ensures Story(Next(s, Clear(id)))
  {
    var e, s' := Exited(s.handlers[id].session), Next(s, Clear(id));
    PendingAppend(s.history, e, s.pending, s'.pending);
    EventKeeps(s, s', e);
  }

  lemma CountersignKeeps(s: State, id: CallId)
    requires Story(s) && Can(s, Countersign(id, true, true))
    ensures Story(Next(s, Countersign(id, true, true)))
  {
    var x, s' := s.handlers[id], Next(s, Countersign(id, true, true));
    var e := Settled(x.key, x.body, x.lookedAt);
    assert LookedUp(s.history, x);
    PendingAppend(s.history, e, s.pending, s'.pending);
    EventKeeps(s, s', e);
  }

  lemma ConsumeKeeps(s: State, id: CallId)
    requires Story(s) && Can(s, Consume(id))
    ensures Story(Next(s, Consume(id)))
  {
    var e, s' := Consumed(s.handlers[id].key), Next(s, Consume(id));
    PendingAppend(s.history, e, s.pending, s'.pending);
    EventKeeps(s, s', e);
  }

  /** A look that passes finds the registration of the pending entry it sees. */
  lemma LookKeeps(s: State, id: CallId, body: seq<byte>, hashMatches: bool)
    requires Story(s) && Can(s, Look(id, body, hashMatches))
    ensures Story(Next(s, Look(id, body, hashMatches)))
  {
    if Refusal(s, body, hashMatches).None? {
      var key := Parse(body).value.requestId;
      var i: nat :| PendingAt(s.history, i, key, |s.history|) && RegisteredAs(s.history[i], key, s.pending[key]);
      EncodeInvertsParse(body);
      assert Finds(s.history, i, body, |s.history|);
    }
  }

  /** Every step of every call keeps the books and the story. */
  lemma StepKeeps(s: State, step: Step)
    requires Books(s) && Story(s) && Can(s, step)
    ensures Books(Next(s, step)) && Story(Next(s, step))
  {
    match step
    case Activate(id, true) => ActivateKeeps(s, id);
    case Clear(id) => ClearKeeps(s, id);
    case Look(id, body, hashMatches) => LookKeeps(s, id, body, hashMatches);
    case Countersign(id, true, true) => CountersignKeeps(s, id);
    case Consume(id) => ConsumeKeeps(s, id);
    case _ =>
  }

  lemma {:induction false} RunKeeps(s: State, steps: seq<Step>)
    requires Books(s) && Story(s) && Runs(s, steps)
    ensures Books(After(s, steps)) && Story(After(s, steps))
    decreases |steps|
  {
    if steps != [] {
      StepKeeps(s, steps[0]);
      RunKeeps(Next(s, steps[0]), steps[1..]);
    }
  }

  /** A look finds one registration only: a later one of the same key would have replaced it. */
  lemma FindsOne(h: seq<Happened>, i: nat, k: nat, body: seq<byte>, l: nat)
    requires Finds(h, i, body, l) && Finds(h, k, body, l)
    ensures i == k
  {
    var key := Parse(body).value.requestId;
    if i < k {
      assert Removes(h[k], key, h[i].sessionId);
    } else if k < i {
      assert Removes(h[i], key, h[k].sessionId);
    }
  }

  /** A settlement closes its registration, so a later one cannot rest on it. */
  lemma SettledOnce(h: seq<Happened>, i: nat, j: nat, k: nat)
    requires JustifiedBy(h, i, j) && JustifiedBy(h, i, k)
    ensures k <= j
  {
    assert Ends(h[j], h[i].key, h[i].sessionId);
  }

  lemma JustifiedIffUndisturbed(h: seq<Happened>, i: nat, j: nat)
    requires FoundBy(h, i, j)
    ensures Undisturbed(h, i, j) <==> !Unjustified(h, j)
  {
    if Undisturbed(h, i, j) {
      assert JustifiedBy(h, i, j);
    }
    forall k: nat | JustifiedBy(h, k, j) ensures Undisturbed(h, i, j) {
      FindsOne(h, i, k, h[j].body, h[j].lookedAt);
    }
  }

  /** A settlement whose registration was ended after the look is unjustified. */
  lemma EndedIsUnjustified(h: seq<Happened>, i: nat, j: nat, m: nat)
    requires FoundBy(h, i, j) && h[j].lookedAt <= m < j && Ends(h[m], h[j].key, h[i].sessionId)
    ensures Unjustified(h, j)
  {
    JustifiedIffUndisturbed(h, i, j);
  }

  /**
   Settlement safety in every interleaving: each settlement is for a canonical assertion whose
   handler found a pending registration of its request id with room under the ceiling; it is
   justified by a registration still open when it happened if and only if the one found was not
   settled before and nothing between look and settlement ended it; and no registration justifies
   two settlements.
   */
  lemma SettlementSafety(steps: seq<Step>)
    requires Runs(EMPTY, steps)
    ensures var h := After(EMPTY, steps).history;
            && (forall j: nat :: j < |h| && h[j].Settled? ==> exists i: nat :: FoundBy(h, i, j))
            && (forall i: nat, j: nat :: FoundBy(h, i, j) ==> (!Unjustified(h, j) <==> Undisturbed(h, i, j)))
            && (forall i: nat, j: nat, k: nat :: JustifiedBy(h, i, j) && JustifiedBy(h, i, k) ==> j == k)
  {
    RunKeeps(EMPTY, steps);
    var h := After(EMPTY, steps).history;
    forall i: nat, j: nat | FoundBy(h, i, j) ensures !Unjustified(h, j) <==> Undisturbed(h, i, j) {
      JustifiedIffUndisturbed(h, i, j);
    }
    forall i: nat, j: nat, k: nat | JustifiedBy(h, i, j) && JustifiedBy(h, i, k) ensures j == k {
      SettledOnce(h, i, j, k);
      SettledOnce(h, i, k, j);
    }
  }

  /** No registration of key since position l. */
  ghost predicate NotReplaced(h: seq<Happened>, key: seq<byte>, l: nat) {
    forall m :: l <= m < |h| ==> !(h[m].Registered? && h[m].key == key)
  }

  /** Every settlement of key was followed by a new registration of it. */
  ghost predicate Unsettled(h: seq<Happened>, key: seq<byte>) {
    forall m :: 0 <= m < |h| && h[m].Settled? && h[m].key == key ==>
      exists r :: m < r < |h| && h[r].Registered? && h[r].key == key
  }

  /**
   What a handler could check before it settles: its settlement will be justified if and only if
   its key is still pending, was not registered anew since its look, and is not settled already.
   */
  lemma JustifiedExactlyWhen(s: State, id: CallId)
    requires Story(s) && Can(s, Countersign(id, true, true))
    ensures var x := s.handlers[id];
            !Unjustified(Next(s, Countersign(id, true, true)).history, |s.history|)
            <==> x.key in s.pending && NotReplaced(s.history, x.key, x.lookedAt) && Unsettled(s.history, x.key)
  {
    var x, h, g := s.handlers[id], s.history, Next(s, Countersign(id, true, true)).history;
    assert LookedUp(h, x);
    var i: nat :| Finds(h, i, x.body, x.lookedAt);
    FindsAppend(h, Settled(x.key, x.body, x.lookedAt), i, x.body, x.lookedAt);
    assert FoundBy(g, i, |h|);
    JustifiedIffUndisturbed(g, i, |h|);
    assert forall m :: 0 <= m < |h| ==> g[m] == h[m];
    if Undisturbed(g, i, |h|) {
      StillOpen(h, i, x);
    }
    if x.key in s.pending && NotReplaced(h, x.key, x.lookedAt) && Unsettled(h, x.key) {
      var k: nat :| PendingAt(h, k, x.key, |h|);
      NotYetEnded(h, i, k, x);
    }
  }

  lemma StillOpen(h: seq<Happened>, i: nat, x: Handler)
    requires x.Settling? && Finds(h, i, x.body, x.lookedAt) && x.key == Parse(x.body).value.requestId
    requires forall m :: x.lookedAt <= m < |h| ==> !Ends(h[m], x.key, h[i].sessionId)
    requires forall m :: i < m < x.lookedAt ==> !(h[m].Settled? && h[m].key == x.key)
    ensures PendingAt(h, i, x.key, |h|) && NotReplaced(h, x.key, x.lookedAt) && Unsettled(h, x.key)
  {
    forall m | 0 <= m < |h| && h[m].Settled? && h[m].key == x.key
      ensures exists r :: m < r < |h| && h[r].Registered? && h[r].key == x.key
    {
      assert m < i < |h|;
    }
  }

  lemma NotYetEnded(h: seq<Happened>, i: nat, k: nat, x: Handler)
    requires x.Settling? && Finds(h, i, x.body, x.lookedAt) && x.key == Parse(x.body).value.requestId
    requires PendingAt(h, k, x.key, |h|) && NotReplaced(h, x.key, x.lookedAt) && Unsettled(h, x.key)
    ensures i == k && forall m :: i < m < |h| ==> !Ends(h[m], x.key, h[i].sessionId)
  {
    assert k < x.lookedAt && i == k;
  }

  /** Bookkeeping in every interleaving, failed re-entries included. */
  lemma BooksAlwaysBalance(steps: seq<Step>)
    requires Runs(EMPTY, steps)
    ensures var s := After(EMPTY, steps);
            && (forall k :: k in s.pending ==> s.pending[k].sessionId in s.active)
            && (forall k :: k in s.pending <==> exists i: nat :: PendingAt(s.history, i, k, |s.history|))
  {
    RunKeeps(EMPTY, steps);
  }

  // ---------- routes ----------

  ghost predicate BeingEntered(s: State, session: string) {
    exists id :: id in s.handlers && s.handlers[id].Entering? && s.handlers[id].session == session
  }

  /** Every routed session is active, or about to be. */
  ghost predicate RoutesLead(s: State) {
    forall session :: session in s.routed ==> session in s.active || BeingEntered(s, session)
  }

  /** The step does not clear a session that was routed anew since its call unrouted it. */
  ghost predicate CleanClear(s: State, step: Step)
    requires Can(s, step)
  {
    step.Clear? ==> var session := s.handlers[step.id].session; session !in s.routed || BeingEntered(s, session)
  }

  lemma RouteStep(s: State, step: Step)
    requires RoutesLead(s) && Can(s, step)
    ensures RoutesLead(Next(s, step)) <==> CleanClear(s, step)
  {
    var s' := Next(s, step);
    forall session | session in s.routed && BeingEntered(s, session)
      ensures BeingEntered(s', session) || session in s'.active || session !in s'.routed
    {
      var id :| id in s.handlers && s.handlers[id].Entering? && s.handlers[id].session == session;
      assert id != step.id || step.Activate? ==> (id in s'.handlers && s'.handlers[id] == s.handlers[id]) || id == step.id;
    }
    if step.Route? {
      assert s'.handlers[step.id] == Entering(step.session, step.assignment);
    }
    if step.Clear? {
      var session := s.handlers[step.id].session;
      forall id | id in s'.handlers && s'.handlers[id].Entering? ensures id in s.handlers && s.handlers[id] == s'.handlers[id] {
      }
    }
  }

  ghost predicate CleanClears(s: State, steps: seq<Step>)
    requires Runs(s, steps)
    decreases |steps|
  {
    steps == [] || (CleanClear(s, steps[0]) && CleanClears(Next(s, steps[0]), steps[1..]))
  }

  ghost predicate AlwaysRoutesLead(s: State, steps: seq<Step>)
    requires Runs(s, steps)
    decreases |steps|
  {
    RoutesLead(s) && (steps == [] || AlwaysRoutesLead(Next(s, steps[0]), steps[1..]))
  }

  /**
   Routes, exactly: all through a run every routed session is active or being entered, if and only
   if no exit clears a session that was routed again after that exit had unrouted it.
   */
  lemma {:induction false} RoutesLeadExactly(s: State, steps: seq<Step>)
    requires RoutesLead(s) && Runs(s, steps)
    ensures AlwaysRoutesLead(s, steps) <==> CleanClears(s, steps)
    decreases |steps|
  {
    if steps != [] {
      RouteStep(s, steps[0]);
      if CleanClear(s, steps[0]) {
        RoutesLeadExactly(Next(s, steps[0]), steps[1..]);
      }
    }
  }

  // ---------- sessions renewed after they were collected ----------

  /** The session is active and has not lapsed at now. */
  predicate Live(s: State, session: string, now: Time) {
    session in s.active && (s.active[session].expiresAt == ZERO_TIME || now <= s.active[session].expiresAt)
  }

  /** The step activates the session with an expiry that has not lapsed at now. */
  predicate Renews(s: State, step: Step, session: string, now: Time)
    requires Can(s, step)
  {
    step.Activate? && step.settingsOk && s.handlers[step.id].session == session
    && !Lapsed(s.handlers[step.id].assignment.expiresAt, now)
  }

  /** The step takes such a session away: it clears it, or activates it with an expiry that has lapsed. */
  predicate Drops(s: State, step: Step, session: string, now: Time)
    requires Can(s, step)
  {
    || (step.Clear? && s.handlers[step.id].session == session)
    || (step.Activate? && step.settingsOk && s.handlers[step.id].session == session
        && Lapsed(s.handlers[step.id].assignment.expiresAt, now))
  }

  /** No step of the run drops the session. */
  ghost predicate NoneDrops(s: State, steps: seq<Step>, session: string, now: Time)
    requires Runs(s, steps)
    decreases |steps|
  {
    steps == [] || (!Drops(s, steps[0], session, now) && NoneDrops(Next(s, steps[0]), steps[1..], session, now))
  }

  /** Some step of the run renews the session and none after it drops it. */
  ghost predicate RenewedSince(s: State, steps: seq<Step>, session: string, now: Time)
    requires Runs(s, steps)
    decreases |steps|
  {
    steps != [] &&
    ((Renews(s, steps[0], session, now) && NoneDrops(Next(s, steps[0]), steps[1..], session, now))
     || RenewedSince(Next(s, steps[0]), steps[1..], session, now))
  }

  lemma {:induction false} LiveExactly(s: State, steps: seq<Step>, session: string, now: Time)
    requires Runs(s, steps)
    ensures Live(After(s, steps), session, now)
            <==> (Live(s, session, now) && NoneDrops(s, steps, session, now)) || RenewedSince(s, steps, session, now)
    decreases |steps|
  {
    if steps != [] {
      var step := steps[0];
      LiveStep(s, step, session, now);
      LiveExactly(Next(s, step), steps[1..], session, now);
    }
  }

  lemma LiveStep(s: State, step: Step, session: string, now: Time)
    requires Can(s, step)
    ensures Live(Next(s, step), session, now)
            <==> Renews(s, step, session, now) || (Live(s, session, now) && !Drops(s, step, session, now))
  {
  }

  /**
   An interrupted reap, exactly: when it comes to clear a session it collected, that session is
   live again if and only if it was renewed since the collection and nothing dropped it after that
   renewal; the reap ends it all the same.
   */
  lemma ReapEndsLiveExactly(s: State, id: CallId, now: Time, order: seq<string>, session: string, steps: seq<Step>)
    requires Can(s, CollectExpired(id, now, order)) && session in order
    requires Runs(Next(s, CollectExpired(id, now, order)), steps)
    requires var end := After(Next(s, CollectExpired(id, now, order)), steps);
             Can(end, Clear(id)) && end.handlers[id].session == session
    ensures var s1 := Next(s, CollectExpired(id, now, order));
            && (Live(After(s1, steps), session, now) <==> RenewedSince(s1, steps, session, now))
            && session !in Next(After(s1, steps), Clear(id)).active
  {
    assert session in Expired(s, now);
    LiveExactly(Next(s, CollectExpired(id, now, order)), steps, session, now);
  }

  // ---------- whole calls, uninterrupted ----------

  /** Everything a settlement call learns from outside: the hash, the signer and the settle call. */
  datatype Request = Request(body: seq<byte>, hashMatches: bool, signOk: bool, settleOk: bool)

  datatype Call =
    | StopFailure(session: string, assignment: Assignment, settingsOk: bool)
    | EndOfSession(session: string)
    | Reap(now: Time, order: seq<string>)
    | Settlement(request: Request)

  /** A fallback that reached the session store; settingsOk is whether settings.json was redirected. */
  function Enter(s: State, session: string, a: Assignment, settingsOk: bool): State {
    if !settingsOk then s.(routed := s.routed - {session})
    else Enlist(s.(routed := s.routed[session := EntryMetadata(a.now, a.expiresAt, a.seederPubkey)]), session, a)
  }

  function Exit(s: State, session: string): State {
    s.(active := s.active - {session}, pending := Others(s.pending, session),
       routed := s.routed - {session}, history := s.history + [Exited(session)])
  }

  function ExitAll(s: State, sessions: seq<string>): State
    decreases |sessions|
  {
    if sessions == [] then s else ExitAll(Exit(s, sessions[0]), sessions[1..])
  }

  function SessionEnd(s: State, session: string): State {
    if session == "" || session !in s.active then s else Exit(s, session)
  }

  function Check(s: State, r: Request): Outcome {
    match Refusal(s, r.body, r.hashMatches)
    case Some(outcome) => outcome
    case None => if !r.signOk then SignError else if !r.settleOk then SettleError else Countersigned
  }

  /** A successful settlement is followed by the delete of its reservation. */
  function Settle(s: State, r: Request): State {
    if Check(s, r) != Countersigned then s
    else
      var key := Parse(r.body).value.requestId;
      s.(pending := s.pending - {key}, history := s.history + [Settled(key, r.body, |s.history|), Consumed(key)])
  }

  ghost predicate Callable(s: State, call: Call) {
    call.Reap? ==> Lists(call.order, Expired(s, call.now))
  }

  function Done(s: State, call: Call): State {
    match call
    case StopFailure(session, a, ok) => Enter(s, session, a, ok)
    case EndOfSession(session) => SessionEnd(s, session)
    case Reap(_, order) => ExitAll(s, order)
    case Settlement(r) => Settle(s, r)
  }

  /** n sessions exited in turn. */
  function ExitSteps(id: CallId, n: nat): seq<Step> {
    if n == 0 then [Return(id)] else [Unroute(id), Clear(id)] + ExitSteps(id, n - 1)
  }

  function CallSteps(s: State, call: Call, id: CallId): seq<Step> {
    match call
    case StopFailure(session, a, ok) => [Route(id, session, a), Activate(id, ok)]
    case EndOfSession(session) =>
      if session == "" || session !in s.active then [EndSession(id, session)]
      else [EndSession(id, session)] + ExitSteps(id, 1)
    case Reap(now, order) => [CollectExpired(id, now, order)] + ExitSteps(id, |order|)
    case Settlement(r) =>
      if Refusal(s, r.body, r.hashMatches).Some? then [Look(id, r.body, r.hashMatches)]
      else if !r.signOk || !r.settleOk then [Look(id, r.body, r.hashMatches), Countersign(id, r.signOk, r.settleOk)]
      else [Look(id, r.body, r.hashMatches)] + [Countersign(id, true, true), Consume(id)]
  }

  lemma Unroll(s: State, steps: seq<Step>, s1: State)
    requires steps != [] && Can(s, steps[0]) && s1 == Next(s, steps[0])
    ensures Runs(s, steps) == Runs(s1, steps[1..])
    ensures Runs(s, steps) ==> After(s, steps) == After(s1, steps[1..])
  {
  }

  lemma FirstStep(s: State, step: Step, rest: seq<Step>)
    requires Can(s, step) && Runs(Next(s, step), rest)
    ensures Runs(s, [step] + rest) && After(s, [step] + rest) == After(Next(s, step), rest)
  {
    assert ([step] + rest)[1..] == rest;
    Unroll(s, [step] + rest, Next(s, step));
  }

  lemma TwoSteps(s: State, a: Step, b: Step)
    requires Can(s, a) && Can(Next(s, a), b)
    ensures Runs(s, [a, b]) && After(s, [a, b]) == Next(Next(s, a), b)
  {
    var s1 := Next(s, a);
    Unroll(s, [a, b], s1);
    Unroll(s1, [b], Next(s1, b));
  }

  lemma {:induction false} ExitsUninterrupted(s: State, id: CallId, order: seq<string>)
    requires id in s.handlers && s.handlers[id] == Exiting(order)
    ensures Runs(s, ExitSteps(id, |order|))
    ensures After(s, ExitSteps(id, |order|)) == ExitAll(s.(handlers := s.handlers - {id}), order)
    decreases |order|
  {
    var steps := ExitSteps(id, |order|);
    if order == [] {
      Unroll(s, steps, Next(s, steps[0]));
    } else {
      var s1 := Next(s, Unroute(id));
      var s2 := Next(s1, Clear(id));
      ExitsUninterrupted(s2, id, order[1..]);
      assert steps[1..] == [Clear(id)] + ExitSteps(id, |order| - 1) && steps[1..][1..] == ExitSteps(id, |order| - 1);
      Unroll(s1, steps[1..], s2);
      Unroll(s, steps, s1);
      assert s2.handlers - {id} == s.handlers - {id};
      assert s2.(handlers := s2.handlers - {id}) == Exit(s.(handlers := s.handlers - {id}), order[0]);
    }
  }

  lemma EnterUninterrupted(s: State, id: CallId, session: string, a: Assignment, ok: bool)
    requires id !in s.handlers
    ensures Runs(s, [Route(id, session, a), Activate(id, ok)])
    ensures After(s, [Route(id, session, a), Activate(id, ok)]) == Enter(s, session, a, ok)
  {
    var s1 := Next(s, Route(id, session, a));
    var s2 := s.(routed := s.routed[session := EntryMetadata(a.now, a.expiresAt, a.seederPubkey)]);
    assert s1.(handlers := s1.handlers - {id}) == s2 by {
      assert s1.handlers - {id} == s.handlers;
    }
    assert Next(s1, Activate(id, ok)) == Enter(s, session, a, ok) by {
      if !ok { assert s2.routed - {session} == s.routed - {session}; }
    }
    TwoSteps(s, Route(id, session, a), Activate(id, ok));
  }

  lemma EndUninterrupted(s: State, id: CallId, session: string)
    requires id !in s.handlers
    ensures Runs(s, CallSteps(s, EndOfSession(session), id))
    ensures After(s, CallSteps(s, EndOfSession(session), id)) == SessionEnd(s, session)
  {
    var steps := CallSteps(s, EndOfSession(session), id);
    var s1 := Next(s, EndSession(id, session));
    if session != "" && session in s.active {
      ExitsUninterrupted(s1, id, [session]);
      assert s1.handlers - {id} == s.handlers;
      assert steps[1..] == ExitSteps(id, 1);
      assert [session][1..] == [];
      assert ExitAll(s, [session]) == Exit(s, session);
    } else {
      assert steps[1..] == [];
    }
    Unroll(s, steps, s1);
  }

  lemma ReapUninterrupted(s: State, id: CallId, now: Time, order: seq<string>)
    requires id !in s.handlers && Lists(order, Expired(s, now))
    ensures Runs(s, CallSteps(s, Reap(now, order), id))
    ensures After(s, CallSteps(s, Reap(now, order), id)) == ExitAll(s, order)
  {
    var steps := CallSteps(s, Reap(now, order), id);
    var s1 := Next(s, CollectExpired(id, now, order));
    ExitsUninterrupted(s1, id, order);
    assert s1.handlers - {id} == s.handlers;
    assert steps[1..] == ExitSteps(id, |order|);
    Unroll(s, steps, s1);
  }

  lemma LookThenSettle(s: State, id: CallId, r: Request)
    requires id !in s.handlers && Refusal(s, r.body, r.hashMatches).None?
    ensures var s2 := Next(Next(s, Look(id, r.body, r.hashMatches)), Countersign(id, r.signOk, r.settleOk));
            if r.signOk && r.settleOk then Can(s2, Consume(id)) && Next(s2, Consume(id)) == Settle(s, r)
            else s2 == Settle(s, r)
  {
    var s1 := Next(s, Look(id, r.body, r.hashMatches));
    var s2 := Next(s1, Countersign(id, r.signOk, r.settleOk));
    assert s1.handlers - {id} == s.handlers;
    if r.signOk && r.settleOk {
      var key := Parse(r.body).value.requestId;
      var settled := Settled(key, r.body, |s.history|);
      assert s2.handlers - {id} == s.handlers;
      assert s.history + [settled] + [Consumed(key)] == s.history + [settled, Consumed(key)];
    }
  }

  lemma SettlementUninterrupted(s: State, id: CallId, r: Request)
    requires id !in s.handlers
    ensures Runs(s, CallSteps(s, Settlement(r), id)) && After(s, CallSteps(s, Settlement(r), id)) == Settle(s, r)
  {
    var look := Look(id, r.body, r.hashMatches);
    var s1 := Next(s, look);
    if Refusal(s, r.body, r.hashMatches).Some? {
      Unroll(s, [look], s1);
    } else {
      LookThenSettle(s, id, r);
      if r.signOk && r.settleOk {
        TwoSteps(s1, Countersign(id, true, true), Consume(id));
        FirstStep(s, look, [Countersign(id, true, true), Consume(id)]);
      } else {
        TwoSteps(s, look, Countersign(id, r.signOk, r.settleOk));
      }
    }
  }

  /** An uninterrupted call is a run, and leaves no handler behind. */
  lemma CallUninterrupted(s: State, call: Call, id: CallId)
    requires id !in s.handlers && Callable(s, call)
    ensures Runs(s, CallSteps(s, call, id)) && After(s, CallSteps(s, call, id)) == Done(s, call)
  {
    match call
    case StopFailure(session, a, ok) => EnterUninterrupted(s, id, session, a, ok);
    case EndOfSession(session) => EndUninterrupted(s, id, session);
    case Reap(now, order) => ReapUninterrupted(s, id, now, order);
    case Settlement(r) => SettlementUninterrupted(s, id, r);
  }

  lemma CallKeeps(s: State, call: Call)
    requires Books(s) && Story(s) && s.handlers == map[] && Callable(s, call)
    ensures Books(Done(s, call)) && Story(Done(s, call)) && Done(s, call).handlers == map[]
  {
    CallUninterrupted(s, call, 0);
    RunKeeps(s, CallSteps(s, call, 0));
    if call.Reap? { ExitAllRemoves(s, call.order); }
  }

  lemma {:induction false} ExitAllRemoves(s: State, order: seq<string>)
    ensures var s' := ExitAll(s, order);
            && s'.active == s.active - (set id | id in order)
            && s'.routed == s.routed - (set id | id in order)
            && (forall k :: k in s'.pending <==> k in s.pending && s.pending[k].sessionId !in order)
            && (forall k :: k in s'.pending ==> s'.pending[k] == s.pending[k])
            && s'.handlers == s.handlers
            && |s.history| <= |s'.history| && s'.history[..|s.history|] == s.history
            && (forall j :: |s.history| <= j < |s'.history| ==> s'.history[j].Exited?)
    decreases |order|
  {
    if order != [] {
      ExitAllRemoves(Exit(s, order[0]), order[1..]);
      assert forall id :: id in order <==> id == order[0] || id in order[1..];
      var mid, end := Exit(s, order[0]).history, ExitAll(s, order).history;
      assert end[..|s.history|] == end[..|mid|][..|s.history|];
      assert end[|s.history|] == end[..|mid|][|s.history|];
    }
  }

  /** After an uninterrupted reap exactly the lapsed sessions are gone, from all three maps. */
  lemma ReapClears(s: State, now: Time, order: seq<string>)
    requires Lists(order, Expired(s, now))
    ensures var s' := ExitAll(s, order);
            && (forall id :: id in s'.active <==>
                  id in s.active && (s.active[id].expiresAt == ZERO_TIME || now <= s.active[id].expiresAt))
            && (forall id :: id in s'.routed <==> id in s.routed && (id in s.active ==> id in s'.active))
            && (forall k :: k in s'.pending <==>
                  k in s.pending && (s.pending[k].sessionId in s.active ==> s.pending[k].sessionId in s'.active))
  {
    ExitAllRemoves(s, order);
  }

  ghost predicate CallRuns(s: State, calls: seq<Call>)
    decreases |calls|
  {
    calls == [] || (Callable(s, calls[0]) && CallRuns(Done(s, calls[0]), calls[1..]))
  }

  function AfterCalls(s: State, calls: seq<Call>): State
    decreases |calls|
  {
    if calls == [] then s else AfterCalls(Done(s, calls[0]), calls[1..])
  }

  /** Every settlement so far came right after its look and was followed by its delete. */
  ghost predicate Prompt(h: seq<Happened>) {
    forall j :: 0 <= j < |h| && h[j].Settled? ==>
      h[j].lookedAt == j && j + 1 < |h| && h[j + 1] == Consumed(h[j].key)
  }

  /** Routed sessions are active, with the same expiry. */
  ghost predicate RoutesMatch(s: State) {
    forall id :: id in s.routed ==> id in s.active && s.active[id].expiresAt == s.routed[id].expiresAt
  }

  lemma CallKeepsPrompt(s: State, call: Call)
    requires Prompt(s.history) && RoutesMatch(s)
    ensures Prompt(Done(s, call).history) && RoutesMatch(Done(s, call))
  {
    if call.Reap? {
      ExitAllRemoves(s, call.order);
      ExitAllKeepsRoutes(s, call.order);
      var g := Done(s, call).history;
      assert forall j :: 0 <= j < |s.history| ==> g[j] == g[..|s.history|][j];
    }
  }

  lemma {:induction false} ExitAllKeepsRoutes(s: State, order: seq<string>)
    requires RoutesMatch(s)
    ensures RoutesMatch(ExitAll(s, order))
    decreases |order|
  {
    if order != [] {
      ExitAllKeepsRoutes(Exit(s, order[0]), order[1..]);
    }
  }

  lemma {:induction false} CallsKeep(s: State, calls: seq<Call>)
    requires Books(s) && Story(s) && s.handlers == map[] && Prompt(s.history) && RoutesMatch(s) && CallRuns(s, calls)
    ensures var s' := AfterCalls(s, calls);
            Books(s') && Story(s') && s'.handlers == map[] && Prompt(s'.history) && RoutesMatch(s')
    decreases |calls|
  {
    if calls != [] {
      CallKeeps(s, calls[0]);
      CallKeepsPrompt(s, calls[0]);
      CallsKeep(Done(s, calls[0]), calls[1..]);
    }
  }

  /**
   Calls one at a time: every settlement is justified, by a registration that backs no other, and
   every routed session is active with the same expiry.
   */
  lemma OneAtATime(calls: seq<Call>)
    requires CallRuns(EMPTY, calls)
    ensures var s := AfterCalls(EMPTY, calls);
            && (forall j: nat :: j < |s.history| && s.history[j].Settled? ==> exists i: nat :: JustifiedBy(s.history, i, j))
            && RoutesMatch(s) && Books(s)
  {
    CallsKeep(EMPTY, calls);
    var h := AfterCalls(EMPTY, calls).history;
    forall j: nat | j < |h| && h[j].Settled? ensures exists i: nat :: JustifiedBy(h, i, j) {
      var i: nat :| FoundBy(h, i, j);
      PromptIsJustified(h, i, j);
    }
  }

  lemma PromptIsJustified(h: seq<Happened>, i: nat, j: nat)
    requires Prompt(h) && FoundBy(h, i, j)
    ensures JustifiedBy(h, i, j)
  {
    forall m | i < m < j && h[m].Settled? ensures h[m].key != h[j].key {
      assert h[m + 1] == Consumed(h[m].key);
      assert m + 1 < j;
      assert !Removes(h[m + 1], h[j].key, h[i].sessionId);
    }
  }

  /**
   A settlement succeeds exactly when its hash matches, its body is canonical, and its request
   id has a pending registration whose ceiling it respects, the signer and the tracker willing.
   */
  lemma SettlesExactlyWhenOpen(steps: seq<Step>, r: Request)
    requires Runs(EMPTY, steps)
    ensures var s := After(EMPTY, steps);
            Check(s, r) == Countersigned <==>
            && r.hashMatches && r.signOk && r.settleOk && Parse(r.body).Ok?
            && exists i: nat :: PendingAt(s.history, i, Parse(r.body).value.requestId, |s.history|)
                                && Parse(r.body).value.outputTokens <= s.history[i].ceiling
  {
    RunKeeps(EMPTY, steps);
  }

  /** Which refusal a settlement draws, from its hash, its bytes and the pending map. */
  lemma RefusalExactly(s: State, body: seq<byte>, hashMatches: bool)
    ensures var r, parsed := Refusal(s, body, hashMatches), Parse(body);
            && (r == Some(PreimageMismatch) <==> !hashMatches)
            && (r == Some(DecodeError) <==> hashMatches && !Encoded(body))
            && (r == Some(UnknownRequest) <==> hashMatches && parsed.Ok? && parsed.value.requestId !in s.pending)
            && (r == Some(OverBudget) <==>
                  hashMatches && parsed.Ok? && parsed.value.requestId in s.pending
                  && parsed.value.outputTokens > s.pending[parsed.value.requestId].maxOutputTokens)
            && (r == None <==>
                  hashMatches && parsed.Ok? && parsed.value.requestId in s.pending
                  && parsed.value.outputTokens <= s.pending[parsed.value.requestId].maxOutputTokens)
  {
    ParseAccepts(body);
  }

  /** What an entry records; a token of any other length than 16 opens no settlement. */
  lemma EntryRecords(s: State, session: string, a: Assignment)
    ensures var s' := Enter(s, session, a, true);
            && session in s'.active && s'.active[session] == ActiveEntry(a.now, a.expiresAt, a.sidecarURL)
            && session in s'.routed && s'.routed[session] == EntryMetadata(a.now, a.expiresAt, a.seederPubkey)
            && (|a.reservationToken| == 16 ==>
                  && a.reservationToken in s'.pending
                  && s'.pending[a.reservationToken] == PendingSettlement(session, a.maxOutputTokens, a.seederPubkey))
            && (|a.reservationToken| != 16 ==> s'.pending == s.pending && s'.history == s.history)
  {
  }

  /** Ending a session takes it out of all three maps when it was active, and changes nothing else or otherwise. */
  lemma SessionEndExactly(s: State, session: string)
    ensures var s' := SessionEnd(s, session);
            if session != "" && session in s.active then
              && session !in s'.active && session !in s'.routed
              && (forall id :: id != session ==> (id in s'.active <==> id in s.active) && (id in s'.routed <==> id in s.routed))
              && (forall k :: k in s'.pending <==> k in s.pending && s.pending[k].sessionId != session)
            else s' == s
  {
  }

  /** A fallback that was entered routes its session and can be settled; once exited it cannot. */
  lemma EntryOpensSettlement(s: State, session: string, a: Assignment, r: Request)
    requires |a.reservationToken| == 16
    requires r.hashMatches && r.signOk && r.settleOk && Parse(r.body).Ok?
    requires Parse(r.body).value.requestId == a.reservationToken
    ensures var s' := Enter(s, session, a, true);
            && session in s'.routed && s'.routed[session].expiresAt == a.expiresAt
            && (Check(s', r) == Countersigned <==> Parse(r.body).value.outputTokens <= a.maxOutputTokens)
            && Check(Exit(s', session), r) == UnknownRequest && session !in Exit(s', session).routed
  {
  }

  // ---------- calls that disturb one another ----------

  /** An exit that a re-entry runs through, from unrouting to clearing, leaves its session routed and not active. */
  lemma ReentryDuringExitStrandsRoute(s: State, session: string, x: Assignment, a: CallId, b: CallId)
    requires session in s.active && session != "" && a !in s.handlers && b !in s.handlers && a != b
    ensures var steps := [EndSession(a, session), Unroute(a)]
                         + ([Route(b, session, x), Activate(b, true)] + [Clear(a), Return(a)]);
            && Runs(s, steps)
            && var s' := After(s, steps);
               session in s'.routed && session !in s'.active && s'.handlers == s.handlers
  {
    var s1 := Next(s, EndSession(a, session));
    TwoSteps(s, EndSession(a, session), Unroute(a));
    var s2 := Next(s1, Unroute(a));
    EnterUninterrupted(s2, b, session, x, true);
    var s3 := Enter(s2, session, x, true);
    TwoSteps(s3, Clear(a), Return(a));
    assert Next(s3, Clear(a)).handlers - {a} == s.handlers;
    RunsAppend(s2, [Route(b, session, x), Activate(b, true)], [Clear(a), Return(a)]);
    RunsAppend(s, [EndSession(a, session), Unroute(a)],
      [Route(b, session, x), Activate(b, true)] + [Clear(a), Return(a)]);
  }

  /**
   Two handlers of one request that both look before either finishes both settle, and the second
   settlement rests on no open registration.
   */
  lemma OverlappingHandlersSettleTwice(s: State, body: seq<byte>, a: CallId, b: CallId)
    requires Refusal(s, body, true).None? && a !in s.handlers && b !in s.handlers && a != b
    ensures var looks := [Look(a, body, true), Look(b, body, true)];
            var settles := [Countersign(a, true, true), Countersign(b, true, true)];
            && Runs(s, looks) && Runs(After(s, looks), settles)
            && var n, h := |s.history|, After(After(s, looks), settles).history;
               && |h| == n + 2 && h[n].Settled? && h[n + 1].Settled? && h[n].key == h[n + 1].key
               && Unjustified(h, n + 1)
  {
    TwoSteps(s, Look(a, body, true), Look(b, body, true));
    var s2 := After(s, [Look(a, body, true), Look(b, body, true)]);
    TwoSteps(s2, Countersign(a, true, true), Countersign(b, true, true));
    var n, h := |s.history|, After(s2, [Countersign(a, true, true), Countersign(b, true, true)]).history;
    assert h[n] == h[n + 1] == Settled(Parse(body).value.requestId, body, n);
  }

  /** A session entered again between a reap's collection and its exits is live, and the reap ends it. */
  lemma ReapEndsReentry(s: State, now: Time, order: seq<string>, session: string, x: Assignment, a: CallId, b: CallId)
    requires a !in s.handlers && b !in s.handlers && a != b
    requires Lists(order, Expired(s, now)) && session in order && !Lapsed(x.expiresAt, now)
    ensures var reentry := [CollectExpired(a, now, order)] + [Route(b, session, x), Activate(b, true)];
            && Runs(s, reentry) && Live(After(s, reentry), session, now)
            && Runs(After(s, reentry), ExitSteps(a, |order|))
            && session !in After(After(s, reentry), ExitSteps(a, |order|)).active
  {
    var s1 := Next(s, CollectExpired(a, now, order));
    EnterUninterrupted(s1, b, session, x, true);
    FirstStep(s, CollectExpired(a, now, order), [Route(b, session, x), Activate(b, true)]);
    var s2 := Enter(s1, session, x, true);
    ExitsUninterrupted(s2, a, order);
    ExitAllRemoves(s2.(handlers := s2.handlers - {a}), order);
  }

  lemma ExitedInBetween(h: seq<Happened>, i: nat, body: seq<byte>)
    requires Finds(h, i, body, |h|)
    ensures Unjustified(h + [Exited(h[i].sessionId)] + [Settled(Parse(body).value.requestId, body, |h|)], |h| + 1)
  {
    var n, exited, settled := |h|, Exited(h[i].sessionId), Settled(Parse(body).value.requestId, body, |h|);
    var g := h + [exited] + [settled];
    FindsAppend(h, exited, i, body, n);
    FindsAppend(h + [exited], settled, i, body, n);
    assert g[n] == exited && g[n + 1] == settled && g[i] == h[i];
    EndedIsUnjustified(g, i, n + 1, n);
  }

  lemma {:induction false} RunsAppend(s: State, x: seq<Step>, y: seq<Step>)
    requires Runs(s, x) && Runs(After(s, x), y)
    ensures Runs(s, x + y) && After(s, x + y) == After(After(s, x), y)
    decreases |x|
  {
    if x == [] {
      assert x + y == y;
    } else {
      RunsAppend(Next(s, x[0]), x[1..], y);
      assert (x + y)[1..] == x[1..] + y;
    }
  }

  /** A look that passes finds an open registration of an active session. */
  lemma PassedLookFinds(s: State, body: seq<byte>) returns (i: nat)
    requires Story(s) && Books(s) && Refusal(s, body, true).None?
    ensures Finds(s.history, i, body, |s.history|) && s.history[i].sessionId in s.active
  {
    var key := Parse(body).value.requestId;
    i :| PendingAt(s.history, i, key, |s.history|) && RegisteredAs(s.history[i], key, s.pending[key]);
    EncodeInvertsParse(body);
  }

  lemma ExitThenSettle(s: State, session: string, a: CallId, b: CallId)
    requires a in s.handlers && s.handlers[a].Settling? && b !in s.handlers
    requires session in s.active && session != ""
    ensures var steps, x := CallSteps(s, EndOfSession(session), b) + [Countersign(a, true, true)], s.handlers[a];
            && Runs(s, steps)
            && After(s, steps).history == s.history + [Exited(session)] + [Settled(x.key, x.body, x.lookedAt)]
  {
    var s2 := Exit(s, session);
    EndUninterrupted(s, b, session);
    Unroll(s2, [Countersign(a, true, true)], Next(s2, Countersign(a, true, true)));
    RunsAppend(s, CallSteps(s, EndOfSession(session), b), [Countersign(a, true, true)]);
  }

  /** One handler is enough: when the session it found ends between look and finish, it settles all the same. */
  lemma ExitDisturbsSettlement(s: State, body: seq<byte>, i: nat, a: CallId, b: CallId)
    requires Refusal(s, body, true).None? && a !in s.handlers && b !in s.handlers && a != b
    requires Finds(s.history, i, body, |s.history|) && s.history[i].sessionId in s.active
    requires s.history[i].sessionId != ""
    ensures var look, session := Look(a, body, true), s.history[i].sessionId;
            var steps := [look] + (CallSteps(Next(s, look), EndOfSession(session), b) + [Countersign(a, true, true)]);
            var settled := Settled(Parse(body).value.requestId, body, |s.history|);
            && Runs(s, steps)
            && After(s, steps).history == s.history + [Exited(session)] + [settled]
            && Unjustified(s.history + [Exited(session)] + [settled], |s.history| + 1)
  {
    var look, session := Look(a, body, true), s.history[i].sessionId;
    var s1 := s.(handlers := s.handlers[a := Settling(Parse(body).value.requestId, body, |s.history|)]);
    assert Next(s, look) == s1;
    ExitThenSettle(s1, session, a, b);
    FirstStep(s, look, CallSteps(s1, EndOfSession(session), b) + [Countersign(a, true, true)]);
    assert Unjustified(s.history + [Exited(session)] + [Settled(Parse(body).value.requestId, body, |s.history|)], |s.history| + 1) by {
      ExitedInBetween(s.history, i, body);
    }
  }

  /** A handler that looks after the other's delete is refused. */
  lemma SerializedHandlerRefuses(s: State, r: Request, again: Request)
    requires Check(s, r) == Countersigned
    requires Parse(again.body).Ok? && Parse(again.body).value.requestId == Parse(r.body).value.requestId
    ensures again.hashMatches ==> Check(Settle(s, r), again) == UnknownRequest
    ensures Settle(Settle(s, r), again) == Settle(s, r)
  {
  }

  // ---------- the objects ----------

  datatype SessionMode = PassThrough | Network(meta: EntryMetadata)

  class SessionModeStore {
    var entries: map<string, EntryMetadata>

    constructor ()
      ensures entries == map[]
    {
      entries := map[];
    }

    method EnterNetworkMode(sessionID: string, meta: EntryMetadata)
      modifies this
      ensures entries == old(entries)[sessionID := meta]
    {
      entries := entries[sessionID := meta];
    }

    method ExitNetworkMode(sessionID: string) returns (present: bool)
      modifies this
      ensures entries == old(entries) - {sessionID} && present == (sessionID in old(entries))
    {
      present := sessionID in entries;
      if present {
        entries := entries - {sessionID};
      }
    }

    /** Only an entry that has not lapsed routes to the network. */
    method GetMode(sessionID: string, now: Time) returns (mode: SessionMode)
      ensures mode == if sessionID in entries
                         && (entries[sessionID].expiresAt == ZERO_TIME || now <= entries[sessionID].expiresAt)
                      then Network(entries[sessionID]) else PassThrough
    {
      if sessionID !in entries {
        return PassThrough;
      }
      var entry := entries[sessionID];
      if entry.expiresAt != ZERO_TIME && now > entry.expiresAt {
        return PassThrough;
      }
      return Network(entry);
    }
  }

  class Coordinator {
    const sessions: SessionModeStore
    var activeSessions: map<string, ActiveEntry>
    var pendingSettlements: map<seq<byte>, PendingSettlement>
    ghost var history: seq<Happened>
    ghost var handlers: map<CallId, Handler>

    constructor (sessions: SessionModeStore)
      requires sessions.entries == map[]
      ensures this.sessions == sessions && View() == EMPTY
    {
      this.sessions := sessions;
      activeSessions, pendingSettlements, history, handlers := map[], map[], [], map[];
    }

    ghost function View(): State
      reads this, sessions
    {
      State(activeSessions, pendingSettlements, sessions.entries, history, handlers)
    }

    /**
     The rate-limit hook. refused is the reason of the first check that fails before the session
     store is reached, from the runtime probe to the seeder's address, None when all pass.
     */
    method HandleRateLimit(session: string, refused: Option<string>, a: Assignment, settingsOk: bool)
      returns (entered: bool)
      modifies this, sessions
      ensures View() == if refused.Some? then old(View()) else Done(old(View()), StopFailure(session, a, settingsOk))
      ensures entered == (refused.None? && settingsOk)
    {
      if refused.Some? {
        return false;
      }
      sessions.EnterNetworkMode(session, EntryMetadata(a.now, a.expiresAt, a.seederPubkey));
      if !settingsOk {
        var _ := sessions.ExitNetworkMode(session);
        assert sessions.entries == old(sessions.entries) - {session};
        return false;
      }
      activeSessions := activeSessions[session := ActiveEntry(a.now, a.expiresAt, a.sidecarURL)];
      if |a.reservationToken| == 16 {
        pendingSettlements :=
          pendingSettlements[a.reservationToken := PendingSettlement(session, a.maxOutputTokens, a.seederPubkey)];
        history := history + [Registered(a.reservationToken, session, a.maxOutputTokens)];
      }
      return true;
    }

    /** Leaves network mode; reports whether the session was active, so that settings must be restored. */
    method ExitNetworkMode(session: string) returns (wasActive: bool)
      modifies this, sessions
      ensures View() == Exit(old(View()), session) && wasActive == (session in old(activeSessions))
    {
      var _ := sessions.ExitNetworkMode(session);
      wasActive := session in activeSessions;
      activeSessions := activeSessions - {session};
      var keys := pendingSettlements.Keys;
      while keys != {}
        invariant keys <= old(pendingSettlements).Keys
        invariant forall k :: k in pendingSettlements <==>
                    k in old(pendingSettlements) && (k in keys || old(pendingSettlements)[k].sessionId != session)
        invariant forall k :: k in pendingSettlements ==> pendingSettlements[k] == old(pendingSettlements)[k]
        invariant activeSessions == old(activeSessions) - {session} && history == old(history) && handlers == old(handlers)
        invariant sessions.entries == old(sessions.entries) - {session}
        decreases keys
      {
        var k :| k in keys;
        if pendingSettlements[k].sessionId == session {
          pendingSettlements := pendingSettlements - {k};
        }
        keys := keys - {k};
      }
      assert pendingSettlements == Exit(old(View()), session).pending;
      history := history + [Exited(session)];
    }

    method OnSessionEnd(session: string)
      modifies this, sessions
      ensures View() == Done(old(View()), EndOfSession(session))
    {
      if session != "" && session in activeSessions {
        var _ := ExitNetworkMode(session);
      }
    }

    /** Exits every session whose time has passed; order is the order the map was walked in. */
    method ReapExpired(now: Time) returns (order: seq<string>)
      modifies this, sessions
      ensures Callable(old(View()), Reap(now, order))
      ensures View() == Done(old(View()), Reap(now, order))
      ensures forall id :: id in activeSessions <==>
                id in old(activeSessions)
                && (old(activeSessions)[id].expiresAt == ZERO_TIME || now <= old(activeSessions)[id].expiresAt)
    {
      order := [];
      var ids := activeSessions.Keys;
      while ids != {}
        invariant ids <= activeSessions.Keys
        invariant forall id :: id in order <==>
                    id in activeSessions && id !in ids && Lapsed(activeSessions[id].expiresAt, now)
        invariant forall i, j :: 0 <= i < j < |order| ==> order[i] != order[j]
        decreases ids
      {
        var id :| id in ids;
        var e := activeSessions[id];
        if e.expiresAt != ZERO_TIME && now > e.expiresAt {
          order := order + [id];
        }
        ids := ids - {id};
      }
      ReapClears(old(View()), now, order);
      var i := 0;
      assert order[0..] == order;
      while i < |order|
        invariant i <= |order|
        invariant ExitAll(View(), order[i..]) == ExitAll(old(View()), order)
      {
        assert order[i..][1..] == order[i + 1..];
        var _ := ExitNetworkMode(order[i]);
        i := i + 1;
      }
    }

    /** The checks up to the first unlock: None when the reservation was found and covers the tokens. */
    method LookUp(body: seq<byte>, hashMatches: bool, ghost id: CallId) returns (refusal: Option<Outcome>)
      requires id !in handlers
      modifies this`handlers
      ensures View() == Next(old(View()), Look(id, body, hashMatches))
      ensures refusal == Refusal(old(View()), body, hashMatches)
    {
      if !hashMatches {
        return Some(PreimageMismatch);
      }
      var parsed := Parse(body);
      if parsed.Err? {
        return Some(DecodeError);
      }
      var key := parsed.value.requestId;
      if key !in pendingSettlements {
        return Some(UnknownRequest);
      }
      if parsed.value.outputTokens > pendingSettlements[key].maxOutputTokens {
        return Some(OverBudget);
      }
      handlers := handlers[id := Settling(key, body, |history|)];
      return None;
    }

    /** Signs and settles with the tracker, outside the lock. */
    method Conclude(signOk: bool, settleOk: bool, ghost id: CallId) returns (outcome: Outcome)
      requires id in handlers && handlers[id].Settling?
      modifies this`handlers, this`history
      ensures View() == Next(old(View()), Countersign(id, signOk, settleOk))
      ensures outcome == if !signOk then SignError else if !settleOk then SettleError else Countersigned
    {
      ghost var x := handlers[id];
      if !signOk {
        handlers := handlers - {id};
        return SignError;
      }
      if !settleOk {
        handlers := handlers - {id};
        return SettleError;
      }
      history, handlers := history + [Settled(x.key, x.body, x.lookedAt)], handlers[id := Consuming(x.key)];
      return Countersigned;
    }

    /** Deletes the settled reservation under the lock. */
    method ConsumePending(key: seq<byte>, ghost id: CallId)
      requires id in handlers && handlers[id] == Consuming(key)
      modifies this`handlers, this`pendingSettlements, this`history
      ensures View() == Next(old(View()), Consume(id))
    {
      pendingSettlements := pendingSettlements - {key};
      history, handlers := history + [Consumed(key)], handlers - {id};
    }

    /** Answers a pushed settlement; only Countersigned and a written audit record return no error. */
    method HandleSettlement(r: Request, auditOk: bool, ghost id: CallId) returns (outcome: Outcome, ok: bool)
      requires id !in handlers
      modifies this
      ensures View() == Done(old(View()), Settlement(r))
      ensures outcome == Check(old(View()), r) && ok == (outcome == Countersigned && auditOk)
    {
      ghost var s := View();
      var refusal := LookUp(r.body, r.hashMatches, id);
      if refusal.Some? {
        return refusal.value, false;
      }
      LookThenSettle(s, id, r);
      outcome := Conclude(r.signOk, r.settleOk, id);
      if outcome == Countersigned {
        ConsumePending(Parse(r.body).value.requestId, id);
      }
      ok := outcome == Countersigned && auditOk;
    }
  }
}
