/**
 The seeder side of an offer: reservations, the goroutines that serve tunnels, and the
 count of clients being served. Steps are the critical sections and calls of HandleOffer,
 the accept loop and Serve; any order of enabled steps is a run.
 */
module SeederFlow {
  import opened Bytes
  import opened Numbers

  type Hash = nat
  type Client = string
  type ServeId = nat

  datatype Reservation = Reservation(requestId: seq<byte>, model: string, client: Client)

  /** A reservation together with the number of its registration, which the coordinator does not keep. */
  datatype Booking = Booking(serial: nat, requestId: seq<byte>, model: string, client: Client)

  datatype Offer = Offer(hash: Hash, reservation: Booking)

  /** Where a serving goroutine stands. From Registered to Leaving its client is being served. */
  datatype Serve =
    | Accepted(hash: Hash)
    | Holding(taken: Offer)
    | Registered(taken: Offer)
    | Running(taken: Offer)
    | Bridged(taken: Offer)
    | Leaving(taken: Offer)
    | Finished

  datatype UsageReport = UsageReport(serial: nat, requestId: seq<byte>, model: string)

  /** offers, bridges and reports are what has been registered, invoked (by serial) and sent so far. */
  datatype State = State(
    reservations: map<Hash, Booking>, serves: map<ServeId, Serve>, active: map<Client, nat>,
    offers: seq<Offer>, bridges: seq<nat>, reports: seq<UsageReport>)

  const EMPTY := State(map[], map[], map[], [], [], [])

  datatype Step =
    | AcceptOffer(hash: Hash, requestId: seq<byte>, model: string, client: Client)
    | Peek(id: ServeId, hash: Hash)     // exactly one reservation is outstanding: serve it
    | Consume(id: ServeId)
    | Abort(id: ServeId)                // unreadable or bad request body, or the OK not sent
    | Register(id: ServeId)
    | Invoke(id: ServeId)
    | Return(id: ServeId, ok: bool)     // the bridge and the sink's Close have returned
    | Report(id: ServeId, sent: bool)   // pricing or signing the report may fail before it is sent
    | Unregister(id: ServeId)

  // ---------- the shared maps ----------

  function Incremented(active: map<Client, nat>, c: Client): map<Client, nat> {
    active[c := if c in active then active[c] + 1 else 1]
  }

  /** The entry goes away with its last user. */
  function Decremented(active: map<Client, nat>, c: Client): map<Client, nat> {
    if c !in active || active[c] <= 1 then active - {c} else active[c := active[c] - 1]
  }

  predicate Single(m: map<Hash, Booking>, h: Hash) {
    m.Keys == {h}
  }

  predicate Can(s: State, step: Step) {
    match step
    case AcceptOffer(_, _, _, _) => true
    case Peek(id, h) => id !in s.serves && Single(s.reservations, h)
    case Consume(id) => id in s.serves && s.serves[id].Accepted?
    case Abort(id) => id in s.serves && s.serves[id].Holding?
    case Register(id) => id in s.serves && s.serves[id].Holding?
    case Invoke(id) => id in s.serves && s.serves[id].Registered?
    case Return(id, _) => id in s.serves && s.serves[id].Running?
    case Report(id, _) => id in s.serves && s.serves[id].Bridged?
    case Unregister(id) => id in s.serves && s.serves[id].Leaving?
  }

  function Next(s: State, step: Step): State
    requires Can(s, step)
  {
    match step
    case AcceptOffer(h, requestId, model, client) =>
      var r := Booking(|s.offers|, requestId, model, client);
      s.(reservations := s.reservations[h := r], offers := s.offers + [Offer(h, r)])
    case Peek(id, h) => s.(serves := s.serves[id := Accepted(h)])
    case Consume(id) =>
      var h := s.serves[id].hash;
      if h !in s.reservations then s.(serves := s.serves[id := Finished])
      else s.(serves := s.serves[id := Holding(Offer(h, s.reservations[h]))], reservations := s.reservations - {h})
    case Abort(id) => s.(serves := s.serves[id := Finished])
    case Register(id) =>
      var t := s.serves[id].taken;
      s.(serves := s.serves[id := Registered(t)], active := Incremented(s.active, t.reservation.client))
    case Invoke(id) =>
      var t := s.serves[id].taken;
      s.(serves := s.serves[id := Running(t)], bridges := s.bridges + [t.reservation.serial])
    case Return(id, ok) =>
      var t := s.serves[id].taken;
      s.(serves := s.serves[id := if ok then Bridged(t) else Leaving(t)])
    case Report(id, sent) =>
      var t := s.serves[id].taken;
      var report := UsageReport(t.reservation.serial, t.reservation.requestId, t.reservation.model);
      s.(serves := s.serves[id := Leaving(t)], reports := if sent then s.reports + [report] else s.reports)
    case Unregister(id) =>
      var t := s.serves[id].taken;
      s.(serves := s.serves[id := Finished], active := Decremented(s.active, t.reservation.client))
  }

  // ---------- what every step keeps: reservations ----------

  predicate Holds(p: Serve) {
    !p.Accepted? && !p.Finished?
  }

  /** An offer as it was registered. */
  ghost predicate Known(s: State, o: Offer) {
    o.reservation.serial < |s.offers| && s.offers[o.reservation.serial] == o
  }

  ghost predicate Serial(s: State, id: ServeId, n: nat) {
    id in s.serves && Holds(s.serves[id]) && s.serves[id].taken.reservation.serial == n
  }

  /** Each registration is in the map, in the hands of one goroutine, or gone; never in two places. */
  ghost predicate Custody(s: State) {
    && (forall i :: 0 <= i < |s.offers| ==> s.offers[i].reservation.serial == i)
    && (forall h :: h in s.reservations ==> Known(s, Offer(h, s.reservations[h])))
    && (forall id :: id in s.serves && Holds(s.serves[id]) ==> Known(s, s.serves[id].taken))
    && (forall id: ServeId, other: ServeId, n: nat :: Serial(s, id, n) && Serial(s, other, n) ==> id == other)
    && (forall id, h :: h in s.reservations ==> !Serial(s, id, s.reservations[h].serial))
  }

  /** Invoked and reported serials are known, distinct, and not waiting to be invoked or reported. */
  ghost predicate UsedOnce(s: State) {
    && (forall i, j :: 0 <= i < j < |s.bridges| ==> s.bridges[i] != s.bridges[j])
    && (forall n :: n in s.bridges ==> n < |s.offers|)
    && (forall h :: h in s.reservations ==> s.reservations[h].serial !in s.bridges)
    && (forall id: ServeId, n: nat :: Serial(s, id, n) && (s.serves[id].Holding? || s.serves[id].Registered?) ==> n !in s.bridges)
    && (forall i, j :: 0 <= i < j < |s.reports| ==> s.reports[i].serial != s.reports[j].serial)
    && (forall r :: r in s.reports ==>
          && r.serial in s.bridges && r.serial < |s.offers|
          && r.requestId == s.offers[r.serial].reservation.requestId
          && r.model == s.offers[r.serial].reservation.model)
    && (forall id: ServeId, n: nat :: Serial(s, id, n) && (s.serves[id].Running? || s.serves[id].Bridged?) ==>
          n in s.bridges && forall r :: r in s.reports ==> r.serial != n)
  }

  lemma OfferKeepsCustody(s: State, step: Step)
    requires Custody(s) && step.AcceptOffer?
    ensures Custody(Next(s, step))
  {
    var s' := Next(s, step);
    assert forall id: ServeId, n: nat :: Serial(s', id, n) == Serial(s, id, n);
    assert forall id: ServeId, n: nat :: Serial(s, id, n) ==> n < |s.offers|;
    forall h | h in s'.reservations ensures Known(s', Offer(h, s'.reservations[h])) {
      if h != step.hash { assert Known(s, Offer(h, s.reservations[h])); }
    }
    forall id | id in s'.serves && Holds(s'.serves[id]) ensures Known(s', s'.serves[id].taken) {
      assert Known(s, s.serves[id].taken);
    }
  }

  /** Consuming passes a registration from the map to one goroutine. */
  lemma ConsumeKeepsCustody(s: State, id: ServeId)
    requires Custody(s) && Can(s, Consume(id)) && s.serves[id].hash in s.reservations
    ensures Custody(Next(s, Consume(id)))
  {
    var s', h := Next(s, Consume(id)), s.serves[id].hash;
    var n := s.reservations[h].serial;
    assert forall x: ServeId, m: nat :: Serial(s', x, m) <==> (x == id && m == n) || Serial(s, x, m);
    forall x | x in s'.reservations ensures s'.reservations[x].serial != n {
      assert Known(s, Offer(x, s.reservations[x])) && Known(s, Offer(h, s.reservations[h]));
    }
    assert forall o :: Known(s', o) == Known(s, o);
  }

  lemma CustodyKept(s: State, step: Step)
    requires Custody(s) && Can(s, step)
    ensures Custody(Next(s, step))
  {
    if step.AcceptOffer? {
      OfferKeepsCustody(s, step);
    } else if step.Consume? && s.serves[step.id].hash in s.reservations {
      ConsumeKeepsCustody(s, step.id);
    } else {
      assert forall id: ServeId, n: nat :: Serial(Next(s, step), id, n) ==> Serial(s, id, n);
      assert forall o :: Known(Next(s, step), o) == Known(s, o);
    }
  }

  lemma OfferUsed(s: State, step: Step)
    requires Custody(s) && UsedOnce(s) && Can(s, step) && (step.AcceptOffer? || step.Peek? || step.Consume? || step.Abort?)
    ensures UsedOnce(Next(s, step))
  {
    var s' := Next(s, step);
    assert forall i :: 0 <= i < |s.offers| ==> s'.offers[i] == s.offers[i];
    forall id: ServeId, n: nat | Serial(s', id, n) ensures Serial(s, id, n) || (step.Consume? && id == step.id) {
    }
    if step.AcceptOffer? {
      assert |s.offers| !in s.bridges;
    }
  }

  lemma InvokeUsed(s: State, id: ServeId)
    requires Custody(s) && UsedOnce(s) && Can(s, Invoke(id))
    ensures UsedOnce(Next(s, Invoke(id)))
  {
    var s', n := Next(s, Invoke(id)), s.serves[id].taken.reservation.serial;
    assert Serial(s, id, n) && n !in s.bridges;
    assert Known(s, s.serves[id].taken);
    assert forall x: ServeId, m: nat :: Serial(s', x, m) == Serial(s, x, m);
    assert forall m :: m in s'.bridges <==> m in s.bridges || m == n;
    forall h | h in s'.reservations ensures s'.reservations[h].serial !in s'.bridges {
      assert !Serial(s, id, s.reservations[h].serial);
    }
    forall r | r in s'.reports ensures r.serial != n {
    }
  }

  lemma ReportUsed(s: State, id: ServeId)
    requires Custody(s) && UsedOnce(s) && Can(s, Report(id, true))
    ensures UsedOnce(Next(s, Report(id, true)))
  {
    var s', t := Next(s, Report(id, true)), s.serves[id].taken;
    var n := t.reservation.serial;
    assert Serial(s, id, n) && Known(s, t);
    assert forall x: ServeId, m: nat :: Serial(s', x, m) == Serial(s, x, m);
    assert forall r :: r in s'.reports <==> r in s.reports || r == UsageReport(n, t.reservation.requestId, t.reservation.model);
    forall i | 0 <= i < |s.reports| ensures s.reports[i].serial != n {
      assert s.reports[i] in s.reports;
    }
  }

  /** Steps that neither register, invoke nor report. */
  lemma QuietUsed(s: State, step: Step)
    requires Custody(s) && UsedOnce(s) && Can(s, step)
    requires step.Register? || step.Return? || step.Unregister? || (step.Report? && !step.sent)
    ensures UsedOnce(Next(s, step))
  {
    assert forall x: ServeId, m: nat :: Serial(Next(s, step), x, m) ==> Serial(s, x, m);
  }

  lemma UsedKept(s: State, step: Step)
    requires Custody(s) && UsedOnce(s) && Can(s, step)
    ensures UsedOnce(Next(s, step))
  {
    if step.Invoke? {
      InvokeUsed(s, step.id);
    } else if step.Report? && step.sent {
      ReportUsed(s, step.id);
    } else if step.AcceptOffer? || step.Peek? || step.Consume? || step.Abort? {
      OfferUsed(s, step);
    } else {
      QuietUsed(s, step);
    }
  }

  // ---------- what every step keeps: reference counts ----------

  /** Between register and unregister, for this client. */
  predicate Serving(p: Serve, c: Client) {
    (p.Registered? || p.Running? || p.Bridged? || p.Leaving?) && p.taken.reservation.client == c
  }

  ghost function ServingIds(serves: map<ServeId, Serve>, c: Client): set<ServeId> {
    set id | id in serves && Serving(serves[id], c)
  }

  /** The count of c is the number of goroutines serving it, and zero is no entry. */
  ghost predicate CountRight(active: map<Client, nat>, serves: map<ServeId, Serve>, c: Client) {
    (if c in active then active[c] else 0) == |ServingIds(serves, c)| && (c in active ==> active[c] > 0)
  }

  ghost predicate Counted(s: State) {
    forall c :: CountRight(s.active, s.serves, c)
  }

  /** One goroutine changing its place changes each client's set by at most itself. */
  lemma ServingUpdate(serves: map<ServeId, Serve>, id: ServeId, p: Serve, c: Client)
    ensures ServingIds(serves[id := p], c)
            == if Serving(p, c) then ServingIds(serves, c) + {id} else ServingIds(serves, c) - {id}
    ensures id in ServingIds(serves, c) <==> id in serves && Serving(serves[id], c)
  {
  }

  lemma SizeChange<T>(s: set<T>, x: T)
    ensures |s + {x}| == if x in s then |s| else |s| + 1
    ensures |s - {x}| == if x in s then |s| - 1 else |s|
  {
    if x in s {
      assert s + {x} == s && s - {x} + {x} == s;
    } else {
      assert s - {x} == s;
    }
  }

  lemma MoveKeepsCounts(s: State, id: ServeId, p: Serve)
    requires Counted(s)
    requires forall c :: Serving(p, c) <==> id in s.serves && Serving(s.serves[id], c)
    ensures Counted(s.(serves := s.serves[id := p]))
  {
    var serves := s.serves[id := p];
    forall c ensures CountRight(s.active, serves, c) {
      assert CountRight(s.active, s.serves, c);
      ServingUpdate(s.serves, id, p, c);
      SizeChange(ServingIds(s.serves, c), id);
    }
  }

  lemma RegisterKeepsCounts(s: State, id: ServeId)
    requires Counted(s) && Can(s, Register(id))
    ensures Counted(Next(s, Register(id)))
  {
    var s', p := Next(s, Register(id)), Registered(s.serves[id].taken);
    forall c ensures CountRight(s'.active, s'.serves, c) {
      assert CountRight(s.active, s.serves, c);
      ServingUpdate(s.serves, id, p, c);
      SizeChange(ServingIds(s.serves, c), id);
    }
  }

  /** A client's count once goroutine id, which served client gone, has finished. */
  lemma FinishedCount(active: map<Client, nat>, serves: map<ServeId, Serve>, id: ServeId, gone: Client, c: Client)
    requires CountRight(active, serves, c) && id in serves && (Serving(serves[id], c) <==> c == gone)
    ensures CountRight(Decremented(active, gone), serves[id := Finished], c)
  {
    ServingUpdate(serves, id, Finished, c);
    SizeChange(ServingIds(serves, c), id);
  }

  lemma UnregisterKeepsCounts(s: State, id: ServeId)
    requires Counted(s) && Can(s, Unregister(id))
    ensures Counted(Next(s, Unregister(id)))
  {
    var s', gone := Next(s, Unregister(id)), s.serves[id].taken.reservation.client;
    forall c ensures CountRight(s'.active, s'.serves, c) {
      assert CountRight(s.active, s.serves, c);
      FinishedCount(s.active, s.serves, id, gone, c);
    }
  }

  lemma CountsKept(s: State, step: Step)
    requires Counted(s) && Can(s, step)
    ensures Counted(Next(s, step))
  {
    match step
    case Register(id) => RegisterKeepsCounts(s, id);
    case Unregister(id) => UnregisterKeepsCounts(s, id);
    case AcceptOffer(_, _, _, _) => assert forall c :: CountRight(s.active, s.serves, c);
    case _ =>
      var id, s' := step.id, Next(s, step);
      MoveKeepsCounts(s, id, s'.serves[id]);
      assert s'.serves == s.serves[id := s'.serves[id]] && s'.active == s.active;
  }

  // ---------- whole runs ----------

  ghost predicate Runs(s: State, steps: seq<Step>)
    decreases |steps|
  {
    steps == [] || (Can(s, steps[0]) && Runs(Next(s, steps[0]), steps[1..]))
  }

  function After(s: State, steps: seq<Step>): State
    requires Runs(s, steps)
    decreases |steps|
  {
    if steps == [] then s else After(Next(s, steps[0]), steps[1..])
  }

  /** What every run keeps. */
  ghost predicate Sound(s: State) {
    Custody(s) && UsedOnce(s) && Counted(s)
  }

  lemma StepKeeps(s: State, step: Step)
    requires Sound(s) && Can(s, step)
    ensures Sound(Next(s, step))
  {
    CustodyKept(s, step);
    UsedKept(s, step);
    CountsKept(s, step);
  }

  lemma {:induction false} RunKeeps(s: State, steps: seq<Step>)
    requires Sound(s) && Runs(s, steps)
    ensures Sound(After(s, steps))
    decreases |steps|
  {
    if steps != [] {
      StepKeeps(s, steps[0]);
      RunKeeps(Next(s, steps[0]), steps[1..]);
    }
  }

  lemma EmptyCounts()
    ensures Counted(EMPTY)
  {
    forall c ensures CountRight(EMPTY.active, EMPTY.serves, c) {
      assert ServingIds(EMPTY.serves, c) == {};
    }
  }

  /** A goroutine that gave up or unregistered is done for good. */
  lemma {:induction false} FinishedStays(s: State, steps: seq<Step>, id: ServeId)
    requires Runs(s, steps) && id in s.serves && s.serves[id] == Finished
    ensures id in After(s, steps).serves && After(s, steps).serves[id] == Finished
    decreases |steps|
  {
    if steps != [] {
      FinishedStays(Next(s, steps[0]), steps[1..], id);
    }
  }

  lemma GivingUpIsFinal(s: State, step: Step, steps: seq<Step>)
    requires Can(s, step) && (step.Abort? || step.Unregister?) && Runs(Next(s, step), steps)
    ensures var s' := After(Next(s, step), steps);
            step.id in s'.serves && s'.serves[step.id] == Finished
  {
    FinishedStays(Next(s, step), steps, step.id);
  }

  // ---------- a whole serve ----------

  lemma Unroll(s: State, step: Step, rest: seq<Step>)
    requires Can(s, step) && Runs(Next(s, step), rest)
    ensures Runs(s, [step] + rest) && After(s, [step] + rest) == After(Next(s, step), rest)
  {
    assert ([step] + rest)[1..] == rest;
  }

  lemma RunAlone(s: State, step: Step)
    requires Can(s, step)
    ensures Runs(s, [step]) && After(s, [step]) == Next(s, step)
  {
    assert [step] + [] == [step];
    Unroll(s, step, []);
  }

  /** From the tunnel's acceptance to the served client. */
  function Opening(id: ServeId, h: Hash, requestId: seq<byte>, model: string, client: Client): seq<Step> {
    [AcceptOffer(h, requestId, model, client)] + ([Peek(id, h)] + ([Consume(id)] + [Register(id)]))
  }

  /** An offer that is the only one outstanding is served by the next tunnel, and its client counted. */
  lemma OfferIsServed(s: State, id: ServeId, h: Hash, requestId: seq<byte>, model: string, client: Client)
    requires s.reservations == map[] && id !in s.serves
    ensures var taken := Offer(h, Booking(|s.offers|, requestId, model, client));
            && Runs(s, Opening(id, h, requestId, model, client))
            && After(s, Opening(id, h, requestId, model, client))
               == s.(serves := s.serves[id := Registered(taken)], offers := s.offers + [taken],
                     active := s.active[client := if client in s.active then s.active[client] + 1 else 1])
  {
    var taken := Offer(h, Booking(|s.offers|, requestId, model, client));
    var s1 := Next(s, AcceptOffer(h, requestId, model, client));
    assert s1.reservations == map[h := taken.reservation] && s1.reservations.Keys == {h};
    var s2 := Next(s1, Peek(id, h));
    var s3 := Next(s2, Consume(id));
    assert s3.reservations == map[] && s3.serves == s.serves[id := Holding(taken)];
    RunAlone(s3, Register(id));
    Unroll(s2, Consume(id), [Register(id)]);
    Unroll(s1, Peek(id, h), [Consume(id)] + [Register(id)]);
    Unroll(s, AcceptOffer(h, requestId, model, client), [Peek(id, h)] + ([Consume(id)] + [Register(id)]));
    assert After(s, Opening(id, h, requestId, model, client)).serves == s.serves[id := Registered(taken)];
  }

  /** From the served client to its release; a report is made only when the bridge succeeded. */
  function Closing(id: ServeId, ok: bool, sent: bool): seq<Step> {
    [Invoke(id)] + ([Return(id, ok)] + (if ok then [Report(id, sent)] + [Unregister(id)] else [Unregister(id)]))
  }

  /** A registered client's bridge is invoked once, reported once if it succeeded and the report went out, and the client released. */
  lemma ServedIsReported(s: State, id: ServeId, ok: bool, sent: bool)
    requires id in s.serves && s.serves[id].Registered?
    ensures var b := s.serves[id].taken.reservation;
            && Runs(s, Closing(id, ok, sent))
            && After(s, Closing(id, ok, sent))
               == s.(serves := s.serves[id := Finished], bridges := s.bridges + [b.serial],
                     reports := if ok && sent then s.reports + [UsageReport(b.serial, b.requestId, b.model)] else s.reports,
                     active := if b.client in s.active && s.active[b.client] > 1
                               then s.active[b.client := s.active[b.client] - 1] else s.active - {b.client})
  {
    var s1 := Next(s, Invoke(id));
    var s2 := Next(s1, Return(id, ok));
    if ok {
      var s3 := Next(s2, Report(id, sent));
      RunAlone(s3, Unregister(id));
      Unroll(s2, Report(id, sent), [Unregister(id)]);
      Unroll(s1, Return(id, ok), [Report(id, sent)] + [Unregister(id)]);
      Unroll(s, Invoke(id), [Return(id, ok)] + ([Report(id, sent)] + [Unregister(id)]));
    } else {
      RunAlone(s2, Unregister(id));
      Unroll(s1, Return(id, ok), [Unregister(id)]);
      Unroll(s, Invoke(id), [Return(id, ok)] + [Unregister(id)]);
    }
    assert After(s, Closing(id, ok, sent)).serves == s.serves[id := Finished];
  }

  /** A goroutine whose reservation is gone, or whose request is bad, ends without serving. */
  lemma NothingToServe(s: State, id: ServeId)
    requires id in s.serves
    ensures s.serves[id].Accepted? && s.serves[id].hash !in s.reservations ==>
              Can(s, Consume(id)) && Next(s, Consume(id)) == s.(serves := s.serves[id := Finished])
    ensures s.serves[id].Holding? ==>
              Can(s, Abort(id)) && Next(s, Abort(id)) == s.(serves := s.serves[id := Finished])
  {
  }

  // ---------- reports follow successful bridges ----------

  /** The registrations whose bridge returned without an error in this run. */
  ghost function Succeeded(s: State, steps: seq<Step>): seq<nat>
    requires Runs(s, steps)
    decreases |steps|
  {
    if steps == [] then []
    else
      var later := Succeeded(Next(s, steps[0]), steps[1..]);
      if steps[0].Return? && steps[0].ok then [s.serves[steps[0].id].taken.reservation.serial] + later else later
  }

  /** Reports sent, and those about to be, are of registrations among done. */
  ghost predicate ReportsAmong(s: State, done: seq<nat>) {
    && (forall r :: r in s.reports ==> r.serial in done)
    && (forall id :: id in s.serves && s.serves[id].Bridged? ==> s.serves[id].taken.reservation.serial in done)
  }

  lemma {:induction false} ReportsGrow(s: State, steps: seq<Step>, done: seq<nat>)
    requires ReportsAmong(s, done) && Runs(s, steps)
    ensures ReportsAmong(After(s, steps), done + Succeeded(s, steps))
    decreases |steps|
  {
    if steps == [] {
      assert done + [] == done;
    } else {
      var step := steps[0];
      var one := if step.Return? && step.ok then [s.serves[step.id].taken.reservation.serial] else [];
      OneReport(s, step, done, one);
      ReportsGrow(Next(s, step), steps[1..], done + one);
      assert done + Succeeded(s, steps) == (done + one) + Succeeded(Next(s, step), steps[1..]);
    }
  }

  lemma OneReport(s: State, step: Step, done: seq<nat>, one: seq<nat>)
    requires ReportsAmong(s, done) && Can(s, step)
    requires one == if step.Return? && step.ok then [s.serves[step.id].taken.reservation.serial] else []
    ensures ReportsAmong(Next(s, step), done + one)
  {
  }

  /** In every interleaving a report is sent only for a registration whose bridge had returned without an error. */
  lemma ReportsFollowSuccess(steps: seq<Step>)
    requires Runs(EMPTY, steps)
    ensures forall r :: r in After(EMPTY, steps).reports ==> r.serial in Succeeded(EMPTY, steps)
  {
    ReportsGrow(EMPTY, steps, []);
    assert [] + Succeeded(EMPTY, steps) == Succeeded(EMPTY, steps);
  }

  /** The serials among ns registered under hash h. */
  function UnderHash(offers: seq<Offer>, ns: seq<nat>, h: Hash): (r: seq<nat>)
    ensures forall n :: n in r <==> n in ns && n < |offers| && offers[n].hash == h
  {
    if ns == [] then []
    else
      var rest := UnderHash(offers, ns[1..], h);
      if ns[0] < |offers| && offers[ns[0]].hash == h then [ns[0]] + rest else rest
  }

  ghost predicate Distinct(ns: seq<nat>) {
    forall i, j :: 0 <= i < j < |ns| ==> ns[i] != ns[j]
  }

  lemma {:induction false} UnderHashDistinct(offers: seq<Offer>, ns: seq<nat>, h: Hash)
    requires Distinct(ns)
    ensures Distinct(UnderHash(offers, ns, h))
  {
    if ns != [] {
      UnderHashDistinct(offers, ns[1..], h);
      assert ns[0] !in ns[1..];
    }
  }

  /** The registrations made under hash h. */
  function RegistrationsOf(offers: seq<Offer>, h: Hash): set<nat> {
    set i | 0 <= i < |offers| && offers[i].hash == h
  }

  function SerialsOf(reports: seq<UsageReport>): (r: seq<nat>)
    ensures |r| == |reports| && forall i :: 0 <= i < |r| ==> r[i] == reports[i].serial
  {
    seq(|reports|, i requires 0 <= i < |reports| => reports[i].serial)
  }

  /**
   Single use in every interleaving: no registration is invoked or reported twice, so under any
   hash there are at most as many bridge invocations, and at most as many usage reports, as
   registrations; each report carries the request id and the model of the registration it consumed.
   */
  lemma SingleUse(steps: seq<Step>, h: Hash)
    requires Runs(EMPTY, steps)
    ensures var s := After(EMPTY, steps);
            && Distinct(s.bridges) && Distinct(SerialsOf(s.reports))
            && |UnderHash(s.offers, s.bridges, h)| <= |RegistrationsOf(s.offers, h)|
            && |UnderHash(s.offers, SerialsOf(s.reports), h)| <= |RegistrationsOf(s.offers, h)|
            && (forall r :: r in s.reports ==>
                  && r.serial in s.bridges && r.serial < |s.offers|
                  && r.requestId == s.offers[r.serial].reservation.requestId
                  && r.model == s.offers[r.serial].reservation.model)
  {
    EmptyCounts();
    RunKeeps(EMPTY, steps);
    var s := After(EMPTY, steps);
    UnderHashDistinct(s.offers, s.bridges, h);
    DistinctFit(UnderHash(s.offers, s.bridges, h), RegistrationsOf(s.offers, h));
    UnderHashDistinct(s.offers, SerialsOf(s.reports), h);
    DistinctFit(UnderHash(s.offers, SerialsOf(s.reports), h), RegistrationsOf(s.offers, h));
  }

  /** Reference counts in every interleaving: exact, and never a zero entry. */
  lemma CountsAreExact(steps: seq<Step>, c: Client)
    requires Runs(EMPTY, steps)
    ensures var s := After(EMPTY, steps);
            && (if c in s.active then s.active[c] else 0) == |ServingIds(s.serves, c)|
            && (c in s.active ==> s.active[c] > 0)
  {
    EmptyCounts();
    RunKeeps(EMPTY, steps);
    assert CountRight(After(EMPTY, steps).active, After(EMPTY, steps).serves, c);
  }

  /** Exactly when a goroutine is serving the client is its count positive. */
  lemma PositiveIsServing(s: State, c: Client)
    requires Counted(s)
    ensures (c in s.active && s.active[c] > 0) <==> ServingIds(s.serves, c) != {}
  {
    assert CountRight(s.active, s.serves, c);
  }

  // ---------- the coordinator ----------

  /**
   The two shared maps. The ghost fields number the registrations and record the serving
   goroutines and what they have done, so that View is the state the step relation speaks of.
   */
  class Coordinator {
    var reservations: map<Hash, Reservation>
    var activeClients: map<Client, nat>
    ghost var booked: map<Hash, Booking>
    ghost var serves: map<ServeId, Serve>
    ghost var offers: seq<Offer>
    ghost var bridges: seq<nat>
    ghost var reports: seq<UsageReport>

    ghost function View(): State
      reads this
    {
      State(booked, serves, activeClients, offers, bridges, reports)
    }

    /** booked is reservations, numbered. */
    ghost predicate Valid()
      reads this
    {
      && reservations.Keys == booked.Keys
      && (forall h :: h in booked ==>
            reservations[h] == Reservation(booked[h].requestId, booked[h].model, booked[h].client))
      && Sound(View())
    }

    constructor ()
      ensures Valid() && View() == EMPTY
    {
      reservations, activeClients := map[], map[];
      booked, serves, offers, bridges, reports := map[], map[], [], [], [];
      EmptyCounts();
    }

    /** A later offer under the same hash replaces the reservation. */
    method RegisterReservation(h: Hash, r: Reservation)
      requires Valid()
      modifies this
      ensures Valid() && reservations == old(reservations)[h := r]
      ensures View() == Next(old(View()), AcceptOffer(h, r.requestId, r.model, r.client))
    {
      StepKeeps(View(), AcceptOffer(h, r.requestId, r.model, r.client));
      reservations := reservations[h := r];
      ghost var b := Booking(|offers|, r.requestId, r.model, r.client);
      booked, offers := booked[h := b], offers + [Offer(h, b)];
    }

    /** Looks up and removes in one critical section. */
    method ConsumeReservation(h: Hash, ghost id: ServeId) returns (r: Option<Reservation>)
      requires Valid() && Can(View(), Consume(id)) && serves[id].hash == h
      modifies this
      ensures Valid() && View() == Next(old(View()), Consume(id))
      ensures r == (if h in old(reservations) then Some(old(reservations)[h]) else None)
      ensures reservations == old(reservations) - {h}
    {
      StepKeeps(View(), Consume(id));
      if h !in reservations {
        serves := serves[id := Finished];
        return None;
      }
      r := Some(reservations[h]);
      reservations := reservations - {h};
      serves, booked := serves[id := Holding(Offer(h, booked[h]))], booked - {h};
    }

    /** The hash of the only outstanding reservation, if there is exactly one; a goroutine is started to serve it. */
    method PeekReservation(ghost id: ServeId) returns (h: Option<Hash>)
      requires Valid() && id !in serves
      modifies this`serves
      ensures Valid()
      ensures h.Some? <==> |reservations| == 1
      ensures h.Some? ==> h.value in reservations
      ensures h.Some? ==> Can(old(View()), Peek(id, h.value)) && View() == Next(old(View()), Peek(id, h.value))
      ensures h.None? ==> View() == old(View())
    {
      if |reservations| != 1 {
        return None;
      }
      assert |reservations.Keys| == 1;
      var k :| k in reservations.Keys;
      assert |reservations.Keys - {k}| == 0;
      assert reservations.Keys == {k};
      StepKeeps(View(), Peek(id, k));
      serves := serves[id := Accepted(k)];
      return Some(k);
    }

    method RegisterActive(c: Client, ghost id: ServeId)
      requires Valid() && Can(View(), Register(id)) && serves[id].taken.reservation.client == c
      modifies this
      ensures Valid() && View() == Next(old(View()), Register(id))
    {
      StepKeeps(View(), Register(id));
      activeClients := activeClients[c := (if c in activeClients then activeClients[c] else 0) + 1];
      serves := serves[id := Registered(serves[id].taken)];
    }

    method UnregisterActive(c: Client, ghost id: ServeId)
      requires Valid() && Can(View(), Unregister(id)) && serves[id].taken.reservation.client == c
      modifies this
      ensures Valid() && View() == Next(old(View()), Unregister(id))
    {
      StepKeeps(View(), Unregister(id));
      var n := if c in activeClients then activeClients[c] else 0;
      serves := serves[id := Finished];
      if n <= 1 {
        activeClients := activeClients - {c};
        return;
      }
      activeClients := activeClients[c := n - 1];
    }

    /** A client is active exactly while some goroutine is between register and unregister for it. */
    method IsActiveByHash(c: Client) returns (b: bool)
      requires Valid()
      ensures b <==> ServingIds(serves, c) != {}
    {
      PositiveIsServing(View(), c);
      b := c in activeClients && activeClients[c] > 0;
    }

    /** The steps of a goroutine that touch neither map. */
    ghost method Proceed(step: Step)
      requires Valid() && Can(View(), step)
      requires step.Abort? || step.Invoke? || step.Return? || step.Report?
      modifies this`serves, this`bridges, this`reports
      ensures Valid() && View() == Next(old(View()), step)
    {
      StepKeeps(View(), step);
      var s := Next(View(), step);
      serves, bridges, reports := s.serves, s.bridges, s.reports;
    }
  }
}
