/**
 The coordinator's calls together with the settings file they redirect and restore. The calls run
 one at a time and every write takes effect; the sidecar's address stays the same.
 */
module NetworkMode {
  import opened Bytes
  import Flow = ConsumerFlow
  import Json = SettingsJson

  /**
   The coordinator and its disk. entered, exits and found are what has happened so far: whether a
   fallback was entered, how many sessions were exited since the last entry, and whether that entry
   found the redirect live.
   */
  datatype Net = Net(flow: Flow.State, disk: Json.Disk, entered: bool, exits: nat, found: bool)

  /** refused says that a check before the session store fails. */
  datatype Call =
    | Limit(session: string, refused: bool, assignment: Flow.Assignment)
    | EndOfSession(session: string)
    | Reap(now: Flow.Time, order: seq<string>)

  function Start(disk: Json.Disk): Net {
    Net(Flow.EMPTY, disk, false, 0, false)
  }

  predicate Live(n: Net) {
    Json.BaseURL(n.disk.settings) != ""
  }

  function EnterOf(n: Net, url: string, session: string): Json.Trace {
    Json.EnterTrace(n.disk, url, session, Json.Done, Json.Done, Json.Done)
  }

  function Enter(n: Net, url: string, session: string, a: Flow.Assignment): Net {
    var t := EnterOf(n, url, session);
    var ok := t.ended == Json.Returned(None);
    var n1 := n.(flow := Flow.Enter(n.flow, session, a, ok), disk := Json.Last(n.disk, t));
    if ok then n1.(entered := true, exits := 0, found := Live(n)) else n1
  }

  /** Settings are restored when the session was active. */
  function Exit(n: Net, url: string, session: string): Net {
    var n1 := n.(flow := Flow.Exit(n.flow, session));
    if session in n.flow.active then n1.(disk := Json.Recover(n.disk, url), exits := n.exits + 1) else n1
  }

  function ExitAll(n: Net, url: string, order: seq<string>): Net
    decreases |order|
  {
    if order == [] then n else ExitAll(Exit(n, url, order[0]), url, order[1..])
  }

  ghost predicate Can(n: Net, call: Call) {
    call.Reap? ==> Flow.Lists(call.order, Flow.Expired(n.flow, call.now))
  }

  function Next(n: Net, url: string, call: Call): Net {
    match call
    case Limit(session, refused, a) => if refused then n else Enter(n, url, session, a)
    case EndOfSession(session) => if session == "" || session !in n.flow.active then n else Exit(n, url, session)
    case Reap(_, order) => ExitAll(n, url, order)
  }

  ghost predicate Runs(n: Net, url: string, calls: seq<Call>)
    decreases |calls|
  {
    calls == [] || (Can(n, calls[0]) && Runs(Next(n, url, calls[0]), url, calls[1..]))
  }

  function After(n: Net, url: string, calls: seq<Call>): Net
    decreases |calls|
  {
    if calls == [] then n else After(Next(n, url, calls[0]), url, calls[1..])
  }

  // ---------- the calls are the coordinator's ----------

  /** What a call is to the coordinator, the outcome of its settings write included. */
  function FlowCalls(n: Net, url: string, call: Call): seq<Flow.Call> {
    match call
    case Limit(session, refused, a) =>
      if refused then []
      else [Flow.StopFailure(session, a, EnterOf(n, url, session).ended == Json.Returned(None))]
    case EndOfSession(session) => [Flow.EndOfSession(session)]
    case Reap(now, order) => [Flow.Reap(now, order)]
  }

  lemma {:induction false} ExitAllFlow(n: Net, url: string, order: seq<string>)
    ensures ExitAll(n, url, order).flow == Flow.ExitAll(n.flow, order)
    decreases |order|
  {
    if order != [] {
      ExitAllFlow(Exit(n, url, order[0]), url, order[1..]);
    }
  }

  /** The coordinator's half of every call is that call of the coordinator. */
  lemma NextIsFlow(n: Net, url: string, call: Call)
    requires Can(n, call)
    ensures Flow.CallRuns(n.flow, FlowCalls(n, url, call))
    ensures Next(n, url, call).flow == Flow.AfterCalls(n.flow, FlowCalls(n, url, call))
  {
    var calls := FlowCalls(n, url, call);
    if calls != [] {
      assert calls[1..] == [];
      assert Flow.AfterCalls(n.flow, calls) == Flow.Done(n.flow, calls[0]);
    }
    if call.Reap? {
      ExitAllFlow(n, url, call.order);
    }
  }

  // ---------- when the redirect is live ----------

  /** The redirect is live, by what has happened so far. */
  predicate LiveBy(n: Net) {
    n.entered && (n.exits == 0 || (n.exits == 1 && n.found))
  }

  /**
   What every call keeps: the disk is between original, redirected and re-entered; the redirect and
   its journal are where the entries and exits so far have put them.
   */
  ghost predicate Kept(original: Json.File, url: string, n: Net) {
    && Json.Within(original, url, n.disk)
    && (n.flow.active != map[] ==> n.entered)
    && (n.entered && n.exits == 0 ==> n.flow.active != map[])
    && (Live(n) <==> LiveBy(n))
    && (n.disk.journal.Some? <==> n.entered && n.exits == 0)
    && (n.disk.journal.Some? ==> n.disk.journal.value.baseURLWasSet == n.found)
  }

  lemma EnterKeeps(original: Json.File, url: string, n: Net, session: string, a: Flow.Assignment)
    requires Kept(original, url, n) && url != ""
    ensures Kept(original, url, Enter(n, url, session, a))
  {
    var n' := Enter(n, url, session, a);
    Json.EnterStaysWithin(original, url, n.disk, session, Json.Done, Json.Done, Json.Done);
    Json.MergedKeeps(n.disk.settings, url);
    if Json.GetState(n.disk.settings).Ok? {
      Json.StateIsLookup(n.disk.settings);
    }
    if EnterOf(n, url, session).ended == Json.Returned(None) {
      assert session in n'.flow.active;
    } else {
      assert n'.disk == n.disk;
    }
  }

  lemma ExitKeeps(original: Json.File, url: string, n: Net, session: string)
    requires Kept(original, url, n) && Json.BaseURL(original) == "" && url != ""
    ensures Kept(original, url, Exit(n, url, session))
  {
    if session in n.flow.active {
      Json.LeaveOnce(original, url, n.disk);
    } else {
      assert n.flow.active - {session} == n.flow.active;
    }
  }

  lemma {:induction false} ExitAllKeeps(original: Json.File, url: string, n: Net, order: seq<string>)
    requires Kept(original, url, n) && Json.BaseURL(original) == "" && url != ""
    ensures Kept(original, url, ExitAll(n, url, order))
    decreases |order|
  {
    if order != [] {
      ExitKeeps(original, url, n, order[0]);
      ExitAllKeeps(original, url, Exit(n, url, order[0]), order[1..]);
    }
  }

  lemma NextKeeps(original: Json.File, url: string, n: Net, call: Call)
    requires Kept(original, url, n) && Json.BaseURL(original) == "" && url != ""
    ensures Kept(original, url, Next(n, url, call))
  {
    match call
    case Limit(session, refused, a) => if !refused { EnterKeeps(original, url, n, session, a); }
    case EndOfSession(session) => ExitKeeps(original, url, n, session);
    case Reap(_, order) => ExitAllKeeps(original, url, n, order);
  }

  lemma {:induction false} RunKeeps(original: Json.File, url: string, n: Net, calls: seq<Call>)
    requires Kept(original, url, n) && Json.BaseURL(original) == "" && url != ""
    ensures Kept(original, url, After(n, url, calls))
    decreases |calls|
  {
    if calls != [] {
      NextKeeps(original, url, n, calls[0]);
      RunKeeps(original, url, Next(n, url, calls[0]), calls[1..]);
    }
  }

  /** Plain settings without a redirect, and no journal. */
  predicate Clean(disk: Json.Disk) {
    Json.Plain(disk.settings) && Json.BaseURL(disk.settings) == "" && disk.journal.None?
  }

  /**
   The redirect and the sessions, exactly. Whatever calls were made, the redirect is live from an
   entry until the next exit, and until the one after that when the entry found it live. So it
   outlives the last session exactly when one exit followed an entry that found it live, and a
   session is left without it exactly when two exits followed the last entry, or one that found none.
   */
  lemma RedirectExactly(disk: Json.Disk, url: string, calls: seq<Call>)
    requires Clean(disk) && url != ""
    ensures var n := After(Start(disk), url, calls);
            && (Live(n) <==> n.entered && (n.exits == 0 || (n.exits == 1 && n.found)))
            && (n.flow.active == map[] && Live(n) <==> n.flow.active == map[] && n.entered && n.exits == 1 && n.found)
            && (n.flow.active != map[] && !Live(n)
                <==> n.flow.active != map[] && (n.exits > 1 || (n.exits == 1 && !n.found)))
            && (n.disk.journal.Some? <==> n.entered && n.exits == 0)
            && Json.SameOutside(disk.settings, n.disk.settings)
  {
    RunKeeps(disk.settings, url, Start(disk), calls);
  }

  // ---------- one session at a time ----------

  /** A fallback is entered only while no session is active. */
  ghost predicate OneSession(n: Net, url: string, calls: seq<Call>)
    decreases |calls|
  {
    calls == [] ||
    ((calls[0].Limit? && !calls[0].refused ==> n.flow.active == map[]) && OneSession(Next(n, url, calls[0]), url, calls[1..]))
  }

  /** At most one session, and the redirect with it. */
  ghost predicate Paired(n: Net) {
    && (forall x, y :: x in n.flow.active && y in n.flow.active ==> x == y)
    && (Live(n) <==> n.flow.active != map[])
    && (n.flow.active != map[] ==> n.exits == 0 && !n.found)
  }

  lemma ExitKeepsPaired(original: Json.File, url: string, n: Net, session: string)
    requires Kept(original, url, n) && Json.BaseURL(original) == "" && url != "" && Paired(n)
    ensures Paired(Exit(n, url, session))
  {
    ExitKeeps(original, url, n, session);
    if session in n.flow.active {
      assert n.flow.active - {session} == map[];
    } else {
      assert n.flow.active - {session} == n.flow.active;
    }
  }

  lemma {:induction false} ExitAllKeepsPaired(original: Json.File, url: string, n: Net, order: seq<string>)
    requires Kept(original, url, n) && Json.BaseURL(original) == "" && url != "" && Paired(n)
    ensures Paired(ExitAll(n, url, order))
    decreases |order|
  {
    if order != [] {
      ExitKeeps(original, url, n, order[0]);
      ExitKeepsPaired(original, url, n, order[0]);
      ExitAllKeepsPaired(original, url, Exit(n, url, order[0]), order[1..]);
    }
  }

  lemma EnterKeepsPaired(original: Json.File, url: string, n: Net, session: string, a: Flow.Assignment)
    requires Kept(original, url, n) && Json.BaseURL(original) == "" && url != "" && Paired(n)
    requires n.flow.active == map[]
    ensures Paired(Enter(n, url, session, a))
  {
    EnterKeeps(original, url, n, session, a);
    assert forall x :: x in Enter(n, url, session, a).flow.active ==> x == session;
  }

  lemma NextKeepsPaired(original: Json.File, url: string, n: Net, call: Call)
    requires Kept(original, url, n) && Json.BaseURL(original) == "" && url != "" && Paired(n)
    requires call.Limit? && !call.refused ==> n.flow.active == map[]
    ensures Paired(Next(n, url, call))
  {
    match call
    case Limit(session, refused, a) => if !refused { EnterKeepsPaired(original, url, n, session, a); }
    case EndOfSession(session) => ExitKeepsPaired(original, url, n, session);
    case Reap(_, order) => ExitAllKeepsPaired(original, url, n, order);
  }

  lemma {:induction false} OneSessionKeeps(original: Json.File, url: string, n: Net, calls: seq<Call>)
    requires Kept(original, url, n) && Json.BaseURL(original) == "" && url != "" && Paired(n)
    requires OneSession(n, url, calls)
    ensures Paired(After(n, url, calls))
    decreases |calls|
  {
    if calls != [] {
      NextKeeps(original, url, n, calls[0]);
      NextKeepsPaired(original, url, n, calls[0]);
      OneSessionKeeps(original, url, Next(n, url, calls[0]), calls[1..]);
    }
  }

  /** Then the redirect is live exactly while a session is active. */
  lemma OneSessionPairs(disk: Json.Disk, url: string, calls: seq<Call>)
    requires Clean(disk) && url != "" && OneSession(Start(disk), url, calls)
    ensures var n := After(Start(disk), url, calls); Live(n) <==> n.flow.active != map[]
  {
    OneSessionKeeps(disk.settings, url, Start(disk), calls);
  }

  // ---------- the two ways to part ----------

  lemma MergedIsAccepted(f: Json.File, url: string)
    requires Json.Plain(f) && Json.GetState(f).Ok? && Json.Incompatible(Json.GetState(f).value, url).None?
    ensures Json.Merged(f, url).Ok? && Json.GetState(Json.Merged(f, url).value).Ok?
    ensures Json.Incompatible(Json.GetState(Json.Merged(f, url).value).value, url).None?
  {
    Json.MergedKeeps(f, url);
  }

  /** What could be entered once can be entered again, by any session. */
  lemma EnterAgain(n: Net, url: string, session: string, a: Flow.Assignment, other: string)
    requires Json.Plain(n.disk.settings) && EnterOf(n, url, session).ended == Json.Returned(None)
    ensures var n' := Enter(n, url, session, a);
            && Json.Plain(n'.disk.settings) && EnterOf(n', url, other).ended == Json.Returned(None)
            && n'.flow.active.Keys == n.flow.active.Keys + {session}
            && n'.entered && n'.exits == 0 && n'.found == Live(n) && (url != "" ==> Live(n'))
  {
    var f := n.disk.settings;
    MergedIsAccepted(f, url);
    Json.MergedKeeps(f, url);
    Json.MergedKeeps(Json.Merged(f, url).value, url);
    assert Enter(n, url, session, a).disk.settings == Json.Merged(f, url).value;
  }

  lemma ExitCounts(n: Net, url: string, session: string)
    requires session in n.flow.active
    ensures var n' := Exit(n, url, session);
            && n'.flow.active.Keys == n.flow.active.Keys - {session}
            && n'.entered == n.entered && n'.exits == n.exits + 1 && n'.found == n.found
  {
  }

  lemma Unroll(n: Net, url: string, call: Call, rest: seq<Call>)
    ensures After(n, url, [call] + rest) == After(Next(n, url, call), url, rest)
  {
    assert ([call] + rest)[1..] == rest;
  }

  lemma AfterThree(n: Net, url: string, a: Call, b: Call, c: Call)
    ensures After(n, url, [a, b, c]) == Next(Next(Next(n, url, a), url, b), url, c)
  {
    assert [a, b, c] == [a] + ([b] + ([c] + []));
    Unroll(n, url, a, [b] + ([c] + []));
    Unroll(Next(n, url, a), url, b, [c] + []);
    Unroll(Next(Next(n, url, a), url, b), url, c, []);
  }

  lemma {:induction false} AfterAppend(n: Net, url: string, a: seq<Call>, b: seq<Call>)
    ensures After(n, url, a + b) == After(After(n, url, a), url, b)
    decreases |a|
  {
    if a == [] {
      assert a + b == b;
    } else {
      assert a + b == [a[0]] + (a[1..] + b);
      Unroll(n, url, a[0], a[1..] + b);
      AfterAppend(Next(n, url, a[0]), url, a[1..], b);
    }
  }

  /** One session that hits the limit twice is exited once, and leaves the redirect behind. */
  lemma TwoLimitsStrandRedirect(disk: Json.Disk, url: string, x: string, a: Flow.Assignment, b: Flow.Assignment)
    requires Clean(disk) && url != "" && x != ""
    requires EnterOf(Start(disk), url, x).ended == Json.Returned(None)
    ensures var n := After(Start(disk), url, [Limit(x, false, a), Limit(x, false, b), EndOfSession(x)]);
            n.flow.active == map[] && Live(n) && n.disk.journal.None?
  {
    var n0 := Start(disk);
    var n1 := Enter(n0, url, x, a);
    var n2 := Enter(n1, url, x, b);
    EnterAgain(n0, url, x, a, x);
    EnterAgain(n1, url, x, b, x);
    ExitCounts(n2, url, x);
    AfterThree(n0, url, Limit(x, false, a), Limit(x, false, b), EndOfSession(x));
    RedirectExactly(disk, url, [Limit(x, false, a), Limit(x, false, b), EndOfSession(x)]);
  }

  lemma ThreeEnter(disk: Json.Disk, url: string, x: string, y: string, z: string, a: Flow.Assignment)
    requires Clean(disk) && EnterOf(Start(disk), url, x).ended == Json.Returned(None)
    ensures var n := After(Start(disk), url, [Limit(x, false, a), Limit(y, false, a), Limit(z, false, a)]);
            n.flow.active.Keys == {x, y, z} && n.entered && n.exits == 0
  {
    var n0 := Start(disk);
    var n1 := Enter(n0, url, x, a);
    EnterAgain(n0, url, x, a, y);
    EnterAgain(n1, url, y, a, z);
    EnterAgain(Enter(n1, url, y, a), url, z, a, z);
    AfterThree(n0, url, Limit(x, false, a), Limit(y, false, a), Limit(z, false, a));
  }

  lemma TwoExit(n: Net, url: string, x: string, y: string)
    requires x in n.flow.active && y in n.flow.active && x != y && x != "" && y != ""
    ensures var n' := After(n, url, [EndOfSession(x), EndOfSession(y)]);
            && n'.flow.active.Keys == n.flow.active.Keys - {x} - {y}
            && n'.entered == n.entered && n'.exits == n.exits + 2
  {
    ExitCounts(n, url, x);
    ExitCounts(Exit(n, url, x), url, y);
    assert [EndOfSession(x), EndOfSession(y)] == [EndOfSession(x)] + ([EndOfSession(y)] + []);
    Unroll(n, url, EndOfSession(x), [EndOfSession(y)] + []);
    Unroll(Exit(n, url, x), url, EndOfSession(y), []);
  }

  /** Of three sessions the first two to exit take the redirect of the third. */
  lemma ThirdSessionLosesRedirect(disk: Json.Disk, url: string, x: string, y: string, z: string, a: Flow.Assignment)
    requires Clean(disk) && url != "" && x != "" && y != "" && x != y && z != x && z != y
    requires EnterOf(Start(disk), url, x).ended == Json.Returned(None)
    ensures var limits, ends := [Limit(x, false, a), Limit(y, false, a), Limit(z, false, a)], [EndOfSession(x), EndOfSession(y)];
            var n := After(Start(disk), url, limits + ends);
            z in n.flow.active && !Live(n)
  {
    var limits, ends := [Limit(x, false, a), Limit(y, false, a), Limit(z, false, a)], [EndOfSession(x), EndOfSession(y)];
    ThreeEnter(disk, url, x, y, z, a);
    TwoExit(After(Start(disk), url, limits), url, x, y);
    AfterAppend(Start(disk), url, limits, ends);
    RedirectExactly(disk, url, limits + ends);
  }
}
