/**
 The known-peers store: last-write-wins upsert, staleness, and a cap by rank.
 Health scores are ordered reals; instants are integers.
 */
module KnownPeers {
  import opened Bytes

  /** A fixed-length byte array in the source; nothing here depends on the length. */
  type Id = seq<byte>

  predicate IsZero(id: Id) {
    forall i :: 0 <= i < |id| ==> id[i] == 0
  }

  const CAP: nat := 256
  const STALE_AGE: int := 7 * 24 * 3600

  datatype Peer = Peer(id: Id, addr: string, health: real, lastSeen: int)

  type Table = map<Id, Peer>

  /** Every row is stored under its own id. */
  ghost predicate Keyed(m: Table) {
    forall k :: k in m ==> m[k].id == k
  }

  predicate Acceptable(e: Peer, cutoff: int) {
    !IsZero(e.id) && e.addr != "" && e.lastSeen >= cutoff
  }

  function Upsert(m: Table, e: Peer, cutoff: int): Table {
    if !Acceptable(e, cutoff) || (e.id in m && m[e.id].lastSeen > e.lastSeen) then m else m[e.id := e]
  }

  function UpsertAll(m: Table, entries: seq<Peer>, cutoff: int): Table
    decreases |entries|
  {
    if entries == [] then m
    else Upsert(UpsertAll(m, entries[..|entries| - 1], cutoff), entries[|entries| - 1], cutoff)
  }

  function DropStale(m: Table, cutoff: int): Table {
    map k | k in m && m[k].lastSeen >= cutoff :: m[k]
  }

  /** Rank order: healthier first, then the smaller id. */
  predicate Outranks(a: Peer, b: Peer) {
    a.health > b.health || (a.health == b.health && LexLess(a.id, b.id))
  }

  /** The ids of the rows that outrank p. */
  function Above(m: Table, p: Peer): set<Id> {
    set k | k in m && Outranks(m[k], p)
  }

  /** The rows with fewer than CAP rows above them. */
  function Capped(m: Table): Table {
    map k | k in m && |Above(m, m[k])| < CAP :: m[k]
  }

  function Merged(m: Table, entries: seq<Peer>, now: int): Table {
    Capped(DropStale(UpsertAll(m, entries, now - STALE_AGE), now - STALE_AGE))
  }

  // ---------- before eviction: the latest row wins ----------

  /** The rows that compete for id k: the stored one, then the acceptable entries in order. */
  function Rows(m: Table, k: Id, entries: seq<Peer>, cutoff: int): seq<Peer>
    decreases |entries|
  {
    if entries == [] then if k in m then [m[k]] else []
    else
      var e := entries[|entries| - 1];
      Rows(m, k, entries[..|entries| - 1], cutoff) + if Acceptable(e, cutoff) && e.id == k then [e] else []
  }

  /** The last of the rows with the greatest lastSeen. */
  ghost predicate IsLatest(p: Peer, rows: seq<Peer>) {
    exists i: nat :: LatestAt(p, rows, i)
  }

  ghost predicate LatestAt(p: Peer, rows: seq<Peer>, i: nat) {
    && i < |rows| && rows[i] == p
    && (forall j :: 0 <= j < i ==> rows[j].lastSeen <= p.lastSeen)
    && (forall j :: i < j < |rows| ==> rows[j].lastSeen < p.lastSeen)
  }

  lemma LatestAppend(p: Peer, rows: seq<Peer>, e: Peer)
    requires IsLatest(p, rows)
    ensures IsLatest(if p.lastSeen > e.lastSeen then p else e, rows + [e])
  {
    var i: nat :| LatestAt(p, rows, i);
    if p.lastSeen > e.lastSeen {
      assert LatestAt(p, rows + [e], i);
    } else {
      forall j | 0 <= j < |rows| ensures rows[j].lastSeen <= e.lastSeen {
        assert j < i || j == i || i < j;
      }
      assert LatestAt(e, rows + [e], |rows|);
    }
  }

  /** Which entries are turned away: an all-zero id, no address, or seen more than seven days before now. */
  lemma AcceptableExactly(e: Peer, now: int)
    ensures Acceptable(e, now - STALE_AGE)
            <==> (exists i :: 0 <= i < |e.id| && e.id[i] != 0) && |e.addr| > 0 && now - e.lastSeen <= 604800
  {
  }

  /** Upserting a batch leaves, for every id, the latest of its competing rows and nothing else. */
  lemma {:induction false} UpsertIsLatest(m: Table, k: Id, entries: seq<Peer>, cutoff: int)
    ensures var m', rows := UpsertAll(m, entries, cutoff), Rows(m, k, entries, cutoff);
            (k in m' <==> rows != []) && (k in m' ==> IsLatest(m'[k], rows))
    decreases |entries|
  {
    if entries == [] {
      if k in m {
        assert LatestAt(m[k], [m[k]], 0);
      }
    } else {
      var init, e := entries[..|entries| - 1], entries[|entries| - 1];
      var mid, rows := UpsertAll(m, init, cutoff), Rows(m, k, init, cutoff);
      UpsertIsLatest(m, k, init, cutoff);
      if Acceptable(e, cutoff) && e.id == k {
        if k in mid {
          LatestAppend(mid[k], rows, e);
        } else {
          assert LatestAt(e, rows + [e], 0);
        }
      } else {
        assert rows + [] == rows;
      }
    }
  }

  lemma {:induction false} UpsertKeepsKeyed(m: Table, entries: seq<Peer>, cutoff: int)
    requires Keyed(m)
    ensures Keyed(UpsertAll(m, entries, cutoff))
    decreases |entries|
  {
    if entries != [] {
      UpsertKeepsKeyed(m, entries[..|entries| - 1], cutoff);
    }
  }

  // ---------- rank is a strict total order, so the cap is sharp ----------

  lemma OutranksTotal(a: Peer, b: Peer)
    requires a.id != b.id
    ensures Outranks(a, b) != Outranks(b, a)
  {
    LexTotal(a.id, b.id);
  }

  lemma OutranksTransitive(a: Peer, b: Peer, c: Peer)
    requires Outranks(a, b) && Outranks(b, c)
    ensures Outranks(a, c)
  {
    if a.health == b.health == c.health {
      LexTransitive(a.id, b.id, c.id);
    }
  }

  /** A kept row outranks every evicted one. */
  lemma KeptOutrankEvicted(m: Table, kept: Id, evicted: Id)
    requires Keyed(m) && kept in Capped(m) && evicted in m && evicted !in Capped(m)
    ensures Outranks(m[kept], m[evicted])
  {
    OutranksTotal(m[kept], m[evicted]);
    if Outranks(m[evicted], m[kept]) {
      forall k | k in Above(m, m[evicted]) ensures k in Above(m, m[kept]) {
        OutranksTransitive(m[k], m[evicted], m[kept]);
      }
      SubsetSize(Above(m, m[evicted]), Above(m, m[kept]));
    }
  }

  /** On the numbers: what is evicted is no healthier than what is kept, and at equal health has the greater id. */
  lemma EvictedAreNoHealthier(m: Table, kept: Id, evicted: Id)
    requires Keyed(m) && kept in Capped(m) && evicted in m && evicted !in Capped(m)
    ensures m[kept].health >= m[evicted].health
    ensures m[kept].health == m[evicted].health ==> LexLess(kept, evicted)
  {
    KeptOutrankEvicted(m, kept, evicted);
  }

  /** Along a ranking health never rises, and ids ascend where it stays the same. */
  lemma HealthFalls(ps: seq<Peer>, i: nat, j: nat)
    requires Ranked(ps) && i < j < |ps|
    ensures ps[i].health >= ps[j].health && (ps[i].health == ps[j].health ==> LexLess(ps[i].id, ps[j].id))
  {
    assert Outranks(ps[i], ps[j]);
  }

  lemma {:induction false} SubsetSize<T>(a: set<T>, b: set<T>)
    requires a <= b
    ensures |a| <= |b|
  {
    if a != {} {
      var x :| x in a;
      SubsetSize(a - {x}, b - {x});
    }
  }

  // ---------- sorting, as Merge and Snapshot use it ----------

  function Insert(p: Peer, ps: seq<Peer>): seq<Peer> {
    if ps == [] || Outranks(p, ps[0]) then [p] + ps else [ps[0]] + Insert(p, ps[1..])
  }

  /** A stable sort by rank. */
  function SortByHealthDesc(ps: seq<Peer>): seq<Peer> {
    if ps == [] then [] else Insert(ps[0], SortByHealthDesc(ps[1..]))
  }

  ghost predicate Ranked(ps: seq<Peer>) {
    forall i, j :: 0 <= i < j < |ps| ==> Outranks(ps[i], ps[j])
  }

  /** A list of all rows of m, each once. */
  ghost predicate Listing(ps: seq<Peer>, m: Table) {
    && (forall p :: p in ps ==> p.id in m && m[p.id] == p)
    && (forall k :: k in m ==> m[k] in ps)
    && (forall i, j :: 0 <= i < j < |ps| ==> ps[i].id != ps[j].id)
  }

  lemma {:induction false} InsertRanked(p: Peer, ps: seq<Peer>)
    requires Ranked(ps) && forall q :: q in ps ==> q.id != p.id
    ensures Ranked(Insert(p, ps)) && |Insert(p, ps)| == |ps| + 1
    ensures forall q :: q in Insert(p, ps) <==> q == p || q in ps
    decreases |ps|
  {
    if ps != [] {
      var rest := ps[1..];
      if Outranks(p, ps[0]) {
        forall q | q in rest ensures Outranks(p, q) {
          OutranksTransitive(p, ps[0], q);
        }
      } else {
        OutranksTotal(p, ps[0]);
        assert Ranked(rest);
        InsertRanked(p, rest);
        forall q | q in Insert(p, rest) ensures Outranks(ps[0], q) {
        }
      }
      assert ps == [ps[0]] + rest;
    }
  }

  lemma {:induction false} SortRanks(ps: seq<Peer>)
    requires forall i, j :: 0 <= i < j < |ps| ==> ps[i].id != ps[j].id
    ensures var s := SortByHealthDesc(ps);
            Ranked(s) && |s| == |ps| && forall q :: q in s <==> q in ps
    decreases |ps|
  {
    if ps != [] {
      SortRanks(ps[1..]);
      InsertRanked(ps[0], SortByHealthDesc(ps[1..]));
      assert ps == [ps[0]] + ps[1..];
    }
  }

  lemma SortedListing(ps: seq<Peer>, m: Table)
    requires Listing(ps, m)
    ensures var s := SortByHealthDesc(ps);
            Ranked(s) && Listing(s, m)
  {
    SortRanks(ps);
    var s := SortByHealthDesc(ps);
    forall i, j | 0 <= i < j < |s| ensures s[i].id != s[j].id {
      LexTotal(s[i].id, s[j].id);
      assert m[s[i].id] == s[i] && m[s[j].id] == s[j];
    }
  }

  /** Where a row stands in a listing. */
  ghost function SlotOf(s: seq<Peer>, m: Table, k: Id): (i: nat)
    requires Listing(s, m) && k in m
    ensures i < |s| && s[i] == m[k]
  {
    var i: nat :| i < |s| && s[i] == m[k];
    i
  }

  lemma SlotOfOwn(s: seq<Peer>, m: Table, i: nat)
    requires Listing(s, m) && i < |s|
    ensures s[i].id in m && SlotOf(s, m, s[i].id) == i
  {
    assert s[i] in s;
  }

  /** In a ranked listing, the rows above a row are those that stand before it. */
  lemma AboveIsBefore(s: seq<Peer>, m: Table, k: Id, x: Id)
    requires Ranked(s) && Listing(s, m) && k in m && x in m
    ensures x in Above(m, m[k]) <==> SlotOf(s, m, x) < SlotOf(s, m, k)
  {
    var i, j := SlotOf(s, m, k), SlotOf(s, m, x);
    if j < i {
      assert Outranks(s[j], s[i]);
    } else if i < j {
      assert Outranks(s[i], s[j]);
      OutranksTotal(s[i], s[j]);
    } else {
      LexTotal(s[i].id, s[i].id);
    }
  }

  ghost function Before(s: seq<Peer>, m: Table, n: nat): set<Id>
    requires Listing(s, m)
  {
    set k | k in m && SlotOf(s, m, k) < n
  }

  lemma BeforeStep(s: seq<Peer>, m: Table, n: nat)
    requires Keyed(m) && Listing(s, m) && n < |s|
    ensures s[n].id !in Before(s, m, n)
    ensures Before(s, m, n + 1) == Before(s, m, n) + {s[n].id}
  {
    SlotOfOwn(s, m, n);
    forall x | x in Before(s, m, n + 1) ensures x in Before(s, m, n) + {s[n].id} {
      SlotIsOwn(s, m, x);
    }
  }

  lemma SlotIsOwn(s: seq<Peer>, m: Table, x: Id)
    requires Listing(s, m) && x in m && Keyed(m)
    ensures s[SlotOf(s, m, x)].id == x
  {
  }

  lemma {:induction false} BeforeSize(s: seq<Peer>, m: Table, n: nat)
    requires Keyed(m) && Listing(s, m) && n <= |s|
    ensures |Before(s, m, n)| == n
  {
    if n == 0 {
      assert Before(s, m, 0) == {};
    } else {
      BeforeStep(s, m, n - 1);
      BeforeSize(s, m, n - 1);
    }
  }

  /** The number of rows above a row is its place in the ranking. */
  lemma RankIsSlot(s: seq<Peer>, m: Table, k: Id)
    requires Keyed(m) && Ranked(s) && Listing(s, m) && k in m
    ensures |Above(m, m[k])| == SlotOf(s, m, k)
  {
    var n := SlotOf(s, m, k);
    forall x ensures x in Above(m, m[k]) <==> x in Before(s, m, n) {
      if x in m {
        AboveIsBefore(s, m, k, x);
      }
    }
    assert Above(m, m[k]) == Before(s, m, n);
    BeforeSize(s, m, n);
  }

  /** The first CAP rows of the ranking are exactly the capped table. */
  lemma CappedIsPrefix(s: seq<Peer>, m: Table)
    requires Keyed(m) && Ranked(s) && Listing(s, m)
    ensures forall k :: k in m ==> (k in Capped(m) <==> SlotOf(s, m, k) < CAP)
  {
    forall k | k in m ensures k in Capped(m) <==> SlotOf(s, m, k) < CAP {
      RankIsSlot(s, m, k);
    }
  }

  lemma ListingSize(s: seq<Peer>, m: Table)
    requires Keyed(m) && Listing(s, m)
    ensures |s| == |m|
  {
    BeforeSize(s, m, |s|);
    assert Before(s, m, |s|) == m.Keys;
  }

  lemma CappedKeys(s: seq<Peer>, m: Table)
    requires Keyed(m) && Ranked(s) && Listing(s, m)
    ensures Capped(m).Keys == Before(s, m, CAP)
  {
    CappedIsPrefix(s, m);
  }

  /** In a small table no row has CAP others above it. */
  lemma CapSmall(m: Table)
    requires Keyed(m) && |m.Keys| <= CAP
    ensures Capped(m) == m
  {
    forall k | k in m ensures |Above(m, m[k])| < CAP {
      LexTotal(k, k);
      SubsetSize(Above(m, m[k]), m.Keys - {k});
    }
  }

  lemma CapLarge(m: Table)
    requires Keyed(m) && |m.Keys| > CAP
    ensures |Capped(m).Keys| == CAP
  {
    var ps := SomeListing(m);
    SortedListing(ps, m);
    var s := SortByHealthDesc(ps);
    ListingSize(s, m);
    CappedKeys(s, m);
    BeforeSize(s, m, CAP);
  }

  /** The cap keeps every row of a small table and exactly 256 rows of a larger one. */
  lemma CapSize(m: Table)
    requires Keyed(m)
    ensures |Capped(m)| == if |m| <= 256 then |m| else 256
    ensures |m| <= 256 ==> Capped(m) == m
  {
    if |m.Keys| <= CAP {
      CapSmall(m);
    } else {
      CapLarge(m);
    }
  }

  lemma {:induction false} SomeListing(m: Table) returns (ps: seq<Peer>)
    requires Keyed(m)
    ensures Listing(ps, m)
    decreases m.Keys
  {
    if m.Keys == {} {
      ps := [];
    } else {
      var k :| k in m.Keys;
      var rest := SomeListing(m - {k});
      ps := [m[k]] + rest;
      forall x | x in m ensures m[x] in ps {
        if x != k { assert m[x] == (m - {k})[x]; }
      }
    }
  }

  /** After a merge: at most 256 rows, none stale, every kept live row above every evicted one. */
  lemma MergeBounds(m: Table, entries: seq<Peer>, now: int)
    requires Keyed(m)
    ensures var cutoff := now - STALE_AGE;
            var live, r := DropStale(UpsertAll(m, entries, cutoff), cutoff), Merged(m, entries, now);
            && Keyed(r) && |r| <= 256
            && (forall k :: k in r ==> r[k].lastSeen >= cutoff && k in live && r[k] == live[k])
            && (forall k, e :: k in r && e in live && e !in r ==> Outranks(live[k], live[e]))
            && (|live| <= 256 ==> r == live)
  {
    var cutoff := now - STALE_AGE;
    var live := DropStale(UpsertAll(m, entries, cutoff), cutoff);
    UpsertKeepsKeyed(m, entries, cutoff);
    CapSize(live);
    forall k, e | k in Merged(m, entries, now) && e in live && e !in Merged(m, entries, now)
      ensures Outranks(live[k], live[e])
    {
      KeptOutrankEvicted(live, k, e);
    }
  }

  // ---------- splitting a batch ----------

  /** Stale rows never decide an upsert, so they can be dropped before or after. */
  lemma {:induction false} DropCommutes(m: Table, entries: seq<Peer>, cutoff: int)
    ensures DropStale(UpsertAll(m, entries, cutoff), cutoff) == UpsertAll(DropStale(m, cutoff), entries, cutoff)
    decreases |entries|
  {
    if entries != [] {
      DropCommutes(m, entries[..|entries| - 1], cutoff);
    }
  }

  lemma {:induction false} UpsertAppend(m: Table, a: seq<Peer>, b: seq<Peer>, cutoff: int)
    ensures UpsertAll(m, a + b, cutoff) == UpsertAll(UpsertAll(m, a, cutoff), b, cutoff)
    decreases |b|
  {
    if b == [] {
      assert a + b == a;
    } else {
      assert (a + b)[..|a + b| - 1] == a + b[..|b| - 1];
      UpsertAppend(m, a, b[..|b| - 1], cutoff);
    }
  }

  /** Upserting removes no id. */
  lemma {:induction false} UpsertGrows(m: Table, entries: seq<Peer>, cutoff: int)
    ensures m.Keys <= UpsertAll(m, entries, cutoff).Keys
    decreases |entries|
  {
    if entries != [] {
      UpsertGrows(m, entries[..|entries| - 1], cutoff);
    }
  }

  /** Merging a batch in two parts at the same clock changes nothing while the live ids fit under the cap. */
  lemma SplitBatch(m: Table, a: seq<Peer>, b: seq<Peer>, now: int)
    requires Keyed(m)
    requires var cutoff := now - STALE_AGE; |DropStale(UpsertAll(m, a + b, cutoff), cutoff)| <= CAP
    ensures Merged(Merged(m, a, now), b, now) == Merged(m, a + b, now)
  {
    var cutoff := now - STALE_AGE;
    var x := DropStale(UpsertAll(m, a, cutoff), cutoff);
    UpsertKeepsKeyed(m, a, cutoff);
    UpsertAppend(m, a, b, cutoff);
    DropCommutes(UpsertAll(m, a, cutoff), b, cutoff);
    UpsertGrows(x, b, cutoff);
    SubsetSize(x.Keys, UpsertAll(x, b, cutoff).Keys);
    assert |x| == |x.Keys| && |UpsertAll(x, b, cutoff)| == |UpsertAll(x, b, cutoff).Keys|;
    CapSize(x);
    assert DropStale(x, cutoff) == x;
    DropCommutes(x, b, cutoff);
  }

  // ---------- the store ----------

  /** The rows outside the slots from CAP up to i. */
  ghost function Unslotted(s: seq<Peer>, m: Table, i: nat): Table
    requires Listing(s, m)
  {
    map k | k in m && !(CAP <= SlotOf(s, m, k) < i) :: m[k]
  }

  lemma UnslottedEnds(s: seq<Peer>, m: Table)
    requires Keyed(m) && Ranked(s) && Listing(s, m)
    ensures Unslotted(s, m, CAP) == m && Unslotted(s, m, |s|) == Capped(m)
  {
    CappedIsPrefix(s, m);
  }

  lemma UnslotNext(s: seq<Peer>, m: Table, i: nat)
    requires Keyed(m) && Listing(s, m) && CAP <= i < |s|
    ensures Unslotted(s, m, i + 1) == Unslotted(s, m, i) - {s[i].id}
  {
    SlotOfOwn(s, m, i);
    forall k | k in m ensures SlotOf(s, m, k) == i <==> k == s[i].id {
      SlotIsOwn(s, m, k);
    }
  }

  class Store {
    var peers: Table

    constructor ()
      ensures peers == map[]
    {
      peers := map[];
    }

    /** All rows, in the order a map walk happens to yield them. */
    method Rows() returns (all: seq<Peer>)
      requires Keyed(peers)
      ensures Listing(all, peers)
    {
      all := [];
      var keys := peers.Keys;
      while keys != {}
        invariant keys <= peers.Keys
        invariant forall p :: p in all ==> p.id in peers && p.id !in keys && peers[p.id] == p
        invariant forall k :: k in peers && k !in keys ==> peers[k] in all
        invariant forall i, j :: 0 <= i < j < |all| ==> all[i].id != all[j].id
        decreases keys
      {
        var k :| k in keys;
        all := all + [peers[k]];
        keys := keys - {k};
      }
    }

    /** First pass: entries in order, never replacing a newer row by an older one. */
    method UpsertEntries(entries: seq<Peer>, cutoff: int)
      modifies this
      ensures peers == UpsertAll(old(peers), entries, cutoff)
    {
      var i := 0;
      while i < |entries|
        invariant i <= |entries| && peers == UpsertAll(old(peers), entries[..i], cutoff)
      {
        var e := entries[i];
        assert entries[..i + 1][..i] == entries[..i];
        i := i + 1;
        if IsZero(e.id) || e.addr == "" || e.lastSeen < cutoff {
          continue;
        }
        if e.id in peers && peers[e.id].lastSeen > e.lastSeen {
          continue;
        }
        peers := peers[e.id := e];
      }
      assert entries[..i] == entries;
    }

    /** Second pass: rows that have gone stale since they were stored. */
    method PruneStale(cutoff: int)
      modifies this
      ensures peers == DropStale(old(peers), cutoff)
    {
      var keys := peers.Keys;
      while keys != {}
        invariant keys <= old(peers).Keys
        invariant forall k :: k in peers <==> k in old(peers) && (k in keys || old(peers)[k].lastSeen >= cutoff)
        invariant forall k :: k in peers ==> peers[k] == old(peers)[k]
        decreases keys
      {
        var k :| k in keys;
        if peers[k].lastSeen < cutoff {
          peers := peers - {k};
        }
        keys := keys - {k};
      }
    }

    /** Deletes every row past the first CAP of the ranking. */
    method DeleteTail(all: seq<Peer>)
      requires Keyed(peers) && Ranked(all) && Listing(all, peers) && |all| > CAP
      modifies this
      ensures peers == Capped(old(peers))
    {
      UnslottedEnds(all, peers);
      var i := CAP;
      while i < |all|
        invariant CAP <= i <= |all|
        invariant peers == Unslotted(all, old(peers), i)
      {
        UnslotNext(all, old(peers), i);
        peers := peers - {all[i].id};
        i := i + 1;
      }
    }

    /** Third pass: ranks the rows and keeps the first CAP. */
    method Evict()
      requires Keyed(peers) && |peers| > CAP
      modifies this
      ensures peers == Capped(old(peers))
    {
      var all := Rows();
      SortedListing(all, peers);
      all := SortByHealthDesc(all);
      ListingSize(all, peers);
      DeleteTail(all);
    }

    /** Upsert, drop what has gone stale, evict beyond the cap. */
    method Merge(entries: seq<Peer>, now: int)
      requires Keyed(peers)
      modifies this
      ensures Keyed(peers) && peers == Merged(old(peers), entries, now)
    {
      var cutoff := now - STALE_AGE;
      UpsertKeepsKeyed(peers, entries, cutoff);
      UpsertEntries(entries, cutoff);
      PruneStale(cutoff);
      CapSize(peers);
      if |peers| > CAP {
        Evict();
      }
    }

    /** The rows in rank order. */
    method Snapshot() returns (out: seq<Peer>)
      requires Keyed(peers)
      ensures Ranked(out) && Listing(out, peers)
    {
      out := Rows();
      SortedListing(out, peers);
      out := SortByHealthDesc(out);
    }
  }
}
