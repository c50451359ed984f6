/**
 The ranked candidate endpoints and the rotation that the supervisor dials through.
 Scores are ordered reals; lower stands for the lower-casing of an address.
 */
module PeerCandidates {
  import opened Bytes
  import opened Numbers

  datatype Endpoint = Endpoint(addr: seq<byte>, identityHash: seq<byte>)

  datatype BootstrapPeer = BootstrapPeer(addr: seq<byte>, trackerId: seq<byte>, healthScore: real)

  type Lower = seq<byte> -> seq<byte>

  const NO_ENDPOINT := Endpoint([], [])

  /** Peer i comes before peer j: higher score, then smaller address, then earlier in the list. */
  predicate Precedes(peers: seq<BootstrapPeer>, i: nat, j: nat)
    requires i < |peers| && j < |peers|
  {
    var p, q := peers[i], peers[j];
    || p.healthScore > q.healthScore
    || (p.healthScore == q.healthScore && LexLess(p.addr, q.addr))
    || (p.healthScore == q.healthScore && p.addr == q.addr && i < j)
  }

  lemma PrecedesTotal(peers: seq<BootstrapPeer>, i: nat, j: nat)
    requires i < |peers| && j < |peers| && i != j
    ensures Precedes(peers, i, j) != Precedes(peers, j, i)
  {
    LexTotal(peers[i].addr, peers[j].addr);
  }

  lemma PrecedesTransitive(peers: seq<BootstrapPeer>, i: nat, j: nat, k: nat)
    requires i < |peers| && j < |peers| && k < |peers|
    requires Precedes(peers, i, j) && Precedes(peers, j, k)
    ensures Precedes(peers, i, k)
  {
    if LexLess(peers[i].addr, peers[j].addr) && LexLess(peers[j].addr, peers[k].addr) {
      LexTransitive(peers[i].addr, peers[j].addr, peers[k].addr);
    }
  }

  ghost predicate Indices(idx: seq<nat>, n: nat) {
    forall i :: 0 <= i < |idx| ==> idx[i] < n
  }

  /** idx lists 0, ..., n - 1 once each. */
  ghost predicate Permutes(idx: seq<nat>, n: nat) {
    && |idx| == n && Indices(idx, n)
    && forall i, j :: 0 <= i < j < |idx| ==> idx[i] != idx[j]
  }

  ghost predicate Ordered(peers: seq<BootstrapPeer>, idx: seq<nat>)
    requires Indices(idx, |peers|)
  {
    forall i, j :: 0 <= i < j < |idx| ==> Precedes(peers, idx[i], idx[j])
  }

  /** Stable insertion: behind everything that does not come after x. */
  function InsertIndex(peers: seq<BootstrapPeer>, x: nat, idx: seq<nat>): (r: seq<nat>)
    requires x < |peers| && Indices(idx, |peers|)
    ensures Indices(r, |peers|) && |r| == |idx| + 1
  {
    if idx == [] || Precedes(peers, x, idx[0]) then [x] + idx else [idx[0]] + InsertIndex(peers, x, idx[1..])
  }

  /** The stable sort of the first n indices. */
  function SortIndices(peers: seq<BootstrapPeer>, n: nat): (r: seq<nat>)
    requires n <= |peers|
    ensures Indices(r, |peers|) && |r| == n
  {
    if n == 0 then [] else InsertIndex(peers, n - 1, SortIndices(peers, n - 1))
  }

  lemma {:induction false} InsertOrders(peers: seq<BootstrapPeer>, x: nat, idx: seq<nat>)
    requires x < |peers| && Indices(idx, |peers|) && Ordered(peers, idx) && x !in idx
    ensures var r := InsertIndex(peers, x, idx);
            Ordered(peers, r) && forall y :: y in r <==> y == x || y in idx
    decreases |idx|
  {
    if idx != [] {
      var head, rest := idx[0], idx[1..];
      assert idx == [head] + rest;
      if Precedes(peers, x, head) {
        forall k | 0 <= k < |rest| ensures Precedes(peers, x, rest[k]) {
          assert rest[k] == idx[k + 1];
          PrecedesTransitive(peers, x, head, rest[k]);
        }
      } else {
        PrecedesTotal(peers, x, head);
        assert Ordered(peers, rest);
        InsertOrders(peers, x, rest);
        var r := InsertIndex(peers, x, rest);
        forall k | 0 <= k < |r| ensures Precedes(peers, head, r[k]) {
          assert r[k] in r;
          if r[k] != x {
            var m :| 0 <= m < |rest| && rest[m] == r[k];
            assert rest[m] == idx[m + 1];
          }
        }
      }
    }
  }

  /** Indices in ranking order are all different. */
  lemma OrderedIsDistinct(peers: seq<BootstrapPeer>, idx: seq<nat>)
    requires Indices(idx, |peers|) && Ordered(peers, idx)
    ensures forall i, j :: 0 <= i < j < |idx| ==> idx[i] != idx[j]
  {
    forall i, j | 0 <= i < j < |idx| ensures idx[i] != idx[j] {
      assert Precedes(peers, idx[i], idx[j]);
      LexTotal(peers[idx[i]].addr, peers[idx[i]].addr);
    }
  }

  lemma AllBelow(r: seq<nat>, n: nat)
    requires forall y :: y in r ==> y < n
    ensures forall i :: 0 <= i < |r| ==> r[i] < n
  {
    forall i | 0 <= i < |r| ensures r[i] < n {
      assert r[i] in r;
    }
  }

  /** The sort yields a permutation in ranking order. */
  lemma {:induction false} SortOrders(peers: seq<BootstrapPeer>, n: nat)
    requires n <= |peers|
    ensures var r := SortIndices(peers, n);
            Ordered(peers, r) && Permutes(r, n) && forall y :: y in r <==> 0 <= y < n
  {
    if n > 0 {
      var r := SortIndices(peers, n);
      SortOrders(peers, n - 1);
      InsertOrders(peers, n - 1, SortIndices(peers, n - 1));
      OrderedIsDistinct(peers, r);
      AllBelow(r, n);
    }
  }

  /** On the numbers: scores never rise along a ranking, ties go by address and then by place in the list. */
  lemma ScoresFall(peers: seq<BootstrapPeer>, idx: seq<nat>, i: nat, j: nat)
    requires Indices(idx, |peers|) && Ordered(peers, idx) && i < j < |idx|
    ensures var p, q := peers[idx[i]], peers[idx[j]];
            && p.healthScore >= q.healthScore
            && (p.healthScore == q.healthScore && p.addr != q.addr ==> LexLess(p.addr, q.addr))
            && (p.healthScore == q.healthScore && p.addr == q.addr ==> idx[i] < idx[j])
  {
    assert Precedes(peers, idx[i], idx[j]);
    LexTotal(peers[idx[i]].addr, peers[idx[i]].addr);
  }

  function EndpointOf(p: BootstrapPeer): Endpoint {
    Endpoint(p.addr, p.trackerId)
  }

  /** out lists the peers' endpoints along a permutation in ranking order. */
  ghost predicate RankedBy(peers: seq<BootstrapPeer>, idx: seq<nat>, out: seq<Endpoint>) {
    && Permutes(idx, |peers|) && Ordered(peers, idx) && |out| == |peers|
    && forall i :: 0 <= i < |out| ==> out[i] == Endpoint(peers[idx[i]].addr, peers[idx[i]].trackerId)
  }

  function Below(n: nat): (r: set<nat>)
    ensures |r| == n && forall y :: y in r <==> 0 <= y < n
  {
    if n == 0 then {} else Below(n - 1) + {n - 1}
  }

  /** A permutation of the first n numbers has them all. */
  lemma PermutationIsOnto(idx: seq<nat>, n: nat)
    requires Permutes(idx, n)
    ensures forall y :: y in idx <==> 0 <= y < n
  {
    forall y: nat | y < n ensures y in idx {
      if y !in idx {
        DistinctFit(idx, Below(n) - {y});
      }
    }
  }

  /** At most one permutation is in ranking order, so any stable sort gives the same list. */
  lemma RankingUnique(peers: seq<BootstrapPeer>, a: seq<nat>, b: seq<nat>)
    requires Permutes(a, |peers|) && Ordered(peers, a) && Permutes(b, |peers|) && Ordered(peers, b)
    ensures a == b
  {
    PermutationIsOnto(a, |peers|);
    PermutationIsOnto(b, |peers|);
    forall i | 0 <= i < |peers| ensures a[i] == b[i] {
      AgreeAt(peers, a, b, i);
    }
  }

  lemma {:induction false} AgreeAt(peers: seq<BootstrapPeer>, a: seq<nat>, b: seq<nat>, i: nat)
    requires Permutes(a, |peers|) && Ordered(peers, a) && Permutes(b, |peers|) && Ordered(peers, b)
    requires (forall y :: y in a <==> y in b) && i < |peers|
    ensures a[i] == b[i]
  {
    forall k | 0 <= k < i ensures a[k] == b[k] {
      AgreeAt(peers, a, b, k);
    }
    if a[i] != b[i] {
      assert a[i] in b && b[i] in a;
      var x :| 0 <= x < |b| && b[x] == a[i];
      var y :| 0 <= y < |a| && a[y] == b[i];
      assert x > i && y > i;
      PrecedesTotal(peers, a[i], b[i]);
    }
  }

  // ---------- merging ----------

  /** The candidates whose address is no base address, ignoring case, in their order. */
  function Fresh(lower: Lower, base: seq<Endpoint>, cands: seq<Endpoint>): seq<Endpoint> {
    if cands == [] then []
    else
      var init, c := cands[..|cands| - 1], cands[|cands| - 1];
      Fresh(lower, base, init) + if Collides(lower, base, c) then [] else [c]
  }

  predicate Collides(lower: Lower, base: seq<Endpoint>, c: Endpoint) {
    exists i :: 0 <= i < |base| && lower(base[i].addr) == lower(c.addr)
  }

  method MergeEndpoints(lower: Lower, base: seq<Endpoint>, cands: seq<Endpoint>) returns (out: seq<Endpoint>)
    ensures out == base + Fresh(lower, base, cands)
  {
    var baseAddrs: set<seq<byte>> := {};
    var i := 0;
    while i < |base|
      invariant i <= |base|
      invariant forall a :: a in baseAddrs <==> exists k :: 0 <= k < i && lower(base[k].addr) == a
    {
      baseAddrs := baseAddrs + {lower(base[i].addr)};
      i := i + 1;
    }
    out := base;
    var j := 0;
    while j < |cands|
      invariant j <= |cands| && out == base + Fresh(lower, base, cands[..j])
    {
      assert cands[..j + 1][..j] == cands[..j];
      if lower(cands[j].addr) !in baseAddrs {
        out := out + [cands[j]];
      }
      j := j + 1;
    }
    assert cands[..j] == cands;
  }

  /** The merged list: base in front, then exactly the candidates that repeat no base address. */
  lemma {:induction false} FreshIsFilter(lower: Lower, base: seq<Endpoint>, cands: seq<Endpoint>)
    ensures forall c :: c in Fresh(lower, base, cands) <==> c in cands && !Collides(lower, base, c)
  {
    if cands != [] {
      FreshIsFilter(lower, base, cands[..|cands| - 1]);
      assert cands == cands[..|cands| - 1] + [cands[|cands| - 1]];
    }
  }

  /** out is cands at the ascending positions at. */
  ghost predicate Picks(out: seq<Endpoint>, cands: seq<Endpoint>, at: seq<nat>) {
    && |at| == |out|
    && (forall k :: 0 <= k < |at| ==> at[k] < |cands| && out[k] == cands[at[k]])
    && (forall j, k :: 0 <= j < k < |at| ==> at[j] < at[k])
  }

  /** The positions are those of the candidates whose address is no base address, ignoring case. */
  ghost predicate PicksFresh(lower: Lower, base: seq<Endpoint>, cands: seq<Endpoint>, at: seq<nat>) {
    forall i: nat :: i < |cands| ==>
      (i in at <==> forall b :: 0 <= b < |base| ==> lower(base[b].addr) != lower(cands[i].addr))
  }

  lemma PickMore(lower: Lower, base: seq<Endpoint>, out: seq<Endpoint>, cands: seq<Endpoint>, at: seq<nat>, c: Endpoint)
    requires Picks(out, cands, at) && PicksFresh(lower, base, cands, at)
    ensures !Collides(lower, base, c) ==>
              Picks(out + [c], cands + [c], at + [|cands|]) && PicksFresh(lower, base, cands + [c], at + [|cands|])
    ensures Collides(lower, base, c) ==> Picks(out, cands + [c], at) && PicksFresh(lower, base, cands + [c], at)
  {
    assert |cands| !in at;
    assert forall i: nat :: i in at + [|cands|] <==> i in at || i == |cands|;
    assert forall i: nat :: i < |cands| ==> (cands + [c])[i] == cands[i];
  }

  /** The candidates that repeat no base address stand in the merged list as they did: none lost, doubled or moved. */
  lemma {:induction false} FreshKeepsOrder(lower: Lower, base: seq<Endpoint>, cands: seq<Endpoint>) returns (at: seq<nat>)
    ensures Picks(Fresh(lower, base, cands), cands, at) && PicksFresh(lower, base, cands, at)
  {
    if cands == [] {
      at := [];
    } else {
      var init, c := cands[..|cands| - 1], cands[|cands| - 1];
      assert cands == init + [c];
      at := FreshKeepsOrder(lower, base, init);
      PickMore(lower, base, Fresh(lower, base, init), init, at, c);
      if Collides(lower, base, c) {
        assert Fresh(lower, base, cands) == Fresh(lower, base, init) + [] == Fresh(lower, base, init);
      } else {
        at := at + [|init|];
      }
    }
  }

  // ---------- rotation ----------

  /** The one step of a turn starting at s that lands on position p. */
  function StepTo(s: nat, n: nat, p: nat): (k: nat)
    requires p < n
    ensures k < n
  {
    var r := s % n;
    if p >= r then p - r else p + n - r
  }

  /** The position of the k-th index from s on. */
  function Position(s: nat, k: nat, n: nat): (p: nat)
    requires n > 0
    ensures p < n
  {
    (s + k) % n
  }

  lemma PositionCases(s: nat, k: nat, n: nat)
    requires k < n
    ensures var r := s % n; Position(s, k, n) == if r + k < n then r + k else r + k - n
  {
    var q, r := s / n, s % n;
    if r + k < n {
      Residue(s + k, n, q, r + k);
    } else {
      assert n * (q + 1) == n * q + n;
      Residue(s + k, n, q + 1, r + k - n);
    }
  }

  /** n consecutive indices visit every position of a list of n exactly once. */
  lemma FairTurn(s: nat, n: nat, p: nat)
    requires p < n
    ensures forall k: nat :: k < n ==> (Position(s, k, n) == p <==> k == StepTo(s, n, p))
  {
    forall k: nat | k < n ensures Position(s, k, n) == p <==> k == StepTo(s, n, p) {
      PositionCases(s, k, n);
    }
  }

  datatype Source = Base | Candidate

  /** The endpoint for index epIdx, and where it came from. */
  function Pick(lower: Lower, epIdx: nat, base: seq<Endpoint>, cands: seq<Endpoint>): (Endpoint, Source) {
    if base == [] then (NO_ENDPOINT, Base)
    else
      var merged := base + Fresh(lower, base, cands);
      var i := epIdx % |merged|;
      (merged[i], if i >= |base| then Candidate else Base)
  }

  lemma PickAt(lower: Lower, epIdx: nat, base: seq<Endpoint>, cands: seq<Endpoint>)
    requires base != []
    ensures var merged := base + Fresh(lower, base, cands);
            var i := epIdx % |merged|;
            Pick(lower, epIdx, base, cands) == (merged[i], if i < |base| then Base else Candidate)
  {
  }

  /**
   Rotation fairness: over any |merged| consecutive indices, position p is picked at exactly
   one of them, with that position's endpoint, and labelled a candidate exactly past base.
   */
  lemma RotationFair(lower: Lower, s: nat, base: seq<Endpoint>, cands: seq<Endpoint>, p: nat)
    requires base != [] && p < |base + Fresh(lower, base, cands)|
    ensures var merged := base + Fresh(lower, base, cands);
            var k := StepTo(s, |merged|, p);
            && Pick(lower, s + k, base, cands) == (merged[p], if p < |base| then Base else Candidate)
            && (forall x: nat :: x < |merged| && Position(s, x, |merged|) == p ==> x == k)
  {
    var n := |base + Fresh(lower, base, cands)|;
    FairTurn(s, n, p);
    PickAt(lower, s + StepTo(s, n, p), base, cands);
    assert Position(s, StepTo(s, n, p), n) == p;
  }

  /** The merged list has base as its prefix, and past it no endpoint with a base address. */
  lemma MergedShape(lower: Lower, base: seq<Endpoint>, cands: seq<Endpoint>)
    ensures var merged := base + Fresh(lower, base, cands);
            && base <= merged
            && (forall p :: |base| <= p < |merged| ==> merged[p] in cands && !Collides(lower, base, merged[p]))
            && (forall c :: c in cands && !Collides(lower, base, c) ==> c in merged[|base|..])
  {
    FreshIsFilter(lower, base, cands);
    var merged := base + Fresh(lower, base, cands);
    assert merged[|base|..] == Fresh(lower, base, cands);
    forall p | |base| <= p < |merged| ensures merged[p] in Fresh(lower, base, cands) {
      assert merged[p] == Fresh(lower, base, cands)[p - |base|];
    }
  }

  // ---------- the candidate set ----------

  class Candidates {
    const lower: Lower
    var endpoints: seq<Endpoint>
    var expiresAt: int

    constructor (lower: Lower)
      ensures this.lower == lower && endpoints == [] && expiresAt == 0
    {
      this.lower, endpoints, expiresAt := lower, [], 0;
    }

    /** Replaces the set by the peers in ranking order; idx is the order found. */
    method Update(peers: seq<BootstrapPeer>, expiry: int) returns (idx: seq<nat>)
      modifies this
      ensures RankedBy(peers, idx, endpoints) && expiresAt == expiry
    {
      idx := SortIndices(peers, |peers|);
      SortOrders(peers, |peers|);
      var out := [];
      var i := 0;
      while i < |idx|
        invariant i <= |idx| && |out| == i
        invariant forall k :: 0 <= k < i ==> out[k] == EndpointOf(peers[idx[k]])
      {
        out := out + [EndpointOf(peers[idx[i]])];
        i := i + 1;
      }
      endpoints, expiresAt := out, expiry;
    }

    /** An expired set counts as empty. */
    method NextEndpoint(epIdx: nat, base: seq<Endpoint>, now: int) returns (ep: Endpoint, source: Source)
      ensures (ep, source) == Pick(lower, epIdx, base, if expiresAt != 0 && now > expiresAt then [] else endpoints)
    {
      if base == [] {
        return NO_ENDPOINT, Base;
      }
      var cands := endpoints;
      if expiresAt != 0 && now > expiresAt {
        cands := [];
      }
      var merged := MergeEndpoints(lower, base, cands);
      var i := epIdx % |merged|;
      ep, source := merged[i], Base;
      if i >= |base| {
        source := Candidate;
      }
    }
  }
}
