/** Small facts about division and counting that several modules need. */
module Numbers {
  lemma NonzeroMultiple(n: int, k: int)
    requires n > 0 && k != 0
    ensures n * k >= n || n * k <= -n
  {
  }

  /** A number that is n times q and a remainder has that quotient and that residue. */
  lemma Residue(x: int, n: nat, q: int, r: nat)
    requires r < n && x == n * q + r
    ensures x / n == q && x % n == r
  {
    var q', r' := x / n, x % n;
    assert n * (q - q') == r' - r;
    if q != q' {
      NonzeroMultiple(n, q - q');
    }
  }

  /** Different numbers from a pool are at most as many as the pool holds. */
  lemma {:induction false} DistinctFit(ns: seq<nat>, pool: set<nat>)
    requires forall i, j :: 0 <= i < j < |ns| ==> ns[i] != ns[j]
    requires forall n :: n in ns ==> n in pool
    ensures |ns| <= |pool|
  {
    if ns != [] {
      var init, last := ns[..|ns| - 1], ns[|ns| - 1];
      assert last in ns && last !in init;
      DistinctFit(init, pool - {last});
    }
  }
}
