/** The supervisor's dial loop: which endpoint each turn dials and which attempt number its backoff uses. */
module Supervisor {
  import opened PeerCandidates
  import Backoff

  /** How one turn of the loop ends: no connection with a heartbeat stream, or one that was lost again. */
  datatype Turn = DialFailed | Lost(connectedAt: int, lostAt: int)

  const STABLE_SECONDS := 30

  /** The connection was up long enough to forget earlier failures. */
  predicate Stable(t: Turn) {
    t.Lost? && t.lostAt - t.connectedAt >= STABLE_SECONDS
  }

  /** The number of turns since the last stable connection, or since the start. */
  function Streak(turns: seq<Turn>): nat {
    if turns == [] || Stable(turns[|turns| - 1]) then 0 else 1 + Streak(turns[..|turns| - 1])
  }

  /**
   The loop until it is stopped after these turns. candsAt holds the candidates in force at each
   turn, none once they have expired; they may change from turn to turn.
   */
  method Run(lower: Lower, base: seq<Endpoint>, candsAt: seq<seq<Endpoint>>, turns: seq<Turn>)
      returns (dialed: seq<Endpoint>, attempts: seq<nat>)
    requires |candsAt| == |turns|
    ensures |dialed| == |attempts| == |turns|
    ensures forall i :: 0 <= i < |turns| ==> dialed[i] == Pick(lower, i, base, candsAt[i]).0
    ensures forall i :: 0 <= i < |turns| ==> attempts[i] == Streak(turns[..i])
  {
    var epIdx, attempt := 0, 0;
    dialed, attempts := [], [];
    var i := 0;
    while i < |turns|
      invariant i <= |turns| && epIdx == i && |dialed| == |attempts| == i
      invariant attempt == Streak(turns[..i])
      invariant forall k :: 0 <= k < i ==> dialed[k] == Pick(lower, k, base, candsAt[k]).0
      invariant forall k :: 0 <= k < i ==> attempts[k] == Streak(turns[..k])
    {
      assert turns[..i + 1][..i] == turns[..i];
      var (ep, _) := Pick(lower, epIdx, base, candsAt[i]);
      dialed := dialed + [ep];
      attempts := attempts + [attempt];
      match turns[i] {
        case DialFailed =>
          attempt := attempt + 1;
        case Lost(connectedAt, lostAt) =>
          if lostAt - connectedAt >= STABLE_SECONDS {
            attempt := 0;
          } else {
            attempt := attempt + 1;
          }
      }
      epIdx := epIdx + 1;
      i := i + 1;
    }
  }

  /** The candidates do not change over the n turns from s on. */
  ghost predicate Steady(candsAt: seq<seq<Endpoint>>, s: nat, n: nat) {
    s + n <= |candsAt| && forall i :: s <= i < s + n ==> candsAt[i] == candsAt[s]
  }

  /** Every endpoint gets its turn: while the candidates stay the same, each position is dialed once a full turn. */
  lemma EveryEndpointDialed(lower: Lower, base: seq<Endpoint>, candsAt: seq<seq<Endpoint>>, s: nat, p: nat)
    requires base != [] && s < |candsAt| && p < |base + Fresh(lower, base, candsAt[s])|
    requires Steady(candsAt, s, |base + Fresh(lower, base, candsAt[s])|)
    ensures var merged := base + Fresh(lower, base, candsAt[s]);
            exists i :: s <= i < s + |merged| && Pick(lower, i, base, candsAt[i]).0 == merged[p]
  {
    var merged := base + Fresh(lower, base, candsAt[s]);
    var i := s + StepTo(s, |merged|, p);
    RotationFair(lower, s, base, candsAt[s], p);
    assert Pick(lower, i, base, candsAt[i]).0 == merged[p];
  }

  /** The attempt number is 0 at the start and after a connection that was up for 30 seconds, and otherwise one more. */
  lemma AttemptExactly(turns: seq<Turn>)
    ensures turns == [] ==> Streak(turns) == 0
    ensures turns != [] ==>
              var t := turns[|turns| - 1];
              Streak(turns) == if t.Lost? && t.lostAt >= t.connectedAt + 30 then 0 else Streak(turns[..|turns| - 1]) + 1
  {
  }

  lemma {:induction false} StreakSuffix(turns: seq<Turn>, i: nat, j: nat)
    requires i <= j <= |turns| && forall k :: i <= k < j ==> !Stable(turns[k])
    ensures Streak(turns[..j]) == Streak(turns[..i]) + (j - i)
  {
    if i < j {
      StreakSuffix(turns, i, j - 1);
      assert turns[..j][..j - 1] == turns[..j - 1];
    }
  }

  /** While no connection is stable the delay before jitter doubles up to the cap; a stable one resets it to the base. */
  lemma BackoffFollowsStreak(turns: seq<Turn>, i: nat, j: nat, base: nat, maxDelay: nat)
    requires Backoff.Window(base, maxDelay) && base * maxDelay < Backoff.TWO_63
    requires i <= j <= |turns| && Streak(turns[..i]) == 0
    requires forall k :: i <= k < j ==> !Stable(turns[k])
    ensures Backoff.Deterministic(base, maxDelay, Streak(turns[..j])) == Backoff.Intended(base, maxDelay, j - i)
  {
    StreakSuffix(turns, i, j);
    Backoff.DoublesUpToMax(base, maxDelay, j - i);
  }
}
