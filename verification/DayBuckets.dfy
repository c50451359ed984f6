/**
 The rolling ring of day buckets. An event rotates the cell its day maps to and is then
 added to it; instants are whole seconds on or after the Unix epoch.
 */
module DayBuckets {
  import opened Bytes
  import opened Numbers

  type uint32 = x: int | 0 <= x < 0x1_0000_0000

  const DAY: nat := 86400

  /** The three role-overloaded counters, each wrapping at 32 bits. */
  datatype Counts = Counts(total: uint32, a: uint32, b: uint32)

  const ZERO := Counts(0, 0, 0)

  /** A cell; stamp is the start of its day, None when it was never used. */
  datatype DayBucket = DayBucket(counts: Counts, stamp: Option<nat>)

  datatype Event = Event(at: nat, delta: Counts)

  /** 32-bit addition. */
  function Add32(x: uint32, y: uint32): uint32 {
    if x + y < 0x1_0000_0000 then x + y else x + y - 0x1_0000_0000
  }

  function Plus(x: Counts, y: Counts): Counts {
    Counts(Add32(x.total, y.total), Add32(x.a, y.a), Add32(x.b, y.b))
  }

  /** What a settlement, clean or not, adds to a settlement cell. */
  function Settled(clean: bool): Counts {
    Counts(1, if clean then 1 else 0, 0)
  }

  function DayOf(at: nat): nat {
    at / DAY
  }

  function DayBucketIndex(at: nat, n: nat): (i: nat)
    requires n > 0
    ensures i < n
  {
    DayOf(at) % n
  }

  function StripToDay(at: nat): nat {
    DayOf(at) * DAY
  }

  function RotateIfStale(b: DayBucket, now: nat, n: nat): DayBucket {
    var today := StripToDay(now);
    match b.stamp
    case None => DayBucket(ZERO, Some(today))
    case Some(stamp) => if today - stamp >= n * DAY then DayBucket(ZERO, Some(today)) else b
  }

  function Record(ring: seq<DayBucket>, e: Event): (r: seq<DayBucket>)
    requires |ring| > 0
    ensures |r| == |ring|
  {
    var i := DayBucketIndex(e.at, |ring|);
    var cell := RotateIfStale(ring[i], e.at, |ring|);
    ring[i := cell.(counts := Plus(cell.counts, e.delta))]
  }

  function RecordAll(ring: seq<DayBucket>, log: seq<Event>): (r: seq<DayBucket>)
    requires |ring| > 0
    ensures |r| == |ring|
  {
    if log == [] then ring else Record(RecordAll(ring, log[..|log| - 1]), log[|log| - 1])
  }

  function EmptyRing(n: nat): (r: seq<DayBucket>)
    ensures |r| == n
  {
    seq(n, _ => DayBucket(ZERO, None))
  }

  /** The ring as it is kept: an array whose cell is rotated, then incremented, in place. */
  method RecordInPlace(ring: array<DayBucket>, e: Event)
    requires ring.Length > 0
    modifies ring
    ensures ring[..] == Record(old(ring[..]), e)
  {
    var i := DayBucketIndex(e.at, ring.Length);
    ring[i] := RotateIfStale(ring[i], e.at, ring.Length);
    ring[i] := ring[i].(counts := Plus(ring[i].counts, e.delta));
  }

  // ---------- the log ----------

  /** What the log holds for one day. */
  function SumOn(log: seq<Event>, day: nat): Counts {
    if log == [] then ZERO
    else
      var init, e := log[..|log| - 1], log[|log| - 1];
      if DayOf(e.at) == day then Plus(SumOn(init, day), e.delta) else SumOn(init, day)
  }

  /** Each event is less than n days older than every event before it. */
  ghost predicate Timely(log: seq<Event>, n: nat) {
    forall i, j :: 0 <= i < j < |log| ==> DayOf(log[i].at) < DayOf(log[j].at) + n
  }

  /** Every used cell holds exactly its stamped day, and a day of that cell's residue class that has events. */
  ghost predicate CellExact(cell: DayBucket, i: nat, n: nat, log: seq<Event>)
    requires n > 0
  {
    match cell.stamp
    case None => cell.counts == ZERO && forall e :: e in log ==> DayBucketIndex(e.at, n) != i
    case Some(stamp) =>
      && stamp == DayOf(stamp) * DAY
      && DayOf(stamp) % n == i
      && (exists e :: e in log && DayOf(e.at) == DayOf(stamp))
      && cell.counts == SumOn(log, DayOf(stamp))
      && forall e :: e in log && DayBucketIndex(e.at, n) == i ==> DayOf(e.at) <= DayOf(stamp)
  }

  ghost predicate Exact(ring: seq<DayBucket>, log: seq<Event>) {
    |ring| > 0 && forall i :: 0 <= i < |ring| ==> CellExact(ring[i], i, |ring|, log)
  }

  /** A day is 86400 seconds from midnight to midnight. */
  lemma DayExactly(at: nat, day: nat)
    ensures DayOf(at) == day <==> 86400 * day <= at < 86400 * day + 86400
  {
  }

  /** Counters add modulo 2^32. */
  lemma AddsModulo(x: uint32, y: uint32)
    ensures Add32(x, y) == (x + y) % 0x1_0000_0000
  {
  }

  /** Settlements add one to their day's total, and one to its clean count when they are clean. */
  lemma SettlementAdds(log: seq<Event>, at: nat, clean: bool)
    ensures var before, now := SumOn(log, DayOf(at)), SumOn(log + [Event(at, Settled(clean))], DayOf(at));
            && now.total == (before.total + 1) % 0x1_0000_0000
            && now.a == (before.a + if clean then 1 else 0) % 0x1_0000_0000
            && now.b == before.b
  {
    SumOnSnoc(log, Event(at, Settled(clean)), DayOf(at));
  }

  lemma StripFacts(at: nat)
    ensures DayOf(StripToDay(at)) == DayOf(at)
  {
  }

  /** Different days in one residue class are at least n apart. */
  lemma SameResidue(n: nat, x: nat, y: nat)
    requires n > 0 && x % n == y % n && x < y
    ensures y - x >= n
  {
    var k := y / n - x / n;
    assert y - x == n * k;
    if k < 1 {
      NotPositive(n, k);
    }
  }

  lemma NotPositive(n: nat, k: int)
    requires k < 1
    ensures n * k <= 0
  {
  }

  lemma {:induction false} SumOnNone(log: seq<Event>, day: nat)
    requires forall e :: e in log ==> DayOf(e.at) != day
    ensures SumOn(log, day) == ZERO
  {
    if log != [] {
      assert log[|log| - 1] in log;
      SumOnNone(log[..|log| - 1], day);
    }
  }

  lemma SumOnSnoc(log: seq<Event>, e: Event, day: nat)
    ensures SumOn(log + [e], day) == if DayOf(e.at) == day then Plus(SumOn(log, day), e.delta) else SumOn(log, day)
  {
    assert (log + [e])[..|log|] == log;
  }

  /** Adding e to a log changes no cell of another residue class. */
  lemma OtherCell(cell: DayBucket, i: nat, n: nat, log: seq<Event>, e: Event)
    requires n > 0 && CellExact(cell, i, n, log) && DayBucketIndex(e.at, n) != i
    ensures CellExact(cell, i, n, log + [e])
  {
    if cell.stamp.Some? {
      var d := DayOf(cell.stamp.value);
      SumOnSnoc(log, e, d);
      var x :| x in log && DayOf(x.at) == d;
      assert x in log + [e];
    }
  }

  /** An event not older than its cell's stamp leaves the cell exact. */
  lemma OwnCell(cell: DayBucket, n: nat, log: seq<Event>, e: Event)
    requires n > 0 && CellExact(cell, DayBucketIndex(e.at, n), n, log)
    requires cell.stamp.Some? ==> DayOf(cell.stamp.value) <= DayOf(e.at)
    ensures var c := RotateIfStale(cell, e.at, n);
            CellExact(c.(counts := Plus(c.counts, e.delta)), DayBucketIndex(e.at, n), n, log + [e])
  {
    var i, day := DayBucketIndex(e.at, n), DayOf(e.at);
    StripFacts(e.at);
    SumOnSnoc(log, e, day);
    assert e in log + [e];
    if cell.stamp.Some? && DayOf(cell.stamp.value) == day {
      NotStale(n);
    } else {
      if cell.stamp.Some? {
        var previous := DayOf(cell.stamp.value);
        SameResidue(n, previous, day);
        Scale(n, day - previous);
        assert StripToDay(e.at) - cell.stamp.value == (day - previous) * DAY;
      }
      forall x | x in log ensures DayOf(x.at) != day {
        if cell.stamp.Some? { assert DayBucketIndex(x.at, n) == i ==> DayOf(x.at) <= DayOf(cell.stamp.value); }
      }
      SumOnNone(log, day);
    }
  }

  lemma NotStale(n: nat)
    requires n > 0
    ensures n * DAY > 0
  {
  }

  lemma Scale(n: nat, k: nat)
    requires k >= n
    ensures k * DAY >= n * DAY
  {
  }

  /**
   One event, exactly: with every cell exact, recording an event that counts something keeps
   them exact if and only if the event is not older than the stamp of the cell it maps to.
   */
  lemma RecordExactIff(ring: seq<DayBucket>, log: seq<Event>, e: Event)
    requires Exact(ring, log) && e.delta != ZERO
    ensures var stamp := ring[DayBucketIndex(e.at, |ring|)].stamp;
            Exact(Record(ring, e), log + [e]) <==> (stamp.None? || DayOf(stamp.value) <= DayOf(e.at))
  {
    var n := |ring|;
    var i := DayBucketIndex(e.at, n);
    if ring[i].stamp.None? || DayOf(ring[i].stamp.value) <= DayOf(e.at) {
      RecordKeepsExact(ring, log, e);
    } else {
      var d := DayOf(ring[i].stamp.value);
      SumOnSnoc(log, e, d);
      assert StripToDay(e.at) - ring[i].stamp.value < 0;
      var r := Record(ring, e);
      assert r[i].stamp == ring[i].stamp && r[i].counts == Plus(ring[i].counts, e.delta);
      PlusMoves(ring[i].counts, e.delta);
      assert !CellExact(r[i], i, n, log + [e]);
    }
  }

  lemma PlusMoves(x: Counts, y: Counts)
    requires y != ZERO
    ensures Plus(x, y) != x
  {
  }

  lemma RecordKeepsExact(ring: seq<DayBucket>, log: seq<Event>, e: Event)
    requires Exact(ring, log)
    requires var stamp := ring[DayBucketIndex(e.at, |ring|)].stamp;
             stamp.None? || DayOf(stamp.value) <= DayOf(e.at)
    ensures Exact(Record(ring, e), log + [e])
  {
    var n := |ring|;
    forall i | 0 <= i < n ensures CellExact(Record(ring, e)[i], i, n, log + [e]) {
      if i == DayBucketIndex(e.at, n) {
        OwnCell(ring[i], n, log, e);
      } else {
        OtherCell(ring[i], i, n, log, e);
      }
    }
  }

  /** A timely event is never older than the stamp of its cell. */
  lemma TimelyIsNotOlder(ring: seq<DayBucket>, log: seq<Event>, e: Event)
    requires Exact(ring, log) && Timely(log + [e], |ring|)
    ensures var stamp := ring[DayBucketIndex(e.at, |ring|)].stamp;
            stamp.None? || DayOf(stamp.value) <= DayOf(e.at)
  {
    var n, all := |ring|, log + [e];
    var cell := ring[DayBucketIndex(e.at, n)];
    if cell.stamp.Some? {
      var d := DayOf(cell.stamp.value);
      var x :| x in log && DayOf(x.at) == d;
      var j :| 0 <= j < |log| && log[j] == x;
      assert all[j] == x && all[|log|] == e;
      if DayOf(e.at) < d {
        SameResidue(n, DayOf(e.at), d);
      }
    }
  }

  /** No event comes after a newer one of its residue class. */
  ghost predicate ClassOrdered(log: seq<Event>, n: nat)
    requires n > 0
  {
    forall i, j :: 0 <= i < j < |log| && DayBucketIndex(log[i].at, n) == DayBucketIndex(log[j].at, n) ==>
      DayOf(log[i].at) <= DayOf(log[j].at)
  }

  /** In an exact ring the stamp of a cell is the newest day of its class, so the two orders are one. */
  lemma NotOlderIsOrdered(ring: seq<DayBucket>, log: seq<Event>, e: Event)
    requires Exact(ring, log) && ClassOrdered(log, |ring|)
    ensures var stamp := ring[DayBucketIndex(e.at, |ring|)].stamp;
            ClassOrdered(log + [e], |ring|) <==> (stamp.None? || DayOf(stamp.value) <= DayOf(e.at))
  {
    var n, all := |ring|, log + [e];
    var i := DayBucketIndex(e.at, n);
    assert CellExact(ring[i], i, n, log);
    assert all[|log|] == e;
    if ClassOrdered(all, n) && ring[i].stamp.Some? {
      var x :| x in log && DayOf(x.at) == DayOf(ring[i].stamp.value);
      var k :| 0 <= k < |log| && log[k] == x;
      assert all[k] == x;
    }
    if ring[i].stamp.None? || DayOf(ring[i].stamp.value) <= DayOf(e.at) {
      forall k | 0 <= k < |log| && DayBucketIndex(all[k].at, n) == i ensures DayOf(all[k].at) <= DayOf(e.at) {
        assert log[k] in log;
      }
    }
  }

  lemma {:induction false} OrderedIsExact(n: nat, log: seq<Event>)
    requires n > 0 && ClassOrdered(log, n)
    ensures Exact(RecordAll(EmptyRing(n), log), log)
  {
    if log != [] {
      var init, e := log[..|log| - 1], log[|log| - 1];
      assert log == init + [e];
      OrderedIsExact(n, init);
      NotOlderIsOrdered(RecordAll(EmptyRing(n), init), init, e);
      RecordKeepsExact(RecordAll(EmptyRing(n), init), init, e);
    }
  }

  /** The ring is exact all through the log. */
  ghost predicate AlwaysExact(n: nat, log: seq<Event>)
    requires n > 0
  {
    forall k :: 0 <= k <= |log| ==> Exact(RecordAll(EmptyRing(n), log[..k]), log[..k])
  }

  /**
   The whole log, exactly: a ring stays exact throughout a log of events that count something
   if and only if no event comes after a newer one of its residue class.
   */
  lemma {:induction false} RingExactIff(n: nat, log: seq<Event>)
    requires n > 0 && forall e :: e in log ==> e.delta != ZERO
    ensures AlwaysExact(n, log) <==> ClassOrdered(log, n)
  {
    if ClassOrdered(log, n) {
      forall k | 0 <= k <= |log| ensures Exact(RecordAll(EmptyRing(n), log[..k]), log[..k]) {
        OrderedIsExact(n, log[..k]);
      }
    } else {
      var init, e := log[..|log| - 1], log[|log| - 1];
      assert log == init + [e] && log[..|log|] == log;
      if AlwaysExact(n, log) {
        forall k | 0 <= k <= |init| ensures Exact(RecordAll(EmptyRing(n), init[..k]), init[..k]) {
          assert init[..k] == log[..k];
        }
        RingExactIff(n, init);
        var ring := RecordAll(EmptyRing(n), init);
        assert log[..|init|] == init;
        NotOlderIsOrdered(ring, init, e);
        RecordExactIff(ring, init, e);
      }
    }
  }

  /**
   The ring refines the log: for any window and any timely log every used cell holds exactly
   the sum of the day it is stamped with.
   */
  lemma RingRefinesLog(n: nat, log: seq<Event>)
    requires n > 0 && Timely(log, n)
    ensures Exact(RecordAll(EmptyRing(n), log), log)
  {
    forall i, j | 0 <= i < j < |log| && DayBucketIndex(log[i].at, n) == DayBucketIndex(log[j].at, n)
      ensures DayOf(log[i].at) <= DayOf(log[j].at)
    {
      if DayOf(log[j].at) < DayOf(log[i].at) {
        SameResidue(n, DayOf(log[j].at), DayOf(log[i].at));
      }
    }
    OrderedIsExact(n, log);
  }

  /** A day with events is in its cell, with its exact sum, until an event n or more days newer arrives. */
  lemma WindowIsKept(n: nat, log: seq<Event>, e: Event)
    requires n > 0 && Timely(log, n) && e in log
    requires forall x :: x in log ==> DayOf(x.at) < DayOf(e.at) + n
    ensures var cell := RecordAll(EmptyRing(n), log)[DayBucketIndex(e.at, n)];
            cell == DayBucket(SumOn(log, DayOf(e.at)), Some(StripToDay(e.at)))
  {
    RingRefinesLog(n, log);
    var ring, i := RecordAll(EmptyRing(n), log), DayBucketIndex(e.at, n);
    assert CellExact(ring[i], i, n, log);
    var d := DayOf(ring[i].stamp.value);
    var x :| x in log && DayOf(x.at) == d;
    if DayOf(e.at) < d {
      SameResidue(n, DayOf(e.at), d);
    }
  }

  // ---------- what the score adds up ----------

  /** The score adds all cells, whatever their stamps. */
  function SumCells(ring: seq<DayBucket>): Counts {
    if ring == [] then ZERO else Plus(SumCells(ring[..|ring| - 1]), ring[|ring| - 1].counts)
  }

  /** The same over the days of the window that ends with day today. */
  function SumDays(log: seq<Event>, today: nat, n: nat): Counts
    decreases n
  {
    if n == 0 then ZERO
    else Plus(SumDays(log, today, n - 1), if n - 1 <= today then SumOn(log, today - (n - 1)) else ZERO)
  }

  /** Cells added from index t downwards, cyclically. */
  function BackSum(ring: seq<DayBucket>, t: int, m: nat): Counts
    requires |ring| > 0
  {
    if m == 0 then ZERO else Plus(BackSum(ring, t, m - 1), ring[(t - (m - 1)) % |ring|].counts)
  }

  lemma Add32Associates(x: uint32, y: uint32, z: uint32)
    ensures Add32(Add32(x, y), z) == Add32(x, Add32(y, z))
  {
  }

  lemma PlusAssociates(x: Counts, y: Counts, z: Counts)
    ensures Plus(Plus(x, y), z) == Plus(x, Plus(y, z))
  {
    Add32Associates(x.total, y.total, z.total);
    Add32Associates(x.a, y.a, z.a);
    Add32Associates(x.b, y.b, z.b);
  }

  lemma PlusCommutes(x: Counts, y: Counts)
    ensures Plus(x, y) == Plus(y, x) && Plus(ZERO, x) == x
  {
  }

  /** The cell at t + 1 added in front. */
  lemma {:induction false} BackSumHead(ring: seq<DayBucket>, t: int, m: nat)
    requires |ring| > 0
    ensures BackSum(ring, t + 1, m + 1) == Plus(ring[(t + 1) % |ring|].counts, BackSum(ring, t, m))
  {
    var first := ring[(t + 1) % |ring|].counts;
    var last := ring[(t + 1 - m) % |ring|].counts;
    assert BackSum(ring, t + 1, m + 1) == Plus(BackSum(ring, t + 1, m), last);
    if m == 0 {
      PlusCommutes(ZERO, first);
    } else {
      BackSumHead(ring, t, m - 1);
      assert BackSum(ring, t, m) == Plus(BackSum(ring, t, m - 1), last) by {
        assert t - (m - 1) == t + 1 - m;
      }
      PlusAssociates(first, BackSum(ring, t, m - 1), last);
    }
  }

  lemma FullTurn(n: nat, t: int)
    requires n > 0
    ensures (t + 1) % n == (t - (n - 1)) % n
  {
    var q, r := (t - (n - 1)) / n, (t - (n - 1)) % n;
    assert t + 1 == n * (q + 1) + r;
    Residue(t + 1, n, q + 1, r);
  }

  /** A full turn adds every cell once, wherever it starts. */
  lemma {:induction false} AnyStart(ring: seq<DayBucket>, t: nat)
    requires |ring| > 0
    ensures BackSum(ring, t, |ring|) == BackSum(ring, 0, |ring|)
  {
    if t > 0 {
      var n := |ring|;
      AnyStart(ring, t - 1);
      BackSumHead(ring, t - 1, n - 1);
      FullTurn(n, t - 1);
      PlusCommutes(ring[t % n].counts, BackSum(ring, t - 1, n - 1));
    }
  }

  lemma SumCellsSnoc(ring: seq<DayBucket>, k: nat)
    requires k < |ring|
    ensures SumCells(ring[..k + 1]) == Plus(SumCells(ring[..k]), ring[k].counts)
  {
    assert ring[..k + 1][..k] == ring[..k];
  }

  lemma MoveLast(front: Counts, cell: Counts, later: Counts)
    ensures Plus(front, Plus(later, cell)) == Plus(Plus(front, cell), later)
  {
    PlusAssociates(front, cell, later);
    PlusCommutes(later, cell);
  }

  lemma BackSumStep(ring: seq<DayBucket>, m: nat)
    requires 0 < m <= |ring|
    ensures BackSum(ring, |ring| - 1, m) == Plus(BackSum(ring, |ring| - 1, m - 1), ring[|ring| - m].counts)
  {
    assert |ring| - 1 - (m - 1) == |ring| - m;
    assert (|ring| - m) % |ring| == |ring| - m;
  }

  lemma {:induction false} LastCells(ring: seq<DayBucket>, m: nat)
    requires m <= |ring| && ring != []
    ensures Plus(SumCells(ring[..|ring| - m]), BackSum(ring, |ring| - 1, m)) == SumCells(ring)
  {
    var n := |ring|;
    if m == 0 {
      assert ring[..n] == ring;
      PlusCommutes(SumCells(ring), ZERO);
    } else {
      LastCells(ring, m - 1);
      SumCellsSnoc(ring, n - m);
      BackSumStep(ring, m);
      MoveLast(SumCells(ring[..n - m]), ring[n - m].counts, BackSum(ring, n - 1, m - 1));
    }
  }

  /** A cell whose day has left the window of n days ending today. */
  predicate Stale(cell: DayBucket, n: nat, today: nat) {
    cell.stamp.Some? && DayOf(cell.stamp.value) + n <= today
  }

  /** The ring with its stale cells emptied, and the ring of its stale cells alone. */
  function Fresh(ring: seq<DayBucket>, today: nat): (r: seq<DayBucket>)
    ensures |r| == |ring|
  {
    seq(|ring|, i requires 0 <= i < |ring| =>
      if Stale(ring[i], |ring|, today) then DayBucket(ZERO, None) else ring[i])
  }

  function StaleCells(ring: seq<DayBucket>, today: nat): (r: seq<DayBucket>)
    ensures |r| == |ring|
  {
    seq(|ring|, i requires 0 <= i < |ring| =>
      if Stale(ring[i], |ring|, today) then ring[i] else DayBucket(ZERO, None))
  }

  lemma PlusSplits(x: Counts, x': Counts, y: Counts, y': Counts)
    ensures Plus(Plus(x, x'), Plus(y, y')) == Plus(Plus(x, y), Plus(x', y'))
  {
    PlusAssociates(Plus(x, x'), y, y');
    MoveLast(x, y, x');
    PlusCommutes(x', y);
    PlusAssociates(Plus(x, y), x', y');
  }

  lemma {:induction false} CellsSplit(ring: seq<DayBucket>, today: nat, m: nat)
    requires m <= |ring|
    ensures SumCells(ring[..m]) == Plus(SumCells(Fresh(ring, today)[..m]), SumCells(StaleCells(ring, today)[..m]))
  {
    if m > 0 {
      var young, gone := Fresh(ring, today), StaleCells(ring, today);
      CellsSplit(ring, today, m - 1);
      SumCellsSnoc(ring, m - 1);
      SumCellsSnoc(young, m - 1);
      SumCellsSnoc(gone, m - 1);
      PlusSplits(SumCells(young[..m - 1]), SumCells(gone[..m - 1]), young[m - 1].counts, gone[m - 1].counts);
      assert ring[m - 1].counts == Plus(young[m - 1].counts, gone[m - 1].counts) by {
        PlusCommutes(young[m - 1].counts, gone[m - 1].counts);
      }
    }
  }

  /** No event is newer than the day the score is taken. */
  ghost predicate NoneAfter(log: seq<Event>, today: nat) {
    forall e :: e in log ==> DayOf(e.at) <= today
  }

  /** Stale cells aside, the cell of each window day holds that day's sum, nothing for days before the epoch. */
  lemma WindowDay(ring: seq<DayBucket>, log: seq<Event>, today: nat, day: int)
    requires Exact(ring, log) && NoneAfter(log, today) && today - |ring| < day <= today
    ensures Fresh(ring, today)[day % |ring|].counts == if day >= 0 then SumOn(log, day) else ZERO
  {
    var n := |ring|;
    var i := day % n;
    assert CellExact(ring[i], i, n, log);
    if ring[i].stamp.Some? && !Stale(ring[i], n, today) {
      Congruent(n, DayOf(ring[i].stamp.value), day);
    } else if day >= 0 {
      forall e | e in log ensures DayOf(e.at) != day {
        assert DayOf(e.at) == day ==> DayBucketIndex(e.at, n) == i;
      }
      SumOnNone(log, day);
    }
  }

  lemma Congruent(n: int, x: int, y: int)
    requires n > 0 && x % n == y % n && -n < x - y < n
    ensures x == y
  {
    assert x - y == n * (x / n - y / n);
    if x / n != y / n {
      NonzeroMultiple(n, x / n - y / n);
    }
  }

  lemma {:induction false} DaysAreCells(ring: seq<DayBucket>, log: seq<Event>, today: nat, m: nat)
    requires Exact(ring, log) && NoneAfter(log, today) && m <= |ring|
    ensures SumDays(log, today, m) == BackSum(Fresh(ring, today), today, m)
  {
    if m > 0 {
      DaysAreCells(ring, log, today, m - 1);
      WindowDay(ring, log, today, today - (m - 1));
    }
  }

  lemma CellsOfTurn(ring: seq<DayBucket>, today: nat)
    requires |ring| > 0
    ensures BackSum(ring, today, |ring|) == SumCells(ring)
  {
    var n := |ring|;
    AnyStart(ring, today);
    AnyStart(ring, n - 1);
    LastCells(ring, n);
    PlusCommutes(ZERO, BackSum(ring, n - 1, n));
    assert ring[..n - n] == [];
  }

  /** What the score adds up is the window's events and, on top, the stale cells. */
  lemma ScoreIsWindowAndStale(ring: seq<DayBucket>, log: seq<Event>, today: nat)
    requires Exact(ring, log) && NoneAfter(log, today)
    ensures SumCells(ring) == Plus(SumDays(log, today, |ring|), SumCells(StaleCells(ring, today)))
  {
    var n := |ring|;
    DaysAreCells(ring, log, today, n);
    CellsOfTurn(Fresh(ring, today), today);
    CellsSplit(ring, today, n);
    assert ring[..n] == ring && Fresh(ring, today)[..n] == Fresh(ring, today);
    assert StaleCells(ring, today)[..n] == StaleCells(ring, today);
  }

  /** So it is the window's events exactly when the stale cells add up to nothing. */
  lemma ScoreIsWindow(ring: seq<DayBucket>, log: seq<Event>, today: nat)
    requires Exact(ring, log) && NoneAfter(log, today)
    ensures SumCells(ring) == SumDays(log, today, |ring|) <==> SumCells(StaleCells(ring, today)) == ZERO
  {
    ScoreIsWindowAndStale(ring, log, today);
    var days, stale := SumDays(log, today, |ring|), SumCells(StaleCells(ring, today));
    PlusCommutes(days, ZERO);
    if stale != ZERO {
      PlusMoves(days, stale);
    }
  }

  lemma {:induction false} SumCellsNone(ring: seq<DayBucket>)
    requires forall cell :: cell in ring ==> cell.counts == ZERO
    ensures SumCells(ring) == ZERO
  {
    if ring != [] {
      assert ring[|ring| - 1] in ring;
      SumCellsNone(ring[..|ring| - 1]);
    }
  }

  /** In particular when no cell is stale. */
  lemma NoneStaleScoresWindow(ring: seq<DayBucket>, log: seq<Event>, today: nat)
    requires Exact(ring, log) && NoneAfter(log, today)
    requires forall cell :: cell in ring ==> !Stale(cell, |ring|, today)
    ensures SumCells(ring) == SumDays(log, today, |ring|)
  {
    forall cell | cell in StaleCells(ring, today) ensures cell.counts == ZERO {
      var i :| 0 <= i < |ring| && StaleCells(ring, today)[i] == cell;
      assert ring[i] in ring;
    }
    SumCellsNone(StaleCells(ring, today));
    ScoreIsWindow(ring, log, today);
  }

  lemma {:induction false} SumDaysNone(log: seq<Event>, today: nat, m: nat)
    requires forall e :: e in log ==> DayOf(e.at) + m <= today
    ensures SumDays(log, today, m) == ZERO
  {
    if m > 0 {
      SumDaysNone(log, today, m - 1);
      if m - 1 <= today { SumOnNone(log, today - (m - 1)); }
    }
  }

  /**
   Cells are only rotated by later events of the same residue class: whatever the window, one
   settlement is still scored on every day after its own has left the window.
   */
  lemma StaleDaysStillCount(n: nat, at: nat, today: nat)
    requires n > 0 && DayOf(at) + n <= today
    ensures var log := [Event(at, Settled(true))];
            && SumDays(log, today, n) == ZERO
            && SumCells(RecordAll(EmptyRing(n), log)) == Settled(true)
  {
    var e := Event(at, Settled(true));
    var log, i := [e], DayBucketIndex(at, n);
    SumDaysNone(log, today, n);
    assert log[..|log| - 1] == [];
    assert RecordAll(EmptyRing(n), []) == EmptyRing(n);
    var ring := RecordAll(EmptyRing(n), log);
    assert ring == Record(EmptyRing(n), e);
    assert RotateIfStale(EmptyRing(n)[i], at, n) == DayBucket(ZERO, Some(StripToDay(at)));
    assert ring == EmptyRing(n)[i := DayBucket(Plus(ZERO, e.delta), Some(StripToDay(at)))];
    OneCell(ring, i, n);
  }

  lemma {:induction false} OneCell(ring: seq<DayBucket>, i: nat, m: nat)
    requires i < m <= |ring|
    requires forall k :: 0 <= k < |ring| && k != i ==> ring[k].counts == ZERO
    ensures SumCells(ring[..m]) == ring[i].counts
    ensures SumCells(ring[..|ring|]) == SumCells(ring)
  {
    assert ring[..|ring|] == ring;
    SumCellsSnoc(ring, m - 1);
    if m - 1 == i {
      SumCellsNone(ring[..i]);
      PlusCommutes(ZERO, ring[i].counts);
    } else {
      OneCell(ring, i, m - 1);
      PlusCommutes(ZERO, ring[i].counts);
    }
  }
}
