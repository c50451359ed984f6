/** The reconnect delay: a 64-bit shift that may wrap, a clamp, and jitter. */
module Backoff {
  import opened Numbers

  const TWO_63: int := 0x8000_0000_0000_0000
  const TWO_64: int := 0x1_0000_0000_0000_0000

  function Pow2(n: nat): (p: nat)
    ensures p > 0
  {
    if n == 0 then 1 else 2 * Pow2(n - 1)
  }

  /** The signed 64-bit value with the low bits of x. */
  function Wrap(x: nat): (r: int)
    ensures -TWO_63 <= r < TWO_63
    ensures x < TWO_63 ==> r == x
  {
    var low := x % TWO_64;
    if low < TWO_63 then low else low - TWO_64
  }

  /** base << attempt on an int64; counts of 64 and more shift everything out. */
  function ShiftLeft(base: nat, attempt: nat): int {
    if attempt >= 64 then 0 else Wrap(base * Pow2(attempt))
  }

  /** A configured window: positive, in range, base at most max. */
  predicate Window(base: nat, maxDelay: nat) {
    0 < base <= maxDelay < TWO_63
  }

  function Deterministic(base: nat, maxDelay: nat, attempt: nat): nat {
    var d := ShiftLeft(base, attempt);
    if d <= 0 || d > maxDelay then maxDelay else d
  }

  function Scaled(d: nat, jitter: real): int {
    (d as real * jitter).Floor
  }

  /** Jitter in [1/2, 1) of the deterministic part, then the two clamps. */
  function Jittered(base: nat, maxDelay: nat, deterministic: nat, draw: real): int {
    var out := Scaled(deterministic, 0.5 + draw * 0.5);
    var capped := if out > maxDelay then maxDelay else out;
    if capped < base / 2 then base / 2 else capped
  }

  /** The delay for a random draw in [0, 1). */
  function BackoffDelay(base: nat, maxDelay: nat, attempt: nat, draw: real): int {
    Jittered(base, maxDelay, Deterministic(base, maxDelay, attempt), draw)
  }

  /** What the delay is meant to be before jitter: doubling, capped. */
  function Intended(base: nat, maxDelay: nat, attempt: nat): nat {
    var exact := base * Pow2(attempt);
    if exact <= maxDelay then exact else maxDelay
  }

  // ---------- powers and wrapping ----------

  lemma {:induction false} Pow2Add(a: nat, b: nat)
    ensures Pow2(a + b) == Pow2(a) * Pow2(b)
  {
    if b > 0 {
      Pow2Add(a, b - 1);
      calc {
        Pow2(a + b);
        2 * Pow2(a + (b - 1));
        2 * (Pow2(a) * Pow2(b - 1));
        Pow2(a) * (2 * Pow2(b - 1));
      }
    }
  }

  lemma Pow2Of64()
    ensures Pow2(64) == TWO_64 && Pow2(63) == TWO_63
  {
    assert Pow2(8) == 256;
    Pow2Add(8, 8);
    Pow2Add(16, 16);
    Pow2Add(32, 31);
    assert Pow2(4) == 16;
    Pow2Add(16, 15);
    Pow2Add(8, 7);
    assert Pow2(7) == 128;
  }

  lemma {:induction false} Pow2Grows(a: nat, b: nat)
    requires a <= b
    ensures Pow2(a) <= Pow2(b)
  {
    if a < b {
      Pow2Grows(a, b - 1);
    }
  }

  lemma Pow2AtLeast(a: nat)
    requires a >= 63
    ensures Pow2(a) >= TWO_63
  {
    Pow2Of64();
    Pow2Grows(63, a);
  }

  /** Scaling by p commutes with reduction modulo p * q. */
  lemma ScaledMod(b: nat, p: nat, q: nat)
    requires p > 0 && q > 0 && p * q > 0
    ensures (b * p) % (p * q) == p * (b % q)
  {
    var d, r := b / q, b % q;
    var x, m := p * r, p * q;
    calc {
      b * p;
      (q * d + r) * p;
      (q * d) * p + r * p;
      m * d + x;
    }
    assert x < m by {
      MulLess(p, r, q);
    }
    Residue(b * p, m, d, x);
  }

  lemma MulLess(p: nat, r: nat, q: nat)
    requires p > 0 && r < q
    ensures p * r < p * q
  {
  }

  /** A positive shifted value is a multiple of the power shifted by, so at least that power. */
  lemma PositiveShiftIsLarge(base: nat, attempt: nat)
    requires ShiftLeft(base, attempt) > 0
    ensures ShiftLeft(base, attempt) >= Pow2(attempt)
  {
    var p, q := Pow2(attempt), Pow2(64 - attempt);
    Pow2Add(attempt, 64 - attempt);
    Pow2Of64();
    ScaledMod(base, p, q);
    var r := base % q;
    assert ShiftLeft(base, attempt) == p * r || ShiftLeft(base, attempt) == p * r - TWO_64;
    assert p * r < TWO_64;
    assert r == 0 ==> p * r == 0;
    if r > 0 {
      MulAtLeast(p, r);
    }
  }

  lemma MulAtLeast(p: nat, r: nat)
    requires r >= 1
    ensures p * r >= p
  {
  }

  /** A product that fits is not wrapped, whatever the attempt. */
  lemma ShiftFits(base: nat, attempt: nat)
    requires base > 0 && base * Pow2(attempt) < TWO_63
    ensures ShiftLeft(base, attempt) == base * Pow2(attempt)
  {
    MulAtLeast(Pow2(attempt), base);
    if attempt >= 63 {
      Pow2AtLeast(attempt);
    }
  }

  // ---------- the delay ----------

  /**
   The code computes the intended doubling exactly when the product fits or its wrapped value
   is caught by the guard, that is, unless it wraps to a positive number below the cap.
   */
  lemma WrapExact(base: nat, maxDelay: nat, attempt: nat)
    requires Window(base, maxDelay)
    ensures Deterministic(base, maxDelay, attempt) == Intended(base, maxDelay, attempt)
            <==> (base * Pow2(attempt) < TWO_63 || !(0 < ShiftLeft(base, attempt) < maxDelay))
  {
    if base * Pow2(attempt) < TWO_63 {
      ShiftFits(base, attempt);
      MulAtLeast(base, Pow2(attempt));
    }
  }

  /** When base * max fits in an int64 the wrapped shift and clamp is capped doubling, at every attempt. */
  lemma DoublesUpToMax(base: nat, maxDelay: nat, attempt: nat)
    requires Window(base, maxDelay) && base * maxDelay < TWO_63
    ensures Deterministic(base, maxDelay, attempt) == Intended(base, maxDelay, attempt)
  {
    if base * Pow2(attempt) >= TWO_63 && ShiftLeft(base, attempt) > 0 {
      PositiveShiftIsLarge(base, attempt);
      assert Pow2(attempt) > maxDelay by {
        if Pow2(attempt) <= maxDelay {
          MulMonotone(base, Pow2(attempt), maxDelay);
        }
      }
    }
    WrapExact(base, maxDelay, attempt);
  }

  lemma MulMonotone(b: nat, x: nat, y: nat)
    requires x <= y
    ensures b * x <= b * y
  {
  }

  /** So the delay before jitter never shrinks as attempts go on. */
  lemma Monotone(base: nat, maxDelay: nat, a: nat, b: nat)
    requires Window(base, maxDelay) && base * maxDelay < TWO_63 && a <= b
    ensures Deterministic(base, maxDelay, a) <= Deterministic(base, maxDelay, b)
  {
    DoublesUpToMax(base, maxDelay, a);
    DoublesUpToMax(base, maxDelay, b);
    Pow2Grows(a, b);
    MulMonotone(base, Pow2(a), Pow2(b));
  }

  /** Without the product condition the delay still stays within [base/2, max]. */
  lemma DelayBounds(base: nat, maxDelay: nat, attempt: nat, draw: real)
    requires Window(base, maxDelay) && 0.0 <= draw < 1.0
    ensures base / 2 <= BackoffDelay(base, maxDelay, attempt, draw) <= maxDelay
  {
  }

  /** The documented bound, exactly: no draw comes out below the base if and only if the delay before jitter is twice it. */
  lemma BaseBoundExactly(base: nat, maxDelay: nat, attempt: nat)
    requires Window(base, maxDelay)
    ensures (forall draw: real :: 0.0 <= draw < 1.0 ==> BackoffDelay(base, maxDelay, attempt, draw) >= base)
            <==> Deterministic(base, maxDelay, attempt) >= 2 * base
  {
    var d := Deterministic(base, maxDelay, attempt);
    if d >= 2 * base {
      forall draw: real | 0.0 <= draw < 1.0 ensures BackoffDelay(base, maxDelay, attempt, draw) >= base {
        ScaledBounds(d, 0.5 + draw * 0.5);
      }
    } else {
      HalfFloor(d);
      assert BackoffDelay(base, maxDelay, attempt, 0.0) < base;
    }
  }

  lemma HalfFloor(d: nat)
    ensures Scaled(d, 0.5 + 0.0 * 0.5) == d / 2
  {
    var h := d / 2;
    assert d == 2 * h || d == 2 * h + 1;
  }

  /** With the product condition that is from the second attempt on, and only for a cap of at least twice the base. */
  lemma BaseBoundFromSecondAttempt(base: nat, maxDelay: nat, attempt: nat)
    requires Window(base, maxDelay) && base * maxDelay < TWO_63
    ensures (forall draw: real :: 0.0 <= draw < 1.0 ==> BackoffDelay(base, maxDelay, attempt, draw) >= base)
            <==> attempt > 0 && 2 * base <= maxDelay
  {
    BaseBoundExactly(base, maxDelay, attempt);
    DoublesUpToMax(base, maxDelay, attempt);
    if attempt > 0 {
      assert Pow2(1) == 2 * Pow2(0) == 2;
      Pow2Grows(1, attempt);
      MulMonotone(base, 2, Pow2(attempt));
    } else {
      assert Pow2(0) == 1;
    }
  }

  /** The first delay is below the base whatever the draw. */
  lemma FirstDelayBelowBase(base: nat, maxDelay: nat, draw: real)
    requires Window(base, maxDelay) && 0.0 <= draw < 1.0
    ensures BackoffDelay(base, maxDelay, 0, draw) < base
  {
    assert base * Pow2(0) == base;
    ShiftFits(base, 0);
    assert Deterministic(base, maxDelay, 0) == base;
    BelowWhole(base, 0.5 + draw * 0.5);
  }

  lemma BelowWhole(d: nat, jitter: real)
    requires d > 0 && jitter < 1.0
    ensures Scaled(d, jitter) < d
  {
    var r := d as real;
    var x := r * jitter;
    StrictProduct(r, 1.0 - jitter);
    assert r * (1.0 - jitter) == r - x;
    assert x.Floor as real <= x;
  }

  lemma StrictProduct(a: real, b: real)
    requires a > 0.0 && b > 0.0
    ensures a * b > 0.0
  {
  }

  /** With it, the jitter takes at most half of the intended delay away. */
  lemma JitterBounds(base: nat, maxDelay: nat, attempt: nat, draw: real)
    requires Window(base, maxDelay) && base * maxDelay < TWO_63 && 0.0 <= draw < 1.0
    ensures var d := Intended(base, maxDelay, attempt);
            d / 2 <= BackoffDelay(base, maxDelay, attempt, draw) <= d
  {
    DoublesUpToMax(base, maxDelay, attempt);
    MulAtLeast(base, Pow2(attempt));
    JitteredBounds(base, maxDelay, Intended(base, maxDelay, attempt), draw);
  }

  lemma JitteredBounds(base: nat, maxDelay: nat, d: nat, draw: real)
    requires base <= d <= maxDelay && 0.0 <= draw < 1.0
    ensures d / 2 <= Jittered(base, maxDelay, d, draw) <= d
  {
    ScaledBounds(d, 0.5 + draw * 0.5);
    assert base / 2 <= d / 2;
  }

  lemma ScaledBounds(d: nat, jitter: real)
    requires 0.5 <= jitter < 1.0
    ensures d / 2 <= Scaled(d, jitter) <= d
  {
    var r := d as real;
    var x := r * jitter;
    RealScale(r, jitter, x);
    FloorBounds(d, x);
  }

  lemma FloorBounds(d: nat, x: real)
    requires d as real * 0.5 <= x <= d as real
    ensures d / 2 <= x.Floor <= d
  {
    var h := d / 2;
    assert d == 2 * h || d == 2 * h + 1;
    assert h as real <= x;
  }

  lemma RealScale(d: real, jitter: real, x: real)
    requires 0.5 <= jitter < 1.0 && d >= 0.0 && x == d * jitter
    ensures d * 0.5 <= x <= d
  {
    var above, below := jitter - 0.5, 1.0 - jitter;
    RealProduct(d, above);
    RealProduct(d, below);
    assert d * above == x - d * 0.5;
    assert d * below == d - x;
  }

  lemma RealProduct(a: real, b: real)
    requires a >= 0.0 && b >= 0.0
    ensures a * b >= 0.0
  {
  }

  /** So the clamps after the jitter never bite: the delay is the intended one times (1 + draw) / 2, rounded down. */
  lemma DelayExactly(base: nat, maxDelay: nat, attempt: nat, draw: real)
    requires Window(base, maxDelay) && base * maxDelay < TWO_63 && 0.0 <= draw < 1.0
    ensures BackoffDelay(base, maxDelay, attempt, draw)
            == (Intended(base, maxDelay, attempt) as real * ((1.0 + draw) / 2.0)).Floor
  {
    var d := Intended(base, maxDelay, attempt);
    DoublesUpToMax(base, maxDelay, attempt);
    MulAtLeast(base, Pow2(attempt));
    ScaledBounds(d, 0.5 + draw * 0.5);
    assert 0.5 + draw * 0.5 == (1.0 + draw) / 2.0;
    assert base / 2 <= d / 2;
  }

  /** A wrap the guard misses: 5 shifted by 62 comes out as 2^62, below a cap of 2^63 - 1. */
  lemma MissedWrap()
    ensures Window(5, TWO_63 - 1)
    ensures Deterministic(5, TWO_63 - 1, 62) == 0x4000_0000_0000_0000
    ensures Intended(5, TWO_63 - 1, 62) == TWO_63 - 1
  {
    Pow2Of64();
    assert Pow2(63) == 2 * Pow2(62);
    assert Pow2(62) == 0x4000_0000_0000_0000;
  }
}
