/** The score as it is really computed, in binary64 arithmetic.

    A rounding is any function to a nearest binary64 value (section 4.3.1 of IEEE 754-2019), with
    ties broken in any fixed way. Overflow is out of reach here and not represented. */
module FloatScores {
  import opened Prelude

  /** 2^53: significands are below it. */
  const SIGNIFICAND: int := 9007199254740992
  const MIN_EXPONENT: nat := 1074

  ghost predicate IsSignificand(m: int) {
    -SIGNIFICAND < m < SIGNIFICAND
  }

  /** m * 2^k, or m / 2^k down to the smallest subnormal. */
  ghost predicate Writes(y: real, m: int, k: nat) {
    IsSignificand(m) && ((k <= MIN_EXPONENT && y * Pow2(k) as real == m as real) || y == (m * Pow2(k)) as real)
  }

  ghost predicate Binary64(y: real) {
    exists m: int, k: nat :: Writes(y, m, k)
  }

  function Distance(x: real, y: real): real {
    if x >= y then x - y else y - x
  }

  ghost predicate Nearest(x: real, y: real) {
    Binary64(y) && forall z | Binary64(z) :: Distance(x, y) <= Distance(x, z)
  }

  ghost predicate IsRounding(fl: real -> real) {
    forall x :: Nearest(x, fl(x))
  }

  /** datetime.timestamp(): whole seconds plus the microseconds over 10^6, each step rounded. */
  function Timestamp(fl: real -> real, t: nat): real {
    fl((t / 1_000_000) as real + fl((t % 1_000_000) as real / 1_000_000.0))
  }

  function FloatScore(fl: real -> real, priority: int, t: nat): real {
    fl(priority as real - fl(Timestamp(fl, t) / 1_000_000_000_000.0))
  }

  // ---------------------------------------------------------------- rounding

  lemma RoundingIsMonotone(fl: real -> real, x: real, y: real)
    requires IsRounding(fl) && x <= y
    ensures fl(x) <= fl(y)
  {
  }

  lemma RoundingKeeps(fl: real -> real, y: real)
    requires IsRounding(fl) && Binary64(y)
    ensures fl(y) == y
  {
  }

  lemma HalvesAreBinary64(n: int)
    requires -1_000_000 <= n <= 1_000_000
    ensures Binary64(n as real) && Binary64(n as real + 0.5)
  {
    assert Pow2(0) == 1 && Pow2(1) == 2;
    assert Writes(n as real, n, 0);
    assert (n as real + 0.5) * 2.0 == (2 * n + 1) as real;
    assert Writes(n as real + 0.5, 2 * n + 1, 1);
  }

  lemma Scales(x: real, y: real, p: real)
    requires p > 0.0
    ensures Distance(x, y) * p == Distance(x * p, y * p)
  {
  }

  lemma ScaledOrder(x: real, y: real, p: real)
    requires p > 0.0 && x <= y
    ensures x * p <= y * p
  {
  }

  /** The nearest multiple of 2^-k. */
  lemma GridPoint(x: real, k: nat, p: real) returns (z: real)
    requires k <= MIN_EXPONENT && p == Pow2(k) as real
    requires 0.0 <= x && x * p <= (SIGNIFICAND - 1) as real
    ensures Binary64(z) && Distance(x * p, z * p) <= 0.5
  {
    var m := (x * p + 0.5).Floor;
    z := m as real / p;
    assert z * p == m as real;
    assert x * p >= 0.0;
    assert Writes(z, m, k);
  }

  lemma CloserThanTheGrid(x: real, y: real, z: real, p: real)
    requires p > 0.0 && Distance(x, y) <= Distance(x, z) && Distance(x * p, z * p) <= 0.5
    ensures Distance(x, y) * p <= 0.5
  {
    Scales(x, z, p);
    hide Distance;
    ScaledOrder(Distance(x, y), Distance(x, z), p);
  }

  lemma NearestIsClosest(fl: real -> real, x: real, z: real)
    requires IsRounding(fl) && Binary64(z)
    ensures Distance(x, fl(x)) <= Distance(x, z)
  {
  }

  /** Below 2^(53-k) the values are at most 2^-k apart, so rounding moves x by at most half that. */
  lemma RoundingError(fl: real -> real, x: real, k: nat, p: real)
    requires IsRounding(fl) && k <= MIN_EXPONENT && p == Pow2(k) as real
    requires 0.0 <= x && x * p <= (SIGNIFICAND - 1) as real
    ensures Distance(x, fl(x)) * p <= 0.5
  {
    hide *;
    var z := GridPoint(x, k, p);
    NearestIsClosest(fl, x, z);
    CloserThanTheGrid(x, fl(x), z, p);
  }

  // ---------------------------------------------------------------- timestamps

  lemma FractionIsSmall(fl: real -> real, us: nat)
    requires IsRounding(fl) && us < 1_000_000
    ensures 0.0 <= fl(us as real / 1_000_000.0) <= 1.0
  {
    hide IsRounding, Nearest, Binary64;
    HalvesAreBinary64(0);
    HalvesAreBinary64(1);
    RoundingKeeps(fl, 0.0);
    RoundingKeeps(fl, 1.0);
    RoundingIsMonotone(fl, 0.0, us as real / 1_000_000.0);
    RoundingIsMonotone(fl, us as real / 1_000_000.0, 1.0);
  }

  lemma TimestampIsMonotone(fl: real -> real, t: nat, u: nat)
    requires IsRounding(fl) && t <= u
    ensures 0.0 <= Timestamp(fl, t) <= Timestamp(fl, u)
  {
    hide IsRounding, Nearest, Binary64;
    var ts, us := t / 1_000_000, u / 1_000_000;
    var tf, uf := t % 1_000_000, u % 1_000_000;
    FractionIsSmall(fl, tf);
    FractionIsSmall(fl, uf);
    HalvesAreBinary64(0);
    RoundingKeeps(fl, 0.0);
    if ts == us {
      RoundingIsMonotone(fl, tf as real / 1_000_000.0, uf as real / 1_000_000.0);
    } else {
      assert ts + 1 <= us;
    }
    var a, b := ts as real + fl(tf as real / 1_000_000.0), us as real + fl(uf as real / 1_000_000.0);
    RoundingIsMonotone(fl, a, b);
    RoundingIsMonotone(fl, 0.0, a);
  }

  /** 5 * 10^11 seconds, some 15,000 years after the epoch. */
  const HORIZON: nat := 500_000_000_000_000_000

  lemma QuotientBound(fl: real -> real, t: nat)
    requires IsRounding(fl) && t <= HORIZON
    ensures 0.0 <= fl(Timestamp(fl, t) / 1_000_000_000_000.0) <= 0.5
  {
    hide IsRounding, Nearest, Binary64;
    TimestampIsMonotone(fl, t, HORIZON);
    HorizonIsExact(fl);
    var q := Timestamp(fl, t) / 1_000_000_000_000.0;
    HalvesAreBinary64(0);
    RoundingKeeps(fl, 0.0);
    RoundingKeeps(fl, 0.5);
    RoundingIsMonotone(fl, 0.0, q);
    RoundingIsMonotone(fl, q, 0.5);
  }

  lemma HorizonIsExact(fl: real -> real)
    requires IsRounding(fl)
    ensures Timestamp(fl, HORIZON) == 500_000_000_000.0
  {
    hide IsRounding, Nearest;
    assert Pow2(0) == 1;
    HalvesAreBinary64(0);
    RoundingKeeps(fl, 0.0);
    assert Writes(500_000_000_000.0, 500_000_000_000, 0);
    RoundingKeeps(fl, 500_000_000_000.0);
  }

  // ---------------------------------------------------------------- the order of scores

  /** Rounding never ties or inverts jobs of different priority: every score lies within half a
      point below its priority. */
  lemma PrioritiesStayApart(fl: real -> real, p: int, q: int, t: nat, u: nat)
    requires IsRounding(fl) && 0 <= q < p <= 1_000_000 && t <= HORIZON && u <= HORIZON
    ensures FloatScore(fl, p, t) > FloatScore(fl, q, u)
  {
    hide IsRounding, Nearest, Binary64;
    QuotientBound(fl, t);
    QuotientBound(fl, u);
    HalvesAreBinary64(q);
    var a := p as real - fl(Timestamp(fl, t) / 1_000_000_000_000.0);
    var b := q as real - fl(Timestamp(fl, u) / 1_000_000_000_000.0);
    assert p as real >= q as real + 1.0;
    RoundingKeeps(fl, q as real + 0.5);
    RoundingKeeps(fl, q as real);
    RoundingIsMonotone(fl, q as real + 0.5, a);
    RoundingIsMonotone(fl, b, q as real);
  }

  /** Rounding never inverts two submissions of the same priority. */
  lemma SubmissionOrderIsKept(fl: real -> real, p: int, t: nat, u: nat)
    requires IsRounding(fl) && t <= u
    ensures FloatScore(fl, p, t) >= FloatScore(fl, p, u)
  {
    hide IsRounding, Nearest, Binary64;
    TimestampIsMonotone(fl, t, u);
    var a, b := Timestamp(fl, t) / 1_000_000_000_000.0, Timestamp(fl, u) / 1_000_000_000_000.0;
    assert a <= b;
    RoundingIsMonotone(fl, a, b);
    RoundingIsMonotone(fl, p as real - fl(b), p as real - fl(a));
  }

  /** 10^11 seconds, some 3,000 years after the epoch, and the next representable spacing. */
  const MILLENNIA: nat := 100_000_000_000_000_000

  lemma {:induction false} PowersMultiply(a: nat, b: nat)
    ensures Pow2(a + b) == Pow2(a) * Pow2(b)
  {
    if a > 0 {
      PowersMultiply(a - 1, b);
    }
  }

  lemma PowersOfTwo()
    ensures Pow2(16) == 65536 && Pow2(48) == 281474976710656 && Pow2(56) == 72057594037927936
  {
    assert Pow2(4) == 16 by {
      assert Pow2(2) == 4;
    }
    PowersMultiply(4, 4);
    PowersMultiply(8, 8);
    PowersMultiply(8, 16);
    PowersMultiply(24, 24);
    PowersMultiply(8, 48);
  }

  /** Within these dates a timestamp is off by less than 10 microseconds. */
  lemma TimestampError(fl: real -> real, t: nat)
    requires IsRounding(fl) && t <= MILLENNIA
    ensures Distance(Timestamp(fl, t), t as real / 1_000_000.0) <= 0.00001
    ensures Timestamp(fl, t) <= 100_000_000_001.0
  {
    hide IsRounding, Nearest, Binary64, Pow2;
    PowersOfTwo();
    var sec, us := t / 1_000_000, t % 1_000_000;
    var f := us as real / 1_000_000.0;
    FractionIsSmall(fl, us);
    RoundingError(fl, f, 48, 281474976710656.0);
    var a := sec as real + fl(f);
    RoundingError(fl, a, 16, 65536.0);
    assert t as real == sec as real * 1_000_000.0 + us as real;
  }

  lemma QuotientError(fl: real -> real, t: nat)
    requires IsRounding(fl) && t <= MILLENNIA
    ensures var q := fl(Timestamp(fl, t) / 1_000_000_000_000.0);
      && 0.0 <= q <= 0.5
      && Distance(q, t as real / 1_000_000_000_000_000_000.0) <= 0.00000000000000003
  {
    hide IsRounding, Nearest, Binary64, Pow2;
    PowersOfTwo();
    TimestampError(fl, t);
    TimestampIsMonotone(fl, t, t);
    QuotientBound(fl, t);
    RoundingError(fl, Timestamp(fl, t) / 1_000_000_000_000.0, 56, 72057594037927936.0);
  }

  /** CRITICAL jobs submitted at least 4 ms apart always get strictly ordered scores. */
  lemma FourMillisecondsAreEnough(fl: real -> real, t: nat, u: nat)
    requires IsRounding(fl) && t + 4000 <= u <= MILLENNIA
    ensures FloatScore(fl, 20, t) > FloatScore(fl, 20, u)
  {
    hide IsRounding, Nearest, Binary64, Pow2;
    PowersOfTwo();
    QuotientError(fl, t);
    QuotientError(fl, u);
    var a := 20.0 - fl(Timestamp(fl, t) / 1_000_000_000_000.0);
    var b := 20.0 - fl(Timestamp(fl, u) / 1_000_000_000_000.0);
    RoundingError(fl, a, 48, 281474976710656.0);
    RoundingError(fl, b, 48, 281474976710656.0);
  }
}
