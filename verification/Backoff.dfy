/** The 64-bit arithmetic of the retry delays. Durations are nanoseconds. */
module Backoff {
  function Pow2(n: nat): (r: nat)
    ensures r >= 1
  {
    if n == 0 then 1 else 2 * Pow2(n - 1)
  }

  const TWO63 := 0x8000_0000_0000_0000
  const TWO64 := 0x1_0000_0000_0000_0000

  /** Two's-complement wrap-around to int64. */
  function Wrap64(x: int): (r: int)
    ensures -TWO63 <= r < TWO63
  {
    (x + TWO63) % TWO64 - TWO63
  }

  /** The shift `base << n` on int64. */
  function Shl64(base: int, n: nat): int { Wrap64(base * Pow2(n)) }

  function Min(a: int, b: int): int { if a < b then a else b }

  function Max(a: int, b: int): int { if a < b then b else a }

  /** The capped exponential delay of jitteredBackoff, before the jitter; attempts count from one. */
  function CappedDelay(base: int, max: int, attempt: int): int
    requires attempt >= 1
  {
    var d := Shl64(base, attempt - 1);
    if d <= 0 || d > max then max else d
  }

  /** Division by two as the program's integers do it, towards zero. */
  function Half(d: int): int { if d >= 0 then d / 2 else -(-d / 2) }

  /** jitteredBackoff with its random draw: the draw is below half + 1, which must be positive for the program's generator. */
  function JitteredBackoff(base: int, max: int, attempt: int, draw: nat): int
    requires attempt >= 1
    requires draw <= Half(CappedDelay(base, max, attempt))
  {
    Half(CappedDelay(base, max, attempt)) + draw
  }

  // -------------------------------------------------------------------------
  // Powers of two
  // -------------------------------------------------------------------------

  lemma {:induction false} Pow2Add(a: nat, b: nat)
    ensures Pow2(a + b) == Pow2(a) * Pow2(b)
    decreases a
  {
    if a > 0 {
      Pow2Add(a - 1, b);
      assert Pow2(a + b) == 2 * (Pow2(a - 1) * Pow2(b)) == Pow2(a) * Pow2(b);
    }
  }

  lemma Pow2At64()
    ensures Pow2(9) == 512 && Pow2(63) == TWO63 && Pow2(64) == TWO64
  {
    assert Pow2(9) == 512;
    assert Pow2(18) == 512 * 512 by { Pow2Add(9, 9); }
    assert Pow2(36) == Pow2(18) * Pow2(18) by { Pow2Add(18, 18); }
    assert Pow2(54) == Pow2(36) * Pow2(18) by { Pow2Add(36, 18); }
    assert Pow2(63) == Pow2(54) * Pow2(9) by { Pow2Add(54, 9); }
  }

  /** A value below 2^63 is not changed by the wrap. */
  lemma WrapSmall(x: int)
    requires -TWO63 <= x < TWO63
    ensures Wrap64(x) == x
  {
  }

  /** The wrap subtracts a multiple of 2^64. */
  lemma WrapMultiple(x: int) returns (q: int)
    ensures Wrap64(x) == x - q * TWO64
  {
    q := (x + TWO63) / TWO64;
  }

  lemma MulAssoc(a: int, b: int, c: int)
    ensures a * (b * c) == (a * b) * c
  {
  }

  lemma MulSub(a: int, b: int, c: int)
    ensures (a - b) * c == a * c - b * c
  {
  }

  lemma Positive(c: int, p: int)
    requires p >= 1 && c * p > 0
    ensures c * p >= p
  {
    assert c >= 1;
  }

  /** A wrapped multiple of 2^e is still a multiple of 2^e, so a positive one is at least 2^e. */
  lemma WrapKeepsLowBits(m: int, e: nat)
    requires e < 64
    ensures Wrap64(m * Pow2(e)) > 0 ==> Wrap64(m * Pow2(e)) >= Pow2(e)
  {
    var q := WrapMultiple(m * Pow2(e));
    Pow2Add(64 - e, e);
    Pow2At64();
    var p := Pow2(e);
    var c := m - q * Pow2(64 - e);
    assert q * TWO64 == (q * Pow2(64 - e)) * p by { assert TWO64 == Pow2(64 - e) * p; MulAssoc(q, Pow2(64 - e), p); }
    assert Wrap64(m * p) == c * p by { MulSub(m, q * Pow2(64 - e), p); }
    if c * p > 0 {
      Positive(c, p);
    }
  }

  lemma Pow2Wraps(e: nat, m: int)
    requires e >= 64
    ensures Wrap64(m * Pow2(e)) == 0
  {
    Pow2Add(64, e - 64);
    Pow2At64();
    var k := m * Pow2(e - 64);
    assert m * Pow2(e) == k * TWO64 by { MulAssoc(m, Pow2(e - 64), TWO64); }
    var q := WrapMultiple(k * TWO64);
    assert Wrap64(k * TWO64) == (k - q) * TWO64;
  }

  // -------------------------------------------------------------------------
  // The guard catches every wrap-around
  // -------------------------------------------------------------------------

  lemma Scale(m: int, a: int, b: int)
    requires m >= 1 && b >= 1
    ensures a * b <= m * b || a > m
    ensures b <= m * b
  {
  }

  lemma Larger(m: int, p: int, max: int)
    requires m >= 1 && m * p >= TWO63 > m * max
    ensures p > max
  {
    assert p <= max ==> m * p <= m * max;
  }

  /**
   * Write base as m * 2^z. When m * max < 2^63 the wrapping shift followed by the guard is the true
   * minimum of base * 2^(attempt-1) and max, for every attempt.
   */
  lemma GuardIsMin(m: int, z: nat, max: int, attempt: int)
    requires m >= 1 && max >= 1 && m * max < TWO63 && attempt >= 1
    ensures CappedDelay(m * Pow2(z), max, attempt) == Min(m * Pow2(z) * Pow2(attempt - 1), max)
  {
    var k := attempt - 1;
    var e := z + k;
    Pow2Add(z, k);
    MulAssoc(m, Pow2(z), Pow2(k));
    var x := m * Pow2(e);
    assert m * Pow2(z) * Pow2(k) == x;
    assert x >= 1 by { Scale(m, 1, Pow2(e)); }
    if x < TWO63 {
      WrapSmall(x);
    } else {
      assert max < TWO63 by { Scale(m, 1, max); }
      if e >= 64 {
        Pow2Wraps(e, m);
      } else {
        WrapKeepsLowBits(m, e);
        Larger(m, Pow2(e), max);
      }
    }
  }

  // -------------------------------------------------------------------------
  // Exactly when the guard is the minimum
  // -------------------------------------------------------------------------

  /** For one attempt: the shift does not overflow, or it wraps to something the guard replaces. */
  lemma GuardIsMinAt(base: int, max: int, attempt: int)
    requires base >= 1 && max < TWO63 && attempt >= 1
    ensures var x := base * Pow2(attempt - 1);
      CappedDelay(base, max, attempt) == Min(x, max) <==>
      x < TWO63 || Shl64(base, attempt - 1) <= 0 || Shl64(base, attempt - 1) >= max
  {
    var x := base * Pow2(attempt - 1);
    assert x >= 1 by { Scale(base, 1, Pow2(attempt - 1)); }
    if x < TWO63 {
      WrapSmall(x);
    }
  }

  /** The odd factor of a positive base, and the power of two it comes with. */
  function OddPart(b: nat): nat
    requires b >= 1
  {
    if b % 2 == 1 then b else OddPart(b / 2)
  }

  function Twos(b: nat): nat
    requires b >= 1
  {
    if b % 2 == 1 then 0 else 1 + Twos(b / 2)
  }

  lemma Double(a: int, b: int)
    ensures a * (2 * b) == 2 * (a * b)
  {
  }

  lemma {:induction false} OddTimesTwos(b: nat)
    requires b >= 1
    ensures b == OddPart(b) * Pow2(Twos(b)) && OddPart(b) % 2 == 1
  {
    if b % 2 == 0 {
      OddTimesTwos(b / 2);
      Double(OddPart(b / 2), Pow2(Twos(b / 2)));
    }
  }

  /** Bit `j` of m is zero and some higher bit is one. */
  predicate Gap(m: nat, j: nat) { Pow2(j + 1) <= m && (m / Pow2(j)) % 2 == 0 }

  /** The bits of m below bit `j`, moved to the top of the word under the sign bit. */
  function Below(m: nat, j: nat): nat
    requires j <= 63
  {
    (m % Pow2(j)) * Pow2(63 - j)
  }

  /** What stands below each zero bit of m is at least the cap once it is shifted to the top. */
  predicate GapsAreWide(m: nat, max: int) { forall j: nat :: 1 <= j <= 62 && Gap(m, j) ==> Below(m, j) >= max }

  lemma WrapOf(h: int, b: int, low: int)
    requires 0 <= b <= 1 && 0 <= low < TWO63
    ensures Wrap64((2 * h + b) * TWO63 + low) == low - b * TWO63
  {
  }

  lemma DivMod(m: nat, p: nat)
    requires p >= 1
    ensures m == (m / p) * p + m % p
  {
  }

  lemma TimesGrows(a: int, b: int, c: int)
    requires a <= b && c >= 0
    ensures a * c <= b * c
  {
    assert (b - a) * c >= 0;
  }

  lemma Distribute(q: int, p: int, r: int, e: int)
    requires e >= 1 && p >= 0
    ensures (q * p + r) * e == q * (p * e) + r * e
    ensures r >= 0 ==> p * e >= 0 && r * e >= 0
  {
    MulAssoc(q, p, e);
  }

  lemma SplitTimes(m: nat, q: nat, p: nat, r: nat, e: nat)
    requires m == q * p + r && r < p && e >= 1 && p * e == TWO63
    ensures m * e == q * TWO63 + r * e && 0 <= r * e < TWO63
  {
    Distribute(q, p, r, e);
    TimesGrows(r + 1, p, e);
    assert (r + 1) * e == r * e + e;
  }

  lemma SplitQuotient(m: nat, p: nat, e: nat)
    requires p >= 1 && e >= 1 && p * e == TWO63
    ensures m * e == (m / p) * TWO63 + (m % p) * e && 0 <= (m % p) * e < TWO63
  {
    DivMod(m, p);
    SplitTimes(m, m / p, p, m % p, e);
  }

  lemma HalvesOf63(j: nat)
    requires j <= 63
    ensures Pow2(j) * Pow2(63 - j) == TWO63
  {
    Pow2Add(j, 63 - j);
    Pow2At64();
  }

  lemma SplitAtBit(m: nat, j: nat)
    requires j <= 63
    ensures m * Pow2(63 - j) == (m / Pow2(j)) * TWO63 + Below(m, j)
    ensures Below(m, j) < TWO63
  {
    hide Pow2;
    HalvesOf63(j);
    SplitQuotient(m, Pow2(j), Pow2(63 - j));
  }

  /** Shifting bit j of m into the sign bit leaves the bits below it; the sign is bit j. */
  lemma WrapAtBit(m: nat, j: nat)
    requires j <= 63
    ensures Below(m, j) < TWO63
    ensures Wrap64(m * Pow2(63 - j)) == Below(m, j) - (if (m / Pow2(j)) % 2 == 1 then TWO63 else 0)
  {
    hide Wrap64, Below, Pow2;
    SplitAtBit(m, j);
    var q := m / Pow2(j);
    assert q == 2 * (q / 2) + q % 2;
    WrapOf(q / 2, q % 2, Below(m, j));
  }

  lemma {:induction false} Pow2Grows(a: nat, b: nat)
    requires a <= b
    ensures Pow2(a) <= Pow2(b)
    decreases b
  {
    if a < b {
      Pow2Grows(a, b - 1);
    }
  }

  lemma LessTimes(a: int, b: int, e: int)
    requires e >= 1
    ensures a * e < b * e <==> a < b
  {
    if a < b {
      assert (b - a) * e >= 1;
    } else {
      assert (a - b) * e >= 0;
    }
  }

  lemma QuotientAtLeast(m: nat, p: nat)
    requires p >= 1
    ensures m < p <==> m / p == 0
    ensures 2 * p <= m <==> m / p >= 2
  {
    DivMod(m, p);
    if m / p >= 2 {
      assert (m / p - 2) * p >= 0;
    } else if m / p == 1 {
      assert m == p + m % p;
    }
  }

  lemma OddRest(m: nat, h: nat)
    requires m % 2 == 1 && h >= 1
    ensures m % (2 * h) >= 1
  {
    DivMod(m, 2 * h);
    Double(m / (2 * h), h);
  }

  /** The bits of an odd number below any bit but the lowest are not all zero; its lowest bit is one. */
  lemma OddBelow(m: nat, j: nat)
    requires m % 2 == 1 && j <= 63
    ensures j >= 1 ==> Below(m, j) >= 1
    ensures j == 0 ==> m / Pow2(j) == m
  {
    if j >= 1 {
      OddRest(m, Pow2(j - 1));
      Scale(m % Pow2(j), 1, Pow2(63 - j));
    }
  }

  lemma GapAt(m: nat, j: nat)
    ensures Gap(m, j) <==> m / Pow2(j) >= 2 && (m / Pow2(j)) % 2 == 0
  {
    QuotientAtLeast(m, Pow2(j));
  }

  lemma FitsAt(m: nat, j: nat)
    requires j <= 63
    ensures m * Pow2(63 - j) < TWO63 <==> m / Pow2(j) == 0
  {
    hide Pow2;
    HalvesOf63(j);
    LessTimes(m, Pow2(j), Pow2(63 - j));
    QuotientAtLeast(m, Pow2(j));
  }

  /** For an odd m, shifted by 63 - j: exact unless bit j is a gap with less than the cap below it. */
  lemma ExactAtBit(m: nat, j: nat, max: int)
    requires m % 2 == 1 && j <= 63 && max < TWO63
    ensures var x, w := m * Pow2(63 - j), Wrap64(m * Pow2(63 - j));
      (x < TWO63 || w <= 0 || w >= max) <==> !(1 <= j && Gap(m, j) && Below(m, j) < max)
  {
    hide Wrap64, Pow2, Below, Gap;
    WrapAtBit(m, j);
    OddBelow(m, j);
    GapAt(m, j);
    FitsAt(m, j);
  }

  lemma ShiftOf(m: nat, z: nat, n: nat)
    ensures m * Pow2(z) * Pow2(n) == m * Pow2(z + n)
  {
    Pow2Add(z, n);
    MulAssoc(m, Pow2(z), Pow2(n));
  }

  lemma Pow2Below63(k: nat)
    requires Pow2(k) < TWO63
    ensures k < 63
  {
    if k >= 63 {
      Pow2Grows(63, k);
      Pow2At64();
    }
  }

  /** A gap of the odd part lies low enough for some shift of the base to bring it to the sign bit. */
  lemma GapFits(m: nat, z: nat, j: nat)
    requires m * Pow2(z) < TWO63 && Gap(m, j)
    ensures j + z + 1 < 63
  {
    hide Pow2;
    Pow2Add(j + 1, z);
    TimesGrows(Pow2(j + 1), m, Pow2(z));
    Pow2Below63(j + 1 + z);
  }

  lemma ExactWhenWide(m: nat, z: nat, max: int, attempt: int)
    requires m % 2 == 1 && m * Pow2(z) < TWO63 && max < TWO63 && attempt >= 1
    requires GapsAreWide(m, max)
    ensures CappedDelay(m * Pow2(z), max, attempt) == Min(m * Pow2(z) * Pow2(attempt - 1), max)
  {
    hide CappedDelay, Gap, Below;
    var n := attempt - 1;
    assert m * Pow2(z) >= 1 by { Scale(m, 1, Pow2(z)); }
    GuardIsMinAt(m * Pow2(z), max, attempt);
    ShiftOf(m, z, n);
    if z + n >= 64 {
      Pow2Wraps(z + n, m);
    } else if z + n <= 63 {
      var j := 63 - (z + n);
      ExactAtBit(m, j, max);
      if j <= 63 && Gap(m, j) {
        GapFits(m, z, j);
      }
    }
  }

  lemma WideWhenExact(m: nat, z: nat, max: int, j: nat)
    requires m % 2 == 1 && m * Pow2(z) < TWO63 && max < TWO63 && 1 <= j <= 62 && Gap(m, j)
    requires forall attempt :: attempt >= 1 ==>
      CappedDelay(m * Pow2(z), max, attempt) == Min(m * Pow2(z) * Pow2(attempt - 1), max)
    ensures Below(m, j) >= max
  {
    hide CappedDelay, Below;
    assert m * Pow2(z) >= 1 by { Scale(m, 1, Pow2(z)); }
    GapFits(m, z, j);
    hide Gap;
    var n := 63 - j - z;
    var attempt := n + 1;
    assert CappedDelay(m * Pow2(z), max, attempt) == Min(m * Pow2(z) * Pow2(attempt - 1), max);
    GuardIsMinAt(m * Pow2(z), max, attempt);
    ShiftOf(m, z, n);
    ExactAtBit(m, j, max);
  }

  /**
   * The exact condition. For a base the 64 bits hold, the wrapping shift followed by the guard is the true
   * minimum at every attempt if and only if no zero bit of the base's odd part has less than the cap below it.
   */
  lemma GuardIsExact(base: int, max: int)
    requires 1 <= base < TWO63 && max < TWO63
    ensures (forall attempt :: attempt >= 1 ==> CappedDelay(base, max, attempt) == Min(base * Pow2(attempt - 1), max))
       <==> GapsAreWide(OddPart(base), max)
  {
    hide CappedDelay, OddPart, Twos, Gap, Below, Wrap64, Pow2;
    var m, z := OddPart(base), Twos(base);
    OddTimesTwos(base);
    if GapsAreWide(m, max) {
      forall attempt | attempt >= 1
        ensures CappedDelay(base, max, attempt) == Min(base * Pow2(attempt - 1), max)
      {
        ExactWhenWide(m, z, max, attempt);
      }
    }
    if forall attempt :: attempt >= 1 ==> CappedDelay(base, max, attempt) == Min(base * Pow2(attempt - 1), max) {
      forall j: nat | 1 <= j <= 62 && Gap(m, j)
        ensures Below(m, j) >= max
      {
        WideWhenExact(m, z, max, j);
      }
    }
  }

  const DEFAULT_BASE := 200_000_000
  const DEFAULT_MAX := 2_000_000_000
  const RATE_LIMIT_BASE := 1_000_000_000
  const RATE_LIMIT_MAX := 30_000_000_000

  /** Both default schedules are exact for every attempt: 200ms = 390625 * 2^9 ns and 1s = 1953125 * 2^9 ns. */
  lemma DefaultsAreExact(attempt: int)
    requires attempt >= 1
    ensures CappedDelay(DEFAULT_BASE, DEFAULT_MAX, attempt) == Min(DEFAULT_BASE * Pow2(attempt - 1), DEFAULT_MAX)
    ensures CappedDelay(RATE_LIMIT_BASE, RATE_LIMIT_MAX, attempt) == Min(RATE_LIMIT_BASE * Pow2(attempt - 1), RATE_LIMIT_MAX)
  {
    Pow2At64();
    GuardIsMin(390_625, 9, DEFAULT_MAX, attempt);
    GuardIsMin(1_953_125, 9, RATE_LIMIT_MAX, attempt);
  }

  /** The guard is not exact for every pair WrapN accepts: 5 << 62 wraps to 2^62, under this cap. */
  lemma GuardCanMiss()
    ensures var max := 0x6000_0000_0000_0000;
      CappedDelay(5, max, 63) == 0x4000_0000_0000_0000 && Min(5 * Pow2(62), max) == max
  {
    Pow2At64();
    Pow2Add(62, 1);
    assert Pow2(62) == 0x4000_0000_0000_0000;
  }

  /** The jittered delay lies between the (floored) half of the capped delay and all of it. */
  lemma JitterBounds(base: int, max: int, attempt: int, draw: nat)
    requires attempt >= 1 && max >= -1
    requires draw <= Half(CappedDelay(base, max, attempt))
    ensures 0 <= Half(CappedDelay(base, max, attempt)) <= JitteredBackoff(base, max, attempt, draw)
    ensures if max >= 0 then JitteredBackoff(base, max, attempt, draw) <= CappedDelay(base, max, attempt) <= max
            else JitteredBackoff(base, max, attempt, draw) == 0
    ensures draw == 0 ==> JitteredBackoff(base, max, attempt, draw) == Half(CappedDelay(base, max, attempt))
    ensures draw == Half(CappedDelay(base, max, attempt)) ==> JitteredBackoff(base, max, attempt, draw) >= CappedDelay(base, max, attempt) - 1
  {
  }
}
