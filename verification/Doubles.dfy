/** IEEE 754 double precision over exact reals: what `strtod` makes of a decimal.

    A finite double is an integer below 2^53 times a power of two between 2^-1074 and 2^971. Magnitudes are
    handled in units of 2^-1074, so that every power of two is an integer: a magnitude is rounded to a multiple
    of the least power of two at which it takes no more than 53 binary digits, ties going to the even multiple. */
module Doubles {
  const TINIEST := 1074
  const DIGITS := 53
  const MAX_SHIFT := 2045

  function Pow(b: nat, n: nat): (r: nat)
    requires b > 0
    ensures r > 0
  {
    if n == 0 then 1 else b * Pow(b, n - 1)
  }

  function Two(n: nat): (r: real)
    ensures r > 0.0
  {
    Pow(2, n) as real
  }

  /** `n` times 2^k */
  function Times(n: int, k: nat): real {
    n as real * Two(k)
  }

  function Over(y: real, k: nat): real {
    y / Two(k)
  }

  function Abs(x: real): real {
    if x < 0.0 then -x else x
  }

  /** Decimals below this magnitude round to a finite double, all others overflow. */
  function DoubleLimit(): real {
    Two(1024) - Two(970)
  }

  predicate FiniteDouble(x: real) {
    -DoubleLimit() < x < DoubleLimit()
  }

  // ---- rounding ----

  function Units(x: real): real {
    x * Two(TINIEST)
  }

  function FromUnits(y: real): real {
    y / Two(TINIEST)
  }

  /** The least shift, from `k` on, at which `y` takes at most 53 digits. */
  function Shift(y: real, k: nat): nat
    requires k <= MAX_SHIFT
    decreases MAX_SHIFT - k
  {
    if k == MAX_SHIFT || y < Two(DIGITS + k) then k else Shift(y, k + 1)
  }

  /** To the nearest integer, ties to even. */
  function NearestEven(y: real): int {
    var k := y.Floor;
    var rest := y - k as real;
    if rest < 0.5 || (rest == 0.5 && k % 2 == 0) then k else k + 1
  }

  /** To the nearest multiple of 2^k. */
  function RoundAt(y: real, k: nat): real {
    Times(NearestEven(Over(y, k)), k)
  }

  function RoundUnits(y: real): real {
    RoundAt(y, Shift(y, 0))
  }

  function RoundMagnitude(x: real): real {
    FromUnits(RoundUnits(Units(x)))
  }

  function Round(x: real): real {
    if x < 0.0 then -RoundMagnitude(Abs(x)) else RoundMagnitude(Abs(x))
  }

  // ---- the doubles ----

  predicate InDigits(m: nat, k: nat) {
    m < Pow(2, DIGITS) && k <= MAX_SHIFT
  }

  ghost predicate DoubleUnits(y: real) {
    exists m: nat, k: nat :: InDigits(m, k) && y == Times(m, k)
  }

  ghost predicate IsDouble(x: real) {
    DoubleUnits(Units(Abs(x)))
  }

  // ---- arithmetic ----

  lemma {:induction false} Cancel(a: real, q: real)
    requires q > 0.0
    ensures a * q / q == a && a / q * q == a
  {
  }

  lemma {:induction false} Scaled(a: real, b: real, c: real)
    requires c > 0.0
    ensures a < b <==> a * c < b * c
  {
    if a < b {
    } else {
      assert (a - b) * c >= 0.0;
    }
  }

  lemma {:induction false} Distribute(a: real, b: real, c: real)
    ensures (a - b) * c == a * c - b * c
  {
  }

  lemma {:induction false} AbsScaled(a: real, u: real)
    requires u > 0.0
    ensures Abs(a * u) == Abs(a) * u
  {
  }

  lemma {:induction false} PowMonotone(b: nat, m: nat, n: nat)
    requires b > 1 && m <= n
    ensures Pow(b, m) <= Pow(b, n)
    decreases n
  {
    if m < n {
      PowMonotone(b, m, n - 1);
    }
  }

  lemma {:induction false} PowAdd(b: nat, m: nat, n: nat)
    requires b > 0
    ensures Pow(b, m + n) == Pow(b, m) * Pow(b, n)
  {
    if m > 0 {
      PowAdd(b, m - 1, n);
    }
  }

  lemma {:induction false} TwoMonotone(m: nat, n: nat)
    requires m <= n
    ensures Two(m) <= Two(n)
  {
    PowMonotone(2, m, n);
  }

  lemma {:induction false} TwoTimes(p: nat, k: nat)
    ensures Times(Pow(2, p), k) == Two(p + k)
  {
    PowAdd(2, p, k);
  }

  lemma {:induction false} TimesOver(n: int, k: nat)
    ensures Over(Times(n, k), k) == n as real
  {
    hide Two;
    Cancel(n as real, Two(k));
  }

  lemma {:induction false} TimesOrder(m: int, n: int, k: nat)
    ensures m < n <==> Times(m, k) < Times(n, k)
    ensures m <= n <==> Times(m, k) <= Times(n, k)
  {
    hide Two;
    Scaled(m as real, n as real, Two(k));
    Scaled(n as real, m as real, Two(k));
  }

  lemma {:induction false} OverLess(y: real, a: real, k: nat)
    ensures y < a * Two(k) <==> Over(y, k) < a
  {
    hide Two;
    Cancel(y, Two(k));
    Scaled(Over(y, k), a, Two(k));
  }

  lemma {:induction false} OverOrder(y: real, n: int, k: nat)
    ensures y < Times(n, k) <==> Over(y, k) < n as real
  {
    hide Two;
    OverLess(y, n as real, k);
  }

  /** A multiple of a power of two is one of every smaller. */
  lemma {:induction false} Multiple(m: nat, k: nat, s: nat)
    requires s <= k
    ensures Times(m, k) == Times(m * Pow(2, k - s), s)
  {
    PowAdd(2, k - s, s);
    hide Pow;
    Reassociate(m, Pow(2, k - s), Two(s));
  }

  lemma {:induction false} Reassociate(m: nat, p: nat, q: real)
    ensures m as real * (p as real * q) == (m * p) as real * q
  {
  }

  lemma {:induction false} UnitsInverse(x: real)
    ensures FromUnits(Units(x)) == x && Units(FromUnits(x)) == x
  {
    hide Two;
    Cancel(x, Two(TINIEST));
  }

  lemma {:induction false} UnitsOrder(x: real, z: real)
    ensures x < z <==> Units(x) < Units(z)
  {
    hide Two;
    Scaled(x, z, Two(TINIEST));
  }

  lemma {:induction false} UnitsTwo(p: nat)
    ensures Units(Two(p)) == Two(p + TINIEST)
  {
    hide Pow;
    TwoTimes(p, TINIEST);
  }

  lemma {:induction false} UnitsDistance(x: real, z: real)
    ensures Abs(Units(x) - Units(z)) == Units(Abs(x - z))
  {
    hide Two;
    Distribute(x, z, Two(TINIEST));
    AbsScaled(x - z, Two(TINIEST));
  }

  // ---- the nearest integer and the shift ----

  lemma {:induction false} NearestExact(n: int)
    ensures NearestEven(n as real) == n
  {
  }

  lemma {:induction false} NearestIs(y: real, m: int)
    ensures Abs(y - NearestEven(y) as real) <= Abs(y - m as real)
  {
    var k := y.Floor;
    assert k as real <= y < k as real + 1.0;
    if m <= k {
      assert m as real <= k as real;
    } else {
      assert m as real >= k as real + 1.0;
    }
  }

  lemma {:induction false} NearestBounds(y: real, p: int)
    ensures y >= p as real ==> NearestEven(y) >= p
    ensures y <= p as real ==> NearestEven(y) <= p
  {
  }

  /** Half-way below an even number goes up to it. */
  lemma {:induction false} NearestHalf(y: real, p: int)
    requires p % 2 == 0
    ensures y < p as real - 0.5 <==> NearestEven(y) < p
  {
  }

  lemma {:induction false} ShiftIs(y: real, k: nat)
    requires k <= MAX_SHIFT
    ensures k <= Shift(y, k) <= MAX_SHIFT
    ensures Shift(y, k) < MAX_SHIFT ==> y < Two(DIGITS + Shift(y, k))
    ensures Shift(y, k) > k ==> Two(DIGITS + Shift(y, k) - 1) <= y
    decreases MAX_SHIFT - k
  {
    hide Two;
    if k < MAX_SHIFT && y >= Two(DIGITS + k) {
      ShiftIs(y, k + 1);
    }
  }

  lemma {:induction false} BelowTop(m: nat, k: nat)
    requires m < Pow(2, DIGITS)
    ensures Times(m, k) < Two(DIGITS + k)
  {
    hide Pow, Two, Times;
    TwoTimes(DIGITS, k);
    TimesOrder(m, Pow(2, DIGITS), k);
  }

  // ---- doubles round to themselves ----

  lemma {:induction false} ShiftFits(m: nat, k: nat)
    requires InDigits(m, k)
    ensures Shift(Times(m, k), 0) <= k
  {
    hide Two, Shift, Times, Pow;
    var s := Shift(Times(m, k), 0);
    BelowTop(m, k);
    ShiftIs(Times(m, k), 0);
    if s > k {
      TwoMonotone(DIGITS + k, DIGITS + s - 1);
    }
  }

  lemma {:induction false} UnitsExact(y: real)
    requires DoubleUnits(y)
    ensures RoundUnits(y) == y
  {
    hide Shift, Times, Over, NearestEven;
    var m: nat, k: nat :| InDigits(m, k) && y == Times(m, k);
    var s := Shift(y, 0);
    ShiftFits(m, k);
    Multiple(m, k, s);
    TimesOver(m * Pow(2, k - s), s);
    NearestExact(m * Pow(2, k - s));
  }

  /** A double rounds to itself. */
  lemma {:induction false} RoundsToItself(x: real)
    requires IsDouble(x)
    ensures Round(x) == x
  {
    hide Units, FromUnits, RoundUnits, DoubleUnits;
    UnitsExact(Units(Abs(x)));
    UnitsInverse(Abs(x));
  }

  /** Integers below 2^53 are doubles. */
  lemma {:induction false} IntegerIsDouble(n: int)
    requires n < Pow(2, DIGITS) && -n < Pow(2, DIGITS)
    ensures IsDouble(n as real)
  {
    hide Pow;
    var m: nat := if n < 0 then -n else n;
    assert InDigits(m, TINIEST) && Units(Abs(n as real)) == Times(m, TINIEST);
  }

  // ---- a decimal in range rounds to a double, any other overflows ----

  lemma {:induction false} RoundedPositive(y: real, k: nat)
    requires y >= 0.0
    ensures NearestEven(Over(y, k)) >= 0 && RoundAt(y, k) >= 0.0
  {
    hide NearestEven;
    assert Over(y, k) >= 0.0;
    NearestBounds(Over(y, k), 0);
  }

  lemma {:induction false} Carries(k: nat)
    requires k < MAX_SHIFT
    ensures DoubleUnits(Times(Pow(2, DIGITS), k))
  {
    hide Times, Pow;
    var half := Pow(2, DIGITS - 1);
    PowNext(DIGITS - 1);
    TwoTimes(DIGITS, k);
    TwoTimes(DIGITS - 1, k + 1);
    assert DIGITS + k == (DIGITS - 1) + (k + 1);
    assert InDigits(half, k + 1);
  }

  /** In units of 2^-1074, the least magnitude that overflows. */
  function LimitUnits(): real {
    Two(DIGITS + MAX_SHIFT) - Two(MAX_SHIFT - 1)
  }

  lemma {:induction false} PowNext(n: nat)
    ensures Pow(2, n + 1) == 2 * Pow(2, n) && Two(n + 1) == 2.0 * Two(n)
  {
  }

  lemma {:induction false} EvenPower()
    ensures Pow(2, DIGITS) % 2 == 0
  {
    hide Pow;
    PowNext(DIGITS - 1);
  }

  lemma {:induction false} LimitOver(y: real)
    ensures y < LimitUnits() <==> Over(y, MAX_SHIFT) < Pow(2, DIGITS) as real - 0.5
  {
    hide Two, Pow, Over;
    var a := Pow(2, DIGITS) as real - 0.5;
    PowNext(MAX_SHIFT - 1);
    assert MAX_SHIFT - 1 + 1 == MAX_SHIFT;
    TwoTimes(DIGITS, MAX_SHIFT);
    Distribute(Pow(2, DIGITS) as real, 0.5, Two(MAX_SHIFT));
    assert LimitUnits() == a * Two(MAX_SHIFT);
    OverLess(y, a, MAX_SHIFT);
  }

  lemma {:induction false} LimitShift(y: real)
    requires y >= LimitUnits()
    ensures Shift(y, 0) == MAX_SHIFT
  {
    hide Two, Shift, LimitUnits;
    LimitAbove();
    ShiftIs(y, 0);
    if Shift(y, 0) < MAX_SHIFT {
      TwoMonotone(DIGITS + Shift(y, 0), DIGITS + MAX_SHIFT - 1);
    }
  }

  lemma {:induction false} LimitAbove()
    ensures LimitUnits() >= Two(DIGITS + MAX_SHIFT - 1)
  {
    hide Two;
    PowNext(DIGITS + MAX_SHIFT - 1);
    TwoMonotone(MAX_SHIFT - 1, DIGITS + MAX_SHIFT - 1);
  }

  lemma {:induction false} UnitsRounded(y: real)
    requires 0.0 <= y
    ensures if y < LimitUnits() then DoubleUnits(RoundUnits(y)) else RoundUnits(y) >= Two(DIGITS + MAX_SHIFT)
  {
    hide Two, Shift, NearestEven, DoubleUnits, Pow, Times, Over, LimitUnits;
    var s, p := Shift(y, 0), Pow(2, DIGITS);
    var n := NearestEven(Over(y, s));
    ShiftIs(y, 0);
    RoundedPositive(y, s);
    TwoTimes(DIGITS, s);
    EvenPower();
    LimitOver(y);
    NearestHalf(Over(y, s), p);
    if y >= LimitUnits() {
      LimitShift(y);
      TimesOrder(p, n, s);
    } else {
      if s < MAX_SHIFT {
        OverOrder(y, p, s);
        NearestBounds(Over(y, s), p);
      }
      if n == p {
        Carries(s);
      } else {
        OfDigits(n, s);
      }
    }
  }

  lemma {:induction false} OfDigits(m: nat, k: nat)
    requires InDigits(m, k)
    ensures DoubleUnits(Times(m, k))
  {
  }

  lemma {:induction false} MagnitudePositive(x: real)
    requires x >= 0.0
    ensures Units(x) >= 0.0 && RoundMagnitude(x) >= 0.0
  {
    hide Shift, RoundAt;
    RoundedPositive(Units(x), Shift(Units(x), 0));
  }

  lemma {:induction false} LimitIs()
    ensures Units(DoubleLimit()) == LimitUnits()
  {
    hide Two;
    UnitsTwo(1024);
    UnitsTwo(970);
    assert 1024 + TINIEST == DIGITS + MAX_SHIFT && 970 + TINIEST == MAX_SHIFT - 1;
    Distribute(Two(1024), Two(970), Two(TINIEST));
  }

  lemma {:induction false} MagnitudeRounded(x: real)
    requires x >= 0.0
    ensures if x < DoubleLimit() then DoubleUnits(Units(RoundMagnitude(x)))
            else Units(RoundMagnitude(x)) >= Two(DIGITS + MAX_SHIFT)
  {
    MagnitudePositive(x);
    hide Two, DoubleLimit, LimitUnits, RoundUnits, DoubleUnits, Units, FromUnits;
    LimitIs();
    UnitsOrder(x, DoubleLimit());
    UnitsRounded(Units(x));
    UnitsInverse(RoundUnits(Units(x)));
  }

  /** A decimal in range rounds to a double. */
  lemma {:induction false} RoundIsDouble(x: real)
    requires FiniteDouble(x)
    ensures IsDouble(Round(x))
  {
    hide Two, DoubleLimit, RoundMagnitude, DoubleUnits, Units;
    MagnitudeRounded(Abs(x));
    RoundMagnitudeOnly(x);
  }

  lemma {:induction false} RoundMagnitudeOnly(x: real)
    ensures Abs(Round(x)) == RoundMagnitude(Abs(x))
  {
    hide RoundMagnitude;
    MagnitudePositive(Abs(x));
  }

  lemma {:induction false} UnitsBelow(y: real)
    requires DoubleUnits(y)
    ensures y < Two(DIGITS + MAX_SHIFT)
  {
    hide Two, Times;
    var m: nat, k: nat :| InDigits(m, k) && y == Times(m, k);
    BelowTop(m, k);
    TwoMonotone(DIGITS + k, DIGITS + MAX_SHIFT);
  }

  /** A decimal is in range exactly when what it rounds to is below 2^1024. */
  lemma {:induction false} FiniteExactly(x: real)
    ensures FiniteDouble(x) <==> Abs(Round(x)) < Two(1024)
  {
    TopIs();
    hide Two, DoubleLimit, RoundMagnitude, DoubleUnits, Units;
    MagnitudeRounded(Abs(x));
    RoundMagnitudeOnly(x);
    UnitsOrder(RoundMagnitude(Abs(x)), Two(1024));
    if Abs(x) < DoubleLimit() {
      UnitsBelow(Units(RoundMagnitude(Abs(x))));
    }
  }

  lemma {:induction false} TopIs()
    ensures Units(Two(1024)) == Two(DIGITS + MAX_SHIFT)
  {
    hide Two, Units;
    UnitsTwo(1024);
    assert 1024 + TINIEST == DIGITS + MAX_SHIFT;
  }

  // ---- rounding goes to the nearest double ----

  lemma {:induction false} OverDistance(y: real, n: int, k: nat)
    ensures Abs(y - Times(n, k)) == Abs(Over(y, k) - n as real) * Two(k)
  {
    hide Two;
    Cancel(y, Two(k));
    Distribute(Over(y, k), n as real, Two(k));
    AbsScaled(Over(y, k) - n as real, Two(k));
  }

  lemma {:induction false} NearestAt(y: real, k: nat, m: int)
    ensures Abs(y - RoundAt(y, k)) <= Abs(y - Times(m, k))
  {
    hide NearestEven, Two, Over, Times, Abs;
    var n := NearestEven(Over(y, k));
    NearestIs(Over(y, k), m);
    OverDistance(y, n, k);
    OverDistance(y, m, k);
    Scaled(Abs(Over(y, k) - m as real), Abs(Over(y, k) - n as real), Two(k));
  }

  /** With a finer last digit than `y` needs, a double lies below the power of two that `y` has reached. */
  lemma {:induction false} FinerIsBelow(m: nat, k: nat, s: nat)
    requires InDigits(m, k) && k < s
    ensures Times(m, k) < Times(Pow(2, DIGITS - 1), s) == Two(DIGITS + s - 1)
  {
    hide Pow, Two, Times;
    BelowTop(m, k);
    TwoTimes(DIGITS - 1, s);
    assert (DIGITS - 1) + s == DIGITS + s - 1;
    TwoMonotone(DIGITS + k, DIGITS + s - 1);
  }

  lemma {:induction false} NearestUnits(y: real, d: real)
    requires DoubleUnits(d)
    ensures Abs(y - RoundUnits(y)) <= Abs(y - d)
  {
    hide Two, Shift, RoundAt, Times, Pow;
    var m: nat, k: nat :| InDigits(m, k) && d == Times(m, k);
    var s := Shift(y, 0);
    ShiftIs(y, 0);
    if s <= k {
      Multiple(m, k, s);
      NearestAt(y, s, m * Pow(2, k - s));
    } else {
      FinerIsBelow(m, k, s);
      NearestAt(y, s, Pow(2, DIGITS - 1));
    }
  }

  lemma {:induction false} NearestMagnitude(x: real, d: real)
    requires DoubleUnits(Units(d))
    ensures Abs(x - RoundMagnitude(x)) <= Abs(x - d)
  {
    hide Units, FromUnits, RoundUnits, DoubleUnits;
    var r := RoundMagnitude(x);
    NearestUnits(Units(x), Units(d));
    UnitsInverse(RoundUnits(Units(x)));
    UnitsDistance(x, r);
    UnitsDistance(x, d);
    UnitsOrder(Abs(x - d), Abs(x - r));
  }

  /** No double is nearer. */
  lemma {:induction false} RoundIsNearest(x: real, d: real)
    requires IsDouble(d)
    ensures Abs(x - Round(x)) <= Abs(x - d)
  {
    ZeroIsDouble();
    hide Units, RoundMagnitude, DoubleUnits;
    NearestMagnitude(Abs(x), Abs(d));
    NearestMagnitude(Abs(x), 0.0);
    MagnitudePositive(Abs(x));
  }

  lemma {:induction false} ZeroIsDouble()
    ensures DoubleUnits(Units(0.0))
  {
    assert InDigits(0, 0) && Units(0.0) == Times(0, 0);
  }

  // ---- ties go to the even neighbour ----

  lemma {:induction false} TieIs(q: real, m: int)
    requires Abs(q - NearestEven(q) as real) == Abs(q - m as real) && m != NearestEven(q)
    ensures NearestEven(q) % 2 == 0 && m % 2 == 1
  {
    var k := q.Floor;
    assert k as real <= q < k as real + 1.0;
    WholeApart(m, k);
    WholeApart(k + 1, m);
  }

  lemma {:induction false} WholeApart(m: int, n: int)
    ensures m < n ==> m as real <= n as real - 1.0
  {
  }

  lemma {:induction false} TieUnits(y: real, d: real) returns (a: int, b: int, s: nat)
    requires DoubleUnits(d) && Abs(y - RoundUnits(y)) == Abs(y - d) && d != RoundUnits(y)
    ensures RoundUnits(y) == Times(a, s) && d == Times(b, s) && a % 2 == 0 && b % 2 == 1
  {
    hide Two, Shift, NearestEven, Times, Pow, Over;
    var m: nat, k: nat :| InDigits(m, k) && d == Times(m, k);
    s := Shift(y, 0);
    ShiftIs(y, 0);
    a := NearestEven(Over(y, s));
    if s > k {
      FinerIsBelow(m, k, s);
      NearestAt(y, s, Pow(2, DIGITS - 1));
      assert false;
    }
    Multiple(m, k, s);
    b := m * Pow(2, k - s);
    TieAt(y, s, b);
  }

  lemma {:induction false} TieAt(y: real, k: nat, m: int)
    requires Abs(y - RoundAt(y, k)) == Abs(y - Times(m, k)) && RoundAt(y, k) != Times(m, k)
    ensures NearestEven(Over(y, k)) % 2 == 0 && m % 2 == 1
  {
    hide NearestEven, Two, Over, Times, Abs;
    var q := Over(y, k);
    OverDistance(y, NearestEven(q), k);
    OverDistance(y, m, k);
    Scaled(Abs(q - m as real), Abs(q - NearestEven(q) as real), Two(k));
    Scaled(Abs(q - NearestEven(q) as real), Abs(q - m as real), Two(k));
    TieIs(q, m);
  }

  /** Between two doubles that are equally near the even one is taken: they are an even and an odd multiple of one
      power of two. */
  lemma {:induction false} TiesToEven(x: real, d: real) returns (a: int, b: int, s: nat)
    requires IsDouble(d) && Abs(x - d) == Abs(x - Round(x)) && d != Round(x)
    ensures Units(Abs(Round(x))) == Times(a, s) && Units(Abs(d)) == Times(b, s) && a % 2 == 0 && b % 2 == 1
  {
    hide Units, FromUnits, RoundUnits, DoubleUnits, Times;
    ZeroIsDouble();
    MagnitudePositive(Abs(x));
    NearestMagnitude(Abs(x), Abs(d));
    NearestMagnitude(Abs(x), 0.0);
    var y, r := Abs(x), RoundMagnitude(Abs(x));
    RoundMagnitudeOnly(x);
    assert Abs(y - r) == Abs(y - Abs(d)) && Abs(d) != r;
    UnitsInverse(RoundUnits(Units(y)));
    UnitsDistance(y, r);
    UnitsDistance(y, Abs(d));
    UnitsInverse(Abs(d));
    UnitsInverse(r);
    a, b, s := TieUnits(Units(y), Units(Abs(d)));
  }
}
