/** How a 64-bit integer of Go fares on its way through JSON and a float64. */
module Numbers {
  import opened Base

  /** IEEE doubles, as far as the conversions and JSON tell them apart. */
  datatype Double = Finite(value: real) | NaN | PositiveInfinity | NegativeInfinity

  const MIN_INT64 := -0x8000_0000_0000_0000
  const MAX_INT64 := 0x7fff_ffff_ffff_ffff

  predicate FitsInt64(i: int) {
    MIN_INT64 <= i <= MAX_INT64
  }

  type Int64 = i: int | FitsInt64(i)

  const TWO_52 := 0x10_0000_0000_0000
  const TWO_53 := 0x20_0000_0000_0000
  const TWO_63 := 0x8000_0000_0000_0000

  /** The distance between doubles around n: they have 53 significant bits. */
  function Ulp(n: nat): (u: nat)
    ensures u > 0
  {
    if n < TWO_53 then 1 else 2 * Ulp(n / 2)
  }

  /** The nearest multiple, the even one of two. */
  function RoundTo(n: nat, unit: nat): nat
    requires unit > 0
  {
    var q, r := n / unit, n % unit;
    if 2 * r < unit || (2 * r == unit && q % 2 == 0) then q * unit else (q + 1) * unit
  }

  /** The double nearest to n, as strconv.ParseFloat finds it. */
  function Nearest(n: nat): nat {
    RoundTo(n, Ulp(n))
  }

  function NearestInteger(i: int): int {
    if i < 0 then 0 - Nearest(-i) else Nearest(i)
  }

  function NearestDouble(i: int): Double {
    Finite(NearestInteger(i) as real)
  }

  function Pow10(k: nat): (p: nat)
    ensures p > 0
  {
    if k == 0 then 1 else 10 * Pow10(k - 1)
  }

  /** The last multiple up to v. */
  function Down(v: nat, step: nat): nat
    requires step > 0
  {
    v / step * step
  }

  /**
   The decimal number which encoding/json writes for an integral double v: with
   the most trailing zeros, up to k, such that v is still the double nearest to it.
   */
  function Shortest(v: nat, k: nat): nat {
    if k == 0 then v
    else
      var down := Down(v, Pow10(k));
      var up := down + Pow10(k);
      if Nearest(down) == v && (Nearest(up) != v || v - down <= up - v) then down
      else if Nearest(up) == v then up
      else Shortest(v, k - 1)
  }

  /** Below 10^19 no number has more than 18 trailing zeros; beyond, none fits an int64. */
  const MAX_ZEROS: nat := 18

  function Written(v: int): int {
    if v < 0 then 0 - Shortest(-v, MAX_ZEROS) else Shortest(v, MAX_ZEROS)
  }

  /** The int64 in the text of a double, if it is one: fractions and exponents are not. */
  function ReadBack(d: Double): (r: Option<Int64>) {
    if d.Finite? && d.value.Floor as real == d.value && FitsInt64(Written(d.value.Floor))
    then Some(Written(d.value.Floor)) else None
  }

  lemma ReadBackOfInteger(v: int)
    ensures ReadBack(Finite(v as real)) == if FitsInt64(Written(v)) then Some(Written(v)) else None
  {
    hide Written;
    assert (v as real).Floor == v;
  }

  lemma {:induction false} UlpScales(n: nat)
    requires n >= TWO_52
    ensures Ulp(n) * TWO_52 <= n < Ulp(n) * TWO_53
  {
    if n >= TWO_53 {
      UlpScales(n / 2);
    }
  }

  lemma Times(a: nat, b: nat, unit: nat)
    requires a <= b
    ensures a * unit <= b * unit
  {
  }

  lemma RoundBounds(n: nat, unit: nat)
    requires unit > 0
    ensures 2 * RoundTo(n, unit) <= 2 * n + unit
    ensures n / unit * unit <= RoundTo(n, unit)
  {
    assert n == n / unit * unit + n % unit;
    assert (n / unit + 1) * unit == n / unit * unit + unit;
  }

  lemma QuotientBound(n: nat, unit: nat, c: nat)
    requires unit > 0 && c * unit <= n
    ensures c * unit <= n / unit * unit
  {
    assert n < (n / unit + 1) * unit by { assert n == n / unit * unit + n % unit; }
    if n / unit < c {
      Times(n / unit + 1, c, unit);
    } else {
      Times(c, n / unit, unit);
    }
  }

  /** No double lies between TWO_52 units and a number above them. */
  lemma NearestFromBelow(n: nat)
    requires n >= TWO_52
    ensures Nearest(n) >= TWO_52 * Ulp(n)
  {
    hide Ulp, RoundTo;
    UlpScales(n);
    RoundBounds(n, Ulp(n));
    QuotientBound(n, Ulp(n), TWO_52);
  }

  lemma UlpDoubles(n: nat)
    requires n >= TWO_53
    ensures Ulp(n) == 2 * Ulp(n / 2)
  {
  }

  /** Powers of two from 2^62 to 2^64. */
  lemma UlpAtTheTop(n: nat)
    requires TWO_63 / 2 <= n < 2 * TWO_63
    ensures Ulp(n) == if n < TWO_63 then 1024 else 2048
  {
    hide Ulp;
    var n1 := n / 2;
    var n2 := n1 / 2;
    var n3 := n2 / 2;
    var n4 := n3 / 2;
    var n5 := n4 / 2;
    var n6 := n5 / 2;
    var n7 := n6 / 2;
    var n8 := n7 / 2;
    var n9 := n8 / 2;
    var n10 := n9 / 2;
    UlpDoubles(n);
    UlpDoubles(n1);
    UlpDoubles(n2);
    UlpDoubles(n3);
    UlpDoubles(n4);
    UlpDoubles(n5);
    UlpDoubles(n6);
    UlpDoubles(n7);
    UlpDoubles(n8);
    UlpDoubles(n9);
    UlpOfSmall(n10);
  }

  lemma UlpOfSmall(n: nat)
    requires TWO_52 <= n < 2 * TWO_53
    ensures Ulp(n) == if n < TWO_53 then 1 else 2
  {
  }

  /** The double nearest to an int64 is below 2^63 except for the last 512 numbers. */
  lemma NearestAtTheTop(n: nat)
    requires n < 2 * TWO_63
    ensures Nearest(n) < TWO_63 <==> n < TWO_63 - 512
    ensures n <= TWO_63 ==> Nearest(n) <= TWO_63
  {
    RoundBounds(n, Ulp(n));
    if n >= TWO_63 / 2 {
      UlpAtTheTop(n);
    } else if n >= TWO_52 {
      UlpScales(n);
    }
  }

  lemma SmallIsExact(n: nat)
    requires n <= TWO_53
    ensures Nearest(n) == n
  {
    if n == TWO_53 {
      UlpOfSmall(n);
    }
  }

  lemma NearestIsLarge(n: nat)
    requires n >= TWO_53 + 2
    ensures Nearest(n) > TWO_53
  {
    if n < 2 * TWO_53 {
      UlpOfSmall(n);
    } else {
      NearestFromBelow(n);
      assert Ulp(n) == 2 * Ulp(n / 2) && Ulp(n / 2) == 2 * Ulp(n / 2 / 2);
    }
  }

  lemma DownBounds(v: nat, step: nat)
    requires step > 0
    ensures Down(v, step) <= v < Down(v, step) + step
  {
    assert v == v / step * step + v % step;
  }

  lemma Tens(v: nat, k: nat)
    requires k > 0
    ensures Down(v, Pow10(k)) % 10 == 0 && Pow10(k) % 10 == 0
  {
    var p := Pow10(k - 1);
    assert Down(v, 10 * p) == 10 * (v / (10 * p) * p);
  }

  lemma Thousands(v: nat, k: nat)
    requires k >= 3
    ensures Down(v, Pow10(k)) % 1000 == 0
  {
    var p := Pow10(k - 3);
    assert Pow10(k) == 1000 * p by {
      assert Pow10(k) == 10 * Pow10(k - 1) && Pow10(k - 1) == 10 * Pow10(k - 2) && Pow10(k - 2) == 10 * p;
    }
    assert Down(v, 1000 * p) == 1000 * (v / (1000 * p) * p);
  }

  lemma TenAbove(n: nat)
    requires n > TWO_53 && n % 10 == 0
    ensures n >= TWO_53 + 8
  {
  }

  /** No other number with so many zeros has the double v. */
  lemma SmallIsNotShortened(v: nat, k: nat)
    requires v <= TWO_53 && k > 0
    ensures var down := Down(v, Pow10(k));
            (Nearest(down) == v ==> down == v) && Nearest(down + Pow10(k)) != v
  {
    hide Nearest, Down, Pow10;
    var down := Down(v, Pow10(k));
    var up := down + Pow10(k);
    DownBounds(v, Pow10(k));
    SmallIsExact(down);
    if up <= TWO_53 {
      SmallIsExact(up);
    } else {
      Tens(v, k);
      TenAbove(up);
      NearestIsLarge(up);
    }
  }

  /** Integers of up to 53 bits are written as they are. */
  lemma {:induction false} SmallIsWrittenExactly(v: nat, k: nat)
    requires v <= TWO_53
    ensures Shortest(v, k) == v
  {
    if k > 0 {
      hide Nearest, Down, Pow10;
      SmallIsNotShortened(v, k);
      SmallIsWrittenExactly(v, k - 1);
    }
  }

  lemma {:induction false} Pow10Sum(a: nat, b: nat)
    ensures Pow10(a + b) == Pow10(a) * Pow10(b)
  {
    if b > 0 {
      Pow10Sum(a, b - 1);
    }
  }

  lemma {:induction false} Pow10Grows(k: nat, m: nat)
    requires k <= m
    ensures Pow10(k) <= Pow10(m)
  {
    if k < m {
      Pow10Grows(k, m - 1);
    }
  }

  lemma Pow10Bound(k: nat)
    requires k <= MAX_ZEROS
    ensures Pow10(k) <= 1_000_000_000_000_000_000
  {
    assert Pow10(1) == 10 && Pow10(2) == 100 && Pow10(3) == 1000;
    Pow10Sum(3, 3);
    Pow10Sum(6, 6);
    Pow10Sum(12, 6);
    Pow10Grows(k, MAX_ZEROS);
  }

  /** A double below 2^63 is written as an int64. */
  lemma {:induction false} BelowIsWrittenBelow(v: nat, k: nat)
    requires v < TWO_63 && k <= MAX_ZEROS
    ensures Shortest(v, k) < TWO_63
  {
    if k > 0 {
      hide Nearest, Down, Pow10, Ulp;
      DownBounds(v, Pow10(k));
      Pow10Bound(k);
      NearestAtTheTop(Down(v, Pow10(k)) + Pow10(k));
      BelowIsWrittenBelow(v, k - 1);
    }
  }

  lemma LimitIsNearest()
    ensures Nearest(9223372036854776000) == TWO_63
  {
    UlpAtTheTop(9223372036854776000);
    hide Ulp;
  }

  /** 2^63 is written as 9223372036854776000, which is no int64. */
  lemma {:induction false} LimitIsWrittenAbove(k: nat)
    requires 3 <= k <= MAX_ZEROS
    ensures Shortest(TWO_63, k) > TWO_63
  {
    hide Nearest;
    var down := Down(TWO_63, Pow10(k));
    DownBounds(TWO_63, Pow10(k));
    Thousands(TWO_63, k);
    NearestAtTheTop(down);
    if k == 3 {
      assert Pow10(3) == 1000 by { assert Pow10(2) == 100; }
      assert down == 9223372036854775000;
      LimitIsNearest();
    } else {
      LimitIsWrittenAbove(k - 1);
    }
  }

  /** Written and parsed again, a double stays what it was. */
  lemma {:induction false} TextDenotesDouble(v: nat, k: nat)
    requires Nearest(v) == v
    ensures Nearest(Shortest(v, k)) == v
  {
    if k > 0 {
      hide Nearest, Down;
      TextDenotesDouble(v, k - 1);
    }
  }

  function Distance(a: int, b: int): nat {
    if a < b then b - a else a - b
  }

  /** No number with 53 significant bits is nearer. */
  lemma NearestIsNearest(n: nat, m: nat)
    ensures Distance(Nearest(n), n) <= Distance(m * Ulp(n), n)
  {
    hide Ulp;
    var u := Ulp(n);
    var q := n / u;
    assert n == q * u + n % u && (q + 1) * u == q * u + u;
    if m <= q {
      Times(m, q, u);
    } else {
      Times(q + 1, m, u);
    }
  }

  lemma Quotient(m: nat, unit: nat)
    requires unit > 0
    ensures m * unit / unit == m
  {
    assert m * unit == (m * unit / unit) * unit + m * unit % unit;
    var d := m * unit / unit;
    if d < m {
      Times(d + 1, m, unit);
    } else {
      Times(m, d, unit);
    }
  }

  /** Halfway between two doubles, the even one is taken. */
  lemma TiesToEven(n: nat)
    requires 2 * (n % Ulp(n)) == Ulp(n)
    ensures Nearest(n) / Ulp(n) % 2 == 0
  {
    hide Ulp;
    var q := n / Ulp(n);
    Quotient(q, Ulp(n));
    Quotient(q + 1, Ulp(n));
  }

  /** Exactly these int64 values survive JSON and a float64; the largest ones of either sign do not. */
  predicate Survives(i: Int64) {
    -(TWO_63 - 512) < i < TWO_63 - 512
  }

  /** The text of the double next to an int64 can be read as an int64 again: exactly if it is not too large. */
  lemma ReadableIff(i: Int64)
    ensures ReadBack(NearestDouble(i)).Some? <==> Survives(i)
  {
    hide Nearest, Shortest, ReadBack;
    assert FitsInt64(i);
    ReadBackOfInteger(NearestInteger(i));
    var n: nat := if i < 0 then 0 - i else i;
    NearestAtTheTop(n);
    if Nearest(n) < TWO_63 {
      BelowIsWrittenBelow(Nearest(n), MAX_ZEROS);
    } else {
      LimitIsWrittenAbove(MAX_ZEROS);
    }
  }

  /** Up to 2^53, some hundred days in nanoseconds, it is the same number. */
  lemma SmallSurvives(i: Int64)
    requires -TWO_53 <= i <= TWO_53
    ensures ReadBack(NearestDouble(i)) == Some(i)
  {
    hide Nearest, Shortest, ReadBack;
    ReadBackOfInteger(NearestInteger(i));
    var n: nat := if i < 0 then 0 - i else i;
    SmallIsExact(n);
    SmallIsWrittenExactly(n, MAX_ZEROS);
  }
}
