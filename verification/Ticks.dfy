/** Integers as text, and the exact rationals of math/big (pkg/protocol/scores.go,
    pkg/protocol/evaluation.go): parsing, printing and the round trip. */
module Ticks {
  import opened Wrappers

  const MAX_TICKS_LENGTH: nat := 160

  // ---------------------------------------------------------------- integers

  predicate IsDigit(c: char) { '0' <= c <= '9' }

  function DigitChar(d: nat): (c: char)
    requires d < 10
    ensures IsDigit(c) && c as int - '0' as int == d
  {
    ('0' as int + d) as char
  }

  /** The decimal text of a natural number. */
  function Digits(n: nat): (s: string)
    ensures s != "" && forall i :: 0 <= i < |s| ==> IsDigit(s[i])
    ensures n > 0 ==> s[0] != '0'
    ensures n == 0 <==> s == "0"
  {
    if n < 10 then [DigitChar(n)] else Digits(n / 10) + [DigitChar(n % 10)]
  }

  /** big.Int.String. */
  function IntText(n: int): string {
    if n < 0 then "-" + Digits(-n) else Digits(n)
  }

  predicate AllDigits(s: string) { forall i :: 0 <= i < |s| ==> IsDigit(s[i]) }

  function DigitsValue(s: string): nat
    requires AllDigits(s)
  {
    if s == "" then 0 else 10 * DigitsValue(s[..|s| - 1]) + (s[|s| - 1] as int - '0' as int)
  }

  /** The pattern -?(0|[1-9][0-9]*). */
  predicate TicksPattern(s: string) {
    var magnitude := if s != "" && s[0] == '-' then s[1..] else s;
    magnitude != "" && AllDigits(magnitude) && (magnitude[0] == '0' ==> magnitude == "0")
  }

  function ParseTicks(s: string): Option<int> {
    if |s| > MAX_TICKS_LENGTH || !TicksPattern(s) || s == "-0" then None
    else
      var value: int := if s[0] == '-' then -(DigitsValue(s[1..]) as int) else DigitsValue(s);
      Some(value)
  }

  lemma {:induction false} DigitsRoundTrip(n: nat)
    ensures DigitsValue(Digits(n)) == n
  {
    if n < 10 {
      assert Digits(n)[..0] == "";
    } else {
      DigitsRoundTrip(n / 10);
      assert Digits(n)[..|Digits(n)| - 1] == Digits(n / 10);
    }
  }

  /** Printing then parsing gives the number back, up to the length limit. */
  lemma TicksRoundTrip(n: int)
    ensures ParseTicks(IntText(n)) == if |IntText(n)| <= MAX_TICKS_LENGTH then Some(n) else None
  {
    var digits := Digits(Abs(n));
    DigitsRoundTrip(Abs(n));
    if n < 0 {
      assert IntText(n)[1..] == digits;
    }
  }

  lemma {:induction false} ValuePositive(s: string)
    requires AllDigits(s) && s != "" && s[0] != '0'
    ensures DigitsValue(s) > 0
  {
    if |s| > 1 {
      ValuePositive(s[..|s| - 1]);
    }
  }

  lemma {:induction false} CanonicalDigits(s: string)
    requires AllDigits(s) && s != "" && (s[0] == '0' ==> s == "0")
    ensures Digits(DigitsValue(s)) == s
  {
    var n := |s| - 1;
    if n == 0 {
      assert s[..0] == "" && s == [s[0]];
      assert DigitsValue(s) == s[0] as int - '0' as int;
    } else {
      ValuePositive(s[..n]);
      CanonicalDigits(s[..n]);
      assert DigitsValue(s) / 10 == DigitsValue(s[..n]);
      assert s == s[..n] + [s[n]];
    }
  }

  /** Every accepted text is the one text of its number. */
  lemma TicksTextUnique(s: string)
    requires ParseTicks(s).Some?
    ensures IntText(ParseTicks(s).value) == s
  {
    if s[0] == '-' {
      assert s == "-" + s[1..];
      CanonicalDigits(s[1..]);
      assert s[1..] != "0";
    } else {
      CanonicalDigits(s);
    }
  }

  function Pow10(k: nat): nat { if k == 0 then 1 else 10 * Pow10(k - 1) }

  lemma {:induction false} DigitsLength(n: nat, k: nat)
    requires n < Pow10(k) && k > 0
    ensures |Digits(n)| <= k
  {
    if n >= 10 {
      DigitsLength(n / 10, k - 1);
    }
  }

  // --------------------------------------------------------------- rationals

  function Abs(n: int): nat { if n < 0 then -n else n }

  /** Euclid's algorithm on a and b: the greatest common divisor g, the cofactors
      a = g * x and b = g * y, and coefficients with u * x + v * y = 1. */
  datatype Euclid = Euclid(g: int, x: int, y: int, u: int, v: int)

  predicate EuclidOk(a: nat, b: nat, e: Euclid) {
    e.g > 0 && e.x >= 0 && e.y >= 0 && a == e.g * e.x && b == e.g * e.y && e.u * e.x + e.v * e.y == 1
  }

  /** From the result for (b, r) to the result for (b * q + r, b). */
  function Lift(e: Euclid, q: nat): Euclid { Euclid(e.g, e.x * q + e.y, e.x, e.v, e.u - e.v * q) }

  lemma EuclidStep(a: nat, b: nat, r: nat, q: nat, e: Euclid)
    requires EuclidOk(b, r, e) && a == b * q + r
    ensures EuclidOk(a, b, Lift(e, q))
  {
    var x := e.x * q + e.y;
    assert e.g * x == (e.g * e.x) * q + e.g * e.y;
    assert e.v * x == e.v * e.x * q + e.v * e.y;
    assert (e.u - e.v * q) * e.x == e.u * e.x - e.v * e.x * q;
    assert e.x * q >= 0;
  }

  lemma DivMod(a: nat, b: nat)
    requires b > 0
    ensures a == b * (a / b) + a % b
  {
  }

  function Divide(a: nat, b: nat): Euclid
    requires a > 0 || b > 0
    decreases b
  {
    if b == 0 then Euclid(a, 1, 0, 1, 0) else Lift(Divide(b, a % b), a / b)
  }

  lemma {:induction false} DivideOk(a: nat, b: nat)
    requires a > 0 || b > 0
    ensures EuclidOk(a, b, Divide(a, b))
    decreases b, 1
  {
    if b > 0 {
      DivMod(a, b);
      DivideFrom(a, b, a % b, a / b);
    }
  }

  lemma {:induction false} DivideFrom(a: nat, b: nat, r: nat, q: nat)
    requires r < b && a == b * q + r && Divide(a, b) == Lift(Divide(b, r), q)
    ensures EuclidOk(a, b, Divide(a, b))
    decreases b, 0
  {
    DivideOk(b, r);
    EuclidStep(a, b, r, q, Divide(b, r));
  }

  function Gcd(a: nat, b: nat): int
    requires a > 0 || b > 0
  {
    Divide(a, b).g
  }

  /** Cofactors have no common divisor left. */
  lemma CofactorsCoprime(a: nat, b: nat, e: Euclid)
    requires EuclidOk(a, b, e) && (e.x > 0 || e.y > 0)
    ensures Gcd(e.x, e.y) == 1
  {
    var d := Divide(e.x, e.y);
    DivideOk(e.x, e.y);
    CommonFactor(d.g, e.u, e.v, d.x, d.y);
    UnitFactor(d.g, e.u * d.x + e.v * d.y);
  }

  lemma CommonFactor(g: int, u: int, v: int, x: int, y: int)
    ensures u * (g * x) + v * (g * y) == g * (u * x + v * y)
  {
    assert u * (g * x) == g * (u * x);
    assert v * (g * y) == g * (v * y);
  }

  lemma UnitFactor(g: int, m: int)
    requires g > 0 && g * m == 1
    ensures g == 1
  {
    if m > 0 {
      AtLeastFactor(m, g);
    } else if m < 0 {
      NegativeProduct(g, m);
    }
  }

  /** A rational in lowest terms with a positive denominator. */
  datatype Rat = Rat(num: int, den: int) {
    predicate Ok() { den > 0 && Gcd(Abs(num), den) == 1 }
  }

  /** big.NewRat. */
  function MakeRat(n: int, d: int): (r: Rat)
    requires d > 0
    ensures r.den > 0
  {
    var e := Divide(Abs(n), d);
    DivideOk(Abs(n), d);
    Rat(if n < 0 then -e.x else e.x, e.y)
  }

  /** It is the same value in lowest terms: g is the factor taken out. */
  lemma MakeRatOk(n: int, d: int) returns (g: int)
    requires d > 0
    ensures MakeRat(n, d).Ok()
    ensures g > 0 && n == g * MakeRat(n, d).num && d == g * MakeRat(n, d).den
  {
    var e := Divide(Abs(n), d);
    DivideOk(Abs(n), d);
    CofactorsCoprime(Abs(n), d, e);
    g := e.g;
  }

  lemma NegativeProduct(g: int, x: int)
    requires g > 0 && x < 0
    ensures g * x < 0
  {
  }

  lemma AtLeastFactor(g: int, x: int)
    requires g > 0 && x >= 0
    ensures x <= g * x
  {
    assert 0 <= (g - 1) * x;
  }

  lemma MakeRatBounds(n: nat, d: nat)
    requires d > 0
    ensures 0 <= MakeRat(n, d).num <= n && 0 < MakeRat(n, d).den <= d
    ensures n > 0 ==> MakeRat(n, d).num > 0
  {
    var r := MakeRat(n, d);
    var g := MakeRatOk(n, d);
    assert r.num >= 0 by {
      if r.num < 0 {
        NegativeProduct(g, r.num);
      }
    }
    AtLeastFactor(g, r.num);
    AtLeastFactor(g, r.den);
  }

  /** Comparison of rationals by cross multiplication (big.Rat.Cmp). */
  predicate Le(a: Rat, b: Rat) { a.num * b.den <= b.num * a.den }

  function RatText(r: Rat): string { IntText(r.num) + "/" + IntText(r.den) }

  /** The position of the first slash, or the length. */
  function SlashAt(s: string): (i: nat)
    ensures i <= |s| && '/' !in s[..i] && (i < |s| ==> s[i] == '/')
  {
    if s == "" then 0
    else if s[0] == '/' then 0
    else
      var i := SlashAt(s[1..]);
      assert s[..i + 1] == [s[0]] + s[1..][..i];
      i + 1
  }

  /** MeasurementNumber for kind "rational": p/q in lowest terms with q positive. */
  function ParseRational(s: string): (r: Option<Rat>)
    ensures r.Some? ==> r.value.Ok()
  {
    var i := SlashAt(s);
    if i == |s| || '/' in s[i + 1..] then None
    else
      var n, d := ParseTicks(s[..i]), ParseTicks(s[i + 1..]);
      if n.None? || d.None? || d.value <= 0 || Gcd(Abs(n.value), d.value) != 1 then None
      else Some(Rat(n.value, d.value))
  }

  lemma NoSlash(n: int)
    ensures '/' !in IntText(n)
  {
  }

  lemma SlashUnique(s: string, i: nat)
    requires i < |s| && s[i] == '/' && '/' !in s[..i]
    ensures SlashAt(s) == i
  {
    var j := SlashAt(s);
    assert forall k :: 0 <= k < i ==> s[..i][k] != '/';
    assert forall k :: 0 <= k < j ==> s[..j][k] != '/';
  }

  /** A rational in lowest terms survives its text, up to the length limit. */
  lemma RationalRoundTrip(r: Rat)
    requires r.Ok() && |IntText(r.num)| <= MAX_TICKS_LENGTH && |IntText(r.den)| <= MAX_TICKS_LENGTH
    ensures ParseRational(RatText(r)) == Some(r)
  {
    var s, i := RatText(r), |IntText(r.num)|;
    NoSlash(r.num);
    NoSlash(r.den);
    assert s[..i] == IntText(r.num) && s[i + 1..] == IntText(r.den);
    SlashUnique(s, i);
    TicksRoundTrip(r.num);
    TicksRoundTrip(r.den);
  }

  /** Durations up to a day have at most fourteen digits, so ratios of them always
      survive their text. */
  lemma DurationRatioRoundTrip(a: nat, b: nat)
    requires 0 < a <= 86_400_000_000_000 && 0 < b <= 86_400_000_000_000
    ensures ParseRational(RatText(MakeRat(a, b))) == Some(MakeRat(a, b))
  {
    var r := MakeRat(a, b);
    assert Pow10(14) == 100_000_000_000_000 by {
      assert Pow10(4) == 10_000 && Pow10(8) == 100_000_000 && Pow10(12) == 1_000_000_000_000;
    }
    MakeRatBounds(a, b);
    var g := MakeRatOk(a, b);
    DigitsLength(r.num, 14);
    DigitsLength(r.den, 14);
    RationalRoundTrip(r);
  }
}
