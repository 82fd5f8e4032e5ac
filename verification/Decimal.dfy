/** Exact decimal literals (internal/models/decimal.go): their grammar, their value, and
    how a sign, a run of digits and a number of places are written out and read back. */
module Decimals {
  import opened Wrappers

  function Pow10(k: nat): (p: nat)
    ensures p >= 1
  {
    if k == 0 then 1 else 10 * Pow10(k - 1)
  }

  function Div(n: nat, d: nat): nat
    requires d >= 1
  {
    n / d
  }

  predicate IsDigit(c: char) { '0' <= c <= '9' }

  function Digit(n: nat): (c: char)
    requires n < 10
    ensures IsDigit(c) && DigitValue(c) == n
  {
    n as char + '0'
  }

  function DigitValue(c: char): nat
    requires IsDigit(c)
  {
    c as int - '0' as int
  }

  predicate AllDigits(s: string) { forall i :: 0 <= i < |s| ==> IsDigit(s[i]) }

  function DigitsValue(s: string): nat
    requires AllDigits(s)
  {
    if s == "" then 0 else 10 * DigitsValue(s[..|s| - 1]) + DigitValue(s[|s| - 1])
  }

  // A natural number without superfluous leading zeros.
  function NatText(n: nat): (s: string)
    ensures s != "" && AllDigits(s)
  {
    if n < 10 then [Digit(n)] else NatText(n / 10) + [Digit(n % 10)]
  }

  // The last k digits of n, zeros included.
  function Fixed(n: nat, k: nat): (s: string)
    ensures |s| == k && AllDigits(s)
  {
    if k == 0 then "" else Fixed(n / 10, k - 1) + [Digit(n % 10)]
  }

  // --- the grammar -? (0 | [1-9][0-9]*) (. [0-9]+)? ------------------------------------

  predicate IsIntPart(s: string) { s == "0" || (s != "" && AllDigits(s) && s[0] != '0') }

  // The position of the first dot, or the length.
  function DotAt(s: string): (d: nat)
    ensures d <= |s| && '.' !in s[..d] && (d < |s| ==> s[d] == '.')
  {
    if s == "" || s[0] == '.' then 0
    else
      var d := DotAt(s[1..]);
      assert s[..d + 1] == [s[0]] + s[1..][..d];
      d + 1
  }

  function Unsigned(s: string): string { if s != "" && s[0] == '-' then s[1..] else s }

  predicate IsLiteral(s: string) {
    var u := Unsigned(s);
    var d := DotAt(u);
    IsIntPart(u[..d]) && (d < |u| ==> d + 1 < |u| && AllDigits(u[d + 1..]))
  }

  /** A literal is a sign, all its digits as one number, and how many follow the dot. */
  datatype Parts = Parts(neg: bool, digits: nat, places: nat)

  function Read(s: string): Parts
    requires IsLiteral(s)
  {
    var u := Unsigned(s);
    var d := DotAt(u);
    if d < |u| then Parts(u != s, DigitsValue(u[..d] + u[d + 1..]), |u| - d - 1)
    else Parts(u != s, DigitsValue(u), 0)
  }

  function Write(p: Parts): string {
    (if p.neg then "-" else "")
    + NatText(Div(p.digits, Pow10(p.places)))
    + if p.places > 0 then "." + Fixed(p.digits, p.places) else ""
  }

  lemma {:induction false} DigitsValueAppend(a: string, b: string)
    requires AllDigits(a) && AllDigits(b)
    ensures AllDigits(a + b) && DigitsValue(a + b) == DigitsValue(a) * Pow10(|b|) + DigitsValue(b)
  {
    if b == "" {
      assert a + b == a;
    } else {
      var n := |b| - 1;
      DigitsValueAppend(a, b[..n]);
      assert (a + b)[..|a| + n] == a + b[..n];
      TenTimes(DigitsValue(a), Pow10(n));
      assert Pow10(|b|) == 10 * Pow10(n);
      assert DigitsValue(a + b) == 10 * DigitsValue(a + b[..n]) + DigitValue(b[n]);
      assert DigitsValue(b) == 10 * DigitsValue(b[..n]) + DigitValue(b[n]);
    }
  }

  lemma TenTimes(x: nat, p: nat)
    ensures 10 * (x * p) == x * (10 * p)
  {
  }

  lemma {:induction false} DigitsValueBound(s: string)
    requires AllDigits(s)
    ensures DigitsValue(s) < Pow10(|s|)
  {
    if s != "" {
      DigitsValueBound(s[..|s| - 1]);
    }
  }

  lemma {:induction false} NatTextValue(n: nat)
    ensures DigitsValue(NatText(n)) == n && IsIntPart(NatText(n))
  {
    if n >= 10 {
      NatTextValue(n / 10);
      DigitsValueAppend(NatText(n / 10), [Digit(n % 10)]);
      assert NatText(n)[..|NatText(n)| - 1] == NatText(n / 10);
    } else {
      assert NatText(n)[..0] == "";
    }
  }

  // A part without leading zeros is the text of its value.
  lemma {:induction false} IntPartText(s: string)
    requires IsIntPart(s)
    ensures NatText(DigitsValue(s)) == s
  {
    var n := |s| - 1;
    assert s == s[..n] + [s[n]];
    if n == 0 {
      assert s[..0] == "";
    } else {
      IntPartText(s[..n]);
      assert DigitsValue(s[..n]) > 0 by { FirstDigitCounts(s[..n]); }
    }
  }

  lemma {:induction false} FirstDigitCounts(s: string)
    requires s != "" && AllDigits(s) && s[0] != '0'
    ensures DigitsValue(s) > 0
  {
    if |s| > 1 {
      FirstDigitCounts(s[..|s| - 1]);
    }
  }

  // The last k digits as text, read back.
  lemma {:induction false} FixedValue(n: nat, k: nat)
    ensures DigitsValue(Fixed(n, k)) == n % Pow10(k)
  {
    if k > 0 {
      FixedValue(n / 10, k - 1);
      var s := Fixed(n, k);
      assert s[..k - 1] == Fixed(n / 10, k - 1);
      ModStep(n, Pow10(k - 1));
    }
  }

  lemma ModStep(n: nat, m: nat)
    requires m >= 1
    ensures n % (10 * m) == 10 * (n / 10 % m) + n % 10
    ensures n / (10 * m) == n / 10 / m
  {
    var q, r := n / 10 / m, n / 10 % m;
    assert n / 10 == m * q + r;
    assert n == (10 * m) * q + (10 * r + n % 10);
    DivModUnique(n, 10 * m, q, 10 * r + n % 10);
  }

  lemma DivModUnique(n: nat, d: nat, q: nat, r: nat)
    requires d >= 1 && n == d * q + r && r < d
    ensures n / d == q && n % d == r
  {
    var q', r' := n / d, n % d;
    assert n == d * q' + r';
    if q < q' {
      MulMonotone(d, q + 1, q');
    } else if q' < q {
      MulMonotone(d, q' + 1, q);
    }
  }

  lemma MulMonotone(d: nat, x: int, y: int)
    requires x <= y
    ensures d * x <= d * y
  {
  }

  lemma FixedOneMore(w: nat, d: nat, k: nat)
    requires d < 10
    ensures Fixed(10 * w + d, k + 1) == Fixed(w, k) + [Digit(d)]
  {
    DivModUnique(10 * w + d, 10, w, d);
  }

  // hi, followed by the digits of s.
  function Prefixed(hi: nat, s: string): nat
    requires AllDigits(s)
  {
    hi * Pow10(|s|) + DigitsValue(s)
  }

  lemma PrefixedLast(hi: nat, s: string)
    requires s != "" && AllDigits(s)
    ensures Prefixed(hi, s) == 10 * Prefixed(hi, s[..|s| - 1]) + DigitValue(s[|s| - 1])
    ensures Prefixed(hi, "") == hi
  {
    var n := |s| - 1;
    var p, v, d := Pow10(n), DigitsValue(s[..n]), DigitValue(s[n]);
    assert Pow10(|s|) == 10 * p && DigitsValue(s) == 10 * v + d;
    hide Pow10, DigitsValue;
    PullTen(hi, p, v);
  }

  lemma {:induction false} PrefixedFixed(s: string, hi: nat)
    requires AllDigits(s)
    ensures Fixed(Prefixed(hi, s), |s|) == s
  {
    if s != "" {
      var n := |s| - 1;
      PrefixedFixed(s[..n], hi);
      PrefixedLast(hi, s);
      assert Digit(DigitValue(s[n])) == s[n];
      hide Prefixed, Fixed, DigitValue, Digit, Pow10, DigitsValue;
      FixedOneMore(Prefixed(hi, s[..n]), DigitValue(s[n]), n);
      assert s == s[..n] + [s[n]];
    }
  }

  lemma DigitsFixed(s: string, hi: nat)
    requires AllDigits(s)
    ensures Fixed(hi * Pow10(|s|) + DigitsValue(s), |s|) == s
  {
    PrefixedFixed(s, hi);
    hide Fixed, Pow10, DigitsValue;
  }

  lemma PullTen(hi: nat, p: nat, v: nat)
    ensures 10 * (hi * p + v) == hi * (10 * p) + 10 * v
  {
  }

  /** Reading a literal and writing it again gives back the same text. */
  lemma WriteRead(s: string)
    requires IsLiteral(s)
    ensures Write(Read(s)) == s
  {
    hide DigitsValue, Fixed, NatText, Pow10, DotAt, Div;
    var u := Unsigned(s);
    var d := DotAt(u);
    if d < |u| {
      assert u == u[..d] + "." + u[d + 1..];
      WriteDotted(u[..d], u[d + 1..]);
    } else {
      assert u[..d] == u;
      IntPartText(u);
      DivByOne(DigitsValue(u));
    }
  }

  lemma DivByOne(n: nat)
    ensures Div(n, Pow10(0)) == n
  {
  }

  lemma WriteDotted(i: string, f: string)
    requires IsIntPart(i) && AllDigits(f) && f != ""
    ensures AllDigits(i + f)
    ensures NatText(Div(DigitsValue(i + f), Pow10(|f|))) == i
    ensures Fixed(DigitsValue(i + f), |f|) == f
  {
    hide DigitsValue, Fixed, NatText, Pow10;
    DigitsValueAppend(i, f);
    DigitsValueBound(f);
    DivModUnique(DigitsValue(i + f), Pow10(|f|), DigitsValue(i), DigitsValue(f));
    IntPartText(i);
    DigitsFixed(f, DigitsValue(i));
  }

  lemma {:induction false} FirstDotAt(a: string, b: string)
    requires '.' !in a
    ensures DotAt(a + "." + b) == |a| && DotAt(a) == |a|
  {
    if a == "" {
      assert a + "." + b == "." + b;
    } else {
      FirstDotAt(a[1..], b);
      assert (a + "." + b)[1..] == a[1..] + "." + b;
    }
  }

  lemma {:induction false} FixedDrops(n: nat, hi: nat, k: nat)
    ensures Fixed(n + hi * Pow10(k), k) == Fixed(n, k)
  {
    if k > 0 {
      var p := Pow10(k - 1);
      assert Pow10(k) == 10 * p;
      FixedDrops(n / 10, hi, k - 1);
      hide Fixed, Pow10;
      TenTimes(hi, p);
      TensAndOnes(n);
      FixedOneMore(n / 10 + hi * p, n % 10, k - 1);
      FixedOneMore(n / 10, n % 10, k - 1);
    }
  }

  lemma TensAndOnes(n: nat)
    ensures n == 10 * (n / 10) + n % 10 && n % 10 < 10
  {
  }

  /** Every written text is a literal and reads back as what was written. */
  lemma ReadWrite(p: Parts)
    ensures IsLiteral(Write(p)) && Read(Write(p)) == p
  {
    hide DigitsValue, Fixed, NatText, Pow10, DotAt, Div;
    var i, f := NatText(Div(p.digits, Pow10(p.places))), Fixed(p.digits, p.places);
    var u := if p.places > 0 then i + "." + f else i;
    NatTextValue(Div(p.digits, Pow10(p.places)));
    FirstDotAt(i, f);
    assert Write(p) == if p.neg then "-" + u else u;
    assert u[0] != '-' by { assert u[0] == i[0] && IsDigit(i[0]); }
    assert Unsigned(Write(p)) == u;
    if p.places > 0 {
      assert u[..|i|] == i && u[|i| + 1..] == f;
      RebuildDigits(p.digits, p.places);
    } else {
      DivByOne(p.digits);
      assert u[..|u|] == u;
    }
  }

  lemma RebuildDigits(n: nat, k: nat)
    ensures DigitsValue(NatText(Div(n, Pow10(k))) + Fixed(n, k)) == n
  {
    hide DigitsValue, Fixed, NatText, Pow10;
    NatTextValue(Div(n, Pow10(k)));
    FixedValue(n, k);
    DigitsValueAppend(NatText(Div(n, Pow10(k))), Fixed(n, k));
    assert n == Pow10(k) * (n / Pow10(k)) + n % Pow10(k);
  }

  // --- values --------------------------------------------------------------------------

  function Value(p: Parts): real {
    var v := p.digits as real / Pow10(p.places) as real;
    if p.neg then -v else v
  }

  /** The type. The zero value is the number zero. */
  datatype Decimal = Decimal(text: string)

  function Text(d: Decimal): string { if d.text == "" then "0" else d.text }

  // Decimals are made by ParseDecimal or are the zero value.
  predicate Valid(d: Decimal) { d.text == "" || IsLiteral(d.text) }

  function ParseDecimal(s: string): (d: Option<Decimal>)
    ensures d.Some? ==> Valid(d.value)
  {
    if IsLiteral(s) then Some(Decimal(s)) else None
  }

  /** Exactly the texts that some number is written as are accepted, and kept unchanged. */
  lemma ParsesWhatIsWritten(s: string)
    ensures ParseDecimal(s).Some? <==> exists p :: Write(p) == s
    ensures ParseDecimal(s).Some? ==> ParseDecimal(s).value.text == s == Write(Read(s))
  {
    if p :| Write(p) == s {
      ReadWrite(p);
    }
    if IsLiteral(s) {
      WriteRead(s);
    }
  }

  lemma ZeroIsLiteral()
    ensures IsLiteral("0") && Read("0") == Parts(false, 0, 0)
  {
    ReadWrite(Parts(false, 0, 0));
    assert Write(Parts(false, 0, 0)) == "0";
  }

  function PartsOf(d: Decimal): Parts
    requires Valid(d)
  {
    if d.text == "" then Parts(false, 0, 0) else Read(d.text)
  }

  function Rat(d: Decimal): real
    requires Valid(d)
  {
    Value(PartsOf(d))
  }

  /** No digit to spare, and no negative zero. */
  predicate Canonical(p: Parts) {
    (p.places == 0 || p.digits % 10 != 0) && !(p.neg && p.digits == 0)
  }

  lemma FractionsEqual(x: real, pa: real, y: real, pb: real)
    requires pa > 0.0 && pb > 0.0 && x / pa == y / pb
    ensures x * pb == y * pa
  {
    var v := x / pa;
    assert x == v * pa && y == v * pb;
    assert (v * pa) * pb == (v * pb) * pa;
  }

  lemma CastProduct(x: nat, y: nat)
    ensures (x * y) as real == x as real * y as real
  {
  }

  lemma SameValueSameDigits(a: Parts, b: Parts)
    requires Value(a) == Value(b)
    ensures a.digits * Pow10(b.places) == b.digits * Pow10(a.places)
    ensures a.digits > 0 ==> a.neg == b.neg
  {
    hide Pow10;
    var pa, pb := Pow10(a.places) as real, Pow10(b.places) as real;
    NonNegative(a.digits as real, pa);
    NonNegative(b.digits as real, pb);
    FractionsEqual(a.digits as real, pa, b.digits as real, pb);
    CastProduct(a.digits, Pow10(b.places));
    CastProduct(b.digits, Pow10(a.places));
  }

  lemma NonNegative(x: real, p: real)
    requires x >= 0.0 && p > 0.0
    ensures x / p >= 0.0 && (x > 0.0 ==> x / p > 0.0)
  {
    var v := x / p;
    assert x == v * p;
  }
}
