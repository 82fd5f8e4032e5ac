/** Cutting trailing zeros (rounding.go) leaves the one shortest literal of a value. */
module Trimming {
  import opened Decimals

  function TrimRight(s: string, c: char): string {
    if s != "" && s[|s| - 1] == c then TrimRight(s[..|s| - 1], c) else s
  }

  // What roundToIncrement does to the text of a rounded value.
  function Trimmed(s: string): string {
    if '.' in s then TrimRight(TrimRight(s, '0'), '.') else s
  }

  // The same value with no trailing zero after the dot.
  function Reduced(p: Parts): Parts
    decreases p.places
  {
    if p.places > 0 && p.digits % 10 == 0 then Reduced(Parts(p.neg, p.digits / 10, p.places - 1)) else p
  }

  lemma TrimOne(s: string, c: char)
    ensures TrimRight(s + [c], c) == TrimRight(s, c)
  {
    assert (s + [c])[..|s|] == s;
  }

  // A text one zero longer.
  lemma WriteZero(p: Parts)
    ensures var longer := Write(Parts(p.neg, 10 * p.digits, p.places + 1));
            if p.places > 0 then longer == Write(p) + "0" else longer == Write(p) + ".0"
  {
    hide Pow10, NatText, Div, Fixed;
    SameIntPart(p.digits, p.places);
    FixedOneMore(p.digits, 0, p.places);
    FixedZero(p.digits);
  }

  lemma FixedZero(n: nat)
    ensures Fixed(n, 0) == "" && [Digit(0)] == "0"
  {
  }

  lemma SameIntPart(n: nat, k: nat)
    ensures Div(10 * n, Pow10(k + 1)) == Div(n, Pow10(k))
  {
    ModStep(10 * n, Pow10(k));
    DivModUnique(10 * n, 10, n, 0);
  }

  // The last character of a text with a dot is its last digit.
  lemma LastCharacter(p: Parts)
    requires p.places > 0
    ensures var s := Write(p); s != "" && s[|s| - 1] == Digit(p.digits % 10) && '.' in s
  {
    hide Pow10, NatText, Div;
    var f := Fixed(p.digits, p.places);
    assert f[|f| - 1] == Digit(p.digits % 10);
    var s := Write(p);
    assert s == (if p.neg then "-" else "") + NatText(Div(p.digits, Pow10(p.places))) + "." + f;
    assert s[|s| - |f| - 1] == '.';
  }

  lemma WholeHasNoDot(p: Parts)
    requires p.places == 0
    ensures '.' !in Write(p) && Write(p) != "" && Write(p)[|Write(p)| - 1] != '.'
  {
    hide Pow10, NatText, Div;
    var i := NatText(Div(p.digits, Pow10(p.places)));
    assert Write(p) == (if p.neg then "-" else "") + i;
    assert IsDigit(i[|i| - 1]);
  }

  /** Trimming the text of a value writes its reduced form. */
  lemma {:induction false} TrimmedIsReduced(p: Parts)
    ensures Trimmed(Write(p)) == Write(Reduced(p))
    decreases p.places
  {
    hide Write;
    if p.places == 0 {
      WholeHasNoDot(p);
    } else {
      TrimsToReduced(p);
      LastCharacter(p);
    }
  }

  lemma {:induction false} TrimsToReduced(p: Parts)
    requires p.places > 0
    ensures TrimRight(TrimRight(Write(p), '0'), '.') == Write(Reduced(p))
    decreases p.places
  {
    hide Write;
    LastCharacter(p);
    if p.digits % 10 == 0 {
      var q := Parts(p.neg, p.digits / 10, p.places - 1);
      assert p == Parts(q.neg, 10 * q.digits, q.places + 1);
      WriteZero(q);
      if q.places > 0 {
        TrimOne(Write(q), '0');
        TrimsToReduced(q);
      } else {
        assert Write(p) == (Write(q) + ['.']) + ['0'];
        TrimOne(Write(q) + ['.'], '0');
        TrimOne(Write(q), '.');
        WholeHasNoDot(q);
      }
    } else {
      assert Digit(p.digits % 10) != '0' && Digit(p.digits % 10) != '.';
    }
  }

  lemma {:induction false} ReducedKeepsValue(p: Parts)
    ensures Value(Reduced(p)) == Value(p)
    ensures Reduced(p).places == 0 || Reduced(p).digits % 10 != 0
    ensures Reduced(p).neg == p.neg && (Reduced(p).digits == 0 <==> p.digits == 0)
    decreases p.places
  {
    if p.places > 0 && p.digits % 10 == 0 {
      var q := Parts(p.neg, p.digits / 10, p.places - 1);
      ReducedKeepsValue(q);
      SameFraction(q.digits, Pow10(q.places));
    }
  }

  lemma SameFraction(n: nat, d: nat)
    requires d >= 1
    ensures (10 * n) as real / (10 * d) as real == n as real / d as real
  {
    var v := n as real / d as real;
    assert n as real == v * d as real;
    assert (10 * n) as real == v * (10 * d) as real;
  }

  lemma {:induction false} PowersDivide(j: nat, k: nat)
    requires j < k
    ensures Pow10(k) == 10 * Pow10(k - 1 - j) * Pow10(j)
    decreases k
  {
    if k > j + 1 {
      PowersDivide(j, k - 1);
      Regroup(Pow10(k - 2 - j), Pow10(j));
    }
  }

  lemma Regroup(c: nat, p: nat)
    ensures 10 * (10 * c * p) == 10 * (10 * c) * p
  {
  }

  lemma CancelPower(a: nat, b: nat, c: nat, q: nat)
    requires q >= 1 && a * (10 * c * q) == b * q
    ensures b == 10 * (a * c)
  {
    assert a * (10 * c * q) == (10 * (a * c)) * q;
    if b < 10 * (a * c) {
      MulMonotone(q, b + 1, 10 * (a * c));
    } else if 10 * (a * c) < b {
      MulMonotone(q, 10 * (a * c) + 1, b);
    }
  }

  // Two canonical forms of one value have as many places, so the same digits.
  lemma FewerPlaces(a: Parts, b: Parts)
    requires Value(a) == Value(b) && a.places < b.places
    ensures b.digits % 10 == 0
  {
    hide Pow10, Value;
    SameValueSameDigits(a, b);
    PowersDivide(a.places, b.places);
    CancelPower(a.digits, b.digits, Pow10(b.places - 1 - a.places), Pow10(a.places));
  }

  lemma SamePlaces(a: Parts, b: Parts)
    requires Value(a) == Value(b) && a.places == b.places
    ensures a.digits == b.digits
  {
    hide Pow10, Value;
    SameValueSameDigits(a, b);
    if a.digits < b.digits {
      MulMonotone(Pow10(a.places), a.digits + 1, b.digits);
    } else if b.digits < a.digits {
      MulMonotone(Pow10(a.places), b.digits + 1, a.digits);
    }
  }

  /** A value has one canonical form. */
  lemma CanonicalIsUnique(a: Parts, b: Parts)
    requires Value(a) == Value(b) && Canonical(a) && Canonical(b)
    ensures a == b
  {
    hide Value;
    if a.places < b.places {
      FewerPlaces(a, b);
    } else if b.places < a.places {
      FewerPlaces(b, a);
    } else {
      SamePlaces(a, b);
      SameValueSameDigits(a, b);
    }
  }

  lemma {:induction false} ReducedIsNoLonger(p: Parts)
    ensures |Write(Reduced(p))| <= |Write(p)|
    ensures |Write(Reduced(p))| == |Write(p)| ==> Reduced(p) == p
    decreases p.places
  {
    hide Write;
    if p.places > 0 && p.digits % 10 == 0 {
      var q := Parts(p.neg, p.digits / 10, p.places - 1);
      assert p == Parts(q.neg, 10 * q.digits, q.places + 1);
      WriteZero(q);
      ReducedIsNoLonger(q);
    }
  }

  lemma SignIsLonger(p: Parts)
    requires p.neg
    ensures |Write(p)| == |Write(p.(neg := false))| + 1
  {
    hide NatText, Fixed, Div, Pow10;
  }

  lemma ZeroValue(p: Parts)
    requires p.digits == 0
    ensures Value(p) == Value(p.(neg := false))
  {
    var d := Pow10(p.places) as real;
    assert 0.0 / d == 0.0;
  }

  /** The canonical text is shorter than every other literal of the same value. */
  lemma CanonicalIsShortest(p: Parts, s: string)
    requires Canonical(p) && IsLiteral(s) && Value(Read(s)) == Value(p)
    ensures |Write(p)| <= |s| && (|Write(p)| == |s| ==> Write(p) == s)
  {
    hide Write, IsLiteral, Read, Value;
    var t := Read(s);
    var r := Reduced(t);
    WriteRead(s);
    ReducedKeepsValue(t);
    ReducedIsNoLonger(t);
    if r.neg && r.digits == 0 {
      ZeroValue(r);
      SignIsLonger(r);
      CanonicalIsUnique(p, r.(neg := false));
    } else {
      CanonicalIsUnique(p, r);
    }
  }
}
