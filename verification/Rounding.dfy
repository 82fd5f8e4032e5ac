/** Snapping a price or a size onto its market's grid (rounding.go), over exact values. */
module Rounding {
  import opened Wrappers
  import opened Decimals
  import opened Trimming

  datatype Side = Buy | Sell | OtherSide(text: string)

  datatype Market = Market(tick: Option<Decimal>, lot: Option<Decimal>)

  function Abs(x: real): real { if x < 0.0 then -x else x }

  // The quotient cut toward zero, as big.Int's QuoRem cuts it.
  function Trunc(q: real): int { if q >= 0.0 then q.Floor else -(-q).Floor }

  function Sign(q: real): int { if q > 0.0 then 1 else if q < 0.0 then -1 else 0 }

  // The quotient rounded to a whole number, toward zero or away from it.
  function Cut(q: real, away: bool): int {
    var n := Trunc(q);
    if away && n as real != q then n + Sign(q) else n
  }

  // How many increments the rounded value is.
  function Steps(v: real, step: real, away: bool): int
    requires step != 0.0
  {
    Cut(v / step, away)
  }

  function Mul(x: real, y: real): real { x * y }

  function Times(n: int, step: real): real { Mul(n as real, step) }

  // big.Rat's FloatString: the nearest value with this many places, halves away from zero.
  function FloatString(x: real, places: nat): string {
    Write(Parts(x < 0.0, Nearest(Scaled(x, places)), places))
  }

  function Scaled(x: real, places: nat): (y: real)
    ensures y >= 0.0
  {
    Abs(x) * Pow10(places) as real
  }

  function Nearest(y: real): nat
    requires y >= 0.0
  {
    (y + 0.5).Floor
  }

  function DecimalPlaces(s: string): nat {
    var d := DotAt(s);
    if d < |s| then |s| - d - 1 else 0
  }

  function RoundToIncrement(v: Decimal, inc: Option<Decimal>, away: bool): (d: Decimal)
    requires Valid(v) && (inc.Some? ==> Valid(inc.value))
  {
    if inc.None? then v
    else
      var step := Rat(inc.value);
      if step == 0.0 then v
      else
        var s := FloatString(Times(Steps(Rat(v), step, away), step), DecimalPlaces(Text(inc.value)));
        var parsed := ParseDecimal(Trimmed(s));
        if parsed.Some? then parsed.value else Decimal("")
  }

  function RoundPrice(m: Market, price: Decimal, side: Side): Option<Decimal>
    requires Valid(price) && (m.tick.Some? ==> Valid(m.tick.value))
  {
    match side
    case Buy => Some(RoundToIncrement(price, m.tick, false))
    case Sell => Some(RoundToIncrement(price, m.tick, true))
    case OtherSide(_) => None
  }

  function RoundSize(m: Market, size: Decimal): Decimal
    requires Valid(size) && (m.lot.Some? ==> Valid(m.lot.value))
  {
    RoundToIncrement(size, m.lot, false)
  }

  // --- printing is exact and canonical -------------------------------------------------

  lemma TextIsLiteral(d: Decimal)
    requires Valid(d)
    ensures IsLiteral(Text(d)) && Read(Text(d)) == PartsOf(d)
  {
    ZeroIsLiteral();
  }

  lemma PlacesOfText(d: Decimal)
    requires Valid(d)
    ensures DecimalPlaces(Text(d)) == PartsOf(d).places
  {
    TextIsLiteral(d);
    var s := Text(d);
    if s[0] == '-' {
      assert DotAt(s) == 1 + DotAt(s[1..]);
    }
  }

  lemma CastProductInt(x: int, y: int)
    ensures (x * y) as real == x as real * y as real
  {
  }

  // A whole number of increments has no more places than the increment.
  lemma MultipleHasPlaces(n: int, p: Parts)
    ensures var x := Times(n, Value(p));
            var m := (if n < 0 then -n else n) * p.digits;
            && Scaled(x, p.places) == m as real
            && (m > 0 ==> (x < 0.0 <==> (n < 0) != p.neg))
            && (m == 0 ==> x == 0.0)
  {
    hide Pow10;
    var d, w := Pow10(p.places) as real, p.digits as real;
    var a := if n < 0 then -n else n;
    var v := w / d;
    assert v * d == w && v >= 0.0 by { NonNegative(w, d); }
    CastProductInt(a, p.digits);
    assert (a as real * v) * d == a as real * w;
    assert Abs(Times(n, Value(p))) == a as real * v by { AbsProduct(n as real, Value(p), a as real, v); }
  }

  lemma AbsProduct(n: real, y: real, a: real, v: real)
    requires (n == a || n == -a) && (y == v || y == -v) && a >= 0.0 && v >= 0.0
    ensures Abs(Mul(n, y)) == a * v
  {
    assert a * v >= 0.0;
  }

  lemma WholeFloor(m: nat)
    ensures Nearest(m as real) == m
  {
  }

  // The parts FloatString writes for n increments.
  function Printed(n: int, p: Parts): Parts {
    Parts(Times(n, Value(p)) < 0.0, (if n < 0 then -n else n) * p.digits, p.places)
  }

  /** Printing n increments at the increment's own places loses nothing. */
  lemma PrintsExactly(n: int, p: Parts)
    ensures FloatString(Times(n, Value(p)), p.places) == Write(Printed(n, p))
    ensures Value(Printed(n, p)) == Times(n, Value(p))
    ensures !(Printed(n, p).neg && Printed(n, p).digits == 0)
  {
    hide Times, Scaled, Nearest, Pow10, Write, Value;
    MultipleHasPlaces(n, p);
    WholeFloor(Printed(n, p).digits);
    ValueFrom(Times(n, Value(p)), Printed(n, p));
  }

  lemma ValueFrom(x: real, p: Parts)
    requires Scaled(x, p.places) == p.digits as real && p.neg == (x < 0.0)
    ensures Value(p) == x
  {
    hide Pow10;
    var d := Pow10(p.places) as real;
    assert p.digits as real / d == Abs(x) by { assert Abs(x) * d / d == Abs(x); }
  }

  // The result of rounding is the canonical literal of a whole number of increments.
  lemma RoundsToCanonical(v: Decimal, inc: Decimal, away: bool)
    requires Valid(v) && Valid(inc) && Rat(inc) != 0.0
    ensures var d := RoundToIncrement(v, Some(inc), away);
            && IsLiteral(d.text)
            && Rat(d) == Times(Steps(Rat(v), Rat(inc), away), Rat(inc))
            && Canonical(Read(d.text))
  {
    hide Times, Write, Value, Steps, FloatString, Printed, IsLiteral, Read, Trimmed, DecimalPlaces;
    var n, p := Steps(Rat(v), Rat(inc), away), PartsOf(inc);
    var printed := Printed(n, p);
    PlacesOfText(inc);
    PrintsExactly(n, p);
    TrimmedIsReduced(printed);
    ReducedKeepsValue(printed);
    ReadWrite(Reduced(printed));
    LiteralIsNotEmpty(Write(Reduced(printed)));
  }

  lemma LiteralIsNotEmpty(s: string)
    requires IsLiteral(s)
    ensures s != ""
  {
  }

  /** The printed text always parses (the discarded error cannot happen), it is the exact
      value, and it is the one shortest literal of it, so never "-0". */
  lemma RoundingPrintsShortest(v: Decimal, inc: Decimal, away: bool, other: string)
    requires Valid(v) && Valid(inc) && Rat(inc) != 0.0
    ensures var d := RoundToIncrement(v, Some(inc), away);
            && ParseDecimal(d.text) == Some(d)
            && Rat(d) == Times(Steps(Rat(v), Rat(inc), away), Rat(inc))
            && !(Read(d.text).neg && Rat(d) == 0.0)
            && (IsLiteral(other) && Value(Read(other)) == Rat(d) ==>
                  |d.text| <= |other| && (|d.text| == |other| ==> d.text == other))
  {
    hide Steps, RoundToIncrement, Write, IsLiteral, Read, Pow10;
    RoundsToCanonical(v, inc, away);
    var d := RoundToIncrement(v, Some(inc), away);
    LiteralIsNotEmpty(d.text);
    var p := Read(d.text);
    WriteRead(d.text);
    NonNegative(p.digits as real, Pow10(p.places) as real);
    if IsLiteral(other) && Value(Read(other)) == Rat(d) {
      CanonicalIsShortest(p, other);
    }
  }

  /** Respelling changes nothing: the text of the result depends on the two values only. */
  lemma RespellingChangesNothing(v: Decimal, v': Decimal, inc: Decimal, inc': Decimal, away: bool)
    requires Valid(v) && Valid(v') && Valid(inc) && Valid(inc')
    requires Rat(v) == Rat(v') && Rat(inc) == Rat(inc') != 0.0
    ensures RoundToIncrement(v, Some(inc), away) == RoundToIncrement(v', Some(inc'), away)
  {
    hide Steps, RoundToIncrement, Write, IsLiteral, Read, Value;
    RoundsToCanonical(v, inc, away);
    RoundsToCanonical(v', inc', away);
    var d, d' := RoundToIncrement(v, Some(inc), away), RoundToIncrement(v', Some(inc'), away);
    LiteralIsNotEmpty(d.text);
    LiteralIsNotEmpty(d'.text);
    CanonicalIsUnique(Read(d.text), Read(d'.text));
    WriteRead(d.text);
    WriteRead(d'.text);
  }

  // --- the value -----------------------------------------------------------------------

  lemma WholeQuotient(n: int, step: real)
    requires step != 0.0
    ensures Times(n, step) / step == n as real && Trunc(n as real) == n
  {
  }

  /** Rounding twice gives the identical text. */
  lemma RoundingTwiceIsOnce(v: Decimal, inc: Option<Decimal>, away: bool)
    requires Valid(v) && (inc.Some? ==> Valid(inc.value))
    ensures var d := RoundToIncrement(v, inc, away);
            Valid(d) && RoundToIncrement(d, inc, away) == d
  {
    if inc.Some? && Rat(inc.value) != 0.0 {
      hide RoundToIncrement, Write, IsLiteral, Read, Value;
      RoundsToCanonical(v, inc.value, away);
      var d := RoundToIncrement(v, inc, away);
      LiteralIsNotEmpty(d.text);
      var n := Steps(Rat(v), Rat(inc.value), away);
      WholeQuotient(n, Rat(inc.value));
      RoundsToCanonical(d, inc.value, away);
      var d' := RoundToIncrement(d, inc, away);
      LiteralIsNotEmpty(d'.text);
      CanonicalIsUnique(Read(d.text), Read(d'.text));
      WriteRead(d.text);
      WriteRead(d'.text);
    }
  }

  predicate SameSide(x: real, y: real) { (x >= 0.0 && y >= 0.0) || (x <= 0.0 && y <= 0.0) }

  lemma CutMirrors(q: real, away: bool)
    ensures Cut(-q, away) == -Cut(q, away)
  {
    assert -(-q) == q;
  }

  lemma CutIsExtremal(q: real, away: bool, k: int)
    requires q >= 0.0
    ensures Cut(q, away) >= 0 && -1.0 < Cut(q, away) as real - q < 1.0
    ensures if away then Cut(q, away) as real >= q else Cut(q, away) as real <= q
    ensures away && k as real >= q ==> k >= Cut(q, away)
    ensures !away && k as real <= q ==> k <= Cut(q, away)
  {
    assert q.Floor as real <= q < q.Floor as real + 1.0;
  }

  // In units of the increment: n is q rounded, and no whole number does better.
  lemma StepsAreExtremal(q: real, n: int, away: bool, k: int)
    requires n == Cut(q, away)
    ensures SameSide(n as real, q) && Abs(n as real - q) < 1.0
    ensures if away then Abs(n as real) >= Abs(q) else Abs(n as real) <= Abs(q)
    ensures SameSide(k as real, q) && away && Abs(k as real) >= Abs(q) ==> Abs(k as real) >= Abs(n as real)
    ensures SameSide(k as real, q) && !away && Abs(k as real) <= Abs(q) ==> Abs(k as real) <= Abs(n as real)
  {
    hide Cut;
    if q >= 0.0 {
      CutIsExtremal(q, away, k);
      CutIsExtremal(q, away, 0);
    } else {
      CutMirrors(q, away);
      CutIsExtremal(-q, away, -k);
      CutIsExtremal(-q, away, 0);
      assert (-k) as real == -(k as real) && (-n) as real == -(n as real);
    }
  }

  lemma AbsMul(x: real, y: real)
    ensures Abs(Mul(x, y)) == Mul(Abs(x), Abs(y))
  {
    AbsProduct(x, y, Abs(x), Abs(y));
  }

  lemma MulLess(a: real, b: real, c: real)
    requires a < b && c > 0.0
    ensures Mul(a, c) < Mul(b, c)
  {
    assert (b - a) * c > 0.0;
  }

  lemma MulSide(x: real, y: real, c: real)
    requires c != 0.0
    ensures SameSide(x, y) <==> SameSide(Mul(x, c), Mul(y, c))
  {
  }

  // Sizes compare as they do in units of the increment.
  lemma ScaleAbs(x: real, y: real, step: real)
    requires step != 0.0
    ensures Abs(x) < Abs(y) <==> Abs(Mul(x, step)) < Abs(Mul(y, step))
  {
    hide Mul;
    AbsMul(x, step);
    AbsMul(y, step);
    if Abs(x) < Abs(y) {
      MulLess(Abs(x), Abs(y), Abs(step));
    } else if Abs(y) < Abs(x) {
      MulLess(Abs(y), Abs(x), Abs(step));
    }
  }

  lemma QuotientBack(v: real, step: real, n: real)
    requires step != 0.0
    ensures Mul(v / step, step) == v
    ensures Mul(n - v / step, step) == Mul(n, step) - v
    ensures Mul(1.0, step) == step
  {
    var q := v / step;
    assert q * step == v;
  }

  /** The value of rounding, for every sign of value and increment: a whole number of
      increments, on the value's side of zero, less than one increment away, toward zero or
      away from it as asked; and no other multiple there is nearer. */
  lemma RoundingIsExtremal(v: Decimal, inc: Decimal, away: bool, k: int)
    requires Valid(v) && Valid(inc) && Rat(inc) != 0.0
    ensures var x, step, r := Rat(v), Rat(inc), Rat(RoundToIncrement(v, Some(inc), away));
            var y := Times(k, step);
            && r == Times(Steps(x, step, away), step)
            && SameSide(r, x) && Abs(r - x) < Abs(step)
            && (if away then Abs(r) >= Abs(x) else Abs(r) <= Abs(x))
            && (SameSide(y, x) && away && Abs(y) >= Abs(x) ==> Abs(y) >= Abs(r))
            && (SameSide(y, x) && !away && Abs(y) <= Abs(x) ==> Abs(y) <= Abs(r))
  {
    hide RoundToIncrement, Mul, Rat, IsLiteral, Abs, SameSide;
    RoundsToCanonical(v, inc, away);
    var x, step := Rat(v), Rat(inc);
    var q, n := x / step, Steps(x, step, away);
    ScaledExtremal(x, step, q, n, away, k);
  }

  lemma ScaledExtremal(x: real, step: real, q: real, n: int, away: bool, k: int)
    requires step != 0.0 && q == x / step && n == Steps(x, step, away)
    ensures var r, y := Times(n, step), Times(k, step);
            && SameSide(r, x) && Abs(r - x) < Abs(step)
            && (if away then Abs(r) >= Abs(x) else Abs(r) <= Abs(x))
            && (SameSide(y, x) && away && Abs(y) >= Abs(x) ==> Abs(y) >= Abs(r))
            && (SameSide(y, x) && !away && Abs(y) <= Abs(x) ==> Abs(y) <= Abs(r))
  {
    hide Mul, SameSide, Cut;
    StepsAreExtremal(q, n, away, k);
    QuotientBack(x, step, n as real);
    MulSide(n as real, q, step);
    MulSide(k as real, q, step);
    ScaleAbs(n as real - q, 1.0, step);
    ScaleAbs(n as real, q, step);
    ScaleAbs(q, n as real, step);
    ScaleAbs(k as real, q, step);
    ScaleAbs(q, k as real, step);
    ScaleAbs(k as real, n as real, step);
    ScaleAbs(n as real, k as real, step);
  }

  lemma StepsMonotone(p: real, q: real, away: bool)
    requires p <= q
    ensures Cut(p, away) <= Cut(q, away)
  {
  }

  lemma QuotientsOrdered(x: real, y: real, step: real)
    requires x <= y && step != 0.0
    ensures if step > 0.0 then x / step <= y / step else y / step <= x / step
  {
    var p, q := x / step, y / step;
    assert p * step == x && q * step == y;
    assert (q - p) * step >= 0.0;
  }

  /** Rounding is monotone, whatever the sign of the increment. */
  lemma RoundingIsMonotone(v: Decimal, v': Decimal, inc: Decimal, away: bool)
    requires Valid(v) && Valid(v') && Valid(inc) && Rat(inc) != 0.0 && Rat(v) <= Rat(v')
    ensures Rat(RoundToIncrement(v, Some(inc), away)) <= Rat(RoundToIncrement(v', Some(inc), away))
  {
    hide RoundToIncrement, Rat, IsLiteral, Cut;
    RoundsToCanonical(v, inc, away);
    RoundsToCanonical(v', inc, away);
    var x, x', step := Rat(v), Rat(v'), Rat(inc);
    QuotientsOrdered(x, x', step);
    if step > 0.0 {
      StepsMonotone(x / step, x' / step, away);
    } else {
      StepsMonotone(x' / step, x / step, away);
    }
    MulOrdered(Steps(x, step, away) as real, Steps(x', step, away) as real, step);
  }

  lemma MulOrdered(a: real, b: real, c: real)
    requires if c > 0.0 then a <= b else b <= a
    ensures Mul(a, c) <= Mul(b, c)
  {
    assert (b - a) * c >= 0.0;
  }

  /** A value already on the grid keeps its value. */
  lemma OnGridIsFixed(v: Decimal, inc: Decimal, away: bool, k: int)
    requires Valid(v) && Valid(inc) && Rat(inc) != 0.0 && Rat(v) == Times(k, Rat(inc))
    ensures Rat(RoundToIncrement(v, Some(inc), away)) == Rat(v)
  {
    hide RoundToIncrement, Rat, IsLiteral, Times;
    RoundsToCanonical(v, inc, away);
    WholeQuotient(k, Rat(inc));
  }

  ghost predicate OnGrid(x: real, step: real) { exists k: int :: x == Times(k, step) }

  lemma MovesUnlessOnGrid(v: Decimal, inc: Decimal, away: bool)
    requires Valid(v) && Valid(inc) && Rat(inc) != 0.0
    ensures Rat(RoundToIncrement(v, Some(inc), away)) == Rat(v) <==> OnGrid(Rat(v), Rat(inc))
  {
    hide RoundToIncrement, Rat, IsLiteral, Steps, Times, Abs;
    RoundingIsExtremal(v, inc, away, 0);
    if OnGrid(Rat(v), Rat(inc)) {
      var k: int :| Rat(v) == Times(k, Rat(inc));
      OnGridIsFixed(v, inc, away, k);
    }
  }

  /** A buy never rounds up and a sell never rounds down, so neither moves toward the other
      side of the book, exactly when the price is not negative or is a whole number of ticks;
      an unknown side is refused. */
  lemma SidesNeverCross(tick: Decimal, lot: Option<Decimal>, price: Decimal, side: Side)
    requires Valid(tick) && Valid(price) && Rat(tick) != 0.0
    ensures var r := RoundPrice(Market(Some(tick), lot), price, side);
            var safe := Rat(price) >= 0.0 || OnGrid(Rat(price), Rat(tick));
            match side
            case Buy => r.Some? && (Rat(r.value) <= Rat(price) <==> safe)
            case Sell => r.Some? && (Rat(r.value) >= Rat(price) <==> safe)
            case OtherSide(_) => r.None?
  {
    hide RoundToIncrement, Rat, IsLiteral, Steps, OnGrid;
    assert Times(0, Rat(tick)) == 0.0;
    RoundingIsExtremal(price, tick, false, 0);
    RoundingIsExtremal(price, tick, true, 0);
    MovesUnlessOnGrid(price, tick, false);
    MovesUnlessOnGrid(price, tick, true);
  }

  /** A rounded size is never more risk than asked: it is the largest whole number of lots no
      larger than the size, on its side of zero. */
  lemma SizeNeverGrows(tick: Option<Decimal>, lot: Decimal, size: Decimal, k: int)
    requires Valid(lot) && Valid(size) && Rat(lot) != 0.0
    ensures var r := Rat(RoundSize(Market(tick, Some(lot)), size));
            && SameSide(r, Rat(size)) && Abs(r) <= Abs(Rat(size)) && OnGrid(r, Rat(lot))
            && (SameSide(Times(k, Rat(lot)), Rat(size)) && Abs(Times(k, Rat(lot))) <= Abs(Rat(size)) ==>
                  Abs(Times(k, Rat(lot))) <= Abs(r))
  {
    hide RoundToIncrement, Rat, IsLiteral, Steps, Times, Abs, SameSide;
    RoundingIsExtremal(size, lot, false, k);
  }

  // No increment, or one of zero however it is spelled.
  ghost predicate NoGrid(inc: Option<Decimal>)
    requires inc.Some? ==> Valid(inc.value)
  {
    inc.Some? ==> Rat(inc.value) == 0.0
  }

  /** Without a tick a price, and without a lot a size, comes back letter for letter. */
  lemma NoGridChangesNothing(m: Market, v: Decimal)
    requires Valid(v) && (m.tick.Some? ==> Valid(m.tick.value)) && (m.lot.Some? ==> Valid(m.lot.value))
    ensures NoGrid(m.tick) ==> RoundPrice(m, v, Buy) == Some(v) && RoundPrice(m, v, Sell) == Some(v)
    ensures NoGrid(m.lot) ==> RoundSize(m, v) == v
  {
    hide Rat, FloatString, Trimmed, ParseDecimal;
  }
}
