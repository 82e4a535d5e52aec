/** Denominations and the printing of amounts in their units (crypto/src/asset/denom.rs). */
module Denom {
  import opened Prelude
  import opened Decimal

  /** Exponents whose power of ten fits in 64 bits. */
  const MAX_EXPONENT: nat := 19

  function FormatValue(value: nat, exponent: nat): string {
    var v1, v2 := Quotient(value, Pow10(exponent)), Remainder(value, Pow10(exponent));
    var stripped := TrimEnd(Padded(v2, exponent));
    if v2 != 0 then Numeral(v1) + "." + stripped else Numeral(v1)
  }

  function ParseValue(value: string, exponent: nat): Result<nat, ParseError> {
    var split := Split(value);
    if |split| > 2 then Err(TwoPoints)
    else
      var left := split[0];
      var right := if |split| > 1 then split[1] else "0";
      var v1 :- ParseU64(left);
      var v2 :- ParseU64(right);
      Assemble(v1, v2, |right|, exponent)
  }

  /** Put together the parts before and after the point, the latter of `places` digits. */
  function Assemble(v1: nat, v2: nat, places: nat, exponent: nat): Result<nat, ParseError> {
    if places == exponent + 1 && v2 == 0 then Ok(v1)
    else if places > exponent then Err(CannotRepresent)
    else
      var total: nat := v1 * Pow10(exponent) + v2 * Pow10(exponent - places);
      if total >= U64 then Err(TooLarge) else Ok(total)
  }

  // ---------------------------------------------------------------------------------------------
  // What a decimal string means
  // ---------------------------------------------------------------------------------------------

  /** Scaling the digits after the point up to the exponent never overflows. */
  lemma FractionFits(right: string, exponent: nat)
    requires ParseU64(right).Ok? && |right| <= exponent <= MAX_EXPONENT
    ensures ParseU64(right).value * Pow10(exponent - |right|) < U64 && Pow10(exponent) < U64
  {
    Pow10Fits(exponent);
    var digits := if right[0] == '+' then right[1..] else right;
    NumberBound(digits);
    var rest := exponent - |right|;
    Pow10Add(|digits|, rest);
    Pow10Fits(|digits| + rest);
    MulMono(NumberOf(digits), Pow10(|digits|), Pow10(rest));
  }

  /** How digits, a point and digits are parsed. */
  lemma ParsePointed(left: string, right: string, exponent: nat)
    requires left != [] && right != [] && AllDigits(left) && AllDigits(right)
    requires NumberOf(left) < U64 && NumberOf(right) < U64
    ensures ParseValue(left + "." + right, exponent) == Assemble(NumberOf(left), NumberOf(right), |right|, exponent)
  {
    DigitsHaveNoPoint(left);
    DigitsHaveNoPoint(right);
    SplitAtPoint(left, right);
    ParseDigits(left);
    ParseDigits(right);
    hide AllDigits, Assemble, ParseU64, Split;
  }

  lemma DigitsHaveNoPoint(s: string)
    requires AllDigits(s)
    ensures NoPoint(s)
  {}

  /**
   A parsed value is the one the string denotes, except that with one digit after
   the point more than the unit has, all of them zero, the scale of the unit is lost.
   */
  lemma ParseIsExactIff(left: string, right: string, exponent: nat)
    requires left != [] && right != [] && AllDigits(left) && AllDigits(right)
    requires NumberOf(left) < U64 && NumberOf(right) < U64 && ParseValue(left + "." + right, exponent).Ok?
    ensures var x := ParseValue(left + "." + right, exponent).value;
            x * Pow10(|right|) == (NumberOf(left) * Pow10(|right|) + NumberOf(right)) * Pow10(exponent)
            <==> !(exponent > 0 && |right| == exponent + 1 && NumberOf(left) > 0)
  {
    hide Pow10, ParseValue, NumberOf, AllDigits;
    ParsePointed(left, right, exponent);
    var l, r, n := NumberOf(left), NumberOf(right), |right|;
    if n == exponent + 1 && r == 0 {
      ScaleLost(l, n, exponent);
    } else {
      assert n <= exponent;
      Pow10Add(exponent - n, n);
      ExactScale(l, r, Pow10(exponent), Pow10(exponent - n), Pow10(n));
    }
  }

  lemma ScaleLost(l: nat, n: nat, e: nat)
    ensures l * Pow10(n) == (l * Pow10(n) + 0) * Pow10(e) <==> !(e > 0 && l > 0)
  {
    var t := l * Pow10(n);
    if e == 0 {
      assert t * Pow10(e) == t;
    } else if l == 0 {
      assert t == 0 && t * Pow10(e) == 0;
    } else {
      assert t >= Pow10(n) by { MulMono(1, l, Pow10(n)); }
      assert Pow10(e) == 10 * Pow10(e - 1) && Pow10(e) >= 10;
      MulMono(10, Pow10(e), t);
    }
  }

  lemma ExactScale(l: nat, r: nat, pe: nat, pd: nat, pn: nat)
    requires pe == pd * pn
    ensures (l * pe + r * pd) * pn == (l * pn + r) * pe
  {
    assert (l * pe + r * pd) * pn == l * pe * pn + r * pd * pn;
    assert (l * pn + r) * pe == l * pn * pe + r * pe;
    assert l * pe * pn == l * pn * pe;
    assert r * pd * pn == r * pe by { assert r * pd * pn == r * (pd * pn); }
  }

  /** Digits, point and digits are accepted if and only if all fits, and the places do or are one zero too many. */
  lemma ParseAcceptsIff(left: string, right: string, exponent: nat)
    requires left != [] && right != [] && AllDigits(left) && AllDigits(right)
    ensures ParseValue(left + "." + right, exponent).Ok? <==>
            && NumberOf(left) < U64 && NumberOf(right) < U64
            && ((|right| <= exponent && Denoted(left, right, exponent) < U64)
                || (|right| == exponent + 1 && NumberOf(right) == 0))
  {
    hide NumberOf, Pow10, AllDigits;
    if NumberOf(left) < U64 && NumberOf(right) < U64 {
      hide ParseValue;
      ParsePointed(left, right, exponent);
    } else {
      SplitDigits(left, right);
      ParseDigits(left);
      ParseDigits(right);
      hide Split;
    }
  }

  lemma SplitDigits(left: string, right: string)
    requires AllDigits(left) && AllDigits(right)
    ensures Split(left + "." + right) == [left, right]
  {
    DigitsHaveNoPoint(left);
    DigitsHaveNoPoint(right);
    SplitAtPoint(left, right);
  }

  /** Digits alone are whole units. */
  lemma ParseWhole(left: string, exponent: nat)
    requires left != [] && AllDigits(left)
    ensures ParseValue(left, exponent)
            == if NumberOf(left) * Pow10(exponent) < U64 then Ok(NumberOf(left) * Pow10(exponent)) else Err(TooLarge)
  {
    hide ParseU64, Split, NumberOf, AllDigits, Pow10, Assemble;
    DigitsHaveNoPoint(left);
    SplitWhole(left);
    ParseDigits(left);
    ZeroParses();
    if NumberOf(left) < U64 {
      WholeAssembles(NumberOf(left), exponent);
    } else {
      MulMono(1, Pow10(exponent), NumberOf(left));
    }
  }

  lemma ZeroParses()
    ensures ParseU64("0") == Ok(0)
  {
    assert NumberOf("0") == 0 by { assert "0"[..0] == ""; }
    ParseDigits("0");
  }

  lemma WholeAssembles(v1: nat, exponent: nat)
    requires v1 < U64
    ensures var v := v1 * Pow10(exponent); Assemble(v1, 0, 1, exponent) == if v < U64 then Ok(v) else Err(TooLarge)
  {
    if exponent == 0 {
      assert Pow10(0) == 1;
    } else {
      assert 0 * Pow10(exponent - 1) == 0;
    }
  }

  /** A sign after the point is taken for one more digit: it shifts the value as a zero there would. */
  lemma PlusShifts(left: string, digits: string, exponent: nat)
    requires left != [] && digits != [] && AllDigits(left) && AllDigits(digits)
    ensures ParseValue(left + "." + ("+" + digits), exponent) == ParseValue(left + "." + ("0" + digits), exponent)
  {
    hide Split, NumberOf, Assemble, ParseU64, AllDigits;
    DigitsHaveNoPoint(left);
    DigitsHaveNoPoint(digits);
    SplitAtPoint(left, "+" + digits);
    SplitAtPoint(left, "0" + digits);
    PlusParses(digits);
  }

  lemma PlusParses(digits: string)
    requires digits != [] && AllDigits(digits)
    ensures ParseU64("+" + digits) == ParseU64("0" + digits)
  {
    hide NumberOf;
    var zero := "0" + digits;
    assert ("+" + digits)[1..] == digits;
    assert Zeros(1) == "0";
    LeadingZeros(1, digits);
    ParseDigits(zero);
  }

  /** The whole of the unit, written with a point and seven zeros, is parsed as one base unit. */
  lemma ScaleLostExample()
    ensures ParseValue("1.0000000", 6) == Ok(1) && ParseValue("1.000000", 6) == Ok(1_000_000)
  {
    assert "1.0000000" == "1" + "." + Zeros(7) && "1.000000" == "1" + "." + Zeros(6);
    ZerosAreZero(7);
    ZerosAreZero(6);
    assert NumberOf("1") == 1 by { assert "1"[..0] == ""; }
    ParsePointed("1", Zeros(7), 6);
    ParsePointed("1", Zeros(6), 6);
    assert Pow10(6) == 1_000_000 && Pow10(0) == 1;
  }

  // ---------------------------------------------------------------------------------------------
  // Round trip
  // ---------------------------------------------------------------------------------------------

  /** Every 64-bit value, printed in any unit, is parsed back. */
  lemma RoundTrip(value: nat, exponent: nat)
    requires value < U64 && exponent <= MAX_EXPONENT
    ensures ParseValue(FormatValue(value, exponent), exponent) == Ok(value)
  {
    hide Pow10, Quotient, Remainder, ParseValue, Numeral, Padded, TrimEnd;
    var v1, v2 := Quotient(value, Pow10(exponent)), Remainder(value, Pow10(exponent));
    QuotientLaw(value, Pow10(exponent));
    if v2 == 0 {
      RoundTripWhole(v1, exponent);
    } else {
      RoundTripPointed(v1, v2, exponent);
    }
  }

  lemma PointedAssembles(v1: nat, r: nat, places: nat, exponent: nat)
    requires places <= exponent && v1 * Pow10(exponent) + r * Pow10(exponent - places) < U64
    ensures Assemble(v1, r, places, exponent) == Ok(v1 * Pow10(exponent) + r * Pow10(exponent - places))
  {}

  lemma RoundTripWhole(v1: nat, exponent: nat)
    requires v1 * Pow10(exponent) < U64
    ensures ParseValue(Numeral(v1), exponent) == Ok(v1 * Pow10(exponent))
  {
    hide ParseValue, Numeral, NumberOf, AllDigits, Pow10;
    NumeralRoundTrip(v1);
    ParseWhole(Numeral(v1), exponent);
  }

  lemma EmptyIsZero(s: string)
    requires AllDigits(s)
    ensures s == [] ==> forall k: nat :: NumberOf(s) * Pow10(k) == 0
  {}

  /** The digits printed after the point, and what they stand for. */
  lemma FractionPart(v2: nat, exponent: nat)
    requires 0 < v2 < Pow10(exponent)
    ensures var right := TrimEnd(Padded(v2, exponent));
            && right != [] && AllDigits(right) && |right| <= exponent && NumberOf(right) <= v2
            && v2 == NumberOf(right) * Pow10(exponent - |right|)
  {
    assert Pow10(0) == 1;
    hide Padded, TrimEnd, Pow10, NumberOf;
    var padded := Padded(v2, exponent);
    var right := TrimEnd(padded);
    PaddedNumber(v2, exponent);
    TrimmedNumber(padded);
    EmptyIsZero(right);
    MulMono(1, Pow10(exponent - |right|), NumberOf(right));
  }

  lemma RoundTripPointed(v1: nat, v2: nat, exponent: nat)
    requires 0 < v2 < Pow10(exponent) && v1 * Pow10(exponent) + v2 < U64 && v1 < U64
    ensures ParseValue(Numeral(v1) + "." + TrimEnd(Padded(v2, exponent)), exponent) == Ok(v1 * Pow10(exponent) + v2)
  {
    hide Numeral, Padded, TrimEnd, Pow10, ParseValue, NumberOf, Assemble, AllDigits;
    var right := TrimEnd(Padded(v2, exponent));
    NumeralRoundTrip(v1);
    FractionPart(v2, exponent);
    MulMono(0, v1, Pow10(exponent));
    ParsePointed(Numeral(v1), right, exponent);
    PointedAssembles(v1, NumberOf(right), |right|, exponent);
  }

  // ---------------------------------------------------------------------------------------------
  // The printed form
  // ---------------------------------------------------------------------------------------------

  /** A decimal string in its shortest form: no needless zero in front, none at the end, and no bare point. */
  ghost predicate Shortest(left: string, right: string) {
    AllDigits(left) && AllDigits(right) && NoNeedlessZero(left) && (right != [] ==> right[|right| - 1] != '0')
  }

  function Pointed(left: string, right: string): string {
    if right == [] then left else left + "." + right
  }

  /** What digits before and after the point denote in a unit, in base units. */
  function Denoted(left: string, right: string, exponent: nat): nat
    requires AllDigits(left) && AllDigits(right) && |right| <= exponent
  {
    NumberOf(left) * Pow10(exponent) + NumberOf(right) * Pow10(exponent - |right|)
  }

  lemma FormatIsShortest(value: nat, exponent: nat) returns (left: string, right: string)
    ensures Shortest(left, right) && |right| <= exponent
    ensures FormatValue(value, exponent) == Pointed(left, right) && Denoted(left, right, exponent) == value
  {
    hide Pow10, Numeral, NumberOf, TrimEnd, Padded, AllDigits;
    var v1, v2 := Quotient(value, Pow10(exponent)), Remainder(value, Pow10(exponent));
    QuotientLaw(value, Pow10(exponent));
    left := Numeral(v1);
    NumeralRoundTrip(v1);
    NumeralIsShort(v1);
    if v2 == 0 {
      right := [];
      NothingAfterPoint(exponent);
    } else {
      right := TrimEnd(Padded(v2, exponent));
      FractionPart(v2, exponent);
      TrimEnds(Padded(v2, exponent));
    }
  }

  lemma NothingAfterPoint(exponent: nat)
    ensures AllDigits([]) && NumberOf([]) * Pow10(exponent) == 0
  {}

  lemma NumeralIsShort(n: nat)
    ensures NoNeedlessZero(Numeral(n))
  {
    NumeralRoundTrip(n);
    if n >= 10 {
      assert Numeral(n)[0] != '0';
    }
  }

  /** Printing gives the one shortest decimal string that denotes the value. */
  lemma ShortestIsFormat(left: string, right: string, exponent: nat)
    requires Shortest(left, right) && |right| <= exponent
    ensures FormatValue(Denoted(left, right, exponent), exponent) == Pointed(left, right)
  {
    hide Pow10, Numeral, NumberOf, TrimEnd, Padded, AllDigits, Quotient, Remainder;
    var v1, v2 := NumberOf(left), NumberOf(right) * Pow10(exponent - |right|);
    NumeralOfDigits(left);
    if right == [] {
      NothingAfterPoint(exponent);
      Divides(v1, 0, Pow10(exponent));
    } else {
      TrimPadded(right, exponent);
      Divides(v1, v2, Pow10(exponent));
      NonzeroFraction(right, exponent - |right|);
    }
  }

  lemma NonzeroFraction(right: string, n: nat)
    requires AllDigits(right) && right != [] && right[|right| - 1] != '0'
    ensures NumberOf(right) * Pow10(n) != 0
  {
    assert NumberOf(right) >= 1;
    MulMono(1, NumberOf(right), Pow10(n));
  }

  lemma Divides(q: nat, r: nat, d: nat)
    requires r < d
    ensures Quotient(q * d + r, d) == q && Remainder(q * d + r, d) == r
  {
    var x := q * d + r;
    QuotientLaw(x, d);
    var k := Quotient(x, d);
    if k < q {
      MulMono(k + 1, q, d);
    } else if k > q {
      MulMono(q + 1, k, d);
    }
  }

  /** Different values print differently. */
  lemma FormatIsInjective(v: nat, w: nat, exponent: nat)
    requires v < U64 && w < U64 && exponent <= MAX_EXPONENT && FormatValue(v, exponent) == FormatValue(w, exponent)
    ensures v == w
  {
    RoundTrip(v, exponent);
    RoundTrip(w, exponent);
  }

  // ---------------------------------------------------------------------------------------------
  // Units
  // ---------------------------------------------------------------------------------------------

  datatype UnitData = UnitData(exponent: nat, denom: string)

  /** Units of a denomination: those given, then the base unit. */
  method NewUnits(baseDenom: string, units: seq<UnitData>) returns (r: Option<seq<UnitData>>)
    ensures r.Some? <==> forall u :: u in units ==> u.exponent != 0 && u.denom != baseDenom
    ensures r.Some? ==> WellFormed(r.value) && |r.value| == |units| + 1 && r.value[..|units|] == units
  {
    for i := 0 to |units|
      invariant forall j :: 0 <= j < i ==> units[j].exponent != 0 && units[j].denom != baseDenom
    {
      if units[i].exponent == 0 || units[i].denom == baseDenom {
        return None;
      }
    }
    return Some(units + [UnitData(0, baseDenom)]);
  }

  /** The base unit comes last, and is the only one with exponent zero. */
  predicate WellFormed(units: seq<UnitData>) {
    && units != [] && units[|units| - 1].exponent == 0
    && forall i :: 0 <= i < |units| - 1 ==> units[i].exponent != 0
  }

  predicate Descending(units: seq<UnitData>) {
    forall i, j :: 0 <= i < j < |units| ==> units[i].exponent >= units[j].exponent
  }

  /**
   The best unit for an amount: for descending units, the largest one that does not
   exceed the amount, so that the amount is printed in it without a leading zero; the
   base unit if the amount is below every unit, that is, zero.
   */
  method BestUnitFor(units: seq<UnitData>, amount: nat) returns (index: nat)
    requires WellFormed(units)
    ensures index < |units|
    ensures amount == 0 ==> index == |units| - 1
    ensures amount > 0 ==> Pow10(units[index].exponent) <= amount
    ensures Descending(units) ==> forall j ::
            0 <= j < |units| && Pow10(units[j].exponent) <= amount ==> units[j].exponent <= units[index].exponent
    ensures FormatValue(amount, units[index].exponent)[..1] == "0" <==> amount == 0
  {
    for i := 0 to |units|
      invariant forall j :: 0 <= j < i ==> Pow10(units[j].exponent) > amount
    {
      if amount >= Pow10(units[i].exponent) {
        FirstDigit(amount, units[i].exponent);
        return i;
      }
    }
    assert Pow10(units[|units| - 1].exponent) == 1;
    FirstDigit(amount, 0);
    return |units| - 1;
  }

  lemma FirstDigit(amount: nat, exponent: nat)
    requires Pow10(exponent) <= amount || (amount == 0 && exponent == 0)
    ensures FormatValue(amount, exponent)[..1] == "0" <==> amount == 0
  {
    hide Pow10, Quotient, Remainder, Numeral, Padded, TrimEnd;
    var v1 := Quotient(amount, Pow10(exponent));
    QuotientLaw(amount, Pow10(exponent));
    NumeralRoundTrip(v1);
    assert FormatValue(amount, exponent)[0] == Numeral(v1)[0];
    assert FormatValue(amount, exponent)[..1] == [Numeral(v1)[0]];
  }
}
