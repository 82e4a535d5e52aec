/** Decimal numerals: printing, padding, trimming, splitting and parsing. */
module Decimal {
  import opened Prelude

  function Pow10(n: nat): (r: nat)
    ensures r > 0
  {
    if n == 0 then 1 else 10 * Pow10(n - 1)
  }

  /** Division of naturals, with the law that defines it. */
  function Quotient(a: nat, b: nat): (r: nat)
    requires b > 0
  {
    a / b
  }

  function Remainder(a: nat, b: nat): (r: nat)
    requires b > 0
    ensures r < b
  {
    a % b
  }

  lemma QuotientLaw(a: nat, b: nat)
    requires b > 0
    ensures a == Quotient(a, b) * b + Remainder(a, b)
    ensures Quotient(a, b) <= a && (Quotient(a, b) > 0 <==> a >= b)
  {
    var k := Quotient(a, b);
    assert a == k * b + Remainder(a, b);
    MulMono(1, b, k);
    if k > 0 {
      MulMono(1, k, b);
    }
  }

  predicate IsDigit(c: char) { '0' <= c <= '9' }

  predicate AllDigits(s: string) {
    forall i :: 0 <= i < |s| ==> IsDigit(s[i])
  }

  function Digit(d: nat): char
    requires d < 10
  {
    '0' + d as char
  }

  function DigitValue(c: char): nat
    requires IsDigit(c)
  {
    (c - '0') as nat
  }

  /** The number a string of digits denotes. */
  function NumberOf(s: string): nat
    requires AllDigits(s)
  {
    if s == [] then 0 else 10 * NumberOf(s[..|s| - 1]) + DigitValue(s[|s| - 1])
  }

  /** The shortest numeral of `n`. */
  function Numeral(n: nat): string {
    if n < 10 then [Digit(n)] else Numeral(n / 10) + [Digit(n % 10)]
  }

  function Zeros(n: nat): string {
    seq(n, i => '0')
  }

  /** At least `width` digits, with zeros on the left. */
  function Padded(n: nat, width: nat): string {
    var s := Numeral(n);
    if |s| < width then Zeros(width - |s|) + s else s
  }

  function TrimEnd(s: string): string {
    if s != [] && s[|s| - 1] == '0' then TrimEnd(s[..|s| - 1]) else s
  }

  /** The pieces between decimal points. */
  function Split(s: string): (parts: seq<string>)
    ensures |parts| > 0
  {
    if s == [] then [[]]
    else
      var init := Split(s[..|s| - 1]);
      var c := s[|s| - 1];
      if c == '.' then init + [[]] else init[..|init| - 1] + [init[|init| - 1] + [c]]
  }

  datatype ParseError = EmptyNumber | InvalidDigit | TooLarge | TwoPoints | CannotRepresent

  /** An unsigned 64-bit number: one optional plus sign, then digits. */
  function ParseU64(s: string): Result<nat, ParseError> {
    var digits := if s != [] && s[0] == '+' then s[1..] else s;
    if s == [] then Err(EmptyNumber)
    else if digits == [] || !AllDigits(digits) then Err(InvalidDigit)
    else if NumberOf(digits) >= U64 then Err(TooLarge)
    else Ok(NumberOf(digits))
  }

  // ---------------------------------------------------------------------------------------------
  // Laws
  // ---------------------------------------------------------------------------------------------

  lemma TenFirst(x: nat, y: nat)
    ensures 10 * (x * y) == 10 * x * y
  {}

  lemma {:induction false} Pow10Add(a: nat, b: nat)
    ensures Pow10(a + b) == Pow10(a) * Pow10(b)
  {
    if a > 0 {
      Pow10Add(a - 1, b);
      TenFirst(Pow10(a - 1), Pow10(b));
    }
  }

  lemma TenTimes(x: nat, k: nat)
    ensures x * Pow10(k + 1) == 10 * (x * Pow10(k))
  {}

  lemma Pow10Fits(e: nat)
    requires e <= 19
    ensures Pow10(e) < U64
  {
    assert Pow10(10) == 10_000_000_000 by { assert Pow10(5) == 100_000; }
    assert Pow10(19) < U64 by { Pow10Add(9, 10); assert Pow10(9) == 1_000_000_000; }
    Pow10Add(e, 19 - e);
    assert Pow10(e) * 1 <= Pow10(e) * Pow10(19 - e) by { MulMono(1, Pow10(19 - e), Pow10(e)); }
  }

  lemma {:induction false} NumberAppend(a: string, b: string)
    requires AllDigits(a) && AllDigits(b)
    ensures AllDigits(a + b) && NumberOf(a + b) == NumberOf(a) * Pow10(|b|) + NumberOf(b)
  {
    if b == [] {
      assert a + b == a;
    } else {
      var init := b[..|b| - 1];
      NumberAppend(a, init);
      assert (a + b)[..|a + b| - 1] == a + init;
      TenTimes(NumberOf(a), |init|);
    }
  }

  lemma {:induction false} NumberBound(s: string)
    requires AllDigits(s)
    ensures NumberOf(s) < Pow10(|s|)
  {
    if s != [] {
      NumberBound(s[..|s| - 1]);
    }
  }

  lemma {:induction false} ZerosAreZero(n: nat)
    ensures AllDigits(Zeros(n)) && NumberOf(Zeros(n)) == 0
  {
    if n > 0 {
      ZerosAreZero(n - 1);
      assert Zeros(n)[..n - 1] == Zeros(n - 1);
    }
  }

  /** A numeral denotes its number and has no needless zero in front. */
  lemma {:induction false} NumeralRoundTrip(n: nat)
    ensures Numeral(n) != [] && AllDigits(Numeral(n)) && NumberOf(Numeral(n)) == n
    ensures Numeral(n)[0] == '0' <==> n == 0
  {
    if n >= 10 {
      NumeralRoundTrip(n / 10);
      assert Numeral(n)[..|Numeral(n)| - 1] == Numeral(n / 10);
    }
  }

  lemma {:induction false} NumeralLength(n: nat, k: nat)
    requires k > 0 && n < Pow10(k)
    ensures |Numeral(n)| <= k
  {
    if n >= 10 {
      assert k > 1;
      NumeralLength(n / 10, k - 1);
    }
  }

  lemma PaddedNumber(n: nat, width: nat)
    ensures AllDigits(Padded(n, width)) && NumberOf(Padded(n, width)) == n
    ensures width > 0 && n < Pow10(width) ==> |Padded(n, width)| == width
  {
    hide Numeral, NumberOf, Zeros, Pow10;
    NumeralRoundTrip(n);
    if width > 0 && n < Pow10(width) {
      NumeralLength(n, width);
    }
    if |Numeral(n)| < width {
      LeadingZeros(width - |Numeral(n)|, Numeral(n));
    }
  }

  lemma LeadingZeros(n: nat, s: string)
    requires AllDigits(s)
    ensures AllDigits(Zeros(n) + s) && NumberOf(Zeros(n) + s) == NumberOf(s) && |Zeros(n)| == n
  {
    ZerosAreZero(n);
    NumberAppend(Zeros(n), s);
    assert 0 * Pow10(|s|) == 0;
  }

  /** Trimming drops factors of ten. */
  lemma {:induction false} TrimmedNumber(s: string)
    requires AllDigits(s)
    ensures |TrimEnd(s)| <= |s| && AllDigits(TrimEnd(s))
    ensures NumberOf(s) == NumberOf(TrimEnd(s)) * Pow10(|s| - |TrimEnd(s)|)
  {
    if s != [] && s[|s| - 1] == '0' {
      var init := s[..|s| - 1];
      TrimmedNumber(init);
      TenTimes(NumberOf(TrimEnd(init)), |init| - |TrimEnd(init)|);
    }
  }

  ghost predicate NoPoint(s: string) {
    forall i :: 0 <= i < |s| ==> s[i] != '.'
  }

  lemma {:induction false} SplitWhole(s: string)
    requires NoPoint(s)
    ensures Split(s) == [s]
  {
    if s != [] {
      SplitWhole(s[..|s| - 1]);
      assert s == s[..|s| - 1] + [s[|s| - 1]];
    }
  }

  lemma {:induction false} SplitAtPoint(a: string, b: string)
    requires NoPoint(a) && NoPoint(b)
    ensures Split(a + "." + b) == [a, b]
  {
    hide Split;
    if b == [] {
      SplitWhole(a);
      SplitNext(a, '.');
      assert a + "." + b == a + ['.'];
    } else {
      var init, c := b[..|b| - 1], b[|b| - 1];
      SplitAtPoint(a, init);
      SplitNext(a + "." + init, c);
      assert a + "." + b == a + "." + init + [c] && b == init + [c];
    }
  }

  lemma SplitNext(s: string, c: char)
    ensures var parts := Split(s);
            Split(s + [c]) == if c == '.' then parts + [[]] else parts[..|parts| - 1] + [parts[|parts| - 1] + [c]]
  {
    assert (s + [c])[..|s|] == s;
  }

  lemma ParseDigits(s: string)
    requires s != [] && AllDigits(s)
    ensures ParseU64(s) == if NumberOf(s) < U64 then Ok(NumberOf(s)) else Err(TooLarge)
  {
    assert IsDigit(s[0]);
  }

  // ---------------------------------------------------------------------------------------------
  // Numerals are unique
  // ---------------------------------------------------------------------------------------------

  /** Digits of one length denote one number only if they are the same. */
  lemma {:induction false} SameDigits(a: string, b: string)
    requires AllDigits(a) && AllDigits(b) && |a| == |b| && NumberOf(a) == NumberOf(b)
    ensures a == b
  {
    if a != [] {
      var n := |a| - 1;
      SameDigits(a[..n], b[..n]);
      assert a == a[..n] + [a[n]] && b == b[..n] + [b[n]];
    }
  }

  ghost predicate NoNeedlessZero(s: string) {
    s != [] && (s[0] == '0' ==> |s| == 1)
  }

  lemma {:induction false} PositiveNumber(s: string)
    requires AllDigits(s) && s != [] && s[0] != '0'
    ensures NumberOf(s) > 0
  {
    if |s| > 1 {
      PositiveNumber(s[..|s| - 1]);
    }
  }

  /** Digits without a needless zero in front are the numeral of their number. */
  lemma {:induction false} NumeralOfDigits(s: string)
    requires AllDigits(s) && NoNeedlessZero(s)
    ensures Numeral(NumberOf(s)) == s
  {
    var n := |s| - 1;
    var init := s[..n];
    assert s == init + [s[n]];
    if n > 0 {
      PositiveNumber(init);
      NumeralOfDigits(init);
    }
  }

  lemma {:induction false} TrimZeros(s: string, n: nat)
    requires s != [] ==> s[|s| - 1] != '0'
    ensures TrimEnd(s + Zeros(n)) == s
  {
    if n > 0 {
      TrimZeros(s, n - 1);
      assert (s + Zeros(n))[..|s| + n - 1] == s + Zeros(n - 1);
    } else {
      assert s + Zeros(0) == s;
    }
  }

  lemma {:induction false} TrimEnds(s: string)
    ensures TrimEnd(s) != [] ==> TrimEnd(s)[|TrimEnd(s)| - 1] != '0'
  {
    if s != [] {
      TrimEnds(s[..|s| - 1]);
    }
  }

  /** Digits followed by zeros, padded and trimmed, are those digits again. */
  lemma TrimPadded(s: string, width: nat)
    requires AllDigits(s) && s != [] && s[|s| - 1] != '0' && |s| <= width
    ensures NumberOf(s) * Pow10(width - |s|) < Pow10(width)
    ensures TrimEnd(Padded(NumberOf(s) * Pow10(width - |s|), width)) == s
  {
    hide NumberOf, Pow10, Padded, TrimEnd, AllDigits;
    var n := width - |s|;
    var x := NumberOf(s) * Pow10(n);
    NumberBound(s);
    Pow10Add(|s|, n);
    ScaledBelow(NumberOf(s), Pow10(|s|), Pow10(n));
    ZerosAreZero(n);
    NumberAppend(s, Zeros(n));
    PaddedNumber(x, width);
    SameDigits(Padded(x, width), s + Zeros(n));
    TrimZeros(s, n);
  }

  lemma ScaledBelow(x: nat, y: nat, z: nat)
    requires x < y && z > 0
    ensures x * z < y * z
  {}
}
