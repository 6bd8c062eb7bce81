/** Decimal numerals: the two printers and the parser of the repository's numbers. */
module Decimal {

  const INT_LIMIT := 0x8000_0000_0000_0000
  const UINT_LIMIT := 0x1_0000_0000_0000_0000

  function Digit(d: nat): char
    requires d < 10
  {
    "0123456789"[d]
  }

  predicate IsDigit(c: char) {
    '0' <= c <= '9'
  }

  function DigitValue(c: char): (d: nat)
    requires IsDigit(c)
    ensures d < 10
  {
    (c - '0') as nat
  }

  lemma DigitRoundTrip(d: nat)
    requires d < 10
    ensures IsDigit(Digit(d)) && DigitValue(Digit(d)) == d
  {
    assert d in {0, 1, 2, 3, 4, 5, 6, 7, 8, 9};
  }

  /** The numeral of n, most significant digit first, without leading zeros. */
  function Numeral(n: nat): (s: string)
    ensures s != ""
  {
    if n < 10 then [Digit(n)] else Numeral(n / 10) + [Digit(n % 10)]
  }

  /** The number a string of digits denotes. */
  function ValueOf(s: string): nat
    requires forall i :: 0 <= i < |s| ==> IsDigit(s[i])
  {
    if s == "" then 0 else 10 * ValueOf(s[..|s| - 1]) + DigitValue(s[|s| - 1])
  }

  lemma {:induction false} NumeralReadsBack(n: nat)
    ensures forall i :: 0 <= i < |Numeral(n)| ==> IsDigit(Numeral(n)[i])
    ensures ValueOf(Numeral(n)) == n
    ensures n > 0 ==> Numeral(n)[0] != '0'
    ensures n == 0 ==> Numeral(n) == "0"
  {
    if n < 10 {
      DigitRoundTrip(n);
      assert [Digit(n)][..0] == "";
    } else {
      NumeralReadsBack(n / 10);
      DigitRoundTrip(n % 10);
      var s := Numeral(n / 10) + [Digit(n % 10)];
      assert s[..|s| - 1] == Numeral(n / 10);
    }
  }

  lemma {:induction false} NumeralLength(n: nat, digits: nat, bound: nat)
    requires n < bound == Power10(digits) && digits >= 1
    ensures |Numeral(n)| <= digits
    decreases digits
  {
    if n >= 10 {
      NumeralLength(n / 10, digits - 1, bound / 10);
    }
  }

  function Power10(k: nat): nat {
    if k == 0 then 1 else 10 * Power10(k - 1)
  }

  lemma NineteenDigits(n: nat)
    requires n < INT_LIMIT
    ensures |Numeral(n)| <= 19
  {
    assert Power10(4) == 10000;
    assert Power10(8) == 10000 * Power10(4);
    assert Power10(12) == 10000 * Power10(8);
    assert Power10(16) == 10000 * Power10(12);
    assert Power10(19) == 1000 * Power10(16);
    NumeralLength(n, 19, Power10(19));
  }

  /** The digit loop: a 20-byte buffer filled from its end. */
  method Itoa(n: int) returns (s: string)
    requires n < INT_LIMIT
    ensures s == if n < 0 then "" else Numeral(n)
  {
    if n == 0 {
      return "0";
    }
    var buf := new char[20];
    var i, m := buf.Length, n;
    if n > 0 { NineteenDigits(n); }
    while m > 0
      invariant 0 <= i <= 20 && m <= n
      invariant n < 0 ==> m == n && i == 20
      invariant n > 0 ==> m >= 0 && (if m > 0 then Numeral(m) else "") + buf[i..] == Numeral(n)
      invariant n > 0 && m > 0 ==> |Numeral(m)| + (20 - i) <= 19
      decreases m
    {
      ghost var done := buf[i..];
      i := i - 1;
      buf[i] := Digit(m % 10);
      assert buf[i..] == [Digit(m % 10)] + done;
      m := m / 10;
    }
    return buf[i..];
  }

  // ---------------------------------------------------------------- parsing signed 64-bit numbers

  datatype Unsigned = Syntax | Range | Value(n: nat)

  /** Digit by digit, stopping at the first character that is no digit or takes the value past 64 bits. */
  function ParseUnsigned(s: string, n: nat): Unsigned {
    if s == "" then Value(n)
    else if !IsDigit(s[0]) then Syntax
    else
      var m := 10 * n + DigitValue(s[0]);
      if m >= UINT_LIMIT then Range else ParseUnsigned(s[1..], m)
  }

  /** The value a signed parse returns, also on failure, and whether it succeeded. */
  function ParseInt(s: string): (r: (int, bool)) {
    if s == "" then (0, false)
    else
      var negative := s[0] == '-';
      var digits := if negative || s[0] == '+' then s[1..] else s;
      if digits == "" then (0, false)
      else
        match ParseUnsigned(digits, 0)
        case Syntax => (0, false)
        case Range => (if negative then -INT_LIMIT else INT_LIMIT - 1, false)
        case Value(n) =>
          if negative then if n > INT_LIMIT then (-INT_LIMIT, false) else (-(n as int), true)
          else if n >= INT_LIMIT then (INT_LIMIT - 1, false) else (n, true)
  }

  function PrintInt(v: int): string {
    if v < 0 then "-" + Numeral(-v) else Numeral(v)
  }

  lemma {:induction false} ParseDigits(s: string, n: nat)
    requires forall i :: 0 <= i < |s| ==> IsDigit(s[i])
    requires Shifted(n, s) < UINT_LIMIT
    ensures ParseUnsigned(s, n) == Value(Shifted(n, s))
  {
    if s != "" {
      var m := 10 * n + DigitValue(s[0]);
      ShiftedGrows(m, s[1..]);
      ParseDigits(s[1..], m);
    }
  }

  /** The value after reading further digits. */
  function Shifted(n: nat, s: string): nat
    requires forall i :: 0 <= i < |s| ==> IsDigit(s[i])
    decreases |s|
  {
    if s == "" then n else Shifted(10 * n + DigitValue(s[0]), s[1..])
  }

  lemma {:induction false} ShiftedGrows(n: nat, s: string)
    requires forall i :: 0 <= i < |s| ==> IsDigit(s[i])
    ensures Shifted(n, s) >= n
    decreases |s|
  {
    if s != "" { ShiftedGrows(10 * n + DigitValue(s[0]), s[1..]); }
  }

  lemma {:induction false} ShiftedSnoc(n: nat, s: string, c: char)
    requires forall i :: 0 <= i < |s| ==> IsDigit(s[i])
    requires IsDigit(c)
    ensures Shifted(n, s + [c]) == 10 * Shifted(n, s) + DigitValue(c)
    decreases |s|
  {
    if s == "" {
      assert ("" + [c])[1..] == "";
    } else {
      assert (s + [c])[1..] == s[1..] + [c];
      ShiftedSnoc(10 * n + DigitValue(s[0]), s[1..], c);
    }
  }

  lemma {:induction false} ShiftedIsValue(s: string)
    requires forall i :: 0 <= i < |s| ==> IsDigit(s[i])
    ensures Shifted(0, s) == ValueOf(s)
    decreases |s|
  {
    if s != "" {
      var front := s[..|s| - 1];
      assert s == front + [s[|s| - 1]];
      ShiftedIsValue(front);
      ShiftedSnoc(0, front, s[|s| - 1]);
    }
  }

  /** Every signed 64-bit number survives printing and parsing. */
  lemma ParsePrint(v: int)
    requires -INT_LIMIT <= v < INT_LIMIT
    ensures ParseInt(PrintInt(v)) == (v, true)
  {
    var n := if v < 0 then -v else v;
    var digits := Numeral(n);
    NumeralReadsBack(n);
    ShiftedIsValue(digits);
    ParseDigits(digits, 0);
    assert IsDigit(digits[0]);
    if v < 0 { assert ("-" + digits)[1..] == digits; }
  }

  // ---------------------------------------------------------------- what the parser answers

  /** How many digits a text begins with. */
  function LeadingDigits(s: string): (k: nat)
    ensures k <= |s| && forall i :: 0 <= i < k ==> IsDigit(s[i])
    ensures k < |s| ==> !IsDigit(s[k])
  {
    if s != "" && IsDigit(s[0]) then 1 + LeadingDigits(s[1..]) else 0
  }

  lemma {:induction false} ParseUnsignedIs(s: string, n: nat)
    requires n < UINT_LIMIT
    ensures var k := LeadingDigits(s);
            ParseUnsigned(s, n) == if Shifted(n, s[..k]) >= UINT_LIMIT then Range
                                   else if k < |s| then Syntax else Value(Shifted(n, s[..k]))
    decreases |s|
  {
    if s != "" && IsDigit(s[0]) {
      var m, k := 10 * n + DigitValue(s[0]), LeadingDigits(s);
      assert s[..k][1..] == s[1..][..k - 1];
      ShiftedGrows(m, s[1..][..k - 1]);
      if m < UINT_LIMIT { ParseUnsignedIs(s[1..], m); }
    }
  }

  /**
   A text is accepted if and only if it is digits, one sign before them or none, of a value within 64 bits. On
   failure the value is the nearest limit if the leading digits alone go beyond it, and 0 otherwise.
   */
  lemma ParseIntIs(s: string)
    ensures var negative := s != "" && s[0] == '-';
            var digits := if s != "" && (s[0] == '-' || s[0] == '+') then s[1..] else s;
            var k := LeadingDigits(digits);
            var n, most := ValueOf(digits[..k]), if negative then 0x8000_0000_0000_0000 else 0x7FFF_FFFF_FFFF_FFFF;
            && (ParseInt(s).1 <==> digits != "" && k == |digits| && n <= most)
            && (ParseInt(s).1 ==> ParseInt(s).0 == if negative then -(n as int) else n)
            && (!ParseInt(s).1 ==>
                  var beyond := n >= 0x1_0000_0000_0000_0000 || (k == |digits| && n > most);
                  ParseInt(s).0 == if !beyond then 0 else if negative then -most else most)
  {
    var digits := if s != "" && (s[0] == '-' || s[0] == '+') then s[1..] else s;
    var k := LeadingDigits(digits);
    ParseUnsignedIs(digits, 0);
    ShiftedIsValue(digits[..k]);
    assert k == |digits| ==> digits[..k] == digits;
  }
}
