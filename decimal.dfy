/** Base-10 text for integers, as Go's strconv.FormatInt / strconv.ParseInt
    (base 10, bit size 64) and the zero-padded fields of Go's time layouts
    produce and read it. */
module Decimal {
  import opened Outcomes

  const MinInt64: int := -0x8000_0000_0000_0000
  const MaxInt64: int := 0x7FFF_FFFF_FFFF_FFFF

  /** Go's int64. */
  type Int64 = x: int | MinInt64 <= x <= MaxInt64

  predicate IsDigit(c: char) { '0' <= c <= '9' }

  predicate AllDigits(s: string) { forall i :: 0 <= i < |s| ==> IsDigit(s[i]) }

  function DigitChar(d: nat): (c: char)
    requires d < 10
    ensures IsDigit(c) && DigitValue(c) == d
  {
    (('0' as int) + d) as char
  }

  function DigitValue(c: char): (d: nat)
    requires IsDigit(c)
    ensures d < 10
  {
    (c as int) - ('0' as int)
  }

  /** The shortest decimal spelling of n: no sign, no leading zero except for 0 itself. */
  function FormatNat(n: nat): (s: string)
    ensures |s| >= 1 && AllDigits(s)
    ensures (s[0] == '0') <==> (n == 0)
    ensures n < 10 <==> |s| == 1
  {
    if n < 10 then [DigitChar(n)] else FormatNat(n / 10) + [DigitChar(n % 10)]
  }

  /** The number a string of digits spells; leading zeros do not count. */
  function ValueOf(s: string): nat
    requires AllDigits(s)
  {
    if s == [] then 0 else ValueOf(s[..|s| - 1]) * 10 + DigitValue(s[|s| - 1])
  }

  /** strconv.FormatInt(i, 10): a minus sign for negative values, then the magnitude. */
  function FormatInt(i: int): (s: string)
    ensures |s| >= 1
    ensures i < 0 <==> s[0] == '-'
    // The magnitude is written in canonical digits: no '+', no leading zero.
    ensures i >= 0 ==> AllDigits(s) && ValueOf(s) == i && (s[0] == '0' ==> |s| == 1)
    ensures i < 0 ==> |s| >= 2 && AllDigits(s[1..]) && ValueOf(s[1..]) == -i && s[1] != '0'
  {
    if i < 0 then
      var t := FormatNat(-i);
      ValueOfFormatNat(-i);
      assert ("-" + t)[1..] == t;
      "-" + t
    else
      ValueOfFormatNat(i);
      FormatNat(i)
  }

  /** strconv.ParseInt(s, 10, 64): an optional '+' or '-' followed by at least one
      decimal digit, whose value fits in an int64. Anything else is an error
      (None): the empty string, a lone sign, any other character, or a value
      out of range. */
  function ParseInt(s: string): (r: Option<Int64>)
    ensures r.Some? ==> |s| >= 1
    ensures s == "" ==> r == None
  {
    if s == [] then None
    else
      var digits := if s[0] == '+' || s[0] == '-' then s[1..] else s;
      if digits == [] || !AllDigits(digits) then None
      else
        var magnitude: int := ValueOf(digits);
        var v: int := if s[0] == '-' then -magnitude else magnitude;
        if MinInt64 <= v <= MaxInt64 then Some(v) else None
  }

  /** What ParseInt refuses: the empty string, a lone sign, a first
      character that is neither a sign nor a digit, and any later non-digit. */
  lemma ParseIntRejects(s: string, i: nat)
    ensures s == "" || s == "+" || s == "-" ==> ParseInt(s) == None
    ensures |s| >= 1 && s[0] != '+' && s[0] != '-' && !IsDigit(s[0]) ==> ParseInt(s) == None
    ensures 0 < i < |s| && !IsDigit(s[i]) ==> ParseInt(s) == None
  {
    if 0 < i < |s| && !IsDigit(s[i]) {
      var digits := if s[0] == '+' || s[0] == '-' then s[1..] else s;
      if s[0] == '+' || s[0] == '-' {
        assert digits[i - 1] == s[i];
      }
    }
  }

  /** What ParseInt accepts: a non-empty digit string, leading zeros
      included, exactly when its value fits in an int64. */
  lemma ParseIntDigits(s: string)
    requires |s| >= 1 && AllDigits(s)
    ensures ValueOf(s) <= MaxInt64 ==> ParseInt(s) == Some(ValueOf(s))
    ensures ValueOf(s) > MaxInt64 ==> ParseInt(s) == None
  {
  }

  /** A leading '+' changes nothing. */
  lemma ParseIntPlus(s: string)
    requires |s| >= 1 && AllDigits(s)
    ensures ParseInt("+" + s) == ParseInt(s)
  {
    var plus := "+" + s;
    assert plus[0] == '+' && plus[1..] == s;
  }

  /** A leading '-' negates, and the range is that of int64: one more on
      the negative side. */
  lemma ParseIntMinus(s: string)
    requires |s| >= 1 && AllDigits(s)
    ensures ValueOf(s) <= -MinInt64 ==> ParseInt("-" + s) == Some(-(ValueOf(s) as int))
    ensures ValueOf(s) > -MinInt64 ==> ParseInt("-" + s) == None
  {
    var minus := "-" + s;
    assert minus[0] == '-' && minus[1..] == s;
  }

  function Zeros(k: nat): (z: string)
    ensures |z| == k && AllDigits(z)
  {
    if k == 0 then [] else Zeros(k - 1) + ['0']
  }

  /** Left-pads a digit string with zeros to at least `width` characters, as Go's
      time formatting pads the year to four digits and month and day to two. */
  function PadLeft(s: string, width: nat): (p: string)
    requires AllDigits(s)
    ensures AllDigits(p)
    ensures |p| == if |s| >= width then |s| else width
  {
    if |s| >= width then s else Zeros(width - |s|) + s
  }

  lemma {:induction false} ValueOfFormatNat(n: nat)
    ensures ValueOf(FormatNat(n)) == n
  {
    if n >= 10 {
      var s := FormatNat(n);
      assert s[..|s| - 1] == FormatNat(n / 10);
      ValueOfFormatNat(n / 10);
    }
  }

  /** Distinct numbers have distinct spellings. */
  lemma FormatNatInjective(a: nat, b: nat)
    requires FormatNat(a) == FormatNat(b)
    ensures a == b
  {
    ValueOfFormatNat(a);
    ValueOfFormatNat(b);
  }

  lemma {:induction false} ValueOfZeros(k: nat)
    ensures ValueOf(Zeros(k)) == 0
  {
    if k > 0 {
      assert Zeros(k)[..k - 1] == Zeros(k - 1);
      ValueOfZeros(k - 1);
    }
  }

  lemma {:induction false} ValueOfLeadingZeros(k: nat, s: string)
    requires AllDigits(s)
    ensures AllDigits(Zeros(k) + s) && ValueOf(Zeros(k) + s) == ValueOf(s)
    decreases |s|
  {
    if s == [] {
      assert Zeros(k) + s == Zeros(k);
      ValueOfZeros(k);
    } else {
      var t := Zeros(k) + s;
      assert t[..|t| - 1] == Zeros(k) + s[..|s| - 1];
      ValueOfLeadingZeros(k, s[..|s| - 1]);
    }
  }

  /** Padding never changes the value a digit string spells. */
  lemma PadLeftValue(n: nat, width: nat)
    ensures ValueOf(PadLeft(FormatNat(n), width)) == n
  {
    ValueOfFormatNat(n);
    if |FormatNat(n)| < width {
      ValueOfLeadingZeros(width - |FormatNat(n)|, FormatNat(n));
    }
  }

  /** Round trip: ParseInt reads back exactly what FormatInt writes, for every int64. */
  lemma ParseFormatInt(i: Int64)
    ensures ParseInt(FormatInt(i)) == Some(i)
  {
    var s := FormatInt(i);
    if i >= 0 {
      assert IsDigit(s[0]);
    }
  }

  /** The converse round trip: a digit string without a leading zero is exactly
      the spelling FormatNat gives the number it denotes. */
  lemma {:induction false} FormatValueOf(s: string)
    requires |s| >= 1 && AllDigits(s) && (|s| > 1 ==> s[0] != '0')
    ensures FormatNat(ValueOf(s)) == s
    decreases |s|
  {
    var init := s[..|s| - 1];
    if |s| == 1 {
    } else {
      FormatValueOf(init);
      ValueOfFormatNat(ValueOf(init));
      assert init[0] == s[0];
      assert ValueOf(init) != 0;
      var n := ValueOf(s);
      assert n / 10 == ValueOf(init) && n % 10 == DigitValue(s[|s| - 1]);
      assert n >= 10;
      assert s == init + [s[|s| - 1]];
    }
  }
}
