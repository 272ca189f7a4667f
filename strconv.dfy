/** Go's `strconv.Atoi` on a 64-bit platform, used by the LIMIT setting and the
    Retry-After header: an optional sign followed by at least one decimal digit,
    whose value must fit in an int64 (otherwise Atoi returns a range error). Base
    prefixes and underscores are not accepted by Atoi. `Itoa` is the decimal
    rendering, the partner against which Atoi is proved. */
module Strconv {
  import opened Common

  const MinInt64: int := -0x8000_0000_0000_0000
  const MaxInt64: int := 0x7FFF_FFFF_FFFF_FFFF

  predicate IsDigit(c: char) { '0' <= c <= '9' }

  function DigitValue(c: char): (d: nat)
    requires IsDigit(c)
    ensures d < 10
  {
    c as int - '0' as int
  }

  function DigitChar(d: nat): (c: char)
    requires d < 10
    ensures IsDigit(c) && DigitValue(c) == d
  {
    ('0' as int + d) as char
  }

  predicate AllDigits(s: string) {
    forall i :: 0 <= i < |s| ==> IsDigit(s[i])
  }

  /** The value of a non-empty run of decimal digits, most significant first. */
  function Decimal(s: string): (r: Option<nat>)
    ensures r.Some? <==> |s| > 0 && AllDigits(s)
    decreases |s|
  {
    if |s| == 0 || !IsDigit(s[|s| - 1]) then None
    else if |s| == 1 then Some(DigitValue(s[0]))
    else match Decimal(s[..|s| - 1])
      case None => None
      case Some(v) => Some(v * 10 + DigitValue(s[|s| - 1]))
  }

  /** strconv.Atoi: sign, digits, int64 range. */
  function Atoi(s: string): (r: Option<int>)
    ensures r.Some? ==> MinInt64 <= r.value <= MaxInt64
    ensures r.Some? ==> |s| > 0
  {
    var signed := |s| > 0 && (s[0] == '-' || s[0] == '+');
    var digits := if signed then s[1..] else s;
    match Decimal(digits)
    case None => None
    case Some(v) =>
      var n: int := if signed && s[0] == '-' then -(v as int) else v;
      if MinInt64 <= n <= MaxInt64 then Some(n) else None
  }

  /** Decimal rendering of a natural number, without leading zeros. */
  function FormatNat(n: nat): (s: string)
    ensures |s| > 0 && AllDigits(s)
  {
    if n < 10 then [DigitChar(n)] else FormatNat(n / 10) + [DigitChar(n % 10)]
  }

  /** strconv.Itoa: decimal rendering with a leading '-' for negatives. */
  function Itoa(n: int): string {
    if n < 0 then "-" + FormatNat(-n) else FormatNat(n)
  }

  lemma {:induction false} DecimalFormatNat(n: nat)
    ensures Decimal(FormatNat(n)) == Some(n)
  {
    if n >= 10 {
      var s := FormatNat(n);
      DecimalFormatNat(n / 10);
      assert s[..|s| - 1] == FormatNat(n / 10);
    }
  }

  /** Atoi of an unsigned digit string is its decimal value, within range. */
  lemma AtoiUnsigned(f: string, v: nat)
    requires Decimal(f) == Some(v) && f[0] != '-' && f[0] != '+'
    ensures Atoi(f) == if v <= MaxInt64 then Some(v) else None
  {
  }

  /** Atoi of '-' followed by a digit string is the negated value, within range. */
  lemma AtoiNegated(f: string, v: nat)
    requires Decimal(f) == Some(v)
    ensures Atoi("-" + f) == if -(v as int) >= MinInt64 then Some(-(v as int)) else None
  {
    var s := "-" + f;
    assert s[0] == '-' && s[1..] == f;
  }

  /** A leading '+' is accepted and changes nothing: Atoi("+5") is Atoi("5"). */
  lemma AtoiPlus(f: string)
    requires f == [] || (f[0] != '-' && f[0] != '+')
    ensures Atoi("+" + f) == Atoi(f)
  {
    var s := "+" + f;
    assert s[0] == '+' && s[1..] == f;
  }

  /** Every int64 survives rendering followed by Atoi. */
  lemma AtoiItoa(n: int)
    requires MinInt64 <= n <= MaxInt64
    ensures Atoi(Itoa(n)) == Some(n)
  {
    if n < 0 {
      DecimalFormatNat(-n);
      AtoiNegated(FormatNat(-n), -n);
    } else {
      DecimalFormatNat(n);
      AtoiUnsigned(FormatNat(n), n);
    }
  }

  /** Atoi rejects the empty string, a lone sign and anything with a non-digit
      after the optional sign. */
  lemma AtoiRejectsMalformed(s: string)
    requires |s| == 0 || (s[0] != '-' && s[0] != '+' && !AllDigits(s))
             || ((s[0] == '-' || s[0] == '+') && (|s| == 1 || !AllDigits(s[1..])))
    ensures Atoi(s) == None
  {
  }

  /** Atoi rejects digit strings whose value leaves the int64 range. */
  lemma AtoiRejectsOutOfRange(n: int)
    requires n > MaxInt64 || n < MinInt64
    ensures Atoi(Itoa(n)) == None
  {
    if n < 0 {
      DecimalFormatNat(-n);
      AtoiNegated(FormatNat(-n), -n);
    } else {
      DecimalFormatNat(n);
      AtoiUnsigned(FormatNat(n), n);
    }
  }
}
