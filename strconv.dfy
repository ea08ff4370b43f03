/** The parts of Go's `strconv` package that the registers tool relies on:
    `ParseInt(s, 10, 64)`, the acceptance test of `ParseFloat(s, 64)` and the
    decimal formatting of an `int64`. */
module Strconv {
  import opened Common
  import Text

  const MinInt64: int := -0x8000_0000_0000_0000
  const MaxInt64: int := 0x7FFF_FFFF_FFFF_FFFF

  predicate IsDigit(c: char)
  {
    '0' <= c <= '9'
  }

  predicate AllDigits(s: string)
  {
    forall i :: 0 <= i < |s| ==> IsDigit(s[i])
  }

  function DigitValue(c: char): nat
    requires IsDigit(c)
  {
    c as int - '0' as int
  }

  function DigitChar(d: nat): char
    requires d < 10
  {
    ('0' as int + d) as char
  }

  /** The number a string of decimal digits denotes. */
  function DecimalValue(s: string): nat
    requires AllDigits(s)
  {
    if s == [] then 0 else DecimalValue(s[..|s| - 1]) * 10 + DigitValue(s[|s| - 1])
  }

  /** `s` without one leading sign character, and whether that sign was '-'. */
  function SplitSign(s: string): (bool, string)
  {
    if s != [] && (s[0] == '+' || s[0] == '-') then (s[0] == '-', s[1..]) else (false, s)
  }

  /** `strconv.ParseInt(s, 10, 64)`: an optional sign, one or more decimal
      digits and nothing else, denoting a value that fits in 64 bits. */
  function ParseInt(s: string): (r: Option<int>)
    ensures r.Some? ==> MinInt64 <= r.value <= MaxInt64
    ensures r.Some? ==> s != [] && AllDigits(SplitSign(s).1) && SplitSign(s).1 != []
  {
    var (neg, digits) := SplitSign(s);
    if digits == [] || !AllDigits(digits) then None
    else
      var v: int := if neg then -(DecimalValue(digits) as int) else DecimalValue(digits);
      if MinInt64 <= v <= MaxInt64 then Some(v) else None
  }

  /** The decimal digits of `n`, most significant first, without leading zeros. */
  function Digits(n: nat): (s: string)
    ensures s != [] && AllDigits(s) && IsDigit(s[0])
    ensures DecimalValue(s) == n
    ensures s[0] == '0' <==> n == 0
    ensures s[0] == '0' ==> |s| == 1
  {
    if n < 10 then [DigitChar(n)]
    else
      var p := Digits(n / 10);
      var s := p + [DigitChar(n % 10)];
      assert s[..|s| - 1] == p;
      s
  }

  /** `strconv.FormatInt(i, 10)`, which is also how `%v` prints an `int64`. */
  function FormatInt(i: int): string
  {
    if i < 0 then "-" + Digits(-i) else Digits(i)
  }

  /** Printing a 64-bit integer and parsing it back gives the same integer. */
  lemma ParseFormatInt(i: int)
    requires MinInt64 <= i <= MaxInt64
    ensures ParseInt(FormatInt(i)) == Some(i)
  {
    if i < 0 {
      assert ("-" + Digits(-i))[1..] == Digits(-i);
    }
  }

  // ---------------------------------------------------------------------
  // strconv.ParseFloat(s, 64), accept or reject

  /** A decimal number `mantissa * 10^exponent`. */
  datatype Decimal = Decimal(mantissa: nat, exponent: int)

  /** The index of the first character of `s` that `p` accepts, or `|s|`. */
  function IndexWhere(s: string, p: char -> bool): (i: nat)
    ensures i <= |s|
    ensures i < |s| ==> p(s[i])
    ensures forall j :: 0 <= j < i ==> !p(s[j])
  {
    if s == [] then 0
    else if p(s[0]) then 0
    else 1 + IndexWhere(s[1..], p)
  }

  predicate IsExponentMark(c: char)
  {
    c == 'e' || c == 'E'
  }

  predicate IsPoint(c: char)
  {
    c == '.'
  }

  predicate IsDigitOrUnderscore(c: char)
  {
    IsDigit(c) || c == '_'
  }

  predicate DigitsAndUnderscores(s: string)
  {
    forall i :: 0 <= i < |s| ==> IsDigitOrUnderscore(s[i])
  }

  /** Go's `underscoreOK` on a decimal literal: every '_' sits between two
      digits, so it can neither lead, trail, repeat nor touch a sign, a
      point or an exponent mark. */
  predicate UnderscoresOK(s: string)
  {
    forall i :: 0 <= i < |s| && s[i] == '_' ==> 0 < i < |s| - 1 && IsDigit(s[i - 1]) && IsDigit(s[i + 1])
  }

  /** `s` with its underscores removed. */
  function DropUnderscores(s: string): (r: string)
    ensures |r| <= |s|
    ensures DigitsAndUnderscores(s) ==> AllDigits(r)
    ensures (forall i :: 0 <= i < |s| ==> s[i] != '_') ==> r == s
  {
    if s == [] then []
    else (if s[0] == '_' then [] else [s[0]]) + DropUnderscores(s[1..])
  }

  /** The exponent after 'e': an optional sign, a digit, then digits and
      underscores. */
  function ParseExponent(s: string): Option<int>
  {
    var (neg, digits) := SplitSign(s);
    if digits == [] || !IsDigit(digits[0]) || !DigitsAndUnderscores(digits) then None
    else
      var v := DecimalValue(DropUnderscores(digits));
      Some(if neg then -(v as int) else v)
  }

  /** The part of a literal before its exponent: digits (and underscores)
      with at most one point and at least one digit. Gives the value of all
      the digits and how many of them follow the point. */
  function ScanMantissa(m: string): Option<(nat, nat)>
  {
    var d := IndexWhere(m, IsPoint);
    var whole := m[..d];
    var fraction := if d < |m| then m[d + 1..] else [];
    if !DigitsAndUnderscores(whole + fraction) then None
    else
      var digits := DropUnderscores(whole + fraction);
      if digits == [] then None
      else Some((DecimalValue(digits), |DropUnderscores(fraction)|))
  }

  /** An unsigned decimal floating-point literal: a mantissa, then
      optionally 'e' or 'E' and an exponent. Where the underscores may
      stand is checked on the whole literal by UnderscoresOK. */
  function ScanDecimal(s: string): Option<Decimal>
  {
    var e := IndexWhere(s, IsExponentMark);
    match ScanMantissa(s[..e])
    case None => None
    case Some((value, scale)) =>
      if e == |s| then Some(Decimal(value, -(scale as int)))
      else match ParseExponent(s[e + 1..])
        case None => None
        case Some(x) => Some(Decimal(value, x - scale))
  }

  function Pow(b: nat, k: nat): nat
  {
    if k == 0 then 1 else b * Pow(b, k - 1)
  }

  /** The least magnitude that rounds to infinity in IEEE 754 binary64:
      halfway between the largest finite double, 2^1024 - 2^971, and 2^1024. */
  function OverflowThreshold(): int
  {
    (Pow(2, 54) - 1) * Pow(2, 970)
  }

  /** The decimal rounds to an infinite double, which ParseFloat reports as a range error. */
  predicate Overflows(d: Decimal)
  {
    if d.exponent >= 0 then d.mantissa * Pow(10, d.exponent) >= OverflowThreshold()
    else d.mantissa >= OverflowThreshold() * Pow(10, -d.exponent)
  }

  /** "inf" or "infinity" with an optional sign, or "nan", in any case. */
  predicate IsSpecialFloat(s: string)
  {
    var t := SplitSign(s).1;
    Text.ToLower(t) == "inf" || Text.ToLower(t) == "infinity" || Text.ToLower(s) == "nan"
  }

  /** `strconv.ParseFloat(s, 64)` returns no error: a special value, or a
      decimal literal with well-placed underscores that does not round to
      infinity. */
  predicate IsFloatLiteral(s: string): (b: bool)
    ensures b ==> s != []
  {
    IsSpecialFloat(s)
    || (UnderscoresOK(s)
        && match ScanDecimal(SplitSign(s).1)
           case None => false
           case Some(d) => !Overflows(d))
  }

  lemma {:induction false} PowPositive(b: nat, k: nat)
    requires b >= 1
    ensures Pow(b, k) >= 1
  {
    if k > 0 { PowPositive(b, k - 1); }
  }

  lemma {:induction false} PowAdd(b: nat, j: nat, k: nat)
    ensures Pow(b, j + k) == Pow(b, j) * Pow(b, k)
    decreases j
  {
    if j > 0 { PowAdd(b, j - 1, k); }
  }

  lemma TwoToThe64()
    ensures Pow(2, 64) == 0x1_0000_0000_0000_0000
  {
    assert Pow(2, 2) == 4;
    PowAdd(2, 2, 2);
    PowAdd(2, 4, 4);
    PowAdd(2, 8, 8);
    PowAdd(2, 16, 16);
    PowAdd(2, 32, 32);
  }

  lemma {:induction false} PowMonotone(b: nat, j: nat, k: nat)
    requires b >= 1 && j <= k
    ensures Pow(b, j) <= Pow(b, k)
    decreases k
  {
    if j < k {
      PowMonotone(b, j, k - 1);
      PowPositive(b, k - 1);
    }
  }

  /** A whole number up to 2^64 is far below the overflow threshold. */
  lemma SmallDecimalFits(n: nat)
    requires n <= 0x1_0000_0000_0000_0000
    ensures !Overflows(Decimal(n, 0))
  {
    TwoToThe64();
    PowMonotone(2, 64, 970);
    PowPositive(2, 54);
    assert Pow(10, 0) == 1;
    assert Pow(2, 54) - 1 >= 1 by { PowMonotone(2, 1, 54); }
  }

  /** A string of plain digits scans as the integer it denotes. */
  lemma ScanPlainDigits(u: string)
    requires u != [] && AllDigits(u)
    ensures ScanDecimal(u) == Some(Decimal(DecimalValue(u), 0))
  {
    var e := IndexWhere(u, IsExponentMark);
    assert e == |u|;
    assert u[..e] == u;
    assert ScanMantissa(u) == Some((DecimalValue(u), 0)) by {
      var d := IndexWhere(u, IsPoint);
      assert d == |u|;
      assert u[..d] == u && u + [] == u;
      assert DropUnderscores(u) == u;
      assert DropUnderscores([]) == [];
    }
  }

  /** Every string ParseInt accepts is also accepted by ParseFloat: the
      order of the tests in `parseValue` decides which of the two applies. */
  lemma IntLiteralIsFloatLiteral(s: string)
    requires ParseInt(s).Some?
    ensures IsFloatLiteral(s)
  {
    var u := SplitSign(s).1;
    assert forall i :: 0 <= i < |s| ==> s[i] != '_' by {
      forall i | 0 <= i < |s|
        ensures s[i] != '_'
      {
        if s[0] == '+' || s[0] == '-' {
          if i > 0 { assert s[i] == u[i - 1]; }
        } else {
          assert s[i] == u[i];
        }
      }
    }
    assert UnderscoresOK(s);
    ScanPlainDigits(u);
    assert DecimalValue(u) <= 0x8000_0000_0000_0000;
    SmallDecimalFits(DecimalValue(u));
  }

  lemma ThousandValue()
    ensures DecimalValue("1000") == 1000
  {
    assert "1000"[..3] == "100" && "100"[..2] == "10" && "10"[..1] == "1" && "1"[..0] == "";
  }

  lemma ThousandMantissa()
    ensures ScanMantissa("1_000") == Some((1000, 0))
  {
    var s := "1_000";
    assert IndexWhere(s, IsPoint) == 5;
    assert s[..5] == s && s + [] == s;
    assert DropUnderscores(s) == "1000";
    ThousandValue();
  }

  lemma ThousandScans()
    ensures ScanDecimal("1_000") == Some(Decimal(1000, 0))
  {
    var s := "1_000";
    assert IndexWhere(s, IsExponentMark) == 5;
    assert s[..5] == s;
    ThousandMantissa();
  }

  /** "1_000": ParseInt rejects it, ParseFloat accepts it. */
  lemma UnderscoredThousand()
    ensures ParseInt("1_000").None? && IsFloatLiteral("1_000")
  {
    var s := "1_000";
    assert !IsDigit(s[1]);
    assert UnderscoresOK(s);
    assert SplitSign(s).1 == s;
    assert |Text.ToLower(s)| == 5;
    ThousandScans();
    SmallDecimalFits(1000);
  }

  /** "1__000": neither ParseInt nor ParseFloat accepts it. */
  lemma DoubledUnderscore()
    ensures ParseInt("1__000").None? && !IsFloatLiteral("1__000")
  {
    var t := "1__000";
    assert !IsDigit(t[1]);
    assert !UnderscoresOK(t) by {
      assert t[1] == '_' && !IsDigit(t[2]);
    }
    assert SplitSign(t).1 == t;
    assert |Text.ToLower(t)| == 6;
  }
}
