/** The two number conversions the service borrows from Go's standard library:
    `strconv.Atoi` (decimal text to `int`, used for `limit` and `offset`) and the
    `%d` verb of `fmt.Sprintf` (`int` to decimal text, used to print them into SQL). */
module Strconv {
  import opened Base

  /** An ASCII digit, which is all Go's strconv and the regular expression `\d` accept. */
  predicate IsDigit(c: char) { '0' <= c <= '9' }

  predicate AllDigits(s: string) { forall i :: 0 <= i < |s| ==> IsDigit(s[i]) }

  function DigitValue(c: char): nat
    requires IsDigit(c)
  {
    c as int - '0' as int
  }

  function DigitChar(d: nat): char
    requires d < 10
  {
    (d + '0' as int) as char
  }

  /** The value of a run of digits, most significant first. */
  function DigitsValue(s: string): nat
    requires AllDigits(s)
  {
    if s == [] then 0 else DigitsValue(s[..|s| - 1]) * 10 + DigitValue(s[|s| - 1])
  }

  /** Length of the longest prefix of `s` made of digits. */
  function LeadingDigits(s: string): (n: nat)
    ensures n <= |s| && AllDigits(s[..n])
    ensures n < |s| ==> !IsDigit(s[n])
  {
    if s == [] || !IsDigit(s[0]) then 0
    else
      var n := 1 + LeadingDigits(s[1..]);
      assert s[..n] == [s[0]] + s[1..][..n - 1];
      n
  }

  const MaxUint64: nat := 0xFFFF_FFFF_FFFF_FFFF

  /** strconv.Atoi on a 64-bit target: an optional sign, then one or more ASCII digits
      whose value fits in an int64.  As in strconv.ParseUint, a run of digits that
      overflows 64 bits is reported as a range error even when an invalid
      character follows it. */
  function Atoi(s: string): Result<int64, Error>
  {
    var signed := |s| > 0 && (s[0] == '+' || s[0] == '-');
    var digits := if signed then s[1..] else s;
    var run := digits[..LeadingDigits(digits)];
    if DigitsValue(run) > MaxUint64 then Err(NumError("Atoi", s, ErrRange))
    else if digits == [] || |run| < |digits| then Err(NumError("Atoi", s, ErrSyntax))
    else
      var v: int := if s[0] == '-' then -(DigitsValue(digits) as int) else DigitsValue(digits);
      if MinInt64 <= v <= MaxInt64 then Ok(v as int64) else Err(NumError("Atoi", s, ErrRange))
  }

  /** Decimal digits of `n`, without leading zeros. */
  function NatDigits(n: nat): (s: string)
    ensures s != [] && AllDigits(s) && DigitsValue(s) == n
    ensures s[0] != '0' || n == 0
  {
    if n < 10 then [DigitChar(n)]
    else
      var s := NatDigits(n / 10) + [DigitChar(n % 10)];
      assert s[..|s| - 1] == NatDigits(n / 10);
      s
  }

  /** The `%d` verb of fmt.Sprintf. */
  function FormatInt(n: int): string
  {
    if n < 0 then "-" + NatDigits(-n) else NatDigits(n)
  }

  lemma AllDigitsLeadingDigits(s: string)
    requires AllDigits(s)
    ensures LeadingDigits(s) == |s|
  {
  }

  /** Atoi reads back every number %d prints. */
  lemma AtoiFormatInt(n: int64)
    ensures Atoi(FormatInt(n as int)) == Ok(n)
  {
    var m: nat := if n < 0 then -(n as int) else n as int;
    var digits := NatDigits(m);
    AllDigitsLeadingDigits(digits);
    var s := FormatInt(n as int);
    if n < 0 {
      assert s[0] == '-' && s[1..] == digits;
      assert digits[..LeadingDigits(digits)] == digits;
      assert DigitsValue(digits) == m <= MaxUint64;
    } else {
      assert s == digits && !(s[0] == '+' || s[0] == '-');
      assert digits[..LeadingDigits(digits)] == digits;
      assert DigitsValue(digits) == m <= MaxUint64;
    }
  }

  /** Atoi accepts nothing but an optional sign followed by digits, and reads their value. */
  lemma AtoiAcceptsSignedDigits(s: string)
    requires Atoi(s).Ok?
    ensures |s| > 0
    ensures var digits := if s[0] == '+' || s[0] == '-' then s[1..] else s;
            digits != [] && AllDigits(digits) &&
            Atoi(s).value as int == if s[0] == '-' then -(DigitsValue(digits) as int) else DigitsValue(digits)
  {
    var digits := if |s| > 0 && (s[0] == '+' || s[0] == '-') then s[1..] else s;
    assert digits[..LeadingDigits(digits)] == digits;
  }

  /** Conversely, an optional sign followed by one or more digits is read as its
      signed value when that fits in an int64, and is a range error otherwise. */
  lemma AtoiSignedDigits(sign: string, digits: string)
    requires sign == "" || sign == "+" || sign == "-"
    requires digits != [] && AllDigits(digits)
    ensures var v: int := if sign == "-" then -(DigitsValue(digits) as int) else DigitsValue(digits);
            (MinInt64 <= v <= MaxInt64 ==> Atoi(sign + digits) == Ok(v as int64)) &&
            (v < MinInt64 || MaxInt64 < v ==> Atoi(sign + digits) == Err(NumError("Atoi", sign + digits, ErrRange)))
  {
    var s := sign + digits;
    if sign == "" {
      assert s == digits && IsDigit(s[0]);
    } else {
      assert s[0] == sign[0] && s[1..] == digits;
    }
    assert (if |s| > 0 && (s[0] == '+' || s[0] == '-') then s[1..] else s) == digits;
    assert s[0] == '-' <==> sign == "-";
    AllDigitsLeadingDigits(digits);
    assert digits[..LeadingDigits(digits)] == digits;
  }

  /** A leading plus sign and leading zeros are accepted. */
  lemma AtoiExamples()
    ensures Atoi("+5") == Ok(5)
    ensures Atoi("007") == Ok(7)
  {
    assert "+" + "5" == "+5";
    AtoiSignedDigits("+", "5");
    assert DigitsValue("007") == 7 by {
      assert "007"[..2] == "00" && "00"[..1] == "0";
    }
    assert "" + "007" == "007";
    AtoiSignedDigits("", "007");
  }

  /** The printed numbers just outside the int64 range are range errors. */
  lemma AtoiRangeEdges()
    ensures Atoi(FormatInt(MaxInt64 + 1)) == Err(NumError("Atoi", FormatInt(MaxInt64 + 1), ErrRange))
    ensures Atoi(FormatInt(MinInt64 - 1)) == Err(NumError("Atoi", FormatInt(MinInt64 - 1), ErrRange))
  {
    var above := NatDigits(MaxInt64 + 1);
    assert "" + above == FormatInt(MaxInt64 + 1);
    AtoiSignedDigits("", above);
    var below := NatDigits(-(MinInt64 - 1));
    assert "-" + below == FormatInt(MinInt64 - 1);
    AtoiSignedDigits("-", below);
  }
}
