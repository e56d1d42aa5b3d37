/** Decimal integers as the search handler reads and writes them: the parse
    of the `page` query parameter (Go's strconv.Atoi) and the `%d` verb that
    writes the page number back into the outbound request. Go's `int` is a
    64-bit signed integer, so a parse succeeds only inside that range. */
module Strconv {

  import opened GoInt

  /** Why a parse failed: the two errors strconv reports. */
  datatype NumError = ErrSyntax | ErrRange

  datatype ParseResult = Parsed(value: int) | ParseFailed(err: NumError)

  predicate IsDigit(c: char) {
    '0' <= c <= '9'
  }

  predicate IsSign(c: char) {
    c == '+' || c == '-'
  }

  /** A non-empty run of decimal digits. */
  predicate IsDigits(s: string) {
    |s| > 0 && forall i :: 0 <= i < |s| ==> IsDigit(s[i])
  }

  function DigitValue(c: char): (d: nat)
    requires IsDigit(c)
    ensures d < 10
  {
    (c as int) - ('0' as int)
  }

  function DigitChar(d: nat): (c: char)
    requires d < 10
    ensures IsDigit(c) && DigitValue(c) == d
  {
    ('0' as int + d) as char
  }

  /** The number a run of digits denotes, read most significant digit first. */
  function DigitsValue(s: string): nat
    requires forall i :: 0 <= i < |s| ==> IsDigit(s[i])
  {
    if |s| == 0 then 0
    else DigitsValue(s[..|s| - 1]) * 10 + DigitValue(s[|s| - 1])
  }

  /** The unsigned part of a candidate integer: what follows an optional
      leading sign. */
  function Unsigned(s: string): string
    requires |s| > 0
  {
    if IsSign(s[0]) then s[1..] else s
  }

  /** strconv.Atoi: an optional `+` or `-` followed by one or more decimal
      digits, whose value must fit in a 64-bit `int`. Anything else is a
      syntax error, including the empty string and a sign alone. */
  function Atoi(s: string): (r: ParseResult)
    ensures r.Parsed? ==> InIntRange(r.value)
    ensures r.Parsed? ==> |s| > 0 && IsDigits(Unsigned(s))
    ensures r.Parsed? ==> (r.value < 0 <==> s[0] == '-' && DigitsValue(Unsigned(s)) > 0)
    ensures r == ParseFailed(ErrRange) ==> |s| > 0 && IsDigits(Unsigned(s))
  {
    if |s| == 0 then ParseFailed(ErrSyntax)
    else
      var digits := Unsigned(s);
      if !IsDigits(digits) then ParseFailed(ErrSyntax)
      else
        var magnitude: int := DigitsValue(digits);
        var n := if s[0] == '-' then -magnitude else magnitude;
        if InIntRange(n) then Parsed(n) else ParseFailed(ErrRange)
  }

  /** The digits of a natural number, most significant first, with no
      leading zero. */
  function Digits(n: nat): (s: string)
    ensures IsDigits(s) && DigitsValue(s) == n
    ensures s[0] == '0' ==> n == 0 && |s| == 1
    decreases n
  {
    if n < 10 then [DigitChar(n)]
    else
      var init := Digits(n / 10);
      var s := init + [DigitChar(n % 10)];
      assert s[..|s| - 1] == init;
      s
  }

  /** Go's `%d` verb: a minus sign for a negative number, then the digits of
      its magnitude. */
  function FormatInt(n: int): (s: string)
    ensures |s| > 0
    ensures s[0] == '-' <==> n < 0
  {
    if n < 0 then "-" + Digits(-n) else Digits(n)
  }

  /** The spelling `%d` produces: digits without a leading zero (except for
      "0" itself), no `+`, and no minus sign on zero. */
  predicate IsCanonical(s: string) {
    |s| > 0 && s[0] != '+' && IsDigits(Unsigned(s))
    && (Unsigned(s)[0] == '0' ==> s == "0")
  }

  /** Every number in range survives being written with `%d` and read back
      with Atoi. */
  lemma ParseFormat(n: int)
    requires InIntRange(n)
    ensures IsCanonical(FormatInt(n))
    ensures Atoi(FormatInt(n)) == Parsed(n)
  {
  }

  /** A run of digits whose first digit is not zero denotes at least 1, and
      at least 10 when it has two digits or more. */
  lemma {:induction false} LeadingDigitBound(s: string)
    requires IsDigits(s) && s[0] != '0'
    ensures DigitsValue(s) >= 1
    ensures |s| > 1 ==> DigitsValue(s) >= 10
  {
    if |s| > 1 {
      var init := s[..|s| - 1];
      assert init[0] == s[0];
      LeadingDigitBound(init);
    }
  }

  /** A run of digits with no leading zero is exactly the digits of its own
      value. */
  lemma {:induction false} DigitsOfValue(s: string)
    requires IsDigits(s) && (s[0] == '0' ==> |s| == 1)
    ensures Digits(DigitsValue(s)) == s
  {
    var n := DigitsValue(s);
    if |s| == 1 {
      assert DigitsValue(s[..0]) == 0;
      assert Digits(n) == [s[0]];
    } else {
      var init := s[..|s| - 1];
      var last := DigitValue(s[|s| - 1]);
      assert init[0] == s[0];
      LeadingDigitBound(s);
      DigitsOfValue(init);
      assert n / 10 == DigitsValue(init) && n % 10 == last;
      assert DigitChar(last) == s[|s| - 1];
      assert Digits(n) == init + [s[|s| - 1]];
    }
  }

  /** Conversely, every canonical spelling that Atoi accepts is what `%d`
      writes for the value it denotes. */
  lemma FormatParse(s: string)
    requires IsCanonical(s) && Atoi(s).Parsed?
    ensures FormatInt(Atoi(s).value) == s
  {
    var digits := Unsigned(s);
    DigitsOfValue(digits);
    if s[0] == '-' {
      LeadingDigitBound(digits);
      assert s == "-" + digits;
    }
  }

  /** A run of digits without its redundant leading zeros (a lone "0"
      stays). */
  function StripZeros(s: string): (t: string)
    requires IsDigits(s)
    ensures IsDigits(t) && (t[0] == '0' ==> |t| == 1)
  {
    if |s| > 1 && s[0] == '0' then StripZeros(s[1..]) else s
  }

  /** A leading zero adds nothing to the value of a run of digits. */
  lemma {:induction false} LeadingZero(s: string)
    requires IsDigits(s) && |s| > 1 && s[0] == '0'
    ensures DigitsValue(s) == DigitsValue(s[1..])
  {
    var init := s[..|s| - 1];
    assert s[1..][..|s| - 2] == init[1..];
    if |s| == 2 {
      assert DigitsValue(init[..0]) == 0;
      assert DigitsValue(s[1..][..0]) == 0;
    } else {
      assert init[0] == '0';
      LeadingZero(init);
    }
  }

  /** Stripping leading zeros keeps the value, and what is left is the `%d`
      digits of that value. */
  lemma {:induction false} StripZerosValue(s: string)
    requires IsDigits(s)
    ensures DigitsValue(StripZeros(s)) == DigitsValue(s)
    ensures Digits(DigitsValue(s)) == StripZeros(s)
  {
    if |s| > 1 && s[0] == '0' {
      LeadingZero(s);
      StripZerosValue(s[1..]);
    } else {
      DigitsOfValue(s);
    }
  }

  /** Every text made of an optional sign and digits is read as a number,
      never as a syntax error. It parses exactly when its magnitude fits the
      64-bit range on its side of zero, and then the value has the text's
      digits (less leading zeros) as magnitude and is negative exactly after
      a `-` with a non-zero magnitude. */
  lemma WellFormedParses(s: string)
    requires |s| > 0 && IsDigits(Unsigned(s))
    ensures Atoi(s) != ParseFailed(ErrSyntax)
    ensures Atoi(s).Parsed? <==>
      if s[0] == '-' then DigitsValue(Unsigned(s)) <= -MinInt
      else DigitsValue(Unsigned(s)) <= MaxInt
    ensures Atoi(s).Parsed? ==> Digits(Abs(Atoi(s).value)) == StripZeros(Unsigned(s))
    ensures Atoi(s).Parsed? ==>
      (Atoi(s).value < 0 <==> s[0] == '-' && DigitsValue(Unsigned(s)) > 0)
  {
    StripZerosValue(Unsigned(s));
  }

  /** A page parameter with any character other than a digit, or a sign in
      first position, is a syntax error: there is no partial parse. */
  lemma NonNumericRejected(s: string, i: int)
    requires 0 <= i < |s| && !IsDigit(s[i]) && !(i == 0 && IsSign(s[i]))
    ensures Atoi(s) == ParseFailed(ErrSyntax)
  {
  }

  /** Outside the 64-bit range the same spelling is refused with a range
      error, so `%d` followed by Atoi gives back exactly the numbers a Go
      `int` can hold. */
  lemma OutOfRangeRejected(n: int)
    requires !InIntRange(n)
    ensures Atoi(FormatInt(n)) == ParseFailed(ErrRange)
  {
  }

  /** Sample inputs: signed spellings and leading zeros are accepted; the
      empty string, a bare sign and letters are not. */
  lemma AtoiSamples()
    ensures Atoi("") == ParseFailed(ErrSyntax)
    ensures Atoi("abc") == ParseFailed(ErrSyntax)
    ensures Atoi("+") == ParseFailed(ErrSyntax)
    ensures Atoi("-3") == Parsed(-3)
    ensures Atoi("+0") == Parsed(0)
    ensures Atoi("007") == Parsed(7)
    ensures Atoi("+5") == Parsed(5)
    ensures Atoi("02") == Parsed(2)
    ensures Atoi("-0") == Parsed(0)
    ensures Atoi("-05") == Parsed(-5)
  {
    assert !IsDigits(Unsigned("abc")) by { assert !IsDigit("abc"[0]); }
    assert Unsigned("-3") == "3";
    assert Unsigned("+0") == "0";
    assert "007"[..2] == "00" && "00"[..1] == "0";
    assert Unsigned("+5") == "5";
    assert "02"[..1] == "0";
    assert Unsigned("-0") == "0";
    assert Unsigned("-05") == "05" && "05"[..1] == "0";
  }
}
