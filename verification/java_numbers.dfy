/** Decimal text of Java integers: `Long.toString`/`Integer.toString` and
    `Long.parseLong`/`Integer.parseInt` in radix 10. */
module JavaNumbers {
  import opened Wrappers
  import opened JavaTypes

  /** `NumberFormatException`, with the text that was refused. */
  datatype NumberFormatError = NumberFormatError(input: string)

  predicate IsDigit(c: char) {
    '0' <= c <= '9'
  }

  predicate AllDigits(s: string) {
    forall i | 0 <= i < |s| :: IsDigit(s[i])
  }

  function DigitChar(d: nat): (c: char)
    requires d < 10
    ensures IsDigit(c)
  {
    (48 + d) as char
  }

  /** `n` in decimal, without leading zeros. */
  function Decimal(n: nat): (s: string)
    ensures |s| >= 1 && AllDigits(s)
    ensures s[0] == '0' ==> n == 0
  {
    if n < 10 then [DigitChar(n)] else Decimal(n / 10) + [DigitChar(n % 10)]
  }

  /** The value of a string of decimal digits. */
  function DigitsValue(s: string): nat
    requires AllDigits(s)
  {
    if s == [] then 0 else DigitsValue(s[..|s| - 1]) * 10 + (s[|s| - 1] as int - 48)
  }

  lemma {:induction false} DigitsValueOfDecimal(n: nat)
    ensures DigitsValue(Decimal(n)) == n
  {
    if n >= 10 {
      var s := Decimal(n);
      assert s[..|s| - 1] == Decimal(n / 10);
      DigitsValueOfDecimal(n / 10);
    }
  }

  /** `Long.toString(x)` and `Integer.toString(x)`. */
  function IntegerText(x: int): (s: string)
    ensures |s| >= 1
    ensures x >= 0 ==> AllDigits(s)
  {
    if x < 0 then "-" + Decimal(-x) else Decimal(x)
  }

  /** The signed value of decimal text with an optional sign and at least
      one digit, without a range check; `None` for any other text. */
  function SignedValue(s: string): (r: Option<int>)
    ensures AllDigits(s) && s != [] ==> r == Some(DigitsValue(s))
  {
    var sign := if s != [] && (s[0] == '-' || s[0] == '+') then s[0] else ' ';
    var digits := if sign == ' ' then s else s[1..];
    if digits == [] || !AllDigits(digits) then None
    else
      var v: int := DigitsValue(digits);
      Some(if sign == '-' then -v else v)
  }

  /** `Long.parseLong(s)`. */
  function ParseLong(s: string): (r: Result<Int64, NumberFormatError>)
    ensures r.Success? <==> SignedValue(s).Some? && INT64_MIN <= SignedValue(s).value <= INT64_MAX
    ensures r.Success? ==> r.value == SignedValue(s).value
  {
    match SignedValue(s)
    case Some(v) => if INT64_MIN <= v <= INT64_MAX then Success(v) else Failure(NumberFormatError(s))
    case None => Failure(NumberFormatError(s))
  }

  /** `Integer.parseInt(s)`. */
  function ParseInt(s: string): (r: Result<Int32, NumberFormatError>)
    ensures r.Success? <==> SignedValue(s).Some? && INT32_MIN <= SignedValue(s).value <= INT32_MAX
    ensures r.Success? ==> r.value == SignedValue(s).value
  {
    match SignedValue(s)
    case Some(v) => if INT32_MIN <= v <= INT32_MAX then Success(v) else Failure(NumberFormatError(s))
    case None => Failure(NumberFormatError(s))
  }

  /** Printing then parsing an integer gives it back. */
  lemma SignedValueOfText(x: int)
    ensures SignedValue(IntegerText(x)) == Some(x)
  {
    DigitsValueOfDecimal(if x < 0 then -x else x);
    if x < 0 {
      assert IntegerText(x)[1..] == Decimal(-x);
    }
  }

  lemma ParseLongOfText(x: Int64)
    ensures ParseLong(IntegerText(x)) == Success(x)
  {
    SignedValueOfText(x);
  }

  lemma ParseIntOfText(x: Int32)
    ensures ParseInt(IntegerText(x)) == Success(x)
  {
    SignedValueOfText(x);
  }
}
