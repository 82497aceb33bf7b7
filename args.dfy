/**
 * The command-line helper `int_or_str`: an argument that reads as an integer
 * becomes that integer, anything else stays the text it was.
 *
 * Python's `int(text)` is modelled over its plain decimal form: an optional
 * `+` or `-` followed by one or more ASCII digits.
 */
module Args {
  import opened Wrappers

  /** What `int_or_str` hands back: an `int` or the untouched `str`. */
  datatype Arg = Number(value: int) | Name(text: string)

  predicate IsDigit(c: char) { '0' <= c <= '9' }

  predicate AllDigits(s: string) { forall i :: 0 <= i < |s| ==> IsDigit(s[i]) }

  function DigitValue(c: char): nat
    requires IsDigit(c)
  {
    (c as int) - ('0' as int)
  }

  function DigitChar(d: nat): (c: char)
    requires d < 10
    ensures IsDigit(c) && DigitValue(c) == d
  {
    (('0' as int) + d) as char
  }

  /** The value of a string of decimal digits, most significant first. */
  function DigitsValue(s: string): nat
    requires AllDigits(s)
    decreases |s|
  {
    if s == [] then 0 else 10 * DigitsValue(s[..|s| - 1]) + DigitValue(s[|s| - 1])
  }

  /** Python's `int(text)`: `Some` of the value when it succeeds, `None` where it raises `ValueError`. */
  function ParseInt(text: string): (r: Option<int>)
    ensures r.Some? ==> text != [] && text[|text| - 1] != '+' && text[|text| - 1] != '-'
    ensures r.Some? && r.value < 0 ==> text[0] == '-'
    ensures r.Some? && text[0] == '-' ==> r.value <= 0
    ensures r.Some? ==> forall i :: 0 < i < |text| ==> IsDigit(text[i])
    ensures text != [] && AllDigits(text) ==> r == Some(DigitsValue(text))
  {
    if text != [] && (text[0] == '+' || text[0] == '-') then
      var digits := text[1..];
      if digits != [] && AllDigits(digits) then
        var magnitude: int := DigitsValue(digits);
        Some(if text[0] == '-' then -magnitude else magnitude)
      else None
    else if text != [] && AllDigits(text) then Some(DigitsValue(text))
    else None
  }

  /** `int_or_str(text)`: the integer when `int(text)` succeeds, otherwise `text` itself. */
  function IntOrStr(text: string): (r: Arg)
    ensures r.Number? <==> ParseInt(text).Some?
    ensures r.Number? ==> r.value == ParseInt(text).value
    ensures r.Name? ==> r.text == text
  {
    match ParseInt(text)
    case Some(n) => Number(n)
    case None => Name(text)
  }

  /** Python's `str(n)` for a natural number: its shortest decimal digits. */
  function Digits(n: nat): (s: string)
    ensures s != [] && AllDigits(s) && DigitsValue(s) == n
    ensures s[0] == '0' ==> n == 0
    decreases n
  {
    if n < 10 then [DigitChar(n)]
    else
      var prefix := Digits(n / 10);
      var s := prefix + [DigitChar(n % 10)];
      assert s[..|s| - 1] == prefix;
      s
  }

  /** Python's `str(n)` for any integer. */
  function Show(n: int): string
  {
    if n < 0 then "-" + Digits(-n) else Digits(n)
  }

  /** A device given by number on the command line comes back as that number. */
  lemma ShowIsNumber(n: int)
    ensures IntOrStr(Show(n)) == Number(n)
  {
  }

  /** A sign followed by digits gives their value, negated after `-`; leading zeros are allowed. */
  lemma SignedIsNumber(d: string)
    requires d != [] && AllDigits(d)
    ensures IntOrStr("+" + d) == Number(DigitsValue(d))
    ensures IntOrStr("-" + d) == Number(-(DigitsValue(d) as int))
  {
  }

  /**
   * A text with a character that is neither a digit nor a sign, such as a
   * device name, is passed through unchanged.
   */
  lemma NameIsKept(text: string, i: nat)
    requires i < |text| && !IsDigit(text[i]) && text[i] != '+' && text[i] != '-'
    ensures IntOrStr(text) == Name(text)
  {
  }

  /** The empty text is not a number. */
  lemma EmptyIsName()
    ensures IntOrStr("") == Name("")
  {
  }
}
