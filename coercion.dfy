/** `int(...)` applied to a tool-call argument. An integer is kept; a text is
    accepted in the decimal form: an optional `+` or `-` followed by one or
    more ASCII digits (leading zeros allowed), at most 4300 of them. */
module Coercion {
  import opened Results
  import opened Messages

  predicate IsDigit(c: char) { '0' <= c <= '9' }

  predicate AllDigits(s: string) { forall i :: 0 <= i < |s| ==> IsDigit(s[i]) }

  /** The value of a string of decimal digits, most significant digit first. */
  function DigitsValue(s: string): nat
    requires AllDigits(s)
  {
    if s == [] then 0 else DigitsValue(s[..|s| - 1]) * 10 + (s[|s| - 1] as int - '0' as int)
  }

  /** The most digits `int()` converts from a decimal text; a text with more
      raises ValueError (CPython's default `sys.get_int_max_str_digits()`). */
  const MaxStrDigits: nat := 4300

  /** A text without its leading sign, if it has one. */
  function Unsigned(s: string): string
  {
    if |s| > 0 && (s[0] == '+' || s[0] == '-') then s[1..] else s
  }

  /** The decimal form `int()` accepts here: an optional sign, then between
      one and `MaxStrDigits` ASCII digits. */
  predicate IsDecimalText(s: string)
  {
    var digits := Unsigned(s);
    0 < |digits| <= MaxStrDigits && AllDigits(digits)
  }

  /** The magnitude of `n`. */
  function Magnitude(n: int): nat
  {
    if n < 0 then -n else n
  }

  /** The integer a text denotes, or None when `int()` raises ValueError on
      it: its magnitude is the value of its digits, and it is negative
      exactly when the text starts with a minus sign. */
  function ParseInt(s: string): (r: Option<int>)
    ensures r.Some? <==> IsDecimalText(s)
    ensures r.Some? ==> (IsDecimalText(s) &&
      Magnitude(r.value) == DigitsValue(Unsigned(s)) &&
      (r.value < 0 ==> s[0] == '-') && (s[0] == '-' && DigitsValue(Unsigned(s)) != 0 ==> r.value < 0))
  {
    if |s| > 1 && (s[0] == '+' || s[0] == '-') && AllDigits(s[1..]) && |s| - 1 <= MaxStrDigits then
      var magnitude: int := DigitsValue(s[1..]);
      Some(if s[0] == '-' then -magnitude else magnitude)
    else if 0 < |s| <= MaxStrDigits && AllDigits(s) then
      Some(DigitsValue(s))
    else
      None
  }

  /** The shortest decimal digits of `n`. */
  function NatDigits(n: nat): (s: string)
    ensures |s| > 0 && AllDigits(s) && DigitsValue(s) == n
  {
    if n < 10 then
      [('0' as int + n) as char]
    else
      var prefix := NatDigits(n / 10);
      var s := prefix + [('0' as int + n % 10) as char];
      assert s[..|s| - 1] == prefix;
      s
  }

  /** The decimal text of `n`, as `str(n)` writes it. */
  function Decimal(n: int): string
  {
    if n < 0 then "-" + NatDigits(-n) else NatDigits(n)
  }

  /** `int(x)` on an argument: an integer is kept, a text in the decimal form
      gives its value, and any other text raises ValueError carrying it. */
  function CoerceInt(a: Arg): (r: Result<int, Raised>)
    ensures a.IntArg? ==> r == Success(a.i)
    ensures a.StrArg? ==> (r.Success? <==> IsDecimalText(a.s))
    ensures r.Success? && a.StrArg? ==> Magnitude(r.value) == DigitsValue(Unsigned(a.s))
    ensures r.Failure? ==> a.StrArg? && r.error == NotAnInteger(a.s)
  {
    match a
    case IntArg(i) => Success(i)
    case StrArg(s) =>
      match ParseInt(s)
      case Some(n) => Success(n)
      case None => Failure(NotAnInteger(s))
  }

  /** The text of every integer with at most `MaxStrDigits` digits parses
      back to that integer. */
  lemma DecimalRoundTrip(n: int)
    requires |NatDigits(Magnitude(n))| <= MaxStrDigits
    ensures ParseInt(Decimal(n)) == Some(n)
  {
  }

  /** A count sent as the decimal text of `n` coerces exactly as the number `n`. */
  lemma TextCountActsAsNumber(n: int)
    requires |NatDigits(Magnitude(n))| <= MaxStrDigits
    ensures CoerceInt(StrArg(Decimal(n))) == CoerceInt(IntArg(n)) == Success(n)
  {
  }

  /** A text of more than `MaxStrDigits` digits raises ValueError, whatever
      number it spells. */
  lemma LongTextRaises(s: string)
    requires AllDigits(s) && |s| > MaxStrDigits
    ensures CoerceInt(StrArg(s)) == Failure(NotAnInteger(s))
  {
  }

  /** Texts that coerce and texts that raise ValueError. */
  lemma CoercionExamples()
    ensures CoerceInt(StrArg("3")) == Success(3)
    ensures CoerceInt(StrArg("+07")) == Success(7)
    ensures CoerceInt(StrArg("-12")) == Success(-12)
    ensures CoerceInt(StrArg("abc")) == Failure(NotAnInteger("abc"))
    ensures CoerceInt(StrArg("two")) == Failure(NotAnInteger("two"))
    ensures CoerceInt(StrArg("")) == Failure(NotAnInteger(""))
    ensures CoerceInt(StrArg("-")) == Failure(NotAnInteger("-"))
  {
  }
}
