/**
 * The PHP values a request's parameter bag holds, with the two pieces of PHP
 * semantics the request relies on: `empty()` (and so truthiness) and the
 * `(int)` cast.
 */
module PhpValues {

  /** A PHP value as stored in a parameter bag. Floats and arrays are not modelled. */
  datatype Value =
    | Null
    | Bool(b: bool)
    | Int(i: int)
    | Str(s: string)
    | Card(obj: CreditCard)

  /**
   * Omnipay's credit card object, seen only through the getters the request
   * calls; each getter's result is copied through unchanged. `expiryDate` is
   * what `getExpiryDate('my')` returns.
   */
  datatype CreditCard = CreditCard(
    number: Value,
    expiryDate: Value,
    cvv: Value,
    name: Value,
    address1: Value,
    postcode: Value,
    email: Value,
    billingFirstName: Value,
    billingLastName: Value,
    billingCompany: Value,
    billingAddress1: Value,
    billingAddress2: Value,
    billingCity: Value,
    billingState: Value,
    billingPostcode: Value,
    billingCountry: Value,
    billingPhone: Value)

  /** PHP's `empty()`: null, false, 0, "" and "0"; an object is never empty. */
  predicate IsEmpty(v: Value) {
    match v
    case Null => true
    case Bool(b) => !b
    case Int(i) => i == 0
    case Str(s) => s == "" || s == "0"
    case Card(_) => false
  }

  /** PHP's boolean conversion, as used by `if ($x)` and `$x ? a : b`. */
  predicate Truthy(v: Value) {
    !IsEmpty(v)
  }

  predicate IsDigit(c: char) {
    '0' <= c <= '9'
  }

  /** The characters PHP skips before a number in a numeric string. */
  predicate IsWhitespace(c: char) {
    c == ' ' || c == '\t' || c == '\n' || c == '\r' || c == '\U{0B}' || c == '\U{0C}'
  }

  predicate AllDigits(d: string) {
    forall i :: 0 <= i < |d| ==> IsDigit(d[i])
  }

  function DigitValue(c: char): (n: nat)
    requires IsDigit(c)
    ensures n < 10
  {
    (c as int) - ('0' as int)
  }

  function DigitChar(n: nat): (c: char)
    requires n < 10
    ensures IsDigit(c) && DigitValue(c) == n
  {
    (('0' as int) + n) as char
  }

  /** Drops the whitespace PHP ignores in front of a number. */
  function TrimLeadingWhitespace(s: string): (r: string)
    ensures |r| <= |s| && r == s[|s| - |r|..]
    ensures |r| == 0 || !IsWhitespace(r[0])
    ensures (|s| == 0 || !IsWhitespace(s[0])) ==> r == s
  {
    if |s| > 0 && IsWhitespace(s[0]) then TrimLeadingWhitespace(s[1..]) else s
  }

  /** The longest run of decimal digits at the start of `s`. */
  function LeadingDigits(s: string): (r: string)
    ensures |r| <= |s| && r == s[..|r|]
    ensures AllDigits(r)
    ensures |r| == |s| || !IsDigit(s[|r|])
  {
    if |s| > 0 && IsDigit(s[0]) then [s[0]] + LeadingDigits(s[1..]) else ""
  }

  /** The number a string of decimal digits denotes. */
  function DigitsValue(d: string): nat
    requires AllDigits(d)
    decreases |d|
  {
    if |d| == 0 then 0 else 10 * DigitsValue(d[..|d| - 1]) + DigitValue(d[|d| - 1])
  }

  /** The decimal digits of `n`, without leading zeros. */
  function NatDigits(n: nat): (r: string)
    ensures |r| > 0 && AllDigits(r)
    ensures |r| > 1 ==> r[0] != '0'
  {
    if n < 10 then [DigitChar(n)] else NatDigits(n / 10) + [DigitChar(n % 10)]
  }

  /** PHP's `(string)` of an integer. */
  function DecimalString(n: int): (r: string)
    ensures |r| > 0
    ensures r[0] == '-' <==> n < 0
  {
    if n < 0 then "-" + NatDigits(-n) else NatDigits(n)
  }

  /**
   * PHP's `(int)` of a string: optional leading whitespace, an optional sign,
   * then the longest run of digits; whatever follows is ignored, and a string
   * that does not start with a number gives 0.
   */
  function StringToInt(s: string): int {
    SignedValue(TrimLeadingWhitespace(s))
  }

  /** The value of an optional sign followed by the longest run of digits. */
  function SignedValue(t: string): int {
    if |t| > 0 && t[0] == '-' then -(UnsignedValue(t[1..]) as int)
    else if |t| > 0 && t[0] == '+' then UnsignedValue(t[1..])
    else UnsignedValue(t)
  }

  /** The value of the longest run of digits at the start of `t` (0 if there is none). */
  function UnsignedValue(t: string): nat {
    DigitsValue(LeadingDigits(t))
  }

  /** PHP's `(int)` cast; an object converts to 1 (with a warning). */
  function IntCast(v: Value): (r: int)
    ensures IsEmpty(v) ==> r == 0
    ensures v.Int? ==> r == v.i
    ensures v == Bool(true) ==> r == 1
    ensures v.Card? ==> r == 1
  {
    match v
    case Null => 0
    case Bool(b) => if b then 1 else 0
    case Int(i) => i
    case Str(s) => EmptyStringsCastToZero(); StringToInt(s)
    case Card(_) => 1
  }

  /** The two strings PHP calls empty both cast to 0. */
  lemma EmptyStringsCastToZero()
    ensures StringToInt("") == 0 && StringToInt("0") == 0
  {
    assert LeadingDigits("0") == "0" by {
      assert LeadingDigits("0"[1..]) == "";
    }
    assert DigitsValue("0") == 0 by {
      assert "0"[..0] == "";
    }
  }

  /** Reading back the digits `NatDigits` wrote gives the number again. */
  lemma {:induction false} NatDigitsValue(n: nat)
    ensures DigitsValue(NatDigits(n)) == n
  {
    if n >= 10 {
      var d := NatDigits(n);
      assert d[..|d| - 1] == NatDigits(n / 10);
      NatDigitsValue(n / 10);
    }
  }

  /** A digit run followed by a non-digit is exactly the leading digit run. */
  lemma {:induction false} LeadingDigitsOfDigits(d: string, rest: string)
    requires AllDigits(d)
    requires |rest| == 0 || !IsDigit(rest[0])
    ensures LeadingDigits(d + rest) == d
  {
    if |d| > 0 {
      assert (d + rest)[1..] == d[1..] + rest;
      LeadingDigitsOfDigits(d[1..], rest);
    }
  }

  /** A string that starts with neither whitespace nor a sign casts to its leading digits' value. */
  lemma {:induction false} StringToIntOfDigitStart(s: string)
    requires |s| > 0 && IsDigit(s[0])
    ensures StringToInt(s) == UnsignedValue(s)
  {
    assert TrimLeadingWhitespace(s) == s;
    assert SignedValue(s) == UnsignedValue(s);
  }

  /** A string that starts with a minus sign casts to minus the digits after it. */
  lemma {:induction false} StringToIntOfMinus(s: string)
    requires |s| > 0 && s[0] == '-'
    ensures StringToInt(s) == -(UnsignedValue(s[1..]) as int)
  {
    assert TrimLeadingWhitespace(s) == s;
  }

  /**
   * `(int)` of the decimal text of an integer, possibly followed by text that
   * does not continue the number (as in "12abc"), gives that integer back.
   */
  lemma {:induction false} IntCastOfNumericPrefix(n: int, rest: string)
    requires |rest| == 0 || !IsDigit(rest[0])
    ensures IntCast(Str(DecimalString(n) + rest)) == n
  {
    var m: nat := if n < 0 then -n else n;
    var d := NatDigits(m);
    NatDigitsValue(m);
    LeadingDigitsOfDigits(d, rest);
    var s := DecimalString(n) + rest;
    if n < 0 {
      assert s[1..] == d + rest;
      StringToIntOfMinus(s);
    } else {
      assert s == d + rest && s[0] == d[0];
      StringToIntOfDigitStart(s);
    }
  }
}
