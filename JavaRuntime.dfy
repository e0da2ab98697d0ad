/** The small part of Java's semantics the app relies on: null, exceptions
    that escape a call, the narrowing `(int)` cast of a `long`, and the
    decimal text `String.valueOf` gives an integer. */
module JavaRuntime {

  /** A reference that may be null: `None` is Java's `null`. */
  datatype Option<T> = None | Some(value: T) {
    function GetOr(default: T): T {
      match this
      case Some(v) => v
      case None => default
    }
  }

  /** The exception classes that reach the modelled code. */
  datatype Exception =
    | NullPointer       // NullPointerException
    | DateTime          // java.time.DateTimeException
    | IllegalState      // IllegalStateException
    | IllegalArgument   // IllegalArgumentException, SecurityException
    | IO                // IOException
    | ServiceStart      // any exception thrown by Context.startService

  /** How a `void` call completes: normally, or by throwing. */
  datatype Outcome = Normal | Threw(error: Exception)

  /** How a call with a result completes. */
  datatype Result<T> = Returns(value: T) | Throws(error: Exception)

  const TWO_31: int := 0x8000_0000
  const TWO_32: int := 0x1_0000_0000

  /** Whether `x` fits a Java `int`. */
  predicate IsInt(x: int) {
    -TWO_31 <= x < TWO_31
  }

  /** Java's narrowing cast `(int) x` of a `long`: keeps the low 32 bits,
      read as two's complement. */
  function ToInt(x: int): (r: int)
    ensures IsInt(r)
    ensures (x - r) % TWO_32 == 0
    ensures IsInt(x) ==> r == x
  {
    (x + TWO_31) % TWO_32 - TWO_31
  }

  /** The `int` cast is determined by the two facts `ToInt` promises:
      no other Java `int` is congruent to `x` modulo 2^32. */
  lemma ToIntUnique(x: int, k: int)
    requires IsInt(k) && (x - k) % TWO_32 == 0
    ensures k == ToInt(x)
  {
    var r := ToInt(x);
    assert (k - r) % TWO_32 == 0 by {
      assert (x - k) % TWO_32 == 0 && (x - r) % TWO_32 == 0;
      assert k - r == (x - r) - (x - k);
      ModDifference(x - r, x - k);
    }
    assert -TWO_32 < k - r < TWO_32;
  }

  lemma ModDifference(a: int, b: int)
    requires a % TWO_32 == 0 && b % TWO_32 == 0
    ensures (a - b) % TWO_32 == 0
  {
    assert a == TWO_32 * (a / TWO_32);
    assert b == TWO_32 * (b / TWO_32);
    assert a - b == TWO_32 * (a / TWO_32 - b / TWO_32);
  }

  predicate IsDigit(c: char) {
    '0' <= c <= '9'
  }

  function DigitChar(d: int): (c: char)
    requires 0 <= d < 10
    ensures IsDigit(c) && c as int - '0' as int == d
  {
    ('0' as int + d) as char
  }

  /** The decimal digits of a natural number, most significant first,
      without leading zeros. */
  function NatDigits(n: nat): (s: string)
    ensures 1 <= |s|
    ensures forall i :: 0 <= i < |s| ==> IsDigit(s[i])
    ensures |s| > 1 ==> s[0] != '0'
    decreases n
  {
    if n < 10 then [DigitChar(n)] else NatDigits(n / 10) + [DigitChar(n % 10)]
  }

  /** `String.valueOf` of a Java integer: a minus sign for negatives,
      then the digits. */
  function DecimalString(n: int): (r: string)
    ensures 1 <= |r| && (r[0] == '-' <==> n < 0)
    ensures forall i :: 0 <= i < |r| ==> IsDigit(r[i]) || (i == 0 && r[i] == '-')
  {
    if n < 0 then "-" + NatDigits(-n) else NatDigits(n)
  }

  /** The value of a string of decimal digits. */
  function DigitsValue(s: string): int
    requires forall i :: 0 <= i < |s| ==> IsDigit(s[i])
  {
    if s == [] then 0
    else DigitsValue(s[..|s| - 1]) * 10 + (s[|s| - 1] as int - '0' as int)
  }

  /** Reads back what `DecimalString` writes. */
  function ParseDecimal(s: string): int
    requires 1 <= |s|
    requires forall i :: 0 <= i < |s| ==> IsDigit(s[i]) || (i == 0 && s[i] == '-')
  {
    if s[0] == '-' then -DigitsValue(s[1..]) else DigitsValue(s)
  }

  lemma {:induction false} NatDigitsRoundTrip(n: nat)
    ensures DigitsValue(NatDigits(n)) == n
    decreases n
  {
    if n >= 10 {
      var s := NatDigits(n);
      assert s[..|s| - 1] == NatDigits(n / 10);
      NatDigitsRoundTrip(n / 10);
    }
  }

  /** Decimal rendering loses nothing: parsing it gives the number back. */
  lemma DecimalRoundTrip(n: int)
    ensures var s := DecimalString(n);
      1 <= |s| && (forall i :: 0 <= i < |s| ==> IsDigit(s[i]) || (i == 0 && s[i] == '-')) &&
      ParseDecimal(s) == n
  {
    var s := DecimalString(n);
    if n < 0 {
      assert s[1..] == NatDigits(-n);
      NatDigitsRoundTrip(-n);
    } else {
      NatDigitsRoundTrip(n);
    }
  }

  /** Distinct integers have distinct decimal texts. */
  lemma DecimalStringInjective(a: int, b: int)
    requires DecimalString(a) == DecimalString(b)
    ensures a == b
  {
    DecimalRoundTrip(a);
    DecimalRoundTrip(b);
  }

  /** `String.valueOf` of a possibly null reference, as string
      concatenation and `StringBuilder.append` use it. */
  function StringOf(s: Option<string>): string {
    match s
    case Some(v) => v
    case None => "null"
  }
}
