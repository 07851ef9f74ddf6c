/** Failure-carrying values and the parts of java.lang the configuration layer
    relies on: null references, the exceptions it raises, and how Java turns a
    null reference or an integer into text. */
module Wrappers {

  /** A Java reference that may be null: `None` is null. */
  datatype Option<+T> = None | Some(value: T)

  /** The result of a Java call that either returns a value or throws. */
  datatype Result<+R, +E> = Success(value: R) | Failure(error: E)

  /** The result of a `void` Java call: it returns normally or throws. */
  datatype Outcome<+E> = Pass | Fail(error: E)
}

module JavaLang {
  import opened Wrappers

  /** A 32-bit Java `int`. */
  newtype int32 = x: int | -0x8000_0000 <= x < 0x8000_0000

  /** A 64-bit Java `long`. */
  newtype int64 = x: int | -0x8000_0000_0000_0000 <= x < 0x8000_0000_0000_0000

  /** A Throwable, seen through what the configuration layer asks of it:
      `getMessage()`, which may be null. */
  datatype Throwable = Throwable(message: Option<string>)

  /** The exceptions this layer throws itself. */
  datatype Exception =
    | NullPointerException(message: Option<string>)
    | IllegalArgumentException(reason: string)
    | RuntimeException(cause: Throwable)

  /** The message commons-lang3 `Validate.notNull(object)` uses when it is given
      no message of its own. */
  const NotNullMessage := "The validated object is null"

  /** The text Java produces when a possibly-null String is concatenated or
      appended: a null reference prints as "null". */
  function JavaString(s: Option<string>): (r: string)
    ensures s.Some? ==> r == s.value
    ensures s.None? ==> r == "null"
  {
    match s
    case Some(v) => v
    case None => "null"
  }

  /** `Validate.notNull(object)`: throws a NullPointerException with the
      default message when the reference is null. */
  function ValidateNotNull<T>(o: Option<T>): (r: Outcome<Exception>)
    ensures r.Pass? <==> o.Some?
    ensures r.Fail? ==> r.error == NullPointerException(Some(NotNullMessage))
  {
    if o.Some? then Pass else Fail(NullPointerException(Some(NotNullMessage)))
  }

  /** `Validate.notEmpty(array, message)`: a null array raises a
      NullPointerException, an empty one an IllegalArgumentException, both
      carrying the caller's message. */
  function ValidateNotEmpty<T>(a: Option<seq<T>>, message: string): (r: Outcome<Exception>)
    ensures r.Pass? <==> a.Some? && |a.value| > 0
    ensures a.None? ==> r == Fail(NullPointerException(Some(message)))
    ensures a.Some? && |a.value| == 0 ==> r == Fail(IllegalArgumentException(message))
  {
    match a
    case None => Fail(NullPointerException(Some(message)))
    case Some(v) => if |v| == 0 then Fail(IllegalArgumentException(message)) else Pass
  }

  /** commons-lang3 `ArrayUtils.isEmpty(array)`: true for null and for a
      zero-length array. */
  predicate IsEmpty<T>(a: Option<seq<T>>): (r: bool)
    ensures r <==> ValidateNotEmpty(a, "").Fail?
  {
    a.None? || |a.value| == 0
  }

  // ---------------------------------------------------------------------
  // Decimal text, as `Integer.toString`/`Long.toString` (and `"" + n`) write it

  function DigitChar(d: nat): (c: char)
    requires d < 10
    ensures '0' <= c <= '9'
  {
    "0123456789"[d]
  }

  function DigitValue(c: char): (r: Option<nat>)
    ensures r.Some? <==> '0' <= c <= '9'
    ensures r.Some? ==> r.value < 10 && DigitChar(r.value) == c
  {
    if '0' <= c <= '9' then Some((c as int - '0' as int) as nat) else None
  }

  /** The decimal digits of `n`, most significant first, without leading zeros. */
  function NatToString(n: nat): (s: string)
    ensures 0 < |s| && '0' <= s[0] <= '9'
    ensures 0 < n ==> s[0] != '0'
    decreases n
  {
    if n < 10 then [DigitChar(n)] else NatToString(n / 10) + [DigitChar(n % 10)]
  }

  /** Every character of the rendering is a decimal digit. */
  lemma {:induction false} NatToStringDigits(n: nat)
    ensures forall i :: 0 <= i < |NatToString(n)| ==> '0' <= NatToString(n)[i] <= '9'
    decreases n
  {
    if 10 <= n {
      NatToStringDigits(n / 10);
    }
  }

  /** Java's decimal rendering of an integer: a leading '-' for negatives. */
  function IntToString(n: int): (s: string)
    ensures 0 < |s|
    ensures (s[0] == '-') <==> n < 0
  {
    if n < 0 then "-" + NatToString(-n) else NatToString(n)
  }

  /** Reads a non-empty string of decimal digits; anything else is rejected. */
  function ParseNat(s: string): (r: Option<nat>)
    decreases |s|
  {
    if |s| == 0 then None
    else
      var last := DigitValue(s[|s| - 1]);
      if last.None? then None
      else if |s| == 1 then last
      else
        var high := ParseNat(s[..|s| - 1]);
        if high.None? then None else Some(10 * high.value + last.value)
  }

  /** Reads an optionally '-'-signed decimal integer. */
  function ParseInt(s: string): (r: Option<int>)
  {
    if 0 < |s| && s[0] == '-' then Negate(ParseNat(s[1..]))
    else Widen(ParseNat(s))
  }

  function Negate(m: Option<nat>): Option<int> {
    match m
    case None => None
    case Some(v) => Some(-(v as int))
  }

  function Widen(m: Option<nat>): Option<int> {
    match m
    case None => None
    case Some(v) => Some(v as int)
  }

  lemma DigitRoundTrip(d: nat)
    requires d < 10
    ensures DigitValue(DigitChar(d)) == Some(d)
  {
    var v := DigitValue(DigitChar(d));
    assert "0123456789"[v.value] == "0123456789"[d];
  }

  lemma {:induction false} ParseNatToString(n: nat)
    ensures ParseNat(NatToString(n)) == Some(n)
    decreases n
  {
    var s := NatToString(n);
    if n < 10 {
      DigitRoundTrip(n);
    } else {
      var high := NatToString(n / 10);
      ParseNatToString(n / 10);
      DigitRoundTrip(n % 10);
      assert s == high + [DigitChar(n % 10)];
      assert s[..|s| - 1] == high;
      assert DigitValue(s[|s| - 1]) == Some(n % 10);
      assert ParseNat(s) == Some(10 * (n / 10) + n % 10);
    }
  }

  /** A negative number reads back through its '-' and its digits. */
  lemma ParseNegativeToString(n: int)
    requires n < 0
    ensures ParseInt(IntToString(n)) == Some(n)
  {
    var m: nat := -n;
    ParseNatToString(m);
    ParseNegative(NatToString(m), m);
    IntToStringNegative(n);
  }

  lemma IntToStringNegative(n: int)
    requires n < 0
    ensures IntToString(n) == "-" + NatToString(-n)
  {
  }

  lemma ParseNegative(digits: string, m: nat)
    requires ParseNat(digits) == Some(m)
    ensures ParseInt("-" + digits) == Some(-(m as int))
  {
    var s := "-" + digits;
    assert s[1..] == digits;
  }

  /** A non-negative number reads back through its digits alone. */
  lemma ParseNonNegativeToString(n: int)
    requires 0 <= n
    ensures ParseInt(IntToString(n)) == Some(n)
  {
    ParseNatToString(n);
  }

  /** Decimal rendering loses nothing: parsing it gives the number back. */
  lemma ParseIntToString(n: int)
    ensures ParseInt(IntToString(n)) == Some(n)
  {
    if n < 0 {
      ParseNegativeToString(n);
    } else {
      ParseNonNegativeToString(n);
    }
  }
}
