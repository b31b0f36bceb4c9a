/** The slice of the Java runtime that the LLM clients rely on: nullable
    references, thrown exceptions (including the gateway's own LLMException),
    32-bit int arithmetic, Integer.parseInt / Integer.toString and
    String.toLowerCase on ASCII letters. */
module Lang {

  /** A Java reference that may be null. */
  datatype Option<+T> = None | Some(value: T) {
    function GetOr(default: T): T {
      match this
      case Some(v) => v
      case None => default
    }
  }

  /** The classification an LLMException carries. */
  datatype ErrorType =
    | CLIENT_ERROR
    | SERVER_ERROR
    | AUTH_ERROR
    | RATE_LIMIT
    | TIMEOUT
    | INVALID_RESPONSE

  /** The Java exception classes the clients' catch clauses tell apart.
      JsonSyntax is Gson's JsonSyntaxException (a JsonParseException); Io is
      the IOException family an HTTP send fails with. */
  datatype JavaException =
    | JsonSyntax
    | IllegalState
    | IllegalArgument
    | NullPointer
    | ClassCast
    | IndexOutOfBounds
    | UnsupportedOperation
    | NumberFormat
    | Io

  /** Anything that can be thrown: a plain Java exception or an
      LLMException(errorType, providerId, retryable). The human-readable
      message and the wrapped cause are not modelled. */
  datatype Throwable =
    | Java(kind: JavaException)
    | Llm(errorType: ErrorType, providerId: string, retryable: bool)

  /** The result of Java code that either returns a value or throws; also the
      completion of a CompletableFuture (normally or exceptionally). */
  datatype Try<+T> = Value(value: T) | Thrown(error: Throwable) {
    predicate IsFailure() { Thrown? }

    function PropagateFailure<U>(): Try<U>
      requires Thrown?
    {
      Thrown(error)
    }

    function Extract(): T
      requires Value?
    {
      value
    }
  }

  /** Dereferencing a Java reference: null throws NullPointerException. */
  function Deref<T>(o: Option<T>): (r: Try<T>)
    ensures r.Value? <==> o.Some?
    ensures r.Thrown? ==> r.error == Java(NullPointer)
  {
    match o
    case Some(v) => Value(v)
    case None => Thrown(Java(NullPointer))
  }

  /** `try { ... } catch (E1 | E2 | ... e) { throw new LLMException(msg,
      INVALID_RESPONSE, providerId, false, e); }`: the Java exceptions whose
      class is listed become a non-retryable INVALID_RESPONSE of the provider;
      LLMExceptions and unlisted exceptions pass through unchanged. */
  function CatchAsInvalid<T>(t: Try<T>, caught: set<JavaException>, providerId: string): (r: Try<T>)
    ensures t.Value? ==> r == t
    ensures t.Thrown? && t.error.Java? && t.error.kind in caught ==>
              r == Thrown(Llm(INVALID_RESPONSE, providerId, false))
    ensures t.Thrown? && !(t.error.Java? && t.error.kind in caught) ==> r == t
  {
    if t.Thrown? && t.error.Java? && t.error.kind in caught
    then Thrown(Llm(INVALID_RESPONSE, providerId, false))
    else t
  }

  /** `try { ... } catch (E1 | E2 | ... e) { return null; }`: the listed
      classes make the result null; anything else passes through. */
  function CatchAsNull<T>(t: Try<Option<T>>, caught: set<JavaException>): (r: Try<Option<T>>)
    ensures t.Value? ==> r == t
    ensures t.Thrown? && t.error.Java? && t.error.kind in caught ==> r == Value(None)
    ensures t.Thrown? && !(t.error.Java? && t.error.kind in caught) ==> r == t
  {
    if t.Thrown? && t.error.Java? && t.error.kind in caught then Value(None) else t
  }

  /** `catch (Exception e)`: every Java exception class. */
  const AllExceptions: set<JavaException> :=
    {JsonSyntax, IllegalState, IllegalArgument, NullPointer, ClassCast,
     IndexOutOfBounds, UnsupportedOperation, NumberFormat, Io}

  // ---------------------------------------------------------------------
  // 32-bit int

  const INT_MIN: int := -0x8000_0000
  const INT_MAX: int := 0x7fff_ffff
  const TWO_TO_32: int := 0x1_0000_0000

  predicate IsInt32(n: int) {
    INT_MIN <= n <= INT_MAX
  }

  /** The low 32 bits of n read as a signed int: Java's (int) narrowing and
      the result of int + int on overflow. */
  function Wrap32(n: int): (r: int)
    ensures IsInt32(r)
    ensures (r - n) % TWO_TO_32 == 0
    ensures IsInt32(n) ==> r == n
  {
    (n - INT_MIN) % TWO_TO_32 + INT_MIN
  }

  /** Java's int addition. */
  function AddInt(a: int, b: int): (r: int)
    requires IsInt32(a) && IsInt32(b)
    ensures IsInt32(r)
    ensures IsInt32(a + b) ==> r == a + b
    ensures a + b > INT_MAX ==> r == a + b - TWO_TO_32
    ensures a + b < INT_MIN ==> r == a + b + TWO_TO_32
  {
    Wrap32(a + b)
  }

  /** Rounding toward zero (BigDecimal.intValue drops the fraction). */
  function TruncateReal(x: real): (r: int)
    ensures 0.0 <= x ==> r as real <= x < r as real + 1.0
    ensures x < 0.0 ==> r as real - 1.0 < x <= r as real
  {
    if x >= 0.0 then x.Floor else -((-x).Floor)
  }

  // ---------------------------------------------------------------------
  // Decimal text of integers

  predicate IsDigit(c: char) {
    '0' <= c <= '9'
  }

  function DigitChar(d: nat): (c: char)
    requires d < 10
    ensures IsDigit(c) && c as int - '0' as int == d
  {
    (d + '0' as int) as char
  }

  /** The decimal digits of n, most significant first, without leading zeros. */
  function Digits(n: nat): (s: string)
    ensures |s| > 0
    ensures forall i :: 0 <= i < |s| ==> IsDigit(s[i])
  {
    if n < 10 then [DigitChar(n)] else Digits(n / 10) + [DigitChar(n % 10)]
  }

  /** The value of a string of decimal digits. */
  function DigitsValue(s: string): nat
    requires forall i :: 0 <= i < |s| ==> IsDigit(s[i])
  {
    if s == [] then 0
    else
      assert IsDigit(s[|s| - 1]);
      DigitsValue(s[..|s| - 1]) * 10 + (s[|s| - 1] as int - '0' as int) as nat
  }

  /** Integer.toString(n). */
  function Decimal(n: int): string {
    if n < 0 then "-" + Digits(-n) else Digits(n)
  }

  /** Integer.parseInt(s) for ASCII digits: an optional sign, at least one
      digit and a value that fits in an int, otherwise NumberFormatException. */
  function ParseInt(s: string): (r: Try<int>)
    ensures r.Value? ==> IsInt32(r.value)
    ensures r.Thrown? ==> r.error == Java(NumberFormat)
    ensures s == [] ==> r.Thrown?
    ensures |s| > 0 && !IsDigit(s[0]) && s[0] != '-' && s[0] != '+' ==> r.Thrown?
  {
    var negative := |s| > 0 && s[0] == '-';
    var digits := if |s| > 0 && (s[0] == '-' || s[0] == '+') then s[1..] else s;
    if digits == [] || exists i :: 0 <= i < |digits| && !IsDigit(digits[i]) then
      Thrown(Java(NumberFormat))
    else
      var magnitude: int := DigitsValue(digits);
      var v := if negative then -magnitude else magnitude;
      if IsInt32(v) then Value(v) else Thrown(Java(NumberFormat))
  }

  lemma {:induction false} DigitsRoundTrip(n: nat)
    ensures DigitsValue(Digits(n)) == n
  {
    if n >= 10 {
      var s := Digits(n);
      assert s[..|s| - 1] == Digits(n / 10);
      DigitsRoundTrip(n / 10);
    }
  }

  /** Integer.parseInt undoes Integer.toString on every int. */
  lemma ParseDecimalRoundTrip(n: int)
    requires IsInt32(n)
    ensures ParseInt(Decimal(n)) == Value(n)
  {
    if n < 0 {
      DigitsRoundTrip(-n);
      assert Decimal(n)[1..] == Digits(-n);
    } else {
      DigitsRoundTrip(n);
      assert Digits(n)[0] != '-' && Digits(n)[0] != '+';
    }
  }

  // ---------------------------------------------------------------------
  // Strings

  function LowerChar(c: char): char {
    if 'A' <= c <= 'Z' then (c as int + 32) as char else c
  }

  /** String.toLowerCase() restricted to ASCII letters. */
  function ToLower(s: string): (r: string)
    ensures |r| == |s|
    ensures forall i :: 0 <= i < |s| ==> r[i] == LowerChar(s[i])
  {
    if s == [] then [] else [LowerChar(s[0])] + ToLower(s[1..])
  }

  /** Lower-casing twice is lower-casing once: a name the planner has
      lower-cased is matched as it is. */
  lemma ToLowerIdempotent(s: string)
    ensures ToLower(ToLower(s)) == ToLower(s)
  {
    assert forall i :: 0 <= i < |s| ==> LowerChar(LowerChar(s[i])) == LowerChar(s[i]);
  }

  predicate EndsWith(s: string, suffix: string) {
    |suffix| <= |s| && s[|s| - |suffix|..] == suffix
  }
}
