/** The few .NET notions the chat client relies on: nullable references,
    exceptions, System.TimeSpan, byte, and the text form of a Guid. */
module DotNet {

  /** A nullable reference: None stands for C#'s null. */
  datatype Option<+T> = None | Some(value: T)

  /** A C# string, which may be null. */
  type NullableString = Option<string>

  /** string.IsNullOrEmpty */
  predicate IsNullOrEmpty(s: NullableString)
  {
    s.None? || s.value == ""
  }

  /** The exceptions the client and its configs throw. */
  datatype Exception =
    | ArgumentNullException(paramName: string, customMessage: NullableString)
    | ArgumentOutOfRangeException(paramName: string, message: string)
    | TimeoutException(message: string)
    | InvalidOperationException(message: string)
    | NullReferenceException

  /** `throw new ArgumentNullException(nameof(p))`, with the framework's own message. */
  function NullArgument(paramName: string): Exception
  {
    ArgumentNullException(paramName, None)
  }

  /** A constructor either returns its value or throws. */
  datatype Result<+T> = Success(value: T) | Failure(error: Exception)

  /** A void method either returns normally or throws. */
  datatype Outcome = Pass | Fail(error: Exception)

  /** System.TimeSpan, counted in ticks of 100 nanoseconds. */
  datatype TimeSpan = TimeSpan(ticks: int)

  const TicksPerSecond: int := 10_000_000

  /** default(TimeSpan) */
  const ZeroTimeSpan: TimeSpan := TimeSpan(0)

  /** TimeSpan.FromSeconds for whole seconds. */
  function FromSeconds(seconds: int): (t: TimeSpan)
    ensures (t == ZeroTimeSpan) <==> (seconds == 0)
    ensures t.ticks % TicksPerSecond == 0 && t.ticks / TicksPerSecond == seconds
  {
    TimeSpan(seconds * TicksPerSecond)
  }

  /** System.Byte */
  newtype byte = x: int | 0 <= x < 256

  predicate IsLowerHexDigit(c: char)
  {
    '0' <= c <= '9' || 'a' <= c <= 'f'
  }

  /** The "D" text form that Guid.ToString() produces:
      32 lower-case hex digits in groups 8-4-4-4-12, joined by hyphens. */
  predicate IsGuidText(s: string)
  {
    |s| == 36 &&
    forall i :: 0 <= i < |s| ==>
      if i == 8 || i == 13 || i == 18 || i == 23 then s[i] == '-' else IsLowerHexDigit(s[i])
  }

  /** What Guid.NewGuid().ToString() can return. Which value a call returns is
      decided by the generator, so the model receives it as an argument. */
  type GuidText = s: string | IsGuidText(s) witness "00000000-0000-0000-0000-000000000000"

  /** The decimal digit for 0..9. */
  function DigitChar(d: int): char
    requires 0 <= d < 10
  {
    "0123456789"[d]
  }

  /** The decimal digits of a natural number, most significant first. */
  function Digits(n: nat): (s: string)
    ensures |s| > 0 && forall i :: 0 <= i < |s| ==> '0' <= s[i] <= '9'
    decreases n
  {
    if n < 10 then [DigitChar(n)] else Digits(n / 10) + [DigitChar(n % 10)]
  }

  /** An integer as string interpolation writes it: an optional minus sign, then its digits. */
  function IntToString(n: int): (s: string)
    ensures |s| > 0 && (s[0] == '-' <==> n < 0)
  {
    if n < 0 then "-" + Digits(-n) else Digits(n)
  }

  /** Whether every character of `s` is a decimal digit. */
  predicate AllDigits(s: string)
  {
    forall i :: 0 <= i < |s| ==> '0' <= s[i] <= '9'
  }

  /** The number a string of decimal digits denotes, most significant first. */
  function DigitsValue(s: string): nat
    requires AllDigits(s)
  {
    if s == [] then 0
    else DigitsValue(s[..|s| - 1]) * 10 + ((s[|s| - 1] as int) - ('0' as int))
  }

  /** The number a string of the form IntToString writes denotes: a leading
      minus sign negates the digits after it. */
  function IntValue(s: string): int
    requires |s| > 0 && (if s[0] == '-' then AllDigits(s[1..]) else AllDigits(s))
  {
    if s[0] == '-' then 0 - DigitsValue(s[1..]) as int else DigitsValue(s)
  }

  /** The digits of n denote n. */
  lemma {:induction false} DigitsDenote(n: nat)
    ensures AllDigits(Digits(n)) && DigitsValue(Digits(n)) == n
    decreases n
  {
    if n >= 10 {
      DigitsDenote(n / 10);
      var s := Digits(n);
      assert s[..|s| - 1] == Digits(n / 10);
      assert s[|s| - 1] == DigitChar(n % 10);
    }
  }

  /** IntToString is read back as the integer it was given. */
  lemma {:induction false} IntToStringRoundTrip(n: int)
    ensures var s := IntToString(n);
            && (if s[0] == '-' then AllDigits(s[1..]) else AllDigits(s))
            && IntValue(s) == n
  {
    var s := IntToString(n);
    if n < 0 {
      DigitsDenote(-n);
      assert s == "-" + Digits(-n);
      assert s[1..] == Digits(-n);
    } else {
      DigitsDenote(n);
      assert s == Digits(n);
      assert s[0] != '-';
    }
  }
}
