/** `handleError`: an HTTP failure is turned into a human-readable message and
    rethrown, so the stream it decorates fails and never delivers a value. */
module ErrorHandling {
  import opened Wrappers

  /** The `error` payload of an `HttpErrorResponse`: a client-side or network
      `ErrorEvent`, or whatever body the backend returned. */
  datatype ErrorPayload = ErrorEvent(message: string) | ResponseBody(body: string)

  datatype HttpErrorResponse = HttpErrorResponse(error: ErrorPayload, status: nat, message: string)

  const CLIENT_PREFIX: string := "An error occurred: "
  const BACKEND_PREFIX: string := "Backend returned code "

  predicate IsDigit(c: char) {
    '0' <= c <= '9'
  }

  function DigitChar(d: nat): (c: char)
    requires d < 10
    ensures IsDigit(c) && c as int - '0' as int == d
  {
    "0123456789"[d]
  }

  function DigitValue(c: char): nat
    requires IsDigit(c)
  {
    (c as int - '0' as int) as nat
  }

  /** The decimal rendering of `n`, as a template literal `${n}` writes it. */
  function Decimal(n: nat): (s: string)
    ensures s != []
    ensures forall i :: 0 <= i < |s| ==> IsDigit(s[i])
    ensures |s| > 1 ==> s[0] != '0'
    ensures s == "0" <==> n == 0
  {
    if n < 10 then [DigitChar(n)] else Decimal(n / 10) + [DigitChar(n % 10)]
  }

  /** The number a string of decimal digits denotes. */
  function ParseDecimal(s: string): nat
    requires forall i :: 0 <= i < |s| ==> IsDigit(s[i])
  {
    if s == [] then 0 else ParseDecimal(s[..|s| - 1]) * 10 + DigitValue(s[|s| - 1])
  }

  lemma {:induction false} DecimalRoundTrip(n: nat)
    ensures ParseDecimal(Decimal(n)) == n
  {
    var s := Decimal(n);
    if n >= 10 {
      assert s[..|s| - 1] == Decimal(n / 10);
      DecimalRoundTrip(n / 10);
    }
  }

  /** The leading run of decimal digits of `s`. */
  function LeadingDigits(s: string): (r: string)
    ensures |r| <= |s| && r == s[..|r|]
    ensures forall i :: 0 <= i < |r| ==> IsDigit(r[i])
  {
    if s == [] || !IsDigit(s[0]) then [] else [s[0]] + LeadingDigits(s[1..])
  }

  lemma {:induction false} LeadingDigitsOf(d: string, rest: string)
    requires forall i :: 0 <= i < |d| ==> IsDigit(d[i])
    requires rest != [] && !IsDigit(rest[0])
    ensures LeadingDigits(d + rest) == d
  {
    if d == [] {
      assert d + rest == rest;
    } else {
      assert (d + rest)[1..] == d[1..] + rest;
      LeadingDigitsOf(d[1..], rest);
    }
  }

  /** The message `handleError` builds for `err`: the client prefix and the event's
      message, or the backend prefix, the status in decimal, ": " and the
      response's message. */
  function ErrorMessage(err: HttpErrorResponse): (msg: string)
    ensures err.error.ErrorEvent? ==>
      |msg| >= |CLIENT_PREFIX| && msg[..|CLIENT_PREFIX|] == CLIENT_PREFIX &&
      msg[|CLIENT_PREFIX|..] == err.error.message
    ensures err.error.ResponseBody? ==>
      |msg| >= |BACKEND_PREFIX| && msg[..|BACKEND_PREFIX|] == BACKEND_PREFIX &&
      msg[|BACKEND_PREFIX|..] == Decimal(err.status) + ": " + err.message
  {
    match err.error
    case ErrorEvent(m) => CLIENT_PREFIX + m
    case ResponseBody(_) => BACKEND_PREFIX + Decimal(err.status) + ": " + err.message
  }

  /** `handleError`: whatever the error, the result is a failure carrying the message. */
  function HandleError<T>(err: HttpErrorResponse): (r: Emission<T, string>)
    ensures r.Error? && r.error == ErrorMessage(err)
  {
    Error(ErrorMessage(err))
  }

  /** A message reads as a client-side report exactly when it starts with the
      client prefix. */
  predicate IsClientReport(msg: string) {
    |msg| >= |CLIENT_PREFIX| && msg[..|CLIENT_PREFIX|] == CLIENT_PREFIX
  }

  /** The two message formats cannot be confused: the message tells which kind of
      failure occurred. */
  lemma ClassificationIsRecoverable(err: HttpErrorResponse)
    ensures IsClientReport(ErrorMessage(err)) <==> err.error.ErrorEvent?
    ensures !IsClientReport(ErrorMessage(err)) ==>
      ErrorMessage(err)[..|BACKEND_PREFIX|] == BACKEND_PREFIX
  {
    var msg := ErrorMessage(err);
    if err.error.ResponseBody? {
      assert msg[0] == 'B';
    }
  }

  /** A client-side message carries the event's own message after the prefix. */
  lemma ClientMessageIsRecoverable(err: HttpErrorResponse)
    requires err.error.ErrorEvent?
    ensures ErrorMessage(err)[|CLIENT_PREFIX|..] == err.error.message
  {
  }

  /** A backend message carries the status code in decimal right after the prefix. */
  lemma StatusIsRecoverable(err: HttpErrorResponse)
    requires err.error.ResponseBody?
    ensures |ErrorMessage(err)| > |BACKEND_PREFIX|
    ensures ErrorMessage(err)[..|BACKEND_PREFIX|] == BACKEND_PREFIX
    ensures ErrorMessage(err)[|BACKEND_PREFIX| + |Decimal(err.status)|..] == ": " + err.message
    ensures ParseDecimal(LeadingDigits(ErrorMessage(err)[|BACKEND_PREFIX|..])) == err.status
  {
    var d := Decimal(err.status);
    var msg := ErrorMessage(err);
    assert msg[|BACKEND_PREFIX|..] == d + (": " + err.message);
    assert msg[|BACKEND_PREFIX| + |d|..] == (d + (": " + err.message))[|d|..];
    LeadingDigitsOf(d, ": " + err.message);
    DecimalRoundTrip(err.status);
  }
}
