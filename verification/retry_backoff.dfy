/**
 * The pause `createNotionClient` takes in `onFailedAttempt` before a failed
 * Notion call is retried: a rate-limited answer (an APIResponseError with
 * status 429) waits for the seconds in its `retry-after` header, read with
 * `parseInt`, or 5 seconds when there is no such header; any other failure
 * adds no wait.
 *
 * `parseInt` without a radix reads a text that starts with "0x" or "0X" as
 * hexadecimal digits after that prefix, and any other text as decimal digits.
 */
module RetryBackoff {
  import opened Common

  /** The parts of a failed attempt's error that `onFailedAttempt` reads. */
  datatype AttemptError = AttemptError(name: string, status: Option<int>, retryAfter: Option<string>)

  /**
   * The extra wait before the next attempt. `PauseUnparsed` is a header that
   * `parseInt` would turn into NaN or read past a sign or blank, which this
   * model does not interpret.
   */
  datatype Pause = NoPause | PauseSeconds(seconds: nat) | PauseUnparsed(header: string)

  const FallbackRetryAfter: string := "5"

  /** `error.name === "APIResponseError" && error.status === 429`. */
  predicate Throttled(e: AttemptError): (b: bool)
    ensures b ==> e.status == Some(429)
    ensures e.name != "APIResponseError" ==> !b
  {
    e.name == "APIResponseError" && e.status == Some(429)
  }

  /** A digit of base `radix` (10 or 16): '0'-'9' below the radix, and 'a'-'f', 'A'-'F' in base 16. */
  predicate IsDigitIn(c: char, radix: nat)
  {
    ('0' <= c <= '9' && c as int - '0' as int < radix) || (radix == 16 && ('a' <= c <= 'f' || 'A' <= c <= 'F'))
  }

  function DigitValue(c: char, radix: nat): (v: nat)
    requires IsDigitIn(c, radix)
    ensures v < radix
  {
    if '0' <= c <= '9' then c as int - '0' as int
    else if 'a' <= c <= 'f' then c as int - 'a' as int + 10
    else c as int - 'A' as int + 10
  }

  predicate AllDigits(s: string, radix: nat)
  {
    forall i :: 0 <= i < |s| ==> IsDigitIn(s[i], radix)
  }

  /** The text starts with the prefix that makes `parseInt` read base 16. */
  predicate HexPrefixed(s: string)
  {
    |s| >= 2 && s[0] == '0' && (s[1] == 'x' || s[1] == 'X')
  }

  /** The longest prefix of digits of base `radix`. */
  function LeadingDigits(s: string, radix: nat): (d: string)
    ensures |d| <= |s| && d == s[..|d|]
    ensures AllDigits(d, radix)
    ensures |d| < |s| ==> !IsDigitIn(s[|d|], radix)
    decreases |s|
  {
    if s != [] && IsDigitIn(s[0], radix) then [s[0]] + LeadingDigits(s[1..], radix) else []
  }

  /** The number a string of digits of base `radix` denotes. */
  function DigitsValue(d: string, radix: nat): nat
    requires AllDigits(d, radix)
    decreases |d|
  {
    if d == [] then 0
    else DigitsValue(d[..|d| - 1], radix) * radix + DigitValue(d[|d| - 1], radix)
  }

  /** The header value `retry-after || "5"`: an absent or empty header falls back to "5". */
  function RetryAfterText(e: AttemptError): (text: string)
    ensures text != ""
    ensures e.retryAfter.Some? && e.retryAfter.value != "" ==> text == e.retryAfter.value
    ensures e.retryAfter.None? || e.retryAfter.value == "" ==> text == FallbackRetryAfter
  {
    if e.retryAfter.Some? && e.retryAfter.value != "" then e.retryAfter.value else FallbackRetryAfter
  }

  /** The wait `onFailedAttempt` adds after the failed attempt `e`. */
  function Backoff(e: AttemptError): (p: Pause)
    ensures p.NoPause? <==> !Throttled(e)
    ensures Throttled(e) && (e.retryAfter.None? || e.retryAfter == Some("")) ==> p == PauseSeconds(5)
  {
    if Throttled(e) then
      var text := RetryAfterText(e);
      var hex := HexPrefixed(text);
      var radix := if hex then 16 else 10;
      var digits := LeadingDigits(if hex then text[2..] else text, radix);
      assert text == FallbackRetryAfter ==> !hex && digits == "5" && DigitsValue(digits, radix) == 5 by {
        assert LeadingDigits(FallbackRetryAfter, 10) == "5";
        assert "5"[..0] == [];
      }
      if digits == "" then PauseUnparsed(text) else PauseSeconds(DigitsValue(digits, radix))
    else
      NoPause
  }

  /**
   * The argument `setTimeout` receives for a pause of whole seconds, and no
   * wait at all for a failure that is not throttled. An unparsed header is
   * excluded, since its wait is not modelled.
   */
  function PauseMillis(p: Pause): (ms: nat)
    requires !p.PauseUnparsed?
    ensures p.PauseSeconds? ==> ms == p.seconds * 1000
    ensures p.NoPause? ==> ms == 0
  {
    if p.PauseSeconds? then p.seconds * 1000 else 0
  }

  function DigitChar(k: nat): (c: char)
    requires k < 10
    ensures IsDigitIn(c, 10) && DigitValue(c, 10) == k
  {
    ('0' as int + k) as char
  }

  /** The decimal rendering of a number of seconds, as a server writes it in `retry-after`. */
  function Decimal(n: nat): (s: string)
    ensures s != [] && AllDigits(s, 10)
    ensures |s| == 1 <==> n < 10
    decreases n
  {
    if n < 10 then [DigitChar(n)] else Decimal(n / 10) + [DigitChar(n % 10)]
  }

  lemma {:induction false} DecimalValue(n: nat)
    ensures DigitsValue(Decimal(n), 10) == n
    decreases n
  {
    var s := Decimal(n);
    if n >= 10 {
      DecimalValue(n / 10);
      assert s[..|s| - 1] == Decimal(n / 10);
    } else {
      assert s[..|s| - 1] == [];
    }
  }

  /** The longest digit prefix of a number followed by a non-digit is that number. */
  lemma {:induction false} LeadingDigitsOfNumber(d: string, rest: string, radix: nat)
    requires d != [] && AllDigits(d, radix)
    requires rest == [] || !IsDigitIn(rest[0], radix)
    ensures LeadingDigits(d + rest, radix) == d
    decreases |d|
  {
    assert (d + rest)[1..] == d[1..] + rest;
    if |d| > 1 {
      LeadingDigitsOfNumber(d[1..], rest, radix);
    } else {
      assert d[1..] + rest == rest;
    }
  }

  /**
   * A rate-limited answer whose header starts with the decimal number n waits
   * n seconds. The header "0" followed by "x" or "X" is read as hexadecimal
   * instead, see `HexHeaderSecondsHonoured`.
   */
  lemma HeaderSecondsHonoured(n: nat, rest: string)
    requires rest == [] || !IsDigitIn(rest[0], 10)
    requires !(n == 0 && rest != [] && (rest[0] == 'x' || rest[0] == 'X'))
    ensures Backoff(AttemptError("APIResponseError", Some(429), Some(Decimal(n) + rest))) == PauseSeconds(n)
    ensures PauseMillis(Backoff(AttemptError("APIResponseError", Some(429), Some(Decimal(n) + rest)))) == n * 1000
  {
    var text := Decimal(n) + rest;
    assert !HexPrefixed(text) by {
      if |Decimal(n)| >= 2 {
        assert text[1] == Decimal(n)[1];
      } else if n == 0 && |text| >= 2 {
        assert text[0] == '0' && text[1] == rest[0];
      } else if |text| >= 2 {
        assert text[0] == DigitChar(n) && n != 0;
      }
    }
    LeadingDigitsOfNumber(Decimal(n), rest, 10);
    DecimalValue(n);
  }

  /** A rate-limited answer whose header is "0x" or "0X" and hexadecimal digits h waits the value of h in seconds. */
  lemma HexHeaderSecondsHonoured(x: char, h: string, rest: string)
    requires x == 'x' || x == 'X'
    requires h != [] && AllDigits(h, 16)
    requires rest == [] || !IsDigitIn(rest[0], 16)
    ensures Backoff(AttemptError("APIResponseError", Some(429), Some(['0', x] + h + rest))) == PauseSeconds(DigitsValue(h, 16))
  {
    var text := ['0', x] + h + rest;
    assert text[2..] == h + rest;
    LeadingDigitsOfNumber(h, rest, 16);
  }

  /** `retry-after: "0x10"` waits sixteen seconds, and "0x" alone is not a number. */
  lemma HexHeaderExamples()
    ensures Backoff(AttemptError("APIResponseError", Some(429), Some("0x10"))) == PauseSeconds(16)
    ensures Backoff(AttemptError("APIResponseError", Some(429), Some("0x"))).PauseUnparsed?
  {
    HexHeaderSecondsHonoured('x', "10", "");
    assert ['0', 'x'] + "10" + "" == "0x10";
    assert DigitsValue("10", 16) == 16 by {
      assert "10"[..1] == "1";
      assert "1"[..0] == [];
    }
    assert "0x"[2..] == [];
  }
}
