/** The portal timestamp: a wall-clock instant formatted with strftime('%Y%m%d%H%M%S'). */
module Clock {

  /** A datetime as Python's datetime object holds it (the time zone is
      applied before the instant reaches the model). */
  datatype Instant = Instant(year: int, month: int, day: int, hour: int, minute: int, second: int)

  /** The ranges a datetime guarantees for each field. */
  predicate Valid(t: Instant) {
    && 1 <= t.year <= 9999
    && 1 <= t.month <= 12
    && 1 <= t.day <= 31
    && 0 <= t.hour < 24
    && 0 <= t.minute < 60
    && 0 <= t.second < 60
  }

  function Pow10(n: nat): (p: nat)
    ensures p >= 1
  {
    if n == 0 then 1 else 10 * Pow10(n - 1)
  }

  predicate IsDigit(c: char) {
    '0' <= c <= '9'
  }

  predicate AllDigits(s: string) {
    forall i :: 0 <= i < |s| ==> IsDigit(s[i])
  }

  /** n written in decimal, zero-padded on the left to exactly `width` digits. */
  function Digits(n: nat, width: nat): (s: string)
    requires n < Pow10(width)
    ensures |s| == width && AllDigits(s)
  {
    if width == 0 then []
    else Digits(n / 10, width - 1) + [('0' as int + n % 10) as char]
  }

  /** The number a string of decimal digits denotes. */
  function ParseDigits(s: string): nat
    requires AllDigits(s)
  {
    if s == [] then 0
    else 10 * ParseDigits(s[..|s| - 1]) + (s[|s| - 1] as int - '0' as int)
  }

  lemma {:induction false} ParseDigitsOfDigits(n: nat, width: nat)
    requires n < Pow10(width)
    ensures ParseDigits(Digits(n, width)) == n
  {
    if width > 0 {
      var s := Digits(n, width);
      assert s[..|s| - 1] == Digits(n / 10, width - 1);
      ParseDigitsOfDigits(n / 10, width - 1);
    }
  }

  /** strftime('%Y%m%d%H%M%S'): fourteen decimal digits. */
  function Timestamp(t: Instant): (s: string)
    requires Valid(t)
    ensures |s| == 14 && AllDigits(s)
  {
    Digits(t.year, 4) + Digits(t.month, 2) + Digits(t.day, 2)
    + Digits(t.hour, 2) + Digits(t.minute, 2) + Digits(t.second, 2)
  }

  /** Reads a fourteen-digit timestamp back into its fields. */
  function ParseTimestamp(s: string): Instant
    requires |s| == 14 && AllDigits(s)
  {
    Instant(ParseDigits(s[0..4]), ParseDigits(s[4..6]), ParseDigits(s[6..8]),
            ParseDigits(s[8..10]), ParseDigits(s[10..12]), ParseDigits(s[12..14]))
  }

  /** The timestamp determines the instant: formatting loses nothing. */
  lemma TimestampRoundTrip(t: Instant)
    requires Valid(t)
    ensures ParseTimestamp(Timestamp(t)) == t
  {
    var s := Timestamp(t);
    var y, mo, d := Digits(t.year, 4), Digits(t.month, 2), Digits(t.day, 2);
    var h, mi, se := Digits(t.hour, 2), Digits(t.minute, 2), Digits(t.second, 2);
    assert s == y + mo + d + h + mi + se;
    assert s[0..4] == Digits(t.year, 4);
    assert s[4..6] == Digits(t.month, 2);
    assert s[6..8] == Digits(t.day, 2);
    assert s[8..10] == Digits(t.hour, 2);
    assert s[10..12] == Digits(t.minute, 2);
    assert s[12..14] == Digits(t.second, 2);
    ParseDigitsOfDigits(t.year, 4);
    ParseDigitsOfDigits(t.month, 2);
    ParseDigitsOfDigits(t.day, 2);
    ParseDigitsOfDigits(t.hour, 2);
    ParseDigitsOfDigits(t.minute, 2);
    ParseDigitsOfDigits(t.second, 2);
  }
}
