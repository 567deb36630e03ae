/** `Date.prototype.toISOString` for the instants the radio can meet: a UTC
    calendar date with years 0 to 9999 rendered as `YYYY-MM-DDTHH:mm:ss.sssZ`. */
module IsoTime {

  /** A UTC instant broken into its calendar and clock fields. */
  datatype UtcInstant = UtcInstant(year: nat, month: nat, day: nat,
                                   hour: nat, minute: nat, second: nat, millisecond: nat)
  {
    predicate Valid() {
      year <= 9999 && 1 <= month <= 12 && 1 <= day <= 31 &&
      hour < 24 && minute < 60 && second < 60 && millisecond < 1000
    }
  }

  function Pow10(k: nat): (p: nat)
    ensures p >= 1
  {
    if k == 0 then 1 else 10 * Pow10(k - 1)
  }

  function DigitChar(d: nat): (c: char)
    requires d < 10
    ensures '0' <= c <= '9'
  {
    (48 + d) as char
  }

  function DigitValue(c: char): nat
    requires '0' <= c <= '9'
  {
    c as int - 48
  }

  predicate AllDigits(s: string) {
    forall i :: 0 <= i < |s| ==> '0' <= s[i] <= '9'
  }

  /** The last `width` decimal digits of `n`, zero-padded on the left. */
  function Digits(n: nat, width: nat): (d: string)
    ensures |d| == width
    ensures AllDigits(d)
  {
    if width == 0 then [] else Digits(n / 10, width - 1) + [DigitChar(n % 10)]
  }

  /** The value of a string of decimal digits, most significant first. */
  function DigitsValue(s: string): nat
    requires AllDigits(s)
  {
    if s == [] then 0 else 10 * DigitsValue(s[..|s| - 1]) + DigitValue(s[|s| - 1])
  }

  /** Rendering a number that fits in `width` digits loses nothing: reading the
      digits back gives the number. */
  lemma {:induction false} DigitsRoundTrip(n: nat, width: nat)
    requires n < Pow10(width)
    ensures DigitsValue(Digits(n, width)) == n
  {
    if width > 0 {
      var d := Digits(n, width);
      assert d[..|d| - 1] == Digits(n / 10, width - 1);
      DigitsRoundTrip(n / 10, width - 1);
    }
  }

  /** The `HH:mm:ss` clock part of an instant. */
  function ClockText(t: UtcInstant): (s: string)
    ensures |s| == 8
  {
    Digits(t.hour, 2) + ":" + Digits(t.minute, 2) + ":" + Digits(t.second, 2)
  }

  /** The `YYYY-MM-DDT` part that precedes the clock in an ISO-8601 string. */
  function DateText(t: UtcInstant): (s: string)
    ensures |s| == 11
  {
    Digits(t.year, 4) + "-" + Digits(t.month, 2) + "-" + Digits(t.day, 2) + "T"
  }

  /** `new Date(t).toISOString()`. */
  function IsoString(t: UtcInstant): (s: string)
    requires t.Valid()
    ensures |s| == 24
    ensures s[10] == 'T' && s[13] == ':' && s[16] == ':' && s[19] == '.' && s[23] == 'Z'
  {
    DateText(t) + ClockText(t) + "." + Digits(t.millisecond, 3) + "Z"
  }

  /** Characters 11 up to 19 of the ISO string are exactly the clock. */
  lemma IsoClockSlice(t: UtcInstant)
    requires t.Valid()
    ensures IsoString(t)[11..19] == ClockText(t)
  {
  }
}
