/** The auction countdown that ListingDetails, CardListing and Cards1 each recompute once a
    second: a millisecond difference between the closing instant and now becomes
    `DD:HH:MM:SS`, or `Closed` once the listing is inactive or the time is up. */
module Countdown {

  import opened Common

  const MsPerSecond: nat := 1000
  const MsPerMinute: nat := 60000
  const MsPerHour: nat := 3600000
  const MsPerDay: nat := 86400000

  /** The text shown for a listing that is inactive or whose closing time has passed. */
  const Closed: string := "Closed"

  datatype Fields = Fields(days: nat, hours: nat, minutes: nat, seconds: nat)

  lemma DivDiv(a: int, b: int, c: int)
    requires a >= 0 && b > 0 && c > 0
    ensures a / b / c == a / (b * c)
  {
    var q, r := a / b, a % b;
    var q2, r2 := q / c, q % c;
    Regroup(b, c, q2, r2);
    MulRange(b, r2, c);
    DivUnique(a, b * c, q2, b * r2 + r);
  }

  /** `b * (c * q + r) == (b * c) * q + b * r`. */
  lemma Regroup(b: int, c: int, q: int, r: int)
    ensures b * (c * q + r) == (b * c) * q + b * r
  {
    assert b * (c * q + r) == b * (c * q) + b * r;
  }

  /** For `0 <= r < c`, `b * r` lies in `[0, b * c - b]`. */
  lemma MulRange(b: int, r: int, c: int)
    requires b > 0 && 0 <= r < c
    ensures 0 <= b * r <= b * c - b
  {
    if r > 0 {
      MulAtLeast(b, r);
    }
    if c - 1 - r > 0 {
      MulAtLeast(b, c - 1 - r);
    }
    assert b * c - b - b * r == b * (c - 1 - r);
  }

  /** The whole seconds of `diff`, split into days, hours, minutes and seconds. */
  lemma Decompose(diff: int)
    requires diff > 0
    ensures (diff / MsPerDay) * 86400 + ((diff / MsPerHour) % 24) * 3600
              + ((diff / MsPerMinute) % 60) * 60 + (diff / MsPerSecond) % 60 == diff / 1000
  {
    var q := diff / 1000;
    DivDiv(diff, 1000, 60);
    DivDiv(diff, 1000, 3600);
    DivDiv(diff, 1000, 86400);
    DivDiv(q, 60, 60);
    DivDiv(q, 3600, 24);
    var mins, hrs, days := q / 60, q / 3600, q / 86400;
    assert diff / MsPerMinute == mins;
    assert diff / MsPerHour == hrs;
    assert diff / MsPerDay == days;
    assert q == 60 * mins + q % 60;
    assert mins == 60 * hrs + mins % 60;
    assert hrs == 24 * days + hrs % 24;
  }

  /** The four numbers of one tick: `Math.floor(diff / 86400000)`,
      `Math.floor((diff / 3600000) % 24)`, `Math.floor((diff / 60000) % 60)` and
      `Math.floor((diff / 1000) % 60)`. For a positive whole number of milliseconds each of
      them equals the integer quotient taken modulo 24 or 60. */
  function Components(diff: int): (f: Fields)
    requires diff > 0
    ensures f.hours < 24 && f.minutes < 60 && f.seconds < 60
    ensures f.days * 86400 + f.hours * 3600 + f.minutes * 60 + f.seconds == diff / 1000
  {
    Decompose(diff);
    Fields(diff / MsPerDay, (diff / MsPerHour) % 24, (diff / MsPerMinute) % 60, (diff / MsPerSecond) % 60)
  }

  predicate IsDigit(c: char)
  {
    '0' <= c <= '9'
  }

  predicate AllDigits(s: string)
  {
    forall i :: 0 <= i < |s| ==> IsDigit(s[i])
  }

  function Digit(d: nat): (c: char)
    requires d < 10
    ensures IsDigit(c)
  {
    ('0' as int + d) as char
  }

  function DigitValue(c: char): (d: nat)
    requires IsDigit(c)
    ensures d < 10
  {
    c as int - '0' as int
  }

  /** `String(n)` for a natural number: its decimal digits without leading zeros. */
  function DecimalString(n: nat): (s: string)
    ensures 1 <= |s| && AllDigits(s)
    ensures n < 100 ==> |s| <= 2
  {
    if n < 10 then [Digit(n)] else DecimalString(n / 10) + [Digit(n % 10)]
  }

  /** The number a string of decimal digits denotes (leading zeros allowed). */
  function DecimalValue(s: string): nat
    requires AllDigits(s)
  {
    if s == [] then 0 else DecimalValue(s[..|s| - 1]) * 10 + DigitValue(s[|s| - 1])
  }

  lemma {:induction false} DecimalRoundTrip(n: nat)
    ensures DecimalValue(DecimalString(n)) == n
  {
    if n >= 10 {
      DecimalRoundTrip(n / 10);
      var s := DecimalString(n);
      assert s[..|s| - 1] == DecimalString(n / 10);
    }
  }

  function Zeros(k: nat): (z: string)
    ensures |z| == k && AllDigits(z)
  {
    if k == 0 then "" else "0" + Zeros(k - 1)
  }

  lemma {:induction false} DecimalValueOfZeros(k: nat)
    ensures DecimalValue(Zeros(k)) == 0
  {
    if k > 0 {
      var z := Zeros(k);
      assert z[..|z| - 1] == Zeros(k - 1) by {
        ZerosSplit(k);
      }
      DecimalValueOfZeros(k - 1);
    }
  }

  lemma {:induction false} ZerosSplit(k: nat)
    requires k > 0
    ensures Zeros(k) == Zeros(k - 1) + "0"
  {
    if k > 1 {
      ZerosSplit(k - 1);
      assert Zeros(k) == "0" + (Zeros(k - 2) + "0");
    }
  }

  /** Leading zeros do not change the value of a digit string. */
  lemma {:induction false} DecimalValueLeadingZeros(k: nat, s: string)
    requires AllDigits(s)
    ensures AllDigits(Zeros(k) + s)
    ensures DecimalValue(Zeros(k) + s) == DecimalValue(s)
    decreases |s|
  {
    var t := Zeros(k) + s;
    assert AllDigits(t) by {
      forall i | 0 <= i < |t| ensures IsDigit(t[i]) {
        if i < k { assert t[i] == Zeros(k)[i]; } else { assert t[i] == s[i - k]; }
      }
    }
    if s == [] {
      assert t == Zeros(k);
      DecimalValueOfZeros(k);
    } else {
      assert t[..|t| - 1] == Zeros(k) + s[..|s| - 1];
      DecimalValueLeadingZeros(k, s[..|s| - 1]);
    }
  }

  /** `s.padStart(2, '0')`. */
  function PadStart2(s: string): (r: string)
  {
    if |s| >= 2 then s else Zeros(2 - |s|) + s
  }

  /** One field of the countdown: `String(n).padStart(2, '0')`. */
  function Field(n: nat): string
  {
    PadStart2(DecimalString(n))
  }

  /** A field is at least two digits long, exactly two below 100, and reads back as `n`. */
  lemma FieldValue(n: nat)
    ensures AllDigits(Field(n)) && |Field(n)| >= 2
    ensures n < 100 ==> |Field(n)| == 2
    ensures DecimalValue(Field(n)) == n
  {
    var s := DecimalString(n);
    DecimalRoundTrip(n);
    if |s| < 2 {
      DecimalValueLeadingZeros(2 - |s|, s);
    }
  }

  /** The countdown text of one tick: `Closed` when the listing is inactive or `diff <= 0`,
      otherwise `DD:HH:MM:SS`. */
  function Format(active: bool, diff: int): string
  {
    if !active || diff <= 0 then Closed
    else
      var f := Components(diff);
      Field(f.days) + ":" + Field(f.hours) + ":" + Field(f.minutes) + ":" + Field(f.seconds)
  }

  /** The countdown reads `Closed` exactly when the listing is inactive or time is up. */
  lemma FormatClosedIff(active: bool, diff: int)
    ensures Format(active, diff) == Closed <==> !active || diff <= 0
  {
    if active && diff > 0 {
      var f := Components(diff);
      FieldValue(f.days);
      assert Format(active, diff)[0] == Field(f.days)[0];
      assert IsDigit(Format(active, diff)[0]);
      assert !IsDigit(Closed[0]);
    }
  }

  /** An open countdown is `D..D:HH:MM:SS`: the days take at least two digits, every other
      field exactly two, the separators sit at fixed places from the end, and each field reads
      back as the number of whole days, hours, minutes and seconds left. */
  lemma FormatLayout(diff: int)
    requires diff > 0
    ensures var s := Format(true, diff);
            var f := Components(diff);
            |s| >= 11 &&
            s[|s| - 9] == ':' && s[|s| - 6] == ':' && s[|s| - 3] == ':' &&
            AllDigits(s[..|s| - 9]) && DecimalValue(s[..|s| - 9]) == f.days &&
            AllDigits(s[|s| - 8..|s| - 6]) && DecimalValue(s[|s| - 8..|s| - 6]) == f.hours &&
            AllDigits(s[|s| - 5..|s| - 3]) && DecimalValue(s[|s| - 5..|s| - 3]) == f.minutes &&
            AllDigits(s[|s| - 2..]) && DecimalValue(s[|s| - 2..]) == f.seconds
  {
    var s := Format(true, diff);
    var f := Components(diff);
    FieldValue(f.days);
    FieldValue(f.hours);
    FieldValue(f.minutes);
    FieldValue(f.seconds);
    var d := Field(f.days);
    assert s == d + ":" + Field(f.hours) + ":" + Field(f.minutes) + ":" + Field(f.seconds);
    assert |s| == |d| + 9;
    assert s[..|s| - 9] == d;
    assert s[|s| - 8..|s| - 6] == Field(f.hours);
    assert s[|s| - 5..|s| - 3] == Field(f.minutes);
    assert s[|s| - 2..] == Field(f.seconds);
  }
}
