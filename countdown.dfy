/** The launch countdown: a millisecond distance split into days, hours,
    minutes and seconds with `Math.floor(a / b)` and JavaScript's `%`, then
    each part printed with `String(v).padStart(2, '0')`. */
module Countdown {
  import opened Decimal

  const SecondMs := 1000
  const MinuteMs := 60000      // 1000 * 60
  const HourMs := 3600000      // 1000 * 60 * 60
  const DayMs := 86400000      // 1000 * 60 * 60 * 24

  /** The quotient of `a` by `b` rounded toward zero, the one JavaScript's
      `%` leaves its remainder from. */
  function TruncQuotient(a: int, b: int): int
    requires b > 0
  {
    if a >= 0 then a / b else -((-a) / b)
  }

  /** JavaScript's `a % b` for a positive divisor: the remainder of the
      division truncated toward zero, so it takes the sign of `a`. */
  function JsRemainder(a: int, b: int): (r: int)
    requires b > 0
    ensures -b < r < b
    ensures a >= 0 ==> r >= 0
    ensures a <= 0 ==> r <= 0
  {
    if a >= 0 then a % b else -((-a) % b)
  }

  /** What fixes the value of JavaScript's `%`: the dividend is the
      truncated quotient times the divisor plus the remainder. With the
      range and the sign above, this determines the remainder. */
  lemma JsRemainderQuotient(a: int, b: int)
    requires b > 0
    ensures a == TruncQuotient(a, b) * b + JsRemainder(a, b)
  {
    if a < 0 {
      var q := (-a) / b;
      assert -a == q * b + (-a) % b;
      assert -q * b == -(q * b);
    }
  }

  /** `Math.floor(a / b)` for a positive divisor. Integer distances stay far
      below 2^53, where the double quotient cannot round across an integer,
      so this is the exact floor of the rational quotient. */
  function FloorDiv(a: int, b: int): (q: int)
    requires b > 0
    ensures q * b <= a < q * b + b
    ensures q >= 0 <==> a >= 0
  {
    a / b
  }

  datatype Parts = Parts(days: int, hours: int, minutes: int, seconds: int)

  /** The four values `updateCountdown` computes from `distance`: before
      the launch none is negative; after it the days are negative and no
      other part is positive. */
  function Split(distance: int): (p: Parts)
    ensures distance >= 0 ==> p.days >= 0 && p.hours >= 0 && p.minutes >= 0 && p.seconds >= 0
    ensures distance < 0 ==> p.days < 0 && p.hours <= 0 && p.minutes <= 0 && p.seconds <= 0
  {
    Parts(
      FloorDiv(distance, DayMs),
      FloorDiv(JsRemainder(distance, DayMs), HourMs),
      FloorDiv(JsRemainder(distance, HourMs), MinuteMs),
      FloorDiv(JsRemainder(distance, MinuteMs), SecondMs))
  }

  /** The four texts written into the `days`, `hours`, `minutes` and
      `seconds` elements. */
  datatype Display = Display(days: string, hours: string, minutes: string, seconds: string)

  /** Every field is at least two characters long, and a negative part is
      shown unpadded. */
  function Render(p: Parts): (d: Display)
    ensures |d.days| >= 2 && |d.hours| >= 2 && |d.minutes| >= 2 && |d.seconds| >= 2
    ensures p.days < 0 ==> d.days == DecimalString(p.days)
    ensures p.hours < 0 ==> d.hours == DecimalString(p.hours)
    ensures p.minutes < 0 ==> d.minutes == DecimalString(p.minutes)
    ensures p.seconds < 0 ==> d.seconds == DecimalString(p.seconds)
  {
    Display(TwoDigit(p.days), TwoDigit(p.hours), TwoDigit(p.minutes), TwoDigit(p.seconds))
  }

  /** What one tick shows for a launch time and the current time: until
      the launch, hours, minutes and seconds are exactly two characters long
      (after it, see `DaysShowMinus`). */
  function Tick(launch: int, now: int): (d: Display)
    ensures now <= launch ==> |d.hours| == 2 && |d.minutes| == 2 && |d.seconds| == 2
  {
    if now <= launch then
      RenderNonNegative(launch - now);
      Render(Split(launch - now))
    else
      Render(Split(launch - now))
  }

  /** After the launch the days text carries a minus sign. */
  lemma DaysShowMinus(distance: int)
    requires distance < 0
    ensures |Render(Split(distance)).days| >= 2 && Render(Split(distance)).days[0] == '-'
  {
    var p := Split(distance);
    assert p.days < 0;
    assert DecimalString(p.days)[0] == '-';
  }

  /** A day is a whole number of hours and an hour a whole number of
      minutes, so for a non-negative distance the remainders chain. */
  lemma RemaindersChain(a: int)
    requires a >= 0
    ensures (a % 86400000) % 3600000 == a % 3600000
    ensures (a % 3600000) % 60000 == a % 60000
  {
  }

  /** Before the launch: every part is in its range and the parts add back
      up to the distance, less the milliseconds below a second. */
  lemma {:induction false} SplitNonNegative(distance: int)
    requires distance >= 0
    ensures var p := Split(distance);
      && p.days >= 0
      && 0 <= p.hours < 24
      && 0 <= p.minutes < 60
      && 0 <= p.seconds < 60
      && 0 <= distance - (p.days * DayMs + p.hours * HourMs + p.minutes * MinuteMs + p.seconds * SecondMs) < SecondMs
  {
    var p := Split(distance);
    var rd := distance % DayMs;
    var rh := distance % HourMs;
    var rm := distance % MinuteMs;
    RemaindersChain(distance);
    assert rd % HourMs == rh;
    assert rh % MinuteMs == rm;
    assert distance == p.days * DayMs + rd;
    assert rd == p.hours * HourMs + rh;
    assert rh == p.minutes * MinuteMs + rm;
    assert rm == p.seconds * SecondMs + rm % SecondMs;
  }

  /** After the launch (negative distance) nothing fails: the days are
      negative and every other part lies between minus its unit count and
      zero, so e.g. an hours value of -24 can appear. */
  lemma SplitNegative(distance: int)
    requires distance < 0
    ensures var p := Split(distance);
      && p.days <= -1
      && -24 <= p.hours <= 0
      && -60 <= p.minutes <= 0
      && -60 <= p.seconds <= 0
  {
  }

  /** Before the launch hours, minutes and seconds always show exactly two
      digits, days at least two, and each text reads back as its part. */
  lemma RenderNonNegative(distance: int)
    requires distance >= 0
    ensures var p := Split(distance); var d := Render(p);
      && |d.hours| == 2 && |d.minutes| == 2 && |d.seconds| == 2 && |d.days| >= 2
      && AllDigits(d.days) && AllDigits(d.hours) && AllDigits(d.minutes) && AllDigits(d.seconds)
      && ParseNat(d.days) == p.days && ParseNat(d.hours) == p.hours
      && ParseNat(d.minutes) == p.minutes && ParseNat(d.seconds) == p.seconds
  {
    var p := Split(distance);
    SplitNonNegative(distance);
    TwoDigitNonNegative(p.days);
    TwoDigitInRange(p.hours);
    TwoDigitInRange(p.minutes);
    TwoDigitInRange(p.seconds);
  }

  /** One millisecond after the launch every field shows "-1". */
  lemma PastLaunchByOneMs()
    ensures Split(-1) == Parts(-1, -1, -1, -1)
    ensures Render(Split(-1)) == Display("-1", "-1", "-1", "-1")
  {
    assert Split(-1) == Parts(-1, -1, -1, -1);
    assert DecimalString(-1) == "-1" by { assert NatString(1) == "1"; }
    assert TwoDigit(-1) == "-1";
  }

  /** A whole day after the launch the days show "-1" and the rest "00". */
  lemma PastLaunchByOneDay()
    ensures Split(-DayMs) == Parts(-1, 0, 0, 0)
    ensures Render(Split(-DayMs)) == Display("-1", "00", "00", "00")
  {
    assert Split(-DayMs) == Parts(-1, 0, 0, 0);
    assert DecimalString(-1) == "-1" by { assert NatString(1) == "1"; }
    assert TwoDigit(-1) == "-1";
    var zero := TwoDigit(0);
    assert DecimalString(0) == "0";
    assert |zero| == 2 && zero[1..] == "0" && zero[0] == '0';
    assert zero == "00";
  }
}
