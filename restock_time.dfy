/**
  The restock interval clock of the `/api/stock/restock-time` endpoint: fixed
  intervals anchored at local midnight, the countdown to the next reset and a
  coarse "time since" string. Instants are integer milliseconds; `now`, the
  local midnight `today` and the clock reading taken by `timeSince` are
  parameters.
*/
module RestockTime {
  import opened Text
  import Arith

  const SecondMs := 1000
  const MinuteMs := 60 * 1000
  const HourMs := 3600 * 1000

  const EggInterval := 30 * 60 * 1000
  const GearInterval := 5 * 60 * 1000
  const CosmeticInterval := 4 * 3600 * 1000
  const NightInterval := 3600 * 1000

  /** `pad(n)`: a "0" in front of every number below ten. */
  function Pad(n: int): (s: string)
    ensures |s| >= 1
    ensures s[0] == '0' <==> n < 10
    ensures 0 <= n ==> |s| >= 2 && AllDigits(s) && DigitsValue(s) == n
  {
    if n < 10 then
      if n >= 0 then
        NatToStringRoundTrip(n);
        LeadingZeroValue(NatToString(n));
        "0" + IntToString(n)
      else
        "0" + IntToString(n)
    else
      NatToStringRoundTrip(n);
      IntToString(n)
  }

  /** `s` is exactly two decimal digits spelling `v`. */
  predicate TwoDigits(s: string, v: int) {
    |s| == 2 && AllDigits(s) && DigitsValue(s) == v
  }

  lemma PadTwoDigits(n: int)
    requires 0 <= n < 100
    ensures TwoDigits(Pad(n), n)
  {
    if n >= 10 {
      assert NatToString(n) == NatToString(n / 10) + [DigitChar(n % 10)];
    }
  }

  datatype ResetWindow = ResetWindow(lastReset: int, nextReset: int)

  /** `t` lies a whole number of intervals away from `base`. */
  predicate OnGrid(t: int, base: int, interval: int)
    requires interval > 0
  {
    (t - base) % interval == 0
  }

  /** `getResetTimes(baseTime, interval)` evaluated at the instant `now`. */
  function GetResetTimes(base: int, interval: int, now: int): (w: ResetWindow)
    requires interval > 0
    ensures w.lastReset <= now < w.nextReset
    ensures w.nextReset - w.lastReset == interval
    ensures OnGrid(w.lastReset, base, interval)
  {
    var intervalsPassed := (now - base) / interval;
    Arith.MultipleDivMod(intervalsPassed, interval);
    var lastReset := base + intervalsPassed * interval;
    ResetWindow(lastReset, lastReset + interval)
  }

  /** `Math.max(0, nextReset - now)`. */
  function CountdownMs(base: int, interval: int, now: int): (cd: int)
    requires interval > 0
    ensures 0 < cd <= interval
    ensures cd == GetResetTimes(base, interval, now).nextReset - now
  {
    var w := GetResetTimes(base, interval, now);
    if w.nextReset - now > 0 then w.nextReset - now else 0
  }

  /** At an exact boundary the reset counts as done: the full interval remains. */
  lemma {:induction false} ExactBoundary(base: int, interval: int, k: int)
    requires interval > 0
    ensures GetResetTimes(base, interval, base + k * interval).lastReset == base + k * interval
    ensures CountdownMs(base, interval, base + k * interval) == interval
  {
    Arith.MultipleDivMod(k, interval);
  }

  /** The gear and seed countdown, `MMm SSs`. */
  function ShortCountdown(cd: nat): string {
    Pad(cd / MinuteMs) + "m " + Pad((cd % MinuteMs) / SecondMs) + "s"
  }

  /** The egg, cosmetic and night countdown, `HHh MMm SSs`. */
  function LongCountdown(cd: nat): string {
    Pad(cd / HourMs) + "h " + Pad((cd % HourMs) / MinuteMs) + "m " + Pad((cd % MinuteMs) / SecondMs) + "s"
  }

  /** The hour, minute and second fields of a countdown put the countdown back together. */
  lemma {:induction false} FieldsRecompose(cd: nat)
    ensures (cd % HourMs) / MinuteMs < 60 && (cd % MinuteMs) / SecondMs < 60
    ensures (cd / HourMs) * HourMs + ((cd % HourMs) / MinuteMs) * MinuteMs
            + ((cd % MinuteMs) / SecondMs) * SecondMs + cd % SecondMs == cd
  {
    Arith.NestedMod(cd, MinuteMs, 60);
    Arith.NestedMod(cd, SecondMs, 60);
  }

  /** The countdown a category shows: with or without the hour field. */
  function Countdown(cd: nat, withHours: bool): string {
    if withHours then LongCountdown(cd) else ShortCountdown(cd)
  }

  /** Where the fields of a countdown sit when each is two characters long. */
  lemma ShortLayout(mm: string, ss: string)
    requires |mm| == 2 && |ss| == 2
    ensures var s := mm + "m " + ss + "s";
      |s| == 7 && s[..2] == mm && s[2..4] == "m " && s[4..6] == ss && s[6] == 's'
  {
    var s := mm + "m " + ss + "s";
    assert s[..2] == mm;
    assert s[4..6] == ss;
  }

  lemma LongLayout(hh: string, mm: string, ss: string)
    requires |hh| == 2 && |mm| == 2 && |ss| == 2
    ensures var s := hh + "h " + mm + "m " + ss + "s";
      && |s| == 11 && s[..2] == hh && s[2..4] == "h "
      && s[4..6] == mm && s[6..8] == "m " && s[8..10] == ss && s[10] == 's'
  {
    var t := mm + "m " + ss + "s";
    ShortLayout(mm, ss);
    var s := hh + "h " + t;
    assert s == hh + "h " + mm + "m " + ss + "s";
    assert s[..2] == hh;
    assert s[4..] == t;
  }

  /** Below 100 minutes the short countdown is exactly `MMm SSs`. */
  lemma ShortCountdownShape(cd: nat)
    requires cd < 100 * MinuteMs
    ensures var s := ShortCountdown(cd);
      && |s| == 7
      && TwoDigits(s[..2], cd / MinuteMs) && s[2..4] == "m "
      && TwoDigits(s[4..6], (cd % MinuteMs) / SecondMs) && s[6] == 's'
      && (cd % MinuteMs) / SecondMs < 60
  {
    PadTwoDigits(cd / MinuteMs);
    PadTwoDigits((cd % MinuteMs) / SecondMs);
    ShortLayout(Pad(cd / MinuteMs), Pad((cd % MinuteMs) / SecondMs));
  }

  /** Below 100 hours the long countdown is exactly `HHh MMm SSs`. */
  lemma LongCountdownShape(cd: nat)
    requires cd < 100 * HourMs
    ensures var s := LongCountdown(cd);
      && |s| == 11
      && TwoDigits(s[..2], cd / HourMs) && s[2..4] == "h "
      && TwoDigits(s[4..6], (cd % HourMs) / MinuteMs) && s[6..8] == "m "
      && TwoDigits(s[8..10], (cd % MinuteMs) / SecondMs) && s[10] == 's'
  {
    FieldsRecompose(cd);
    PadTwoDigits(cd / HourMs);
    PadTwoDigits((cd % HourMs) / MinuteMs);
    PadTwoDigits((cd % MinuteMs) / SecondMs);
    LongLayout(Pad(cd / HourMs), Pad((cd % HourMs) / MinuteMs), Pad((cd % MinuteMs) / SecondMs));
  }

  /** A number followed by a one-letter unit and " ago" ends in " ago", so it is never "in a bit". */
  lemma AgoSuffix(n: string, unit: string)
    requires |unit| == 5 && unit[1..] == " ago"
    ensures var r := n + unit; |r| > 4 && r[|r| - 4..] == " ago" && r != "in a bit"
  {
    var r := n + unit;
    assert r[|r| - 4..] == unit[1..];
    assert r[|r| - 1] == 'o';
  }

  /** `timeSince(timestamp)` with `Date.now()` read as `clock`. */
  function TimeSince(timestamp: int, clock: int): (r: string)
    ensures clock < timestamp <==> r == "in a bit"
    ensures timestamp <= clock ==> |r| > 4 && r[|r| - 4..] == " ago"
  {
    var diff := clock - timestamp;
    var seconds := diff / 1000;
    if seconds < 0 then "in a bit"
    else if seconds < 60 then
      AgoSuffix(IntToString(seconds), "s ago");
      IntToString(seconds) + "s ago"
    else
      var minutes := seconds / 60;
      if minutes < 60 then
        AgoSuffix(IntToString(minutes), "m ago");
        IntToString(minutes) + "m ago"
      else
        var hours := minutes / 60;
        AgoSuffix(IntToString(hours), "h ago");
        IntToString(hours) + "h ago"
  }

  /** The "time since" string by the range of the elapsed milliseconds. */
  lemma TimeSinceByRange(timestamp: int, clock: int)
    ensures var diff := clock - timestamp;
      && (diff < 0 ==> TimeSince(timestamp, clock) == "in a bit")
      && (0 <= diff < MinuteMs ==> TimeSince(timestamp, clock) == NatToString(diff / SecondMs) + "s ago")
      && (MinuteMs <= diff < HourMs ==> TimeSince(timestamp, clock) == NatToString(diff / MinuteMs) + "m ago")
      && (HourMs <= diff ==> TimeSince(timestamp, clock) == NatToString(diff / HourMs) + "h ago")
  {
    var diff := clock - timestamp;
    if diff >= 0 {
      Arith.NestedDiv(diff, 1000, 60);
      Arith.NestedDiv(diff / 1000, 60, 60);
      Arith.NestedDiv(diff, 60000, 60);
    }
  }

  /** What the endpoint reports for one category. `lastRestock` is the reset
      instant itself; its locale rendering is not modelled. */
  datatype CategoryTimes = CategoryTimes(
    timestamp: int,
    countdown: string,
    lastRestock: int,
    timeSinceLastRestock: string)

  datatype RestockTimes = RestockTimes(
    egg: CategoryTimes,
    gear: CategoryTimes,
    seeds: CategoryTimes,
    cosmetic: CategoryTimes,
    nightevent: CategoryTimes)

  /** The window a category reports: `lastRestock <= now < timestamp`, one interval apart. */
  predicate InWindow(c: CategoryTimes, interval: int, now: int) {
    c.lastRestock <= now < c.timestamp && c.timestamp - c.lastRestock == interval
  }

  /**
    What one category reports at `now`: the current window, aligned to
    midnight `today`, whose next reset is `timestamp`; the countdown
    renders the time left until that reset, and the "time since" is
    measured from the last reset.
  */
  predicate Reports(c: CategoryTimes, today: int, interval: int, now: int, clock: int, withHours: bool)
    requires interval > 0
  {
    && InWindow(c, interval, now)
    && OnGrid(c.lastRestock, today, interval)
    && c.timestamp == now + CountdownMs(today, interval, now)
    && c.countdown == Countdown(CountdownMs(today, interval, now), withHours)
    && c.timeSinceLastRestock == TimeSince(c.lastRestock, clock)
  }

  function CategoryAt(today: int, interval: int, now: int, clock: int, withHours: bool): (c: CategoryTimes)
    requires interval > 0
    ensures Reports(c, today, interval, now, clock, withHours)
  {
    var w := GetResetTimes(today, interval, now);
    var cd := CountdownMs(today, interval, now);
    CategoryTimes(w.nextReset, Countdown(cd, withHours), w.lastReset, TimeSince(w.lastReset, clock))
  }

  /**
    `calculateRestockTimes()` at the instant `now`, local midnight `today`:
    seeds share the gear window; gear counts down in `MMm SSs`, and egg,
    cosmetic and night in `HHh MMm SSs`.
  */
  function CalculateRestockTimes(now: int, today: int, clock: int): (r: RestockTimes)
    ensures r.seeds == r.gear
    ensures Reports(r.gear, today, GearInterval, now, clock, false)
    ensures Reports(r.egg, today, EggInterval, now, clock, true)
    ensures Reports(r.cosmetic, today, CosmeticInterval, now, clock, true)
    ensures Reports(r.nightevent, today, NightInterval, now, clock, true)
    ensures |r.gear.countdown| == 7 && r.gear.countdown[2..4] == "m "
    ensures |r.egg.countdown| == 11 && r.egg.countdown[2..4] == "h "
    ensures |r.cosmetic.countdown| == 11 && r.cosmetic.countdown[2..4] == "h "
    ensures |r.nightevent.countdown| == 11 && r.nightevent.countdown[2..4] == "h "
  {
    ShortCountdownShape(CountdownMs(today, GearInterval, now));
    LongCountdownShape(CountdownMs(today, EggInterval, now));
    LongCountdownShape(CountdownMs(today, CosmeticInterval, now));
    LongCountdownShape(CountdownMs(today, NightInterval, now));
    var gear := CategoryAt(today, GearInterval, now, clock, false);
    RestockTimes(
      CategoryAt(today, EggInterval, now, clock, true),
      gear,
      gear,
      CategoryAt(today, CosmeticInterval, now, clock, true),
      CategoryAt(today, NightInterval, now, clock, true))
  }

  /** Five-minute interval at 14:07:00: reset at 14:05, next at 14:10, "03m 00s" left. */
  lemma GearAtSevenPast()
    ensures var now := 14 * HourMs + 7 * MinuteMs;
      && GetResetTimes(0, GearInterval, now) == ResetWindow(14 * HourMs + 5 * MinuteMs, 14 * HourMs + 10 * MinuteMs)
      && ShortCountdown(CountdownMs(0, GearInterval, now)) == "03m 00s"
  {
    var now := 14 * HourMs + 7 * MinuteMs;
    Arith.DivModOfSum(169, GearInterval, 2 * MinuteMs);
    assert now == 169 * GearInterval + 2 * MinuteMs;
    assert CountdownMs(0, GearInterval, now) == 3 * MinuteMs;
    Arith.DivModOfSum(3, MinuteMs, 0);
    PadDigit(3);
    PadDigit(0);
    assert ShortCountdown(3 * MinuteMs) == Pad(3) + "m " + Pad(0) + "s";
  }

  /** A single digit is padded to "0" and the digit. */
  lemma PadDigit(n: nat)
    requires n < 10
    ensures Pad(n) == ['0', DigitChar(n)]
  {
  }

  /** At midnight the egg reset has just happened and the countdown, which always
      shows hours, reads "00h 30m 00s". */
  lemma EggAtMidnight(today: int)
    ensures GetResetTimes(today, EggInterval, today).lastReset == today
    ensures LongCountdown(CountdownMs(today, EggInterval, today)) == "00h 30m 00s"
  {
    ExactBoundary(today, EggInterval, 0);
    assert CountdownMs(today, EggInterval, today) == 1800000;
    assert 1800000 / HourMs == 0 && (1800000 % HourMs) / MinuteMs == 30;
    assert (1800000 % MinuteMs) / SecondMs == 0;
    assert LongCountdown(1800000) == Pad(0) + "h " + Pad(30) + "m " + Pad(0) + "s";
    assert Pad(0) == "00";
    assert Pad(30) == "30" by {
      assert NatToString(30) == NatToString(3) + [DigitChar(0)];
    }
  }
}
