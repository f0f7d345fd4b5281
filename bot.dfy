/**
  The bot's two polling loops. The main loop fires eight seconds after each
  five-minute boundary, waits a settle buffer, fetches the feed, notifies
  and records the outcome; the night/blood loop fires fifteen seconds into
  each hour. Clock readings are local wall-clock milliseconds.
*/
module Bot {
  import opened Wrappers
  import opened Arith
  import RestockTime
  import opened StockDB
  import opened CheckStock
  import opened StatusTracker

  const SecondMs := RestockTime.SecondMs
  const MinuteMs := RestockTime.MinuteMs
  const HourMs := RestockTime.HourMs

  /** The delay used when the computed one is not positive: five minutes. */
  const FallbackDelay := 5 * 60 * 1000

  /** The wait inside the timer before the fetch. */
  const BufferMs := 12000

  const MainSuccessMessage := "Stock fetched and notified."
  const NightBloodSuccessMessage := "Night/Blood stock fetched and notified."

  /** `getMinutes()`. */
  function MinuteOf(now: nat): (m: nat)
    ensures m < 60
  {
    (now % HourMs) / MinuteMs
  }

  /** Milliseconds since the current minute began (`getSeconds() * 1000 + getMilliseconds()`). */
  function MsIntoMinute(now: nat): (s: nat)
    ensures s < MinuteMs
  {
    now % MinuteMs
  }

  /** The instant the current hour began. */
  function HourStart(now: nat): (h: nat)
    ensures h <= now && now - h < HourMs && h % HourMs == 0
  {
    var h := now - now % HourMs;
    DivModOfSum(now / HourMs, HourMs, 0);
    assert h == now / HourMs * HourMs;
    h
  }

  /** The clock splits into hour start, whole minutes and the part of the minute. */
  lemma ClockSplit(now: nat)
    ensures now == HourStart(now) + MinuteOf(now) * MinuteMs + MsIntoMinute(now)
  {
    NestedMod(now, MinuteMs, 60);
    DivModOfSum((now % HourMs) / MinuteMs, MinuteMs, (now % HourMs) % MinuteMs);
  }

  /** `setMinutes(ceil(m / 5) * 5); setSeconds(8); setMilliseconds(0)`; minute 60 rolls into the next hour. */
  function MainTarget(now: nat): (t: nat)
    ensures t % (5 * MinuteMs) == 8 * SecondMs
    ensures HourStart(now) < t <= HourStart(now) + HourMs + 8 * SecondMs
  {
    var k := (MinuteOf(now) + 4) / 5;
    var q := HourStart(now) / HourMs * 12 + k;
    assert HourStart(now) == HourStart(now) / HourMs * HourMs;
    DivModOfSum(q, 5 * MinuteMs, 8 * SecondMs);
    HourStart(now) + k * 5 * MinuteMs + 8 * SecondMs
  }

  /** `next - now`. */
  function MainDelay(now: nat): int {
    MainTarget(now) - now
  }

  /** The delay the timer is armed with: `delay > 0 ? delay : 5 * 60 * 1000`. */
  function ArmedMainDelay(now: nat): (d: int)
    ensures MainDelay(now) > 0 ==> d == MainDelay(now)
    ensures MainDelay(now) <= 0 ==> d == FallbackDelay
  {
    if MainDelay(now) > 0 then MainDelay(now) else FallbackDelay
  }

  /** The computed delay in terms of the minute and the part of it already gone. */
  lemma MainDelayCases(now: nat)
    ensures MinuteOf(now) % 5 == 0 ==> MainDelay(now) == 8 * SecondMs - MsIntoMinute(now)
    ensures MinuteOf(now) % 5 != 0 ==> MainDelay(now) == (5 - MinuteOf(now) % 5) * MinuteMs + 8 * SecondMs - MsIntoMinute(now)
  {
    ClockSplit(now);
    var m := MinuteOf(now);
    if m % 5 == 0 {
      assert (m + 4) / 5 * 5 == m;
    } else {
      assert (m + 4) / 5 * 5 == m + (5 - m % 5);
    }
  }

  /**
    The fallback fires exactly when the minute is a multiple of five and
    the clock is at or past second 8 of it; a positive computed delay is
    at most four minutes and eight seconds.
  */
  lemma MainDelayBounds(now: nat)
    ensures MainDelay(now) <= 0 <==> MinuteOf(now) % 5 == 0 && MsIntoMinute(now) >= 8 * SecondMs
    ensures MainDelay(now) > -52 * SecondMs
    ensures MainDelay(now) <= 4 * MinuteMs + 8 * SecondMs
  {
    MainDelayCases(now);
  }

  /** The timer is always armed with a positive delay of at most five minutes. */
  lemma ArmedMainDelayBounds(now: nat)
    ensures 0 < ArmedMainDelay(now) <= FallbackDelay
  {
    MainDelayBounds(now);
  }

  /**
    When the computed delay is used, the fetch happens twenty seconds past a
    five-minute boundary: the eight-second target plus the settle buffer.
  */
  lemma MainFetchTime(now: nat)
    requires MainDelay(now) > 0
    ensures (now + ArmedMainDelay(now) + BufferMs) % (5 * MinuteMs) == 20 * SecondMs
  {
    var k := (MinuteOf(now) + 4) / 5;
    var q := HourStart(now) / HourMs * 12 + k;
    assert HourStart(now) == HourStart(now) / HourMs * HourMs;
    assert now + ArmedMainDelay(now) + BufferMs == q * (5 * MinuteMs) + 20 * SecondMs;
    DivModOfSum(q, 5 * MinuteMs, 20 * SecondMs);
  }

  /** From minute 56 on, the target rolls over to second 8 of the next hour. */
  lemma MainTargetRollover(now: nat)
    requires MinuteOf(now) > 55
    ensures MainTarget(now) == HourStart(now) + HourMs + 8 * SecondMs
  {
  }

  /** `setHours(h + 1); setMinutes(0); setSeconds(15); setMilliseconds(0)`. */
  function NightBloodTarget(now: nat): (t: nat)
    ensures t % HourMs == 15 * SecondMs
    ensures now + 15 * SecondMs < t <= now + HourMs + 15 * SecondMs
  {
    var q := HourStart(now) / HourMs + 1;
    assert HourStart(now) == HourStart(now) / HourMs * HourMs;
    DivModOfSum(q, HourMs, 15 * SecondMs);
    q * HourMs + 15 * SecondMs
  }

  /** The night/blood timer's delay, used as it is: it always lies in (15 s, 1 h 15 s]. */
  function NightBloodDelay(now: nat): (d: int)
    ensures 15 * SecondMs < d <= HourMs + 15 * SecondMs
    ensures (now + d) % HourMs == 15 * SecondMs
  {
    NightBloodTarget(now) - now
  }

  /** The local API's answer as `fetch` returns it: its `ok` flag, status text and parsed body. */
  datatype LiveResponse = LiveResponse(ok: bool, statusText: string, body: Result<RawStock, string>)

  /** `fetchLiveStock`: a response that is not ok is the error "API error: <statusText>". */
  function FetchLiveStock(res: LiveResponse): (r: Result<RawStock, string>)
    ensures !res.ok ==> r == Failure("API error: " + res.statusText)
    ensures res.ok ==> r == res.body
  {
    if !res.ok then Failure("API error: " + res.statusText) else res.body
  }

  /**
    One firing of the main timer. The clock readings are parameters: `iso`
    when the status is recorded and `rescheduleAt` when the next timer is
    armed. The night/blood notifier is not part of this model; its outcome
    is the parameter `nightBlood`. `channel`, `channelError` and
    `sendFailure` are the Discord outcomes `CheckStockAndNotify` receives.
    Whatever fails, the error's message is recorded and the timer is re-armed.
  */
  method MainCycle(tracker: Tracker, db: Database, cfg: Config, channel: Option<Channel>, channelError: string,
                   sendFailure: Option<string>, res: LiveResponse, nightBlood: Outcome<string>, iso: string,
                   rescheduleAt: nat)
      returns (nextDelay: int)
    modifies tracker, db.currentStock, if channel.Some? then {channel.value} else {}
    ensures nextDelay == ArmedMainDelay(rescheduleAt) && 0 < nextDelay <= FallbackDelay
    ensures FetchLiveStock(res).Failure? ==>
      && tracker.lastFetch == StatusRecord(iso, false, FetchLiveStock(res).error)
      && db.currentStock.rows == old(db.currentStock.rows)
      && (channel.Some? ==> channel.value.sent == old(channel.value.sent))
    ensures FetchLiveStock(res).Success? ==>
      var n := NormalizeIncomingStock(FetchLiveStock(res).value);
      var changed := HasStockChanged(n, Partition(old(db.currentStock.rows)));
      var notifyFailed := changed && (channel.None? || sendFailure.Some?);
      && db.currentStock.rows == (if changed then Layout(n) else old(db.currentStock.rows))
      && (channel.Some? ==> channel.value.sent == old(channel.value.sent) + (if changed && sendFailure.None? then [Notification(cfg, n)] else []))
      && (changed && channel.None? ==> tracker.lastFetch == StatusRecord(iso, false, channelError))
      && (changed && channel.Some? && sendFailure.Some? ==> tracker.lastFetch == StatusRecord(iso, false, sendFailure.value))
      && (!notifyFailed && nightBlood.Fail? ==> tracker.lastFetch == StatusRecord(iso, false, nightBlood.error))
      && (!notifyFailed && nightBlood.Pass? ==> tracker.lastFetch == StatusRecord(iso, true, MainSuccessMessage))
  {
    var stock := FetchLiveStock(res);
    if stock.Failure? {
      tracker.UpdateLastFetchStatus(false, stock.error, iso);
    } else {
      var notified := CheckStockAndNotify(db, cfg, channel, channelError, sendFailure, stock.value);
      if notified.Fail? {
        tracker.UpdateLastFetchStatus(false, notified.error, iso);
      } else if nightBlood.Fail? {
        tracker.UpdateLastFetchStatus(false, nightBlood.error, iso);
      } else {
        tracker.UpdateLastFetchStatus(true, MainSuccessMessage, iso);
      }
    }
    ArmedMainDelayBounds(rescheduleAt);
    nextDelay := ArmedMainDelay(rescheduleAt);
  }

  /** One firing of the night/blood timer: fetch, notify (a parameter here), record, re-arm. */
  method NightBloodCycle(tracker: Tracker, res: LiveResponse, nightBlood: Outcome<string>, iso: string, rescheduleAt: nat)
      returns (nextDelay: int)
    modifies tracker
    ensures nextDelay == NightBloodDelay(rescheduleAt)
    ensures FetchLiveStock(res).Failure? ==> tracker.lastFetch == StatusRecord(iso, false, FetchLiveStock(res).error)
    ensures FetchLiveStock(res).Success? && nightBlood.Fail? ==> tracker.lastFetch == StatusRecord(iso, false, nightBlood.error)
    ensures FetchLiveStock(res).Success? && nightBlood.Pass? ==> tracker.lastFetch == StatusRecord(iso, true, NightBloodSuccessMessage)
  {
    var stock := FetchLiveStock(res);
    if stock.Failure? {
      tracker.UpdateLastFetchStatus(false, stock.error, iso);
    } else if nightBlood.Fail? {
      tracker.UpdateLastFetchStatus(false, nightBlood.error, iso);
    } else {
      tracker.UpdateLastFetchStatus(true, NightBloodSuccessMessage, iso);
    }
    nextDelay := NightBloodDelay(rescheduleAt);
  }
}
