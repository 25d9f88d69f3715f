/** Session timing for the Indian market (utils/market_hours.py). Every operation takes
    the current IST time as a parameter instead of reading the clock. Times are `Moment`s:
    a calendar day with whole seconds since midnight. */
module MarketHours {
  import opened Wrappers
  import opened Calendar
  import opened Settings
  import opened Schedules

  /** `is_market_open`: a trading day, and open <= time <= close with both ends included. */
  predicate IsMarketOpen(t: Moment) {
    IsTradingDay(t.date) && MarketOpenTime <= t.secs <= MarketCloseTime
  }

  /** Both edges of the session are inside it; one second either side is outside; a
      closed day is closed at every second. */
  lemma SessionEdges(d: Date)
    ensures IsMarketOpen(Moment(d, MarketOpenTime)) <==> IsTradingDay(d)
    ensures IsMarketOpen(Moment(d, MarketCloseTime)) <==> IsTradingDay(d)
    ensures !IsMarketOpen(Moment(d, MarketOpenTime - 1))
    ensures !IsMarketOpen(Moment(d, MarketCloseTime + 1))
    ensures !IsTradingDay(d) ==> forall s: Seconds :: !IsMarketOpen(Moment(d, s))
  {
  }

  const ClosedText := "Market Closed (Holiday/Weekend)"
  const PreMarketText := "Pre-Market"
  const PostMarketText := "Post-Market"
  const OpenText := "Market Open"

  /** `get_market_status`. */
  function GetMarketStatus(t: Moment): (s: string)
    ensures s in [ClosedText, PreMarketText, PostMarketText, OpenText]
    ensures !IsTradingDay(t.date) ==> s == ClosedText
    ensures IsTradingDay(t.date) ==> (s == PreMarketText <==> t.secs < MarketOpenTime)
    ensures IsTradingDay(t.date) ==> (s == PostMarketText <==> t.secs > MarketCloseTime)
    ensures s == OpenText <==> IsMarketOpen(t)
  {
    if !IsTradingDay(t.date) then ClosedText
    else if t.secs < MarketOpenTime then PreMarketText
    else if t.secs > MarketCloseTime then PostMarketText
    else OpenText
  }

  // ---------------------------------------------------------------- next open

  /** The day the next-open search starts from: today, or tomorrow once today's session
      has closed. */
  function SearchStart(t: Moment): (d: Date)
    requires Ordinal(t.date) < MaxOrdinal
    ensures t.secs > MarketCloseTime ==> Ordinal(d) == Ordinal(t.date) + 1
    ensures t.secs <= MarketCloseTime ==> d == t.date
  {
    if t.secs > MarketCloseTime then NextDate(t.date) else t.date
  }

  /** The opening time of the first trading day on or after `SearchStart(t)`. */
  function NextMarketOpen(t: Moment): (r: Moment)
    requires Ordinal(t.date) + 4 <= MaxOrdinal
    ensures IsTradingDay(r.date) && r.secs == MarketOpenTime
    ensures Ordinal(SearchStart(t)) <= Ordinal(r.date) <= Ordinal(SearchStart(t)) + 3
    ensures forall d: Date :: Ordinal(SearchStart(t)) <= Ordinal(d) < Ordinal(r.date) ==> !IsTradingDay(d)
  {
    var s := SearchStart(t);
    var k := DaysToTradingDay(s);
    forall d: Date | Ordinal(s) <= Ordinal(d) < Ordinal(s) + k
      ensures !IsTradingDay(d)
    {
      ClosedBeforeFirstTradingDay(s, d);
    }
    Moment(Advance(s, k), MarketOpenTime)
  }

  /** `get_next_market_open`: step day by day until a trading day is reached. */
  method GetNextMarketOpen(t: Moment) returns (r: Moment)
    requires Ordinal(t.date) + 4 <= MaxOrdinal
    ensures r == NextMarketOpen(t)
  {
    var candidate := t.date;
    if t.secs > MarketCloseTime {
      candidate := NextDate(candidate);
    }
    ghost var start := candidate;
    ghost var k := DaysToTradingDay(start);
    while !IsTradingDay(candidate)
      invariant Ordinal(start) <= Ordinal(candidate) <= Ordinal(start) + k
      decreases Ordinal(start) + k - Ordinal(candidate)
    {
      if Ordinal(candidate) == Ordinal(start) + k {
        OrdinalInjective(candidate, Advance(start, k));
        assert false;
      }
      candidate := NextDate(candidate);
    }
    if Ordinal(candidate) < Ordinal(start) + k {
      ClosedBeforeFirstTradingDay(start, candidate);
      assert false;
    }
    OrdinalInjective(candidate, Advance(start, k));
    r := Moment(candidate, MarketOpenTime);
  }

  /** While the session is running the "next" open is today's, which has already passed. */
  lemma NextOpenDuringSession(t: Moment)
    requires Ordinal(t.date) + 4 <= MaxOrdinal
    requires IsMarketOpen(t)
    ensures NextMarketOpen(t) == Moment(t.date, MarketOpenTime)
    ensures Stamp(NextMarketOpen(t)) <= Stamp(t)
  {
    OrdinalInjective(NextMarketOpen(t).date, t.date);
  }

  /** Outside the session the next open lies strictly in the future. */
  lemma NextOpenAfterClosedTime(t: Moment)
    requires Ordinal(t.date) + 4 <= MaxOrdinal
    requires !IsMarketOpen(t)
    ensures Stamp(NextMarketOpen(t)) > Stamp(t)
  {
    var r := NextMarketOpen(t);
    if t.secs <= MarketCloseTime && IsTradingDay(t.date) {
      assert t.secs < MarketOpenTime;
      OrdinalInjective(r.date, t.date);
    } else if t.secs <= MarketCloseTime {
      assert Ordinal(r.date) != Ordinal(t.date);
    }
  }

  /** `time_to_market_open`, in seconds. */
  function TimeToMarketOpen(t: Moment): (r: int)
    requires Ordinal(t.date) + 4 <= MaxOrdinal
    ensures IsMarketOpen(t) ==> r == 0
    ensures !IsMarketOpen(t) ==> r > 0 && r == Elapsed(NextMarketOpen(t), t)
  {
    if IsMarketOpen(t) then 0
    else
      NextOpenAfterClosedTime(t);
      Elapsed(NextMarketOpen(t), t)
  }

  /** `time_to_market_close`, in seconds; -1 stands for the closed market. */
  function TimeToMarketClose(t: Moment): (r: int)
    ensures !IsMarketOpen(t) ==> r == -1
    ensures IsMarketOpen(t) ==> 0 <= r <= MarketCloseTime - MarketOpenTime
    ensures IsMarketOpen(t) ==> r == Elapsed(Moment(t.date, MarketCloseTime), t)
  {
    if !IsMarketOpen(t) then -1
    else Elapsed(Moment(t.date, MarketCloseTime), t)
  }

  // ---------------------------------------------------------------- due-ness

  /** 16:00, the earliest time the daily rule fires. */
  const DailyUpdateTime: Seconds := TimeOfDay(16, 0)

  const Saturday := 5

  /** `(current_time - last_update).days`: whole days, floored. */
  function ElapsedDays(now: Moment, last: Moment): int {
    Elapsed(now, last) / SecondsPerDay
  }

  /** `should_update_timeframe(timeframe, last_update)` evaluated at `now`; the last update
      is taken as already expressed in IST. */
  predicate ShouldUpdateTimeframe(timeframe: string, lastUpdate: Option<Moment>, now: Moment) {
    match lastUpdate
    case None => true
    case Some(last) =>
      if timeframe == "15m" then
        IsMarketOpen(now) && Elapsed(now, last) >= 15 * 60
      else if timeframe == "1h" then
        IsMarketOpen(now) && Elapsed(now, last) >= 60 * 60
      else if timeframe == "1d" then
        if now.secs < DailyUpdateTime then false
        else DateLess(last.date, now.date)
      else if timeframe == "1wk" then
        if Weekday(now.date) != Saturday then false
        else ElapsedDays(now, last) >= 7
      else false
  }

  /** A timeframe that was never updated is due, whatever the timeframe or the time. */
  lemma NeverUpdatedIsDue(timeframe: string, now: Moment)
    ensures ShouldUpdateTimeframe(timeframe, None, now)
  {
  }

  /** An unknown timeframe with a recorded update is never due. */
  lemma UnknownTimeframeNeverDue(timeframe: string, last: Moment, now: Moment)
    requires timeframe !in ["15m", "1h", "1d", "1wk"]
    ensures !ShouldUpdateTimeframe(timeframe, Some(last), now)
  {
  }

  /** Intraday timeframes are due exactly while the market is open and a full interval
      (15 minutes or an hour) has elapsed. */
  lemma IntradayDueness(timeframe: string, last: Moment, now: Moment)
    requires timeframe == "15m" || timeframe == "1h"
    ensures ShouldUpdateTimeframe(timeframe, Some(last), now) <==>
      IsMarketOpen(now) && Elapsed(now, last) >= (if timeframe == "15m" then 900 else 3600)
  {
  }

  /** The daily rule fires only from 16:00 and only on a later calendar day than the last
      update, so an update recorded at the moment it fires holds for the rest of that day. */
  lemma DailyAtMostOncePerDay(last: Moment, now: Moment, later: Moment)
    requires later.date == now.date
    ensures ShouldUpdateTimeframe("1d", Some(last), now) <==>
      now.secs >= DailyUpdateTime && Ordinal(last.date) < Ordinal(now.date)
    ensures !ShouldUpdateTimeframe("1d", Some(now), later)
  {
    OrdinalOrder(last.date, now.date);
    OrdinalOrder(now.date, later.date);
  }

  /** The weekly rule fires only on Saturdays, and then exactly when at least seven whole
      days (604800 seconds) have passed. */
  lemma WeeklyDueness(last: Moment, now: Moment)
    ensures ShouldUpdateTimeframe("1wk", Some(last), now) <==>
      Weekday(now.date) == Saturday && Elapsed(now, last) >= 7 * SecondsPerDay
  {
    var e := Elapsed(now, last);
    if e >= 7 * SecondsPerDay {
      assert e / SecondsPerDay >= 7;
    } else {
      assert e / SecondsPerDay < 7;
    }
  }

  // ---------------------------------------------------------------- trading-day count

  /** The number of trading days in the inclusive range from `a` to `b`. */
  function CountTradingDays(a: Date, b: Date): (n: int)
    requires Ordinal(b) < MaxOrdinal
    ensures 0 <= n
    ensures Ordinal(a) > Ordinal(b) ==> n == 0
    ensures Ordinal(a) <= Ordinal(b) ==> n <= Ordinal(b) - Ordinal(a) + 1
    decreases Ordinal(b) - Ordinal(a) + 1
  {
    if Ordinal(a) > Ordinal(b) then 0
    else (if IsTradingDay(a) then 1 else 0) + CountTradingDays(NextDate(a), b)
  }

  /** The count reaches the length of the range exactly when every day in it trades. */
  lemma {:induction false} CountAllTrading(a: Date, b: Date)
    requires Ordinal(b) < MaxOrdinal
    requires Ordinal(a) <= Ordinal(b)
    ensures CountTradingDays(a, b) == Ordinal(b) - Ordinal(a) + 1 <==>
      forall d: Date :: Ordinal(a) <= Ordinal(d) <= Ordinal(b) ==> IsTradingDay(d)
    decreases Ordinal(b) - Ordinal(a)
  {
    var a1 := NextDate(a);
    if Ordinal(a) == Ordinal(b) {
      OrdinalInjective(a, b);
      forall d: Date | Ordinal(a) <= Ordinal(d) <= Ordinal(b)
        ensures d == a
      {
        OrdinalInjective(a, d);
      }
    } else {
      CountAllTrading(a1, b);
      if CountTradingDays(a, b) == Ordinal(b) - Ordinal(a) + 1 {
        forall d: Date | Ordinal(a) <= Ordinal(d) <= Ordinal(b)
          ensures IsTradingDay(d)
        {
          if Ordinal(d) == Ordinal(a) {
            OrdinalInjective(a, d);
          }
        }
      }
    }
  }

  /** A Monday-to-Sunday week never has more than five trading days. */
  lemma AtMostFivePerWeek(monday: Date, sunday: Date)
    requires Ordinal(sunday) == Ordinal(monday) + 6 && Ordinal(sunday) < MaxOrdinal
    requires Weekday(monday) == 0
    ensures CountTradingDays(monday, sunday) <= 5
  {
    SundayAfterMonday(monday, sunday);
    CountBeforeSunday(monday, sunday);
  }

  /** Six days after a Monday is a Sunday. */
  lemma SundayAfterMonday(monday: Date, sunday: Date)
    requires Ordinal(sunday) == Ordinal(monday) + 6
    requires Weekday(monday) == 0
    ensures Weekday(sunday) == 6
  {
    WeekdayShift(monday, sunday, 6);
  }

  /** From any day up to a Saturday, plus the Sunday after it, at most one trading day per
      day before that Saturday. */
  lemma {:induction false} CountBeforeSunday(d: Date, sunday: Date)
    requires Weekday(sunday) == 6 && Ordinal(sunday) < MaxOrdinal
    requires Ordinal(d) < Ordinal(sunday)
    ensures CountTradingDays(d, sunday) <= Ordinal(sunday) - 1 - Ordinal(d)
    decreases Ordinal(sunday) - Ordinal(d)
  {
    var n := NextDate(d);
    if Ordinal(n) == Ordinal(sunday) {
      WeekendCount(d, sunday);
    } else {
      CountBeforeSunday(n, sunday);
    }
  }

  /** A Saturday and the Sunday after it hold no trading day. */
  lemma WeekendCount(saturday: Date, sunday: Date)
    requires Weekday(sunday) == 6 && Ordinal(sunday) < MaxOrdinal
    requires Ordinal(sunday) == Ordinal(saturday) + 1
    ensures CountTradingDays(saturday, sunday) == 0
  {
    SaturdayClosed(saturday, sunday);
    TradingDayIff(sunday);
    OrdinalInjective(NextDate(saturday), sunday);
  }

  lemma SaturdayClosed(saturday: Date, sunday: Date)
    requires Weekday(sunday) == 6
    requires Ordinal(sunday) == Ordinal(saturday) + 1
    ensures !IsTradingDay(saturday)
  {
    WeekdayShift(saturday, sunday, 1);
    var w := Weekday(saturday);
    assert 0 <= w < 7 && (w + 1) % 7 == 6;
    assert w == 5;
    TradingDayIff(saturday);
  }

  /** `get_trading_days_between`: walk the range one day at a time, counting trading days. */
  method GetTradingDaysBetween(startDate: Moment, endDate: Moment) returns (tradingDays: int)
    requires Ordinal(endDate.date) < MaxOrdinal
    ensures tradingDays == CountTradingDays(startDate.date, endDate.date)
  {
    tradingDays := 0;
    var current := startDate.date;
    var end := endDate.date;
    while Ordinal(current) <= Ordinal(end)
      invariant Ordinal(current) <= Ordinal(end) + 1 || current == startDate.date
      invariant tradingDays + CountTradingDays(current, end) == CountTradingDays(startDate.date, end)
      decreases Ordinal(end) + 1 - Ordinal(current)
    {
      if IsTradingDay(current) {
        tradingDays := tradingDays + 1;
      }
      current := NextDate(current);
    }
  }
}
