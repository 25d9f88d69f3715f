/** The trading calendar of config/schedules.py: the per-timeframe schedule table, the
    2024 holiday list, and the weekend-then-holiday test for a trading day. */
module Schedules {
  import opened Calendar

  /** One entry of SCHEDULES. The cron text is descriptive only: no code parses it. */
  datatype ScheduleEntry = ScheduleEntry(description: string, cron: string, enabled: bool, marketHoursOnly: bool)

  const ScheduleTable: map<string, ScheduleEntry> := map[
    "15m" := ScheduleEntry("Every 15 minutes during market hours", "*/15 9-15 * * 1-5", true, true),
    "1h" := ScheduleEntry("Every hour during market hours", "0 9-15 * * 1-5", true, true),
    "1d" := ScheduleEntry("Daily at 4 PM IST after market close", "0 16 * * 1-5", true, false),
    "1wk" := ScheduleEntry("Weekly on Saturday at 8 AM", "0 8 * * 6", true, false)
  ]

  lemma EveryTimeframeScheduled()
    ensures forall tf :: tf in ["15m", "1h", "1d", "1wk"] ==> tf in ScheduleTable && ScheduleTable[tf].enabled
  {
  }

  /** MARKET_HOLIDAYS_2024, as the `YYYY-MM-DD` texts the source lists. */
  const MarketHolidays2024: seq<string> := [
    "2024-01-26", "2024-03-08", "2024-03-29", "2024-04-11", "2024-04-17",
    "2024-05-01", "2024-08-15", "2024-08-26", "2024-10-02", "2024-10-12",
    "2024-11-01", "2024-11-15", "2024-12-25"
  ]

  /** The same thirteen days as dates, used only to reason about the list. */
  const HolidayDates: seq<Date> := [
    CivilDate(2024, 1, 26), CivilDate(2024, 3, 8), CivilDate(2024, 3, 29), CivilDate(2024, 4, 11),
    CivilDate(2024, 4, 17), CivilDate(2024, 5, 1), CivilDate(2024, 8, 15), CivilDate(2024, 8, 26),
    CivilDate(2024, 10, 2), CivilDate(2024, 10, 12), CivilDate(2024, 11, 1), CivilDate(2024, 11, 15),
    CivilDate(2024, 12, 25)
  ]

  /** `is_market_holiday(date_str)`: plain membership of the text in the list. */
  predicate IsMarketHoliday(dateStr: string) {
    dateStr in MarketHolidays2024
  }

  /** `is_trading_day(date_obj)`: not Saturday or Sunday, and the `YYYY-MM-DD` text of the
      day is not a listed holiday. */
  predicate IsTradingDay(d: Date) {
    if Weekday(d) == 5 || Weekday(d) == 6 then false
    else !IsMarketHoliday(IsoDate(d))
  }

  lemma HolidayTexts()
    ensures |HolidayDates| == |MarketHolidays2024|
    ensures forall i :: 0 <= i < |HolidayDates| ==> IsoDate(HolidayDates[i]) == MarketHolidays2024[i]
  {
    HolidayTextsBetween0And5();
    HolidayTextsBetween5And9();
    HolidayTextsBetween9And13();
  }

  lemma HolidayTextsBetween0And5()
    ensures forall i :: 0 <= i < 5 ==> IsoDate(HolidayDates[i]) == MarketHolidays2024[i]
  {
    assert Pad4(2024) == "2024";
  }

  lemma HolidayTextsBetween5And9()
    ensures forall i :: 5 <= i < 9 ==> IsoDate(HolidayDates[i]) == MarketHolidays2024[i]
  {
    assert Pad4(2024) == "2024";
  }

  lemma HolidayTextsBetween9And13()
    ensures forall i :: 9 <= i < 13 ==> IsoDate(HolidayDates[i]) == MarketHolidays2024[i]
  {
    assert Pad4(2024) == "2024";
  }

  /** The text lookup is exact on dates: a day is a listed holiday iff it is one of the
      thirteen 2024 dates. */
  lemma HolidayIffListedDate(d: Date)
    ensures IsMarketHoliday(IsoDate(d)) <==> d in HolidayDates
  {
    HolidayTexts();
    if IsMarketHoliday(IsoDate(d)) {
      var i :| 0 <= i < |MarketHolidays2024| && MarketHolidays2024[i] == IsoDate(d);
      IsoDateInjective(d, HolidayDates[i]);
    }
    if d in HolidayDates {
      var i :| 0 <= i < |HolidayDates| && HolidayDates[i] == d;
      assert MarketHolidays2024[i] == IsoDate(d);
    }
  }

  /** No day outside 2024 is ever a holiday. */
  lemma HolidaysOnlyIn2024(d: Date)
    requires d.year != 2024
    ensures !IsMarketHoliday(IsoDate(d))
  {
    HolidayIffListedDate(d);
  }

  /** Saturdays and Sundays are never trading days, whatever the list says; a weekday is a
      trading day exactly when it is not one of the listed dates. */
  lemma TradingDayIff(d: Date)
    ensures Weekday(d) >= 5 ==> !IsTradingDay(d)
    ensures Weekday(d) < 5 ==> (IsTradingDay(d) <==> d !in HolidayDates)
  {
    HolidayIffListedDate(d);
  }

  /** Every 2024 date's ordinal is its day of the year past that of 2023-12-31. */
  lemma Ordinal2024(d: Date)
    requires d.year == 2024
    ensures Ordinal(d) == 738885 + DaysBeforeMonth(2024, d.month) + d.day
  {
    assert DaysBeforeYear(2024) == 738885;
  }

  const HolidayOrdinals: seq<int> := [
    738911, 738953, 738974, 738987, 738993, 739007, 739113,
    739124, 739161, 739171, 739191, 739205, 739245
  ]

  lemma HolidayOrdinal(i: int)
    requires 0 <= i < |HolidayDates|
    ensures Ordinal(HolidayDates[i]) == HolidayOrdinals[i]
  {
    Ordinal2024(HolidayDates[i]);
  }

  lemma OrdinalGaps()
    ensures forall x :: x in HolidayOrdinals ==> x + 1 !in HolidayOrdinals
    ensures forall x :: x in HolidayOrdinals && (x + 6) % 7 == 0 ==> x - 3 !in HolidayOrdinals
  {
  }

  /** No two listed holidays fall on consecutive days, and the only Monday holiday
      (2024-08-26) does not follow a Friday holiday. */
  lemma HolidaySpacing(h1: Date, h2: Date)
    requires h1 in HolidayDates && h2 in HolidayDates
    ensures Ordinal(h2) != Ordinal(h1) + 1
    ensures Weekday(h2) == 0 ==> Ordinal(h2) != Ordinal(h1) + 3
  {
    var i :| 0 <= i < |HolidayDates| && HolidayDates[i] == h1;
    var j :| 0 <= j < |HolidayDates| && HolidayDates[j] == h2;
    HolidayOrdinal(i);
    HolidayOrdinal(j);
    OrdinalGaps();
    assert HolidayOrdinals[i] in HolidayOrdinals && HolidayOrdinals[j] in HolidayOrdinals;
  }

  /** The day `k` days after `d`. */
  function Advance(d: Date, k: nat): (r: Date)
    requires Ordinal(d) + k <= MaxOrdinal
    ensures Ordinal(r) == Ordinal(d) + k
  {
    if k == 0 then d else NextDate(Advance(d, k - 1))
  }

  /** A weekend day or a listed date: the calendar fact behind `IsTradingDay`. */
  ghost predicate ClosedDay(d: Date) {
    Weekday(d) >= 5 || d in HolidayDates
  }

  lemma TradingIffNotClosed(d: Date)
    ensures IsTradingDay(d) <==> !ClosedDay(d)
  {
    TradingDayIff(d);
  }

  /** The week pattern behind the four-day bound, over weekdays and holiday flags: two
      holidays are never adjacent, and a Monday holiday never follows a Friday one. */
  lemma FourDayPattern(w: int, h0: bool, h1: bool, h2: bool, h3: bool)
    requires 0 <= w < 7
    requires !(h0 && h1) && !(h1 && h2) && !(h2 && h3)
    requires (w + 3) % 7 == 0 ==> !(h0 && h3)
    ensures (w < 5 && !h0) || ((w + 1) % 7 < 5 && !h1) || ((w + 2) % 7 < 5 && !h2) || ((w + 3) % 7 < 5 && !h3)
  {
  }

  lemma NotBothHolidays(a: Date, b: Date)
    requires Ordinal(b) == Ordinal(a) + 1 || (Weekday(b) == 0 && Ordinal(b) == Ordinal(a) + 3)
    ensures !(a in HolidayDates && b in HolidayDates)
  {
    if a in HolidayDates && b in HolidayDates {
      HolidaySpacing(a, b);
    }
  }

  /** Among four consecutive days one is neither a weekend day nor a listed date. */
  lemma OpenWithinFour(d0: Date, d1: Date, d2: Date, d3: Date)
    requires Ordinal(d1) == Ordinal(d0) + 1 && Ordinal(d2) == Ordinal(d0) + 2 && Ordinal(d3) == Ordinal(d0) + 3
    ensures !ClosedDay(d0) || !ClosedDay(d1) || !ClosedDay(d2) || !ClosedDay(d3)
  {
    WeekdayShift(d0, d1, 1);
    WeekdayShift(d0, d2, 2);
    WeekdayShift(d0, d3, 3);
    NotBothHolidays(d0, d1);
    NotBothHolidays(d1, d2);
    NotBothHolidays(d2, d3);
    if Weekday(d3) == 0 {
      NotBothHolidays(d0, d3);
    }
    FourDayPattern(Weekday(d0), d0 in HolidayDates, d1 in HolidayDates, d2 in HolidayDates, d3 in HolidayDates);
  }

  /** Among any four consecutive days one is a trading day. */
  lemma TradingWithinFour(d: Date)
    requires Ordinal(d) + 3 <= MaxOrdinal
    ensures IsTradingDay(d) || IsTradingDay(Advance(d, 1)) || IsTradingDay(Advance(d, 2)) || IsTradingDay(Advance(d, 3))
  {
    OpenWithinFour(d, Advance(d, 1), Advance(d, 2), Advance(d, 3));
    TradingIffNotClosed(d);
    TradingIffNotClosed(Advance(d, 1));
    TradingIffNotClosed(Advance(d, 2));
    TradingIffNotClosed(Advance(d, 3));
  }

  /** How many days after `d` the first trading day on or after `d` comes. */
  function DaysToTradingDay(d: Date): (k: nat)
    requires Ordinal(d) + 3 <= MaxOrdinal
    ensures k <= 3 && IsTradingDay(Advance(d, k))
    ensures k >= 1 ==> !IsTradingDay(d)
    ensures k >= 2 ==> !IsTradingDay(Advance(d, 1))
    ensures k >= 3 ==> !IsTradingDay(Advance(d, 2))
  {
    if IsTradingDay(d) then 0
    else if IsTradingDay(Advance(d, 1)) then 1
    else if IsTradingDay(Advance(d, 2)) then 2
    else TradingWithinFour(d); 3
  }

  /** Every day before the one `DaysToTradingDay` picks is closed. */
  lemma ClosedBeforeTradingDay(d: Date, j: nat)
    requires Ordinal(d) + 3 <= MaxOrdinal
    requires j < DaysToTradingDay(d)
    ensures !IsTradingDay(Advance(d, j))
  {
    if j == 0 {
      assert Advance(d, 0) == d;
    } else if j == 1 {
      assert !IsTradingDay(Advance(d, 1));
    } else {
      assert j == 2 && !IsTradingDay(Advance(d, 2));
    }
  }

  /** Every day from `d` up to the one `DaysToTradingDay` picks, exclusive, is closed. */
  lemma ClosedBeforeFirstTradingDay(d: Date, e: Date)
    requires Ordinal(d) + 3 <= MaxOrdinal
    requires Ordinal(d) <= Ordinal(e) < Ordinal(d) + DaysToTradingDay(d)
    ensures !IsTradingDay(e)
  {
    var j := Ordinal(e) - Ordinal(d);
    OrdinalInjective(e, Advance(d, j));
    ClosedBeforeTradingDay(d, j);
  }
}
