/** The slice of Python's `datetime` the refresher depends on. A calendar day is a civil
    date in Python's range (years 1 to 9999); its day index is Python's `toordinal()`,
    its weekday Python's `weekday()` (Monday 0 .. Sunday 6), and a point in time is a day
    plus whole seconds since midnight (IST unless a caller says otherwise). */
module Calendar {
  import opened Wrappers

  datatype CivilDate = CivilDate(year: int, month: int, day: int)

  predicate IsLeap(y: int) {
    y % 4 == 0 && (y % 100 != 0 || y % 400 == 0)
  }

  function DaysInMonth(y: int, m: int): int {
    if m == 2 then (if IsLeap(y) then 29 else 28)
    else if m == 4 || m == 6 || m == 9 || m == 11 then 30
    else 31
  }

  function DaysInYear(y: int): int {
    if IsLeap(y) then 366 else 365
  }

  const MinYear := 1
  const MaxYear := 9999

  predicate ValidDate(d: CivilDate) {
    MinYear <= d.year <= MaxYear && 1 <= d.month <= 12 && 1 <= d.day <= DaysInMonth(d.year, d.month)
  }

  type Date = d: CivilDate | ValidDate(d) witness CivilDate(1970, 1, 1)

  const SecondsPerDay := 86400

  type Seconds = s: int | 0 <= s < SecondsPerDay

  /** A `datetime`: a calendar day and the seconds elapsed since its midnight. */
  datatype Moment = Moment(date: Date, secs: Seconds)

  function TimeOfDay(h: int, m: int): Seconds
    requires 0 <= h < 24 && 0 <= m < 60
  {
    h * 3600 + m * 60
  }

  // ---------------------------------------------------------------- ordinals

  /** Python's `_days_before_year`. */
  function DaysBeforeYear(y: int): int {
    var k := y - 1;
    365 * k + k / 4 - k / 100 + k / 400
  }

  /** Python's `_days_before_month`. */
  function DaysBeforeMonth(y: int, m: int): int
    requires 1 <= m <= 12
  {
    var base :=
      if m == 1 then 0 else if m == 2 then 31 else if m == 3 then 59
      else if m == 4 then 90 else if m == 5 then 120 else if m == 6 then 151
      else if m == 7 then 181 else if m == 8 then 212 else if m == 9 then 243
      else if m == 10 then 273 else if m == 11 then 304 else 334;
    base + (if m > 2 && IsLeap(y) then 1 else 0)
  }

  /** `date.toordinal()`: 0001-01-01 is day 1. */
  function Ordinal(d: Date): int {
    DaysBeforeYear(d.year) + DaysBeforeMonth(d.year, d.month) + d.day
  }

  /** `date.weekday()`: Monday is 0, Saturday 5, Sunday 6. */
  function Weekday(d: Date): int {
    (Ordinal(d) + 6) % 7
  }

  lemma ModSevenShift(x: int, k: int)
    ensures (x + k) % 7 == (x % 7 + k) % 7
  {
  }

  /** Moving `k` days forward moves the weekday `k` places round the week. */
  lemma WeekdayShift(a: Date, b: Date, k: int)
    requires Ordinal(b) == Ordinal(a) + k
    ensures Weekday(b) == (Weekday(a) + k) % 7
  {
    ModSevenShift(Ordinal(a) + 6, k);
  }

  const MaxDate: Date := CivilDate(MaxYear, 12, 31)

  const MaxOrdinal: int := Ordinal(MaxDate)

  lemma DivStep4(y: int)
    ensures y / 4 == (y - 1) / 4 + (if y % 4 == 0 then 1 else 0)
  {
  }

  lemma DivStep100(y: int)
    ensures y / 100 == (y - 1) / 100 + (if y % 100 == 0 then 1 else 0)
  {
  }

  lemma DivStep400(y: int)
    ensures y / 400 == (y - 1) / 400 + (if y % 400 == 0 then 1 else 0)
  {
  }

  lemma DaysBeforeYearStep(y: int)
    ensures DaysBeforeYear(y + 1) == DaysBeforeYear(y) + DaysInYear(y)
  {
    var k := y - 1;
    assert DaysBeforeYear(y + 1) == 365 * y + y / 4 - y / 100 + y / 400;
    assert DaysBeforeYear(y) == 365 * k + k / 4 - k / 100 + k / 400;
    DivStep4(y);
    DivStep100(y);
    DivStep400(y);
  }

  lemma {:induction false} DaysBeforeYearMonotone(a: int, b: int)
    requires a <= b
    ensures DaysBeforeYear(a) + (b - a) * 365 <= DaysBeforeYear(b)
    decreases b - a
  {
    if a < b {
      DaysBeforeYearMonotone(a, b - 1);
      DaysBeforeYearStep(b - 1);
    }
  }

  /** `d + timedelta(days=1)`; Python raises OverflowError after 9999-12-31. */
  function NextDate(d: Date): (r: Date)
    requires Ordinal(d) < MaxOrdinal
    ensures Ordinal(r) == Ordinal(d) + 1
  {
    if d.day < DaysInMonth(d.year, d.month) then
      CivilDate(d.year, d.month, d.day + 1)
    else if d.month < 12 then
      CivilDate(d.year, d.month + 1, 1)
    else
      assert d != MaxDate;
      DaysBeforeYearStep(d.year);
      CivilDate(d.year + 1, 1, 1)
  }

  /** Python compares dates field by field; the ordinal orders them the same way. */
  predicate DateLess(a: Date, b: Date) {
    a.year < b.year
    || (a.year == b.year && a.month < b.month)
    || (a.year == b.year && a.month == b.month && a.day < b.day)
  }

  lemma DayOfYearBounds(d: Date)
    ensures 1 <= DaysBeforeMonth(d.year, d.month) + d.day <= DaysInYear(d.year)
  {
  }

  lemma MonthOrder(y: int, m1: int, m2: int)
    requires 1 <= m1 < m2 <= 12
    ensures DaysBeforeMonth(y, m1) + DaysInMonth(y, m1) <= DaysBeforeMonth(y, m2)
  {
  }

  lemma {:induction false} OrdinalOrder(a: Date, b: Date)
    ensures DateLess(a, b) <==> Ordinal(a) < Ordinal(b)
  {
    if a.year < b.year {
      DayOfYearBounds(a);
      DaysBeforeYearStep(a.year);
      DaysBeforeYearMonotone(a.year + 1, b.year);
    } else if b.year < a.year {
      DayOfYearBounds(b);
      DaysBeforeYearStep(b.year);
      DaysBeforeYearMonotone(b.year + 1, a.year);
    } else if a.month < b.month {
      MonthOrder(a.year, a.month, b.month);
    } else if b.month < a.month {
      MonthOrder(a.year, b.month, a.month);
    }
  }

  /** Distinct days have distinct day indices. */
  lemma OrdinalInjective(a: Date, b: Date)
    requires Ordinal(a) == Ordinal(b)
    ensures a == b
  {
    OrdinalOrder(a, b);
    OrdinalOrder(b, a);
  }

  /** A point in time as seconds on one continuous axis. */
  function Stamp(m: Moment): int {
    Ordinal(m.date) * SecondsPerDay + m.secs
  }

  /** `(later - earlier).total_seconds()` for whole seconds. */
  function Elapsed(later: Moment, earlier: Moment): int {
    Stamp(later) - Stamp(earlier)
  }

  // ---------------------------------------------------------------- formatting

  predicate IsDigit(c: char) {
    '0' <= c <= '9'
  }

  function DigitChar(n: int): (c: char)
    requires 0 <= n <= 9
    ensures IsDigit(c)
  {
    (48 + n) as char
  }

  function DigitValue(c: char): int
    requires IsDigit(c)
  {
    c as int - 48
  }

  predicate AllDigits(s: string) {
    forall i :: 0 <= i < |s| ==> IsDigit(s[i])
  }

  /** The number a string of decimal digits spells. */
  function Number(s: string): int
    requires AllDigits(s)
  {
    if |s| == 0 then 0 else Number(s[..|s| - 1]) * 10 + DigitValue(s[|s| - 1])
  }

  /** `%02d` */
  function Pad2(n: int): (s: string)
    requires 0 <= n < 100
    ensures |s| == 2 && AllDigits(s)
  {
    [DigitChar(n / 10), DigitChar(n % 10)]
  }

  /** `%04d` */
  function Pad4(n: int): (s: string)
    requires 0 <= n < 10000
    ensures |s| == 4 && AllDigits(s)
  {
    Pad2(n / 100) + Pad2(n % 100)
  }

  lemma Pad2Number(n: int)
    requires 0 <= n < 100
    ensures Number(Pad2(n)) == n
  {
    var s := Pad2(n);
    assert s[..1] == [s[0]] && s[..1][..0] == [];
    assert Number(s[..1][..0]) == 0;
    assert Number(s[..1]) == n / 10;
    assert Number(s) == (n / 10) * 10 + n % 10;
  }

  lemma NumberPush(s: string, c: char)
    requires AllDigits(s) && IsDigit(c)
    ensures AllDigits(s + [c]) && Number(s + [c]) == Number(s) * 10 + DigitValue(c)
  {
    assert (s + [c])[..|s|] == s;
  }

  lemma Pad4Number(n: int)
    requires 0 <= n < 10000
    ensures Number(Pad4(n)) == n
  {
    var hi, lo := Pad2(n / 100), Pad2(n % 100);
    assert Pad4(n) == (hi + [lo[0]]) + [lo[1]];
    NumberPush(hi, lo[0]);
    NumberPush(hi + [lo[0]], lo[1]);
    Pad2Number(n / 100);
    Pad2Number(n % 100);
    assert Number(lo) == DigitValue(lo[0]) * 10 + DigitValue(lo[1]) by {
      assert lo[..1] == [lo[0]] && lo[..1][..0] == [];
    }
  }

  /** `strftime('%Y-%m-%d')` for years from 1000 on; earlier years are padded to four
      digits here, while their width in Python depends on the platform's C library. */
  function IsoDate(d: Date): (s: string)
    ensures |s| == 10
  {
    Pad4(d.year) + "-" + Pad2(d.month) + "-" + Pad2(d.day)
  }

  /** `strftime('%Y%m%d')` */
  function CompactDate(d: Date): (s: string)
    ensures |s| == 8 && AllDigits(s)
  {
    Pad4(d.year) + Pad2(d.month) + Pad2(d.day)
  }

  /** Different days never share a `YYYY-MM-DD` text. */
  lemma IsoDateInjective(a: Date, b: Date)
    requires IsoDate(a) == IsoDate(b)
    ensures a == b
  {
    var s, t := IsoDate(a), IsoDate(b);
    assert s[0..4] == Pad4(a.year) && t[0..4] == Pad4(b.year);
    assert s[5..7] == Pad2(a.month) && t[5..7] == Pad2(b.month);
    assert s[8..10] == Pad2(a.day) && t[8..10] == Pad2(b.day);
    Pad4Number(a.year); Pad4Number(b.year);
    Pad2Number(a.month); Pad2Number(b.month);
    Pad2Number(a.day); Pad2Number(b.day);
  }

  // ---------------------------------------------------------------- parsing

  /** Alternative `k` of the month group `1[0-2]|0[1-9]|[1-9]` of CPython's strptime
      pattern, tried at the start of `t`: the month and the number of characters used. */
  function MonthAlternative(k: nat, t: string): Option<(int, nat)> {
    if k == 0 then
      (if |t| >= 2 && t[0] == '1' && '0' <= t[1] <= '2' then Some((10 + DigitValue(t[1]), 2)) else None)
    else if k == 1 then
      (if |t| >= 2 && t[0] == '0' && '1' <= t[1] <= '9' then Some((DigitValue(t[1]), 2)) else None)
    else
      (if |t| >= 1 && '1' <= t[0] <= '9' then Some((DigitValue(t[0]), 1)) else None)
  }

  /** Alternative `k` of the day group `3[01]|[12]\d|0[1-9]|[1-9]| [1-9]`. */
  function DayAlternative(k: nat, t: string): Option<(int, nat)> {
    if k == 0 then
      (if |t| >= 2 && t[0] == '3' && '0' <= t[1] <= '1' then Some((30 + DigitValue(t[1]), 2)) else None)
    else if k == 1 then
      (if |t| >= 2 && '1' <= t[0] <= '2' && IsDigit(t[1]) then Some((10 * DigitValue(t[0]) + DigitValue(t[1]), 2)) else None)
    else if k == 2 then
      (if |t| >= 2 && t[0] == '0' && '1' <= t[1] <= '9' then Some((DigitValue(t[1]), 2)) else None)
    else if k == 3 then
      (if |t| >= 1 && '1' <= t[0] <= '9' then Some((DigitValue(t[0]), 1)) else None)
    else
      (if |t| >= 2 && t[0] == ' ' && '1' <= t[1] <= '9' then Some((DigitValue(t[1]), 2)) else None)
  }

  /** The regular expression engine's first match of month-then-day on `t`, trying the
      month alternatives in order and, for each, the day alternatives in order. No end
      anchor: the first combination that matches wins even if text is left over. */
  function MonthDayMatch(t: string, mk: nat, dk: nat): Option<(int, int, nat)>
    decreases 3 - mk, 5 - dk
  {
    if mk >= 3 then None
    else match MonthAlternative(mk, t)
      case None => MonthDayMatch(t, mk + 1, 0)
      case Some(mm) =>
        if dk >= 5 then MonthDayMatch(t, mk + 1, 0)
        else if mm.1 > |t| then None
        else match DayAlternative(dk, t[mm.1..])
          case Some(dd) => Some((mm.0, dd.0, mm.1 + dd.1))
          case None => MonthDayMatch(t, mk, dk + 1)
  }

  /** `datetime.strptime(s, '%Y%m%d')`: `None` where Python raises ValueError (no match,
      unconverted text left over, or a day the month does not have). */
  function ParseCompactDate(s: string): Option<Date> {
    if |s| < 4 || !AllDigits(s[..4]) then None
    else
      var year := Number(s[..4]);
      match MonthDayMatch(s[4..], 0, 0)
      case None => None
      case Some(md) =>
        if 4 + md.2 != |s| then None
        else if ValidDate(CivilDate(year, md.0, md.1)) then Some(CivilDate(year, md.0, md.1))
        else None
  }

  lemma MonthDayOfPadded(m: int, d: int)
    requires 1 <= m <= 12 && 1 <= d <= 31
    ensures MonthDayMatch(Pad2(m) + Pad2(d), 0, 0) == Some((m, d, 4))
  {
    var t := Pad2(m) + Pad2(d);
    var rest := t[2..];
    assert rest == Pad2(d);
    if m >= 10 {
      assert MonthAlternative(0, t) == Some((m, 2));
      if d >= 30 {
        assert DayAlternative(0, rest) == Some((d, 2));
      } else if d >= 10 {
        assert DayAlternative(0, rest) == None;
        assert DayAlternative(1, rest) == Some((d, 2));
        assert MonthDayMatch(t, 0, 1) == Some((m, d, 4));
      } else {
        assert DayAlternative(0, rest) == None;
        assert DayAlternative(1, rest) == None;
        assert DayAlternative(2, rest) == Some((d, 2));
        assert MonthDayMatch(t, 0, 2) == Some((m, d, 4));
        assert MonthDayMatch(t, 0, 1) == Some((m, d, 4));
      }
    } else {
      assert MonthAlternative(0, t) == None;
      assert MonthAlternative(1, t) == Some((m, 2));
      assert MonthDayMatch(t, 0, 0) == MonthDayMatch(t, 1, 0);
      if d >= 30 {
        assert DayAlternative(0, rest) == Some((d, 2));
      } else if d >= 10 {
        assert DayAlternative(0, rest) == None;
        assert DayAlternative(1, rest) == Some((d, 2));
        assert MonthDayMatch(t, 1, 1) == Some((m, d, 4));
      } else {
        assert DayAlternative(0, rest) == None;
        assert DayAlternative(1, rest) == None;
        assert DayAlternative(2, rest) == Some((d, 2));
        assert MonthDayMatch(t, 1, 2) == Some((m, d, 4));
        assert MonthDayMatch(t, 1, 1) == Some((m, d, 4));
      }
    }
  }

  /** Parsing the `YYYYMMDD` text of a day gives that day back. */
  lemma ParseCompactDateRoundTrip(d: Date)
    ensures ParseCompactDate(CompactDate(d)) == Some(d)
  {
    var s := CompactDate(d);
    assert s[..4] == Pad4(d.year);
    Pad4Number(d.year);
    assert s[4..] == Pad2(d.month) + Pad2(d.day);
    MonthDayOfPadded(d.month, d.day);
  }

  /** Text shorter than six characters never parses: the year takes four digits and the
      month and the day at least one each. */
  lemma ParseCompactDateShort(s: string)
    requires |s| < 6
    ensures ParseCompactDate(s) == None
  {
    if |s| >= 4 && AllDigits(s[..4]) {
      var t := s[4..];
      assert |t| <= 1;
      MonthDayMatchShort(t, 0, 0);
    }
  }

  lemma {:induction false} MonthDayMatchShort(t: string, mk: nat, dk: nat)
    requires |t| <= 1
    ensures MonthDayMatch(t, mk, dk) == None
    decreases 3 - mk, 5 - dk
  {
    if mk < 3 {
      match MonthAlternative(mk, t)
      case None => MonthDayMatchShort(t, mk + 1, 0);
      case Some(mm) =>
        assert mm.1 == 1;
        if dk >= 5 {
          MonthDayMatchShort(t, mk + 1, 0);
        } else if mm.1 <= |t| {
          assert |t[mm.1..]| == 0;
          assert DayAlternative(dk, t[mm.1..]) == None;
          MonthDayMatchShort(t, mk, dk + 1);
        }
    }
  }
}
