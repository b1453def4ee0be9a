/** Calendar dates and instants as the JavaScript `Date` object exposes them
    (proleptic Gregorian calendar, one clock for every party), with the
    normalisations the application relies on: month ranges built with
    `new Date(y, m, 0, 23, 59, 59)`, `setMonth`, `setDate` and `setFullYear`. */
module Calendar {
  import Text

  /** Milliseconds in a day. */
  const DayMs: int := 86400000

  /** 23:59:59.000, the time `new Date(y, m, 0, 23, 59, 59)` sets. */
  const EndOfDayMs: int := 86399000

  predicate IsLeap(y: int) {
    y % 4 == 0 && (y % 100 != 0 || y % 400 == 0)
  }

  function DaysInMonth(y: int, m: int): (n: int)
    ensures 28 <= n <= 31
    ensures m == 2 ==> (n == 29 <==> IsLeap(y))
  {
    if m == 2 then (if IsLeap(y) then 29 else 28)
    else if m == 4 || m == 6 || m == 9 || m == 11 then 30
    else 31
  }

  /** A calendar day; month counts from 1 as `getMonth() + 1` does. */
  datatype CalDate = CalDate(year: int, month: int, day: int)

  predicate ValidDate(d: CalDate) {
    1 <= d.month <= 12 && 1 <= d.day <= DaysInMonth(d.year, d.month)
  }

  /** An instant: a day and the milliseconds elapsed since its midnight. */
  datatype Moment = Moment(date: CalDate, ms: int)

  predicate ValidMoment(t: Moment) {
    ValidDate(t.date) && 0 <= t.ms < DayMs
  }

  predicate DateLt(a: CalDate, b: CalDate) {
    a.year < b.year
    || (a.year == b.year && (a.month < b.month || (a.month == b.month && a.day < b.day)))
  }

  /** The order of instants, which is the order of their epoch milliseconds. */
  predicate MomentLe(a: Moment, b: Moment) {
    DateLt(a.date, b.date) || (a.date == b.date && a.ms <= b.ms)
  }

  lemma MomentLeTotal(a: Moment, b: Moment)
    ensures MomentLe(a, b) || MomentLe(b, a)
    ensures MomentLe(a, b) && MomentLe(b, a) ==> a == b
  {
  }

  lemma MomentLeTrans(a: Moment, b: Moment, c: Moment)
    requires MomentLe(a, b) && MomentLe(b, c)
    ensures MomentLe(a, c)
  {
  }

  /** `new Date(y, …)` reads a year between 0 and 99 as 1900 + y. */
  function LegacyYear(y: int): (r: int)
    ensures 0 <= y <= 99 ==> r == 1900 + y
    ensures !(0 <= y <= 99) ==> r == y
  {
    if 0 <= y <= 99 then 1900 + y else y
  }

  /** `new Date(y, m - 1, 1)`. */
  function MonthStart(y: int, m: int): Moment
    requires 1 <= m <= 12
  {
    Moment(CalDate(LegacyYear(y), m, 1), 0)
  }

  /** `new Date(y, m, 0, 23, 59, 59)`: day 0 of the next month is the last day of month m. */
  function MonthEnd(y: int, m: int): Moment
    requires 1 <= m <= 12
  {
    var yy := LegacyYear(y);
    Moment(CalDate(yy, m, DaysInMonth(yy, m)), EndOfDayMs)
  }

  /** The inclusive range `{ $gte: MonthStart, $lte: MonthEnd }`. */
  predicate InMonthRange(t: Moment, y: int, m: int)
    requires 1 <= m <= 12
  {
    MomentLe(MonthStart(y, m), t) && MomentLe(t, MonthEnd(y, m))
  }

  /** The month range holds every instant of month m except the last 999
      milliseconds of its final day, which fall after 23:59:59.000. */
  lemma InMonthRangeIff(t: Moment, y: int, m: int)
    requires ValidMoment(t) && 1 <= m <= 12
    ensures InMonthRange(t, y, m) <==>
      t.date.year == LegacyYear(y) && t.date.month == m
      && (t.date.day < DaysInMonth(t.date.year, m) || t.ms <= EndOfDayMs)
  {
  }

  /** The day before d. */
  function PrevDay(d: CalDate): (r: CalDate)
    requires ValidDate(d)
    ensures ValidDate(r) && DateLt(r, d)
  {
    if d.day > 1 then CalDate(d.year, d.month, d.day - 1)
    else if d.month > 1 then CalDate(d.year, d.month - 1, DaysInMonth(d.year, d.month - 1))
    else CalDate(d.year - 1, 12, 31)
  }

  /** No valid day lies strictly between the day before d and d. */
  lemma PrevDayAdjacent(d: CalDate, e: CalDate)
    requires ValidDate(d) && ValidDate(e)
    ensures !(DateLt(PrevDay(d), e) && DateLt(e, d))
  {
  }

  /** `x.setDate(x.getDate() - n)`: n days earlier at the same time of day. */
  function MinusDays(t: Moment, n: nat): (r: Moment)
    requires ValidMoment(t)
    ensures ValidMoment(r) && r.ms == t.ms
    ensures n > 0 ==> DateLt(r.date, t.date)
    decreases n
  {
    if n == 0 then t else MinusDays(Moment(PrevDay(t.date), t.ms), n - 1)
  }

  /** The day after d. */
  function NextDay(d: CalDate): (r: CalDate)
    requires ValidDate(d)
    ensures ValidDate(r) && DateLt(d, r)
  {
    if d.day < DaysInMonth(d.year, d.month) then CalDate(d.year, d.month, d.day + 1)
    else if d.month < 12 then CalDate(d.year, d.month + 1, 1)
    else CalDate(d.year + 1, 1, 1)
  }

  lemma NextPrevDay(d: CalDate)
    requires ValidDate(d)
    ensures NextDay(PrevDay(d)) == d && PrevDay(NextDay(d)) == d
  {
  }

  /** A day-of-month d placed in month m of year y, overflowing into the
      following month when that month is shorter, as `Date` normalises
      out-of-range days. */
  function PlaceDay(y: int, m: int, d: int): (r: CalDate)
    requires 1 <= m <= 12 && 1 <= d <= 31
    ensures ValidDate(r)
    ensures d <= DaysInMonth(y, m) ==> r == CalDate(y, m, d)
    ensures d > DaysInMonth(y, m) ==> r.day == d - DaysInMonth(y, m) && r.day <= 3
    ensures d > DaysInMonth(y, m) && m < 12 ==> r.year == y && r.month == m + 1
    ensures d > DaysInMonth(y, m) && m == 12 ==> r.year == y + 1 && r.month == 1
  {
    var n := DaysInMonth(y, m);
    if d <= n then CalDate(y, m, d)
    else if m < 12 then CalDate(y, m + 1, d - n)
    else CalDate(y + 1, 1, d - n)
  }

  /** `x.setMonth(k)` for a zero-based month index k, which may be negative or
      beyond 11: the year absorbs whole multiples of twelve and the day keeps
      its number, overflowing when the target month is too short. */
  function SetMonth(d: CalDate, k: int): (r: CalDate)
    requires ValidDate(d)
    ensures ValidDate(r)
  {
    PlaceDay(d.year + k / 12, k % 12 + 1, d.day)
  }

  /** On any day of month 28 or earlier, `setMonth` lands in the month asked for. */
  lemma SetMonthExact(d: CalDate, k: int)
    requires ValidDate(d) && d.day <= 28
    ensures SetMonth(d, k) == CalDate(d.year + k / 12, k % 12 + 1, d.day)
  {
  }

  /** Going back i months from month m of year y without overflow. */
  function MonthsBefore(y: int, m: int, i: nat): (r: (int, int))
    requires 1 <= m <= 12
    ensures 1 <= r.1 <= 12
    ensures r.0 * 12 + r.1 == y * 12 + m - i
  {
    var k := m - 1 - i;
    (y + k / 12, k % 12 + 1)
  }

  /** `x.setFullYear(x.getFullYear() + 1)`: the same day a year later, with
      29 February becoming 1 March. */
  function AddOneYear(d: CalDate): (r: CalDate)
    requires ValidDate(d)
    ensures ValidDate(r) && DateLt(d, r)
    ensures !(d.month == 2 && d.day == 29) ==> r == CalDate(d.year + 1, d.month, d.day)
    ensures d.month == 2 && d.day == 29 ==> r == CalDate(d.year + 1, 3, 1)
  {
    PlaceDay(d.year + 1, d.month, d.day)
  }

  /** Days from 1970-01-01 to d in the proleptic Gregorian calendar. */
  function DaysFromCivil(d: CalDate): int {
    var y := if d.month <= 2 then d.year - 1 else d.year;
    var era := y / 400;
    var yoe := y - era * 400;
    var mp := if d.month > 2 then d.month - 3 else d.month + 9;
    var doy := (153 * mp + 2) / 5 + d.day - 1;
    var doe := yoe * 365 + yoe / 4 - yoe / 100 + doy;
    era * 146097 + doe - 719468
  }

  /** The epoch milliseconds of t, which is what `Date` subtraction compares. */
  function EpochMs(t: Moment): int {
    DaysFromCivil(t.date) * DayMs + t.ms
  }

  /** `d.toISOString().slice(0, 10)` (also `.split('T')[0]`): YYYY-MM-DD, with
      the six-digit signed year form outside 0000..9999. */
  function DateText(d: CalDate): (r: string)
    requires ValidDate(d)
    ensures 0 <= d.year <= 9999 ==> |r| == 10 && r[4] == '-' && r[7] == '-'
    ensures 'T' !in r && ',' !in r && '\n' !in r
  {
    YearText(d.year) + "-" + Text.Padded(d.month, 2) + "-" + Text.Padded(d.day, 2)
  }

  /** The year part of `toISOString`. */
  function YearText(year: int): (r: string)
    ensures 0 <= year <= 9999 ==> |r| == 4
    ensures |r| >= 4 && 'T' !in r && ',' !in r && '\n' !in r && '-' !in r[1..]
  {
    if 0 <= year <= 9999 then Text.Padded(year, 4)
    else if year < 0 then "-" + Text.Padded(-year, 6)
    else "+" + Text.Padded(year, 6)
  }

  /** The year part reads back as the year: four digits in 0..9999, a sign
      and the magnitude outside. */
  lemma YearTextDecodes(year: int)
    ensures var r := YearText(year);
      (0 <= year <= 9999 ==> Text.IsDigit(r[0]) && Text.Value(r) == year)
      && (year < 0 ==> r[0] == '-' && Text.Value(r[1..]) == -year)
      && (year > 9999 ==> r[0] == '+' && Text.Value(r[1..]) == year)
  {
    var r := YearText(year);
    if 0 <= year <= 9999 {
      Text.PaddedValue(year, 4);
    } else if year < 0 {
      assert r[1..] == Text.Padded(-year, 6);
      Text.PaddedValue(-year, 6);
    } else {
      assert r[1..] == Text.Padded(year, 6);
      Text.PaddedValue(year, 6);
    }
  }

  /** The text reads back as the date: the last five characters are the
      month and the day, two digits each, and what precedes them is the
      four-digit year, or a sign and the year's magnitude. */
  lemma DateTextDecodes(d: CalDate)
    requires ValidDate(d)
    ensures var r := DateText(d);
      |r| >= 10 && r[|r| - 6] == '-' && r[|r| - 3] == '-'
      && Text.Value(r[|r| - 5..|r| - 3]) == d.month && Text.Value(r[|r| - 2..]) == d.day
      && (0 <= d.year <= 9999 ==> |r| == 10 && Text.IsDigit(r[0]) && Text.Value(r[..4]) == d.year)
      && (d.year < 0 ==> r[0] == '-' && Text.Value(r[1..|r| - 6]) == -d.year)
      && (d.year > 9999 ==> r[0] == '+' && Text.Value(r[1..|r| - 6]) == d.year)
  {
    var y := YearText(d.year);
    DateParts(y, Text.Padded(d.month, 2), Text.Padded(d.day, 2));
    Text.PaddedValue(d.month, 2);
    Text.PaddedValue(d.day, 2);
    YearTextDecodes(d.year);
  }

  /** Where the parts of `year-MM-DD` sit in the joined text. */
  lemma DateParts(y: string, m: string, dd: string)
    requires |m| == 2 && |dd| == 2 && |y| >= 4
    ensures var r := y + "-" + m + "-" + dd;
      |r| == |y| + 6 && r[|r| - 6] == '-' && r[|r| - 3] == '-'
      && r[|r| - 5..|r| - 3] == m && r[|r| - 2..] == dd && r[..|y|] == y && r[0] == y[0]
      && r[1..|r| - 6] == y[1..]
  {
  }

  /** Two valid dates with the same text are the same date. */
  lemma DateTextInjective(d: CalDate, e: CalDate)
    requires ValidDate(d) && ValidDate(e) && DateText(d) == DateText(e)
    ensures d == e
  {
    var md, dd := Text.Padded(d.month, 2), Text.Padded(d.day, 2);
    var me, de := Text.Padded(e.month, 2), Text.Padded(e.day, 2);
    DateParts(YearText(d.year), md, dd);
    DateParts(YearText(e.year), me, de);
    PaddedInjective(d.month, e.month, 2);
    PaddedInjective(d.day, e.day, 2);
    YearTextInjective(d.year, e.year);
  }

  lemma PaddedInjective(a: nat, b: nat, w: nat)
    requires Text.Padded(a, w) == Text.Padded(b, w)
    ensures a == b
  {
    Text.PaddedValue(a, w);
    Text.PaddedValue(b, w);
  }

  lemma YearTextInjective(a: int, b: int)
    requires YearText(a) == YearText(b)
    ensures a == b
  {
    YearTextDecodes(a);
    YearTextDecodes(b);
  }
}
