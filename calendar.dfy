/**
 * Calendar dates as plain values, replacing `Date` and the date-fns helpers the core
 * uses (`startOfMonth`, `subMonths`, `format(d, "yyyy-MM")`, `format(d, "MMM")`).
 * There is no time of day and no time zone.
 */
module Calendar {

  type MonthNum = m: int | 1 <= m <= 12 witness 1
  type DayNum = d: int | 1 <= d <= 31 witness 1

  datatype Date = Date(year: int, month: MonthNum, day: DayNum)

  /** A calendar month: the value behind the `"yyyy-MM"` key and `startOfMonth(date)`. */
  datatype YearMonth = YearMonth(year: int, month: MonthNum)

  function MonthOf(d: Date): YearMonth {
    YearMonth(d.year, d.month)
  }

  /** Months counted from January of year 0; consecutive months have consecutive indices. */
  function MonthIndex(ym: YearMonth): int {
    ym.year * 12 + ym.month - 1
  }

  function FromIndex(i: int): (ym: YearMonth)
    ensures MonthIndex(ym) == i
  {
    YearMonth(i / 12, i % 12 + 1)
  }

  /** Different months have different indices. */
  lemma IndexInjective(a: YearMonth, b: YearMonth)
    requires MonthIndex(a) == MonthIndex(b)
    ensures a == b
  {
  }

  /** `subMonths(date, n)`, looked at month by month. */
  function SubMonths(ym: YearMonth, n: int): (r: YearMonth)
    ensures MonthIndex(r) == MonthIndex(ym) - n
  {
    FromIndex(MonthIndex(ym) - n)
  }

  /** Position of a day on the time line: later dates have larger ordinals. */
  function DayOrdinal(d: Date): int {
    MonthIndex(MonthOf(d)) * 31 + d.day - 1
  }

  /** Ordinals order dates by month first, then by day. */
  lemma DayOrdinalOrder(a: Date, b: Date)
    ensures MonthIndex(MonthOf(a)) < MonthIndex(MonthOf(b)) ==> DayOrdinal(a) < DayOrdinal(b)
    ensures MonthOf(a) == MonthOf(b) ==> (DayOrdinal(a) < DayOrdinal(b) <==> a.day < b.day)
  {
  }

  /** Month abbreviations of date-fns' default (en-US) locale, which `format(d, "MMM")` prints. */
  const MonthAbbrev: seq<string> :=
    ["Jan", "Feb", "Mar", "Apr", "May", "Jun", "Jul", "Aug", "Sep", "Oct", "Nov", "Dec"]

  /** `format(date, "MMM")`: the month's name only, without the year. */
  function FormatMMM(ym: YearMonth): string {
    MonthAbbrev[ym.month - 1]
  }

  /** Two months print the same abbreviation exactly when they are the same month of the year. */
  lemma FormatMMMSameMonth(a: YearMonth, b: YearMonth)
    ensures FormatMMM(a) == FormatMMM(b) <==> a.month == b.month
  {
    if a.month != b.month {
      assert MonthAbbrev[a.month - 1] != MonthAbbrev[b.month - 1];
    }
  }

  /** Within fewer than twelve months, the abbreviation identifies the month. */
  lemma FormatMMMInWindow(a: YearMonth, b: YearMonth)
    requires -12 < MonthIndex(a) - MonthIndex(b) < 12
    ensures FormatMMM(a) == FormatMMM(b) <==> a == b
  {
    FormatMMMSameMonth(a, b);
  }
}
