/**
 * Dates as the program reads them. A JavaScript `Date` is reduced to the three
 * values the workout lookup uses: the UTC calendar key `YYYY-MM-DD` (the first
 * ten characters of `toISOString()`), the local month index (`getMonth()`,
 * 0–11) and the local weekday (`getDay()`, 0 = Sunday … 6 = Saturday). The
 * three are kept independent, because UTC and local time may fall on
 * different days.
 */
module Dates {

  datatype DateInfo = DateInfo(isoKey: string, monthIndex: int, weekday: int)

  /** The ranges a real `Date` produces. */
  predicate ValidDate(d: DateInfo) {
    && |d.isoKey| == 10
    && 0 <= d.monthIndex < 12
    && 0 <= d.weekday < 7
  }
}
