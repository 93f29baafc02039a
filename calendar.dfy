/**
 * The part of Foundation's `Date`, `Calendar` and `DateFormatter` that the
 * purchase ledger relies on: a calendar date and the full name of its month.
 */
module Calendar {

  /** A month number as a Gregorian calendar reports it: 1 is January, 12 is December. */
  type MonthNumber = m: int | 1 <= m <= 12 witness 1

  /** A calendar date. Only the month is ever read; the time of day is not modelled. */
  datatype Date = Date(year: int, month: MonthNumber, day: int)

  /** The stand-alone full month names, the "LLLL" pattern in an English locale. */
  const MonthNames: seq<string> := [
    "January", "February", "March", "April", "May", "June",
    "July", "August", "September", "October", "November", "December"
  ]

  /** The name the "LLLL" formatter prints for month `m`; it is never the word "None". */
  function MonthName(m: MonthNumber): (name: string)
    ensures name != [] && name != "None"
  {
    MonthNames[m - 1]
  }
}
