/**
 * Dates. A `LocalDate` is its epoch day (days since 1970-01-01), a `YearMonth`
 * is its month index year*12 + (month-1), and a `LocalDateTime` is an epoch day
 * with a second of the day. Conversions use the proleptic Gregorian calendar.
 */
module Calendar {
  type Day = int
  type YearMonth = int

  datatype Civil = Civil(year: int, month: int, day: int)

  function DaysFromCivil(c: Civil): Day {
    var y := if c.month <= 2 then c.year - 1 else c.year;
    var era := y / 400;
    var yoe := y - era * 400;
    var mp := if c.month > 2 then c.month - 3 else c.month + 9;
    var doy := (153 * mp + 2) / 5 + c.day - 1;
    var doe := yoe * 365 + yoe / 4 - yoe / 100 + doy;
    era * 146097 + doe - 719468
  }

  function CivilFromDays(z: Day): Civil {
    var z1 := z + 719468;
    var era := z1 / 146097;
    var doe := z1 - era * 146097;
    var yoe := (doe - doe / 1460 + doe / 36524 - doe / 146096) / 365;
    var y := yoe + era * 400;
    var doy := doe - (365 * yoe + yoe / 4 - yoe / 100);
    var mp := (5 * doy + 2) / 153;
    var d := doy - (153 * mp + 2) / 5 + 1;
    var m := if mp < 10 then mp + 3 else mp - 9;
    Civil(if m <= 2 then y + 1 else y, m, d)
  }

  /** `date.getYear()`. */
  function YearOf(d: Day): int { CivilFromDays(d).year }

  /** `YearMonth.from(date)`. */
  function MonthOf(d: Day): YearMonth {
    var c := CivilFromDays(d);
    c.year * 12 + (c.month - 1)
  }

  /** `ym.atDay(1)`. */
  function FirstDay(ym: YearMonth): Day {
    DaysFromCivil(Civil(ym / 12, ym % 12 + 1, 1))
  }

  predicate IsLeap(y: int) { y % 4 == 0 && (y % 100 != 0 || y % 400 == 0) }

  function LengthOfMonth(y: int, m: int): int {
    if m == 2 then (if IsLeap(y) then 29 else 28)
    else if m == 4 || m == 6 || m == 9 || m == 11 then 30
    else 31
  }

  /** `ym.atEndOfMonth()`. */
  function LastDay(ym: YearMonth): Day {
    DaysFromCivil(Civil(ym / 12, ym % 12 + 1, LengthOfMonth(ym / 12, ym % 12 + 1)))
  }

  /** A `LocalDateTime`: epoch day and second of that day. */
  datatype DateTime = DateTime(day: Day, second: int)

  predicate IsBefore(a: DateTime, b: DateTime) {
    a.day < b.day || (a.day == b.day && a.second < b.second)
  }

  predicate IsAfter(a: DateTime, b: DateTime) { IsBefore(b, a) }

  /** `plusMonths(n)`: same day of month, clamped to the length of the target month. */
  function PlusMonths(t: DateTime, n: int): DateTime {
    var c := CivilFromDays(t.day);
    var ym := c.year * 12 + (c.month - 1) + n;
    var y, m := ym / 12, ym % 12 + 1;
    var d := if c.day <= LengthOfMonth(y, m) then c.day else LengthOfMonth(y, m);
    DateTime(DaysFromCivil(Civil(y, m, d)), t.second)
  }
}
