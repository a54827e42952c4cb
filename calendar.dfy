/** Calendar dates as day numbers: day 0 is 1970-01-01 (a Thursday) in the
    proleptic Gregorian calendar that Python's `datetime.date` uses. The
    conversions follow the standard civil-calendar era arithmetic (400-year
    eras of 146097 days, years starting on 1 March). */
module Calendar {

  /** Days since 1970-01-01. */
  type Day = int

  /** The day number of year `y`, month `m`, day `d`. */
  function DaysFromCivil(y: int, m: int, d: int): Day
    requires 1 <= m <= 12
  {
    var y1 := if m <= 2 then y - 1 else y;
    var era := y1 / 400;
    var yoe := y1 - era * 400;
    var mp := if m > 2 then m - 3 else m + 9;
    var doy := (153 * mp + 2) / 5 + d - 1;
    var doe := yoe * 365 + yoe / 4 - yoe / 100 + doy;
    era * 146097 + doe - 719468
  }

  /** The (year, month, day) of a day number. */
  function CivilFromDays(day: Day): (int, int, int)
  {
    var z := day + 719468;
    var era := z / 146097;
    var doe := z - era * 146097;
    var yoe := (doe - doe / 1460 + doe / 36524 - doe / 146096) / 365;
    var y := yoe + era * 400;
    var doy := doe - (365 * yoe + yoe / 4 - yoe / 100);
    var mp := (5 * doy + 2) / 153;
    var d := doy - (153 * mp + 2) / 5 + 1;
    var m := if mp < 10 then mp + 3 else mp - 9;
    (if m <= 2 then y + 1 else y, m, d)
  }

  /** `date.month` */
  function MonthOf(day: Day): int
  {
    CivilFromDays(day).1
  }

  /** `date.weekday()`: Monday is 0 and Sunday is 6. */
  function Weekday(day: Day): (w: int)
    ensures 0 <= w < 7
  {
    (day + 3) % 7
  }

  /** `date.strftime("%A")` in the C locale. */
  function WeekdayName(day: Day): (name: string)
    ensures name in ["Monday", "Tuesday", "Wednesday", "Thursday", "Friday", "Saturday", "Sunday"]
    ensures name in {"Saturday", "Sunday"} <==> Weekday(day) >= 5
  {
    ["Monday", "Tuesday", "Wednesday", "Thursday", "Friday", "Saturday", "Sunday"][Weekday(day)]
  }

  /** The summer season used for cost and coverage estimates: May to September. */
  predicate IsSummer(day: Day)
  {
    5 <= MonthOf(day) <= 9
  }

  /** The weekday repeats every seven days. */
  lemma WeekdayPeriodic(day: Day)
    ensures Weekday(day + 7) == Weekday(day)
  {
  }

  /** Anchor dates: 1970-01-01 is day 0, and 2022-05-01 is day 19113 in both
      directions of the conversion. */
  lemma AnchorEpoch()
    ensures DaysFromCivil(1970, 1, 1) == 0
  {
  }

  lemma AnchorStart()
    ensures DaysFromCivil(2022, 5, 1) == 19113
  {
  }

  lemma AnchorStartBack()
    ensures CivilFromDays(19113) == (2022, 5, 1)
  {
  }
}
