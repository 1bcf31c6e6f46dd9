/**
 * The calendar walk of the engine: which month of the climate profile each simulation day
 * falls in, counting days with the month lengths of the non-leap year 2023.
 */
module Calendar {
  import opened Wrappers
  import opened Series

  /** calendar.monthrange rejects a month outside 1..12. */
  datatype CalendarError = IllegalMonthError(month: int)

  /** Days of month m (1 = January) in 2023. */
  function DaysInMonth(m: int): (d: nat)
    requires 1 <= m <= 12
    ensures 28 <= d <= 31
    ensures d == 28 <==> m == 2
    ensures d == 30 <==> m in {4, 6, 9, 11}
  {
    [31, 28, 31, 30, 31, 30, 31, 31, 30, 31, 30, 31][m - 1]
  }

  /** The month after m; December is followed by January. */
  function NextMonth(m: int): (n: int)
    requires 1 <= m <= 12
    ensures 1 <= n <= 12 && n != m
    ensures m < 12 ==> n == m + 1
    ensures m == 12 ==> n == 1
  {
    (m % 12) + 1
  }

  /** Where the walk stands before a day is recorded: the 1-based month and the days already spent in it. */
  datatype Position = Position(month: int, dayInMonth: int)

  /** The position after `days` recorded days, starting on the first day of `start`. */
  function PositionAt(start: int, days: nat): (p: Position)
    requires 1 <= start <= 12
    ensures 1 <= p.month <= 12
    ensures 0 <= p.dayInMonth < DaysInMonth(p.month)
    decreases days
  {
    if days == 0 then Position(start, 0)
    else
      var q := PositionAt(start, days - 1);
      if q.dayInMonth + 1 >= DaysInMonth(q.month) then Position(NextMonth(q.month), 0)
      else Position(q.month, q.dayInMonth + 1)
  }

  /** The 0-based month index recorded for simulation day d. */
  function MonthIndexAt(start: int, d: nat): (i: int)
    requires 1 <= start <= 12
    ensures 0 <= i <= 11
  {
    PositionAt(start, d).month - 1
  }

  /** The whole map for a run of `durationDays` days. */
  function DayMap(start: int, durationDays: int): (m: seq<int>)
    requires 1 <= start <= 12
    ensures |m| == RangeLength(durationDays)
    ensures forall d :: 0 <= d < |m| ==> 0 <= m[d] <= 11
  {
    seq(RangeLength(durationDays), d requires 0 <= d => MonthIndexAt(start, d))
  }

  /**
   * _build_day_to_month_map: walks the months from startMonth, recording one 0-based
   * month index per day and moving on when the current month's days are used up.
   */
  method BuildDayToMonthMap(startMonth: int, durationDays: int) returns (r: Result<seq<int>, CalendarError>)
    ensures !(1 <= startMonth <= 12) ==> r == Failure(IllegalMonthError(startMonth))
    ensures 1 <= startMonth <= 12 ==> r == Success(DayMap(startMonth, durationDays))
    ensures r.Success? ==> |r.value| == RangeLength(durationDays)
    ensures r.Success? && |r.value| > 0 ==> r.value[0] == startMonth - 1
  {
    if !(1 <= startMonth <= 12) {
      return Failure(IllegalMonthError(startMonth));
    }
    var dayToMonth: seq<int> := [];
    var month := startMonth;
    var dayInMonth := 0;
    var daysInCurrent := DaysInMonth(month);
    var day := 0;
    while day < durationDays
      invariant 0 <= day <= RangeLength(durationDays)
      invariant PositionAt(startMonth, day) == Position(month, dayInMonth)
      invariant 1 <= month <= 12 && daysInCurrent == DaysInMonth(month)
      invariant |dayToMonth| == day
      invariant forall d :: 0 <= d < day ==> dayToMonth[d] == MonthIndexAt(startMonth, d)
    {
      dayToMonth := dayToMonth + [month - 1];
      dayInMonth := dayInMonth + 1;
      if dayInMonth >= daysInCurrent {
        dayInMonth := 0;
        month := (month % 12) + 1;
        daysInCurrent := DaysInMonth(month);
      }
      day := day + 1;
    }
    assert dayToMonth == DayMap(startMonth, durationDays);
    r := Success(dayToMonth);
  }

  /** Consecutive days stay in one month or move to the next one, December wrapping to January. */
  lemma ConsecutiveDays(start: int, d: nat)
    requires 1 <= start <= 12
    ensures MonthIndexAt(start, d + 1) == MonthIndexAt(start, d)
         || MonthIndexAt(start, d + 1) == (MonthIndexAt(start, d) + 1) % 12
  {
  }

  /** A change of month happens exactly when the last day of the month was recorded. */
  lemma ChangeMeansMonthUsedUp(start: int, d: nat)
    requires 1 <= start <= 12
    ensures MonthIndexAt(start, d + 1) != MonthIndexAt(start, d)
        <==> PositionAt(start, d).dayInMonth == DaysInMonth(PositionAt(start, d).month) - 1
    ensures MonthIndexAt(start, d + 1) != MonthIndexAt(start, d) ==> PositionAt(start, d + 1).dayInMonth == 0
    ensures MonthIndexAt(start, d + 1) == MonthIndexAt(start, d)
        ==> PositionAt(start, d + 1).dayInMonth == PositionAt(start, d).dayInMonth + 1
  {
  }

  /** Inside a run of one month that began on day a, day j is day j - a of the month. */
  lemma {:induction false} DayInRun(start: int, a: nat, j: nat)
    requires 1 <= start <= 12
    requires a <= j
    requires a == 0 || MonthIndexAt(start, a - 1) != MonthIndexAt(start, a)
    requires forall i :: a <= i < j ==> MonthIndexAt(start, i + 1) == MonthIndexAt(start, i)
    ensures PositionAt(start, j).dayInMonth == j - a
    decreases j - a
  {
    if j == a {
      if a > 0 {
        ChangeMeansMonthUsedUp(start, a - 1);
      }
    } else {
      DayInRun(start, a, j - 1);
      ChangeMeansMonthUsedUp(start, j - 1);
    }
  }

  /**
   * Every complete run of one month lasts exactly that month's number of days: a run that
   * starts on day a (the first day, or a change of month) and ends before a change of month
   * on day e has e - a == DaysInMonth of its month. Only the run cut off by the end of the
   * simulation can be shorter.
   */
  lemma RunLength(start: int, a: nat, e: nat)
    requires 1 <= start <= 12
    requires a < e
    requires a == 0 || MonthIndexAt(start, a - 1) != MonthIndexAt(start, a)
    requires forall i :: a <= i < e - 1 ==> MonthIndexAt(start, i + 1) == MonthIndexAt(start, i)
    requires MonthIndexAt(start, e) != MonthIndexAt(start, e - 1)
    ensures e - a == DaysInMonth(MonthIndexAt(start, a) + 1)
  {
    var last := PositionAt(start, e - 1);
    MonthConstantInRun(start, a, e - 1);
    assert last.month == MonthIndexAt(start, a) + 1;
    DayInRun(start, a, e - 1);
    ChangeMeansMonthUsedUp(start, e - 1);
  }

  lemma {:induction false} MonthConstantInRun(start: int, a: nat, j: nat)
    requires 1 <= start <= 12
    requires a <= j
    requires forall i :: a <= i < j ==> MonthIndexAt(start, i + 1) == MonthIndexAt(start, i)
    ensures MonthIndexAt(start, j) == MonthIndexAt(start, a)
    decreases j - a
  {
    if a < j {
      MonthConstantInRun(start, a, j - 1);
    }
  }

  /** No run is longer than its month. */
  lemma RunAtMostMonthLength(start: int, a: nat, j: nat)
    requires 1 <= start <= 12
    requires a <= j
    requires a == 0 || MonthIndexAt(start, a - 1) != MonthIndexAt(start, a)
    requires forall i :: a <= i < j ==> MonthIndexAt(start, i + 1) == MonthIndexAt(start, i)
    ensures j - a < DaysInMonth(MonthIndexAt(start, a) + 1)
  {
    DayInRun(start, a, j);
    MonthConstantInRun(start, a, j);
  }
}
