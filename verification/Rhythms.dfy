/**
 The next run of a rhythm: `next_occurrence` (backend/app/proactivity.py) on the proleptic Gregorian
 calendar, in local wall-clock time.
 */
module Rhythms {
  import opened Wrappers

  datatype RhythmKey = Morning | Friday | Monthly | Quarterly | Annual

  // ----- the calendar -----

  datatype Date = Date(year: int, month: int, day: int)

  predicate IsLeap(year: int) { year % 4 == 0 && (year % 100 != 0 || year % 400 == 0) }

  function DaysIn(year: int, month: int): int {
    if month == 2 then if IsLeap(year) then 29 else 28
    else if month in {4, 6, 9, 11} then 30
    else 31
  }

  predicate Valid(date: Date) {
    date.year >= 1 && 1 <= date.month <= 12 && 1 <= date.day <= DaysIn(date.year, date.month)
  }

  function NextDay(date: Date): (r: Date)
    requires Valid(date)
    ensures Valid(r)
  {
    if date.day < DaysIn(date.year, date.month) then date.(day := date.day + 1)
    else if date.month < 12 then Date(date.year, date.month + 1, 1)
    else Date(date.year + 1, 1, 1)
  }

  /** `date + timedelta(days=n)`. */
  function PlusDays(date: Date, n: nat): (r: Date)
    requires Valid(date)
    ensures Valid(r)
  {
    if n == 0 then date else NextDay(PlusDays(date, n - 1))
  }

  function YearLength(year: int): int { if IsLeap(year) then 366 else 365 }

  function DaysBeforeYear(year: int): int {
    if year <= 1 then 0 else DaysBeforeYear(year - 1) + YearLength(year - 1)
  }

  function DaysBeforeMonth(year: int, month: int): int
    requires 1 <= month <= 12
  {
    [0, 31, 59, 90, 120, 151, 181, 212, 243, 273, 304, 334][month - 1] + if month > 2 && IsLeap(year) then 1 else 0
  }

  function DayOfYear(date: Date): int
    requires 1 <= date.month <= 12
  {
    DaysBeforeMonth(date.year, date.month) + date.day
  }

  /** The number of the day, counted from 1 January of year 1. */
  function Ordinal(date: Date): int
    requires 1 <= date.month <= 12
  {
    DaysBeforeYear(date.year) + DayOfYear(date)
  }

  /** 0 is Monday; 1 January of year 1 was one. */
  function Weekday(date: Date): int
    requires 1 <= date.month <= 12
  {
    (Ordinal(date) + 6) % 7
  }

  lemma {:induction false} YearsAdd(year: int, later: int)
    requires 1 <= year < later
    ensures DaysBeforeYear(year) + YearLength(year) <= DaysBeforeYear(later)
    decreases later - year
  {
    if year + 1 < later {
      YearsAdd(year + 1, later);
    }
  }

  lemma MonthByMonth(year: int, month: int)
    requires 1 <= month < 12
    ensures DaysBeforeMonth(year, month + 1) == DaysBeforeMonth(year, month) + DaysIn(year, month)
  {
  }

  lemma {:induction false} MonthsAdd(year: int, month: int, later: int)
    requires 1 <= month < later <= 12
    ensures DaysBeforeMonth(year, month) + DaysIn(year, month) <= DaysBeforeMonth(year, later)
    decreases later - month
  {
    MonthByMonth(year, month);
    if month + 1 < later {
      MonthsAdd(year, month + 1, later);
    }
  }

  lemma DayOfYearRange(date: Date)
    requires Valid(date)
    ensures 1 <= DayOfYear(date) <= YearLength(date.year)
  {
    if date.month < 12 {
      MonthsAdd(date.year, date.month, 12);
    }
  }

  /** The day numbers count the calendar: tomorrow is one more. */
  lemma OrdinalOfNextDay(date: Date)
    requires Valid(date)
    ensures Ordinal(NextDay(date)) == Ordinal(date) + 1
  {
    if date.day == DaysIn(date.year, date.month) {
      if date.month < 12 {
        MonthByMonth(date.year, date.month);
      }
    }
  }

  /** The week is anchored: 1 January of year 1 was a Monday. */
  lemma FirstWeekday()
    ensures Weekday(Date(1, 1, 1)) == 0
  {
  }

  lemma OneFurther(o: int, next: int)
    requires next == o + 1
    ensures (next + 6) % 7 == ((o + 6) % 7 + 1) % 7
  {
    assert next + 6 == 7 * ((o + 6) / 7) + ((o + 6) % 7 + 1);
  }

  /** The day after a day is one weekday further. */
  lemma WeekdaysFollow(date: Date)
    requires Valid(date)
    ensures Weekday(NextDay(date)) == (Weekday(date) + 1) % 7
  {
    OrdinalOfNextDay(date);
    OneFurther(Ordinal(date), Ordinal(NextDay(date)));
  }

  lemma {:induction false} OrdinalOfPlusDays(date: Date, n: nat)
    requires Valid(date)
    ensures Ordinal(PlusDays(date, n)) == Ordinal(date) + n
  {
    if n > 0 {
      OrdinalOfPlusDays(date, n - 1);
      OrdinalOfNextDay(PlusDays(date, n - 1));
    }
  }

  predicate Before(a: Date, b: Date) {
    || a.year < b.year
    || (a.year == b.year && (a.month < b.month || (a.month == b.month && a.day < b.day)))
  }

  lemma LaterHasLargerOrdinal(a: Date, b: Date)
    requires Valid(a) && Valid(b) && Before(a, b)
    ensures Ordinal(a) < Ordinal(b)
  {
    DayOfYearRange(a);
    DayOfYearRange(b);
    if a.year < b.year {
      YearsAdd(a.year, b.year);
    } else if a.month < b.month {
      MonthsAdd(a.year, a.month, b.month);
    }
  }

  /** Calendar order and the order of the day numbers are the same, so a number names one date. */
  lemma OrdinalOrdersDates(a: Date, b: Date)
    requires Valid(a) && Valid(b)
    ensures Before(a, b) <==> Ordinal(a) < Ordinal(b)
    ensures a == b <==> Ordinal(a) == Ordinal(b)
  {
    if Before(a, b) {
      LaterHasLargerOrdinal(a, b);
    } else if Before(b, a) {
      LaterHasLargerOrdinal(b, a);
    }
  }

  lemma ReachedByCounting(start: Date, target: Date)
    requires Valid(start) && Valid(target) && Ordinal(start) <= Ordinal(target)
    ensures PlusDays(start, Ordinal(target) - Ordinal(start)) == target
  {
    OrdinalOfPlusDays(start, Ordinal(target) - Ordinal(start));
    OrdinalOrdersDates(PlusDays(start, Ordinal(target) - Ordinal(start)), target);
  }

  // ----- occurrences -----

  /** A wall-clock moment, with the time of day in any unit. */
  datatype Moment = Moment(date: Date, time: int)

  /** The month and day of the annual rhythm: the birthday, or 2 January without one. */
  function Anniversary(birthday: Option<Date>): (int, int) {
    if birthday.Some? then (birthday.value.month, birthday.value.day) else (1, 2)
  }

  predicate IsDay(key: RhythmKey, birthday: Option<Date>, date: Date)
    requires Valid(date)
  {
    match key
    case Morning => Weekday(date) < 5
    case Friday => Weekday(date) == 4
    case Monthly => date.day == 1
    case Quarterly => date.day == 1 && date.month in {1, 4, 7, 10}
    case Annual => (date.month, date.day) == Anniversary(birthday)
  }

  /** Working days, Fridays, firsts of months and of quarters, and the birthday or else 2 January. */
  lemma WhichDays(birthday: Option<Date>, date: Date)
    requires Valid(date)
    ensures IsDay(Morning, birthday, date) <==> 0 <= Weekday(date) <= 4
    ensures IsDay(Friday, birthday, date) <==> Weekday(date) == 4
    ensures IsDay(Monthly, birthday, date) <==> date.day == 1
    ensures IsDay(Quarterly, birthday, date) <==>
            date.day == 1 && (date.month == 1 || date.month == 4 || date.month == 7 || date.month == 10)
    ensures IsDay(Annual, birthday, date) <==>
            if birthday.Some? then date.month == birthday.value.month && date.day == birthday.value.day
            else date.month == 1 && date.day == 2
  {
  }

  predicate StrictlyAfter(date: Date, localTime: int, after: Moment)
    requires Valid(date) && Valid(after.date)
  {
    Ordinal(date) > Ordinal(after.date) || (date == after.date && localTime > after.time)
  }

  predicate Occurs(key: RhythmKey, birthday: Option<Date>, localTime: int, after: Moment, date: Date)
    requires Valid(after.date)
  {
    Valid(date) && IsDay(key, birthday, date) && StrictlyAfter(date, localTime, after)
  }

  const HORIZON: nat := 370

  predicate BornOnLeapDay(key: RhythmKey, birthday: Option<Date>) {
    key == Annual && Anniversary(birthday) == (2, 29)
  }

  predicate LeapDayAhead(localTime: int, after: Moment) {
    var date := after.date;
    && IsLeap(date.year)
    && (date.month < 2 || (date.month == 2 && (date.day < 29 || localTime > after.time)))
  }

  /** A leap day is ahead this year, or it is within reach next year: from 25 February on. */
  predicate LeapDayInReach(localTime: int, after: Moment) {
    var date := after.date;
    || LeapDayAhead(localTime, after)
    || (IsLeap(date.year + 1) && (date.month > 2 || (date.month == 2 && date.day >= 25)))
  }

  /** Some occurrence lies within the horizon: a day for each rhythm that cannot be far away. */
  ghost predicate InReach(key: RhythmKey, birthday: Option<Date>, localTime: int, after: Moment, date: Date)
    requires Valid(after.date)
  {
    Occurs(key, birthday, localTime, after, date) && Ordinal(date) - Ordinal(after.date) < HORIZON
  }

  lemma WeekdayInReach(key: RhythmKey, birthday: Option<Date>, localTime: int, after: Moment) returns (date: Date)
    requires Valid(after.date) && (key == Morning || key == Friday)
    ensures InReach(key, birthday, localTime, after, date)
  {
    var n := DaysAhead(Ordinal(after.date) + 6, key == Friday);
    date := PlusDays(after.date, n);
    OrdinalOfPlusDays(after.date, n);
  }

  /** How many days to go to a Friday, or to some working day. */
  lemma DaysAhead(o: int, toFriday: bool) returns (n: nat)
    ensures 1 <= n <= 7
    ensures if toFriday then (o + n) % 7 == 4 else (o + n) % 7 < 5
  {
    var today := o % 7;
    n := if today < 4 then if toFriday then 4 - today else 1 else 11 - today;
    assert o + n == 7 * (o / 7) + (today + n);
  }

  function NextQuarter(month: int): int {
    if month < 4 then 4 else if month < 7 then 7 else if month < 10 then 10 else 13
  }

  lemma FirstOfMonthInReach(key: RhythmKey, birthday: Option<Date>, localTime: int, after: Moment)
    returns (date: Date)
    requires Valid(after.date) && (key == Monthly || key == Quarterly)
    ensures InReach(key, birthday, localTime, after, date)
  {
    var year, month := after.date.year, after.date.month;
    var next := if key == Monthly then month + 1 else NextQuarter(month);
    date := if next <= 12 then Date(year, next, 1) else Date(year + 1, 1, 1);
    LaterHasLargerOrdinal(after.date, date);
    if next <= 12 {
      DayOfYearRange(date);
    }
  }

  lemma AnniversaryInReach(birthday: Option<Date>, localTime: int, after: Moment) returns (date: Date)
    requires Valid(after.date) && (birthday.Some? ==> Valid(birthday.value))
    requires !BornOnLeapDay(Annual, birthday)
    ensures InReach(Annual, birthday, localTime, after, date)
  {
    var (month, day) := Anniversary(birthday);
    var thisYear := Date(after.date.year, month, day);
    var nextYear := Date(after.date.year + 1, month, day);
    assert Valid(thisYear) && Valid(nextYear);
    if Before(after.date, thisYear) {
      date := thisYear;
      LaterHasLargerOrdinal(after.date, thisYear);
      DayOfYearRange(after.date);
      DayOfYearRange(thisYear);
    } else {
      date := nextYear;
      LaterHasLargerOrdinal(after.date, nextYear);
      OrdinalOrdersDates(thisYear, after.date);
      OneYearOn(after.date.year, month, day);
    }
  }

  lemma OneYearOn(year: int, month: int, day: int)
    requires Valid(Date(year, month, day)) && Valid(Date(year + 1, month, day))
    ensures Ordinal(Date(year + 1, month, day)) - Ordinal(Date(year, month, day)) <= 366
  {
  }

  lemma LeapDayFound(birthday: Option<Date>, localTime: int, after: Moment) returns (date: Date)
    requires Valid(after.date) && BornOnLeapDay(Annual, birthday) && LeapDayInReach(localTime, after)
    ensures InReach(Annual, birthday, localTime, after, date)
  {
    var year := after.date.year;
    var thisYear := LeapDayAhead(localTime, after);
    date := Date(if thisYear then year else year + 1, 2, 29);
    OrdinalOrdersDates(after.date, date);
    DayOfYearRange(after.date);
    if !thisYear {
      if after.date.month > 2 { MonthsAdd(year, 2, after.date.month); }
    }
  }

  lemma LeapDayMissed(birthday: Option<Date>, localTime: int, after: Moment, date: Date)
    requires Valid(after.date) && BornOnLeapDay(Annual, birthday)
    requires InReach(Annual, birthday, localTime, after, date)
    ensures LeapDayInReach(localTime, after)
  {
    var year := after.date.year;
    OrdinalOrdersDates(after.date, date);
    DayOfYearRange(after.date);
    if date.year > year + 1 {
      YearsAdd(year + 1, date.year);
    }
  }

  /** The search can only fail for a leap-day birthday with no leap day in reach. */
  lemma WhenAnOccurrenceIsInReach(key: RhythmKey, birthday: Option<Date>, localTime: int, after: Moment)
    requires Valid(after.date) && (birthday.Some? ==> Valid(birthday.value))
    ensures (exists date :: InReach(key, birthday, localTime, after, date)) <==>
            !BornOnLeapDay(key, birthday) || LeapDayInReach(localTime, after)
  {
    if BornOnLeapDay(key, birthday) {
      if LeapDayInReach(localTime, after) {
        var date := LeapDayFound(birthday, localTime, after);
      } else if date :| InReach(key, birthday, localTime, after, date) {
        LeapDayMissed(birthday, localTime, after, date);
      }
    } else if key == Annual {
      var date := AnniversaryInReach(birthday, localTime, after);
    } else if key == Morning || key == Friday {
      var date := WeekdayInReach(key, birthday, localTime, after);
    } else {
      var date := FirstOfMonthInReach(key, birthday, localTime, after);
    }
  }

  /** After 1 March 2025 there is no 29 February before 2028. */
  lemma LeapDayBirthdayIsNotScheduled(localTime: int, time: int)
    ensures var after := Moment(Date(2025, 3, 1), time);
            var birthday := Some(Date(2000, 2, 29));
            forall date :: !InReach(Annual, birthday, localTime, after, date)
  {
    WhenAnOccurrenceIsInReach(Annual, Some(Date(2000, 2, 29)), localTime, Moment(Date(2025, 3, 1), time));
  }

  method NextOccurrence(key: RhythmKey, after: Moment, localTime: int, birthday: Option<Date>)
    returns (next: Option<Date>)
    requires Valid(after.date) && (birthday.Some? ==> Valid(birthday.value))
    ensures next.Some? ==>
              && Occurs(key, birthday, localTime, after, next.value)
              && forall date :: Occurs(key, birthday, localTime, after, date) ==> Ordinal(next.value) <= Ordinal(date)
    ensures next.None? <==> BornOnLeapDay(key, birthday) && !LeapDayInReach(localTime, after)
  {
    WhenAnOccurrenceIsInReach(key, birthday, localTime, after);
    for offset := 0 to HORIZON
      invariant forall date ::
                  Occurs(key, birthday, localTime, after, date) ==> Ordinal(date) - Ordinal(after.date) >= offset
    {
      var day := PlusDays(after.date, offset);
      OrdinalOfPlusDays(after.date, offset);
      if IsDay(key, birthday, day) && StrictlyAfter(day, localTime, after) {
        assert InReach(key, birthday, localTime, after, day);
        return Some(day);
      }
      forall date | Occurs(key, birthday, localTime, after, date) ensures Ordinal(date) - Ordinal(after.date) > offset {
        ReachedByCounting(after.date, date);
      }
    }
    next := None;
  }
}
