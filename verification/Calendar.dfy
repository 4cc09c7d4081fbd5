/**
  The proleptic Gregorian calendar behind `time.Date` and the accessors of `time.Time`.
  Wall-clock times without a zone are counted in seconds from 1970-01-01T00:00:00.
 */
module Calendar {

  datatype Fields = Fields(year: int, month: int, day: int, hour: int, minute: int, second: int)

  const SECONDS_PER_DAY := 86400
  const EPOCH_DAY := 719162

  predicate IsLeap(year: int) {
    year % 4 == 0 && (year % 100 != 0 || year % 400 == 0)
  }

  function DaysInYear(year: int): int {
    if IsLeap(year) then 366 else 365
  }

  /** Days from 0001-01-01 to the first day of `year`. */
  function DaysBeforeYear(year: int): int {
    var y := year - 1;
    365 * y + y / 4 - y / 100 + y / 400
  }

  function DaysInMonth(year: int, month: int): int {
    if month == 2 then (if IsLeap(year) then 29 else 28)
    else if month == 4 || month == 6 || month == 9 || month == 11 then 30
    else 31
  }

  /** Days of `year` before the first of `month`, 1 <= `month` <= 13. */
  function DaysBeforeMonth(year: int, month: int): int
    requires 1 <= month <= 13
    decreases month
  {
    if month == 1 then 0 else DaysBeforeMonth(year, month - 1) + DaysInMonth(year, month - 1)
  }

  predicate InRange(f: Fields) {
    && 1 <= f.month <= 12 && 1 <= f.day <= DaysInMonth(f.year, f.month)
    && 0 <= f.hour < 24 && 0 <= f.minute < 60 && 0 <= f.second < 60
  }

  /** `time.Date`: a month outside its range carries into the year, everything smaller carries over time. */
  function Wall(f: Fields): int {
    var year := f.year + (f.month - 1) / 12;
    var month := (f.month - 1) % 12 + 1;
    var days := DaysBeforeYear(year) + DaysBeforeMonth(year, month) + f.day - 1 - EPOCH_DAY;
    days * SECONDS_PER_DAY + f.hour * 3600 + f.minute * 60 + f.second
  }

  // Reading the fields back

  function YearUp(year: int, day: int): int
    requires DaysBeforeYear(year) <= day
    decreases day - DaysBeforeYear(year)
  {
    YearLength(year);
    if day < DaysBeforeYear(year + 1) then year else YearUp(year + 1, day)
  }

  function YearDown(year: int, day: int): int
    requires day < DaysBeforeYear(year + 1)
    decreases DaysBeforeYear(year + 1) - day
  {
    YearLength(year);
    if DaysBeforeYear(year) <= day then year else YearDown(year - 1, day)
  }

  function YearOf(day: int): int {
    if day >= 0 then YearUp(1, day) else YearDown(0, day)
  }

  function MonthUp(year: int, month: int, day: int): int
    requires 1 <= month <= 12
    decreases 12 - month
  {
    if month == 12 || day < DaysBeforeMonth(year, month + 1) then month else MonthUp(year, month + 1, day)
  }

  /** The accessors `Year`, `Month`, `Day`, `Hour`, `Minute` and `Second`. */
  function FieldsOf(wall: int): Fields {
    var day := wall / SECONDS_PER_DAY + EPOCH_DAY;
    var rest := wall % SECONDS_PER_DAY;
    var year := YearOf(day);
    var yearDay := day - DaysBeforeYear(year);
    var month := MonthUp(year, 1, yearDay);
    Fields(year, month, yearDay - DaysBeforeMonth(year, month) + 1, rest / 3600, rest % 3600 / 60, rest % 60)
  }

  // The calendar is a bijection between valid dates and days

  lemma QuotientStep(y: int, n: int)
    requires n > 0
    ensures y / n - (y - 1) / n == if y % n == 0 then 1 else 0
  {
    var q, r := (y - 1) / n, (y - 1) % n;
    assert y - 1 == q * n + r && 0 <= r < n;
    if r == n - 1 {
      assert y == (q + 1) * n;
      Quotient(y, n, q + 1, 0);
    } else {
      Quotient(y, n, q, r + 1);
    }
  }

  lemma Quotient(y: int, n: int, q: int, r: int)
    requires n > 0 && y == q * n + r && 0 <= r < n
    ensures y / n == q && y % n == r
  {
    var d := y / n - q;
    assert y == (y / n) * n + y % n;
    assert d * n == r - y % n;
    Multiple(d, n);
  }

  lemma Multiple(d: int, n: int)
    requires n > 0
    ensures d >= 1 ==> d * n >= n
    ensures d <= -1 ==> d * n <= -n
  {
  }

  lemma YearLength(year: int)
    ensures DaysBeforeYear(year + 1) == DaysBeforeYear(year) + DaysInYear(year)
  {
    QuotientStep(year, 4);
    QuotientStep(year, 100);
    QuotientStep(year, 400);
  }

  lemma {:induction false} YearUpIs(year: int, day: int)
    requires DaysBeforeYear(year) <= day
    ensures var y := YearUp(year, day); DaysBeforeYear(y) <= day < DaysBeforeYear(y + 1)
    decreases day - DaysBeforeYear(year)
  {
    YearLength(year);
    if day >= DaysBeforeYear(year + 1) {
      YearUpIs(year + 1, day);
    }
  }

  lemma {:induction false} YearDownIs(year: int, day: int)
    requires day < DaysBeforeYear(year + 1)
    ensures var y := YearDown(year, day); DaysBeforeYear(y) <= day < DaysBeforeYear(y + 1)
    decreases DaysBeforeYear(year + 1) - day
  {
    YearLength(year);
    if day < DaysBeforeYear(year) {
      YearDownIs(year - 1, day);
    }
  }

  lemma YearOfIs(day: int)
    ensures DaysBeforeYear(YearOf(day)) <= day < DaysBeforeYear(YearOf(day) + 1)
  {
    if day >= 0 {
      YearUpIs(1, day);
    } else {
      YearDownIs(0, day);
    }
  }

  lemma {:induction false} YearsAscend(a: int, b: int)
    requires a <= b
    ensures DaysBeforeYear(a) <= DaysBeforeYear(b)
    decreases b - a
  {
    if a < b {
      YearsAscend(a, b - 1);
      YearLength(b - 1);
    }
  }

  lemma YearUnique(day: int, year: int)
    requires DaysBeforeYear(year) <= day < DaysBeforeYear(year + 1)
    ensures YearOf(day) == year
  {
    YearOfIs(day);
    if YearOf(day) < year {
      YearsAscend(YearOf(day) + 1, year);
    } else if year < YearOf(day) {
      YearsAscend(year + 1, YearOf(day));
    }
  }

  lemma {:induction false} MonthsAscend(year: int, a: int, b: int)
    requires 1 <= a <= b <= 13
    ensures DaysBeforeMonth(year, a) <= DaysBeforeMonth(year, b)
    decreases b - a
  {
    if a < b {
      MonthsAscend(year, a, b - 1);
    }
  }

  lemma YearOfMonths(year: int)
    ensures DaysBeforeMonth(year, 13) == DaysInYear(year)
  {
    var d4 := DaysBeforeMonth(year, 4);
    assert d4 == DaysBeforeMonth(year, 3) + 31;
    assert DaysBeforeMonth(year, 3) == DaysBeforeMonth(year, 2) + DaysInMonth(year, 2);
    assert DaysBeforeMonth(year, 7) == DaysBeforeMonth(year, 6) + 30 == DaysBeforeMonth(year, 5) + 61 == d4 + 91;
    var d7 := DaysBeforeMonth(year, 7);
    assert DaysBeforeMonth(year, 10) == DaysBeforeMonth(year, 9) + 30 == DaysBeforeMonth(year, 8) + 61 == d7 + 92;
    var d10 := DaysBeforeMonth(year, 10);
    assert DaysBeforeMonth(year, 13) == DaysBeforeMonth(year, 12) + 31 == DaysBeforeMonth(year, 11) + 61 == d10 + 92;
  }

  lemma {:induction false} MonthUpIs(year: int, month: int, day: int)
    requires 1 <= month <= 12 && DaysBeforeMonth(year, month) <= day < DaysInYear(year)
    ensures var m := MonthUp(year, month, day);
            1 <= m <= 12 && DaysBeforeMonth(year, m) <= day < DaysBeforeMonth(year, m + 1)
    decreases 12 - month
  {
    YearOfMonths(year);
    if month < 12 && day >= DaysBeforeMonth(year, month + 1) {
      MonthUpIs(year, month + 1, day);
    }
  }

  lemma MonthUnique(year: int, month: int, day: int)
    requires 1 <= month <= 12 && DaysBeforeMonth(year, month) <= day < DaysBeforeMonth(year, month + 1)
    ensures MonthUp(year, 1, day) == month
  {
    YearOfMonths(year);
    MonthsAscend(year, month + 1, 13);
    MonthsAscend(year, 1, month);
    MonthUpIs(year, 1, day);
    var m := MonthUp(year, 1, day);
    if m < month {
      MonthsAscend(year, m + 1, month);
    } else if month < m {
      MonthsAscend(year, month + 1, m);
    }
  }

  lemma ClockFields(rest: int)
    requires 0 <= rest < SECONDS_PER_DAY
    ensures 0 <= rest / 3600 < 24 && 0 <= rest % 3600 / 60 < 60 && 0 <= rest % 60 < 60
    ensures rest / 3600 * 3600 + rest % 3600 / 60 * 60 + rest % 60 == rest
  {
  }

  /** Whatever the wall time, its fields are a real date and time, and `time.Date` maps them back to it. */
  lemma FieldsAreReal(wall: int)
    ensures InRange(FieldsOf(wall)) && Wall(FieldsOf(wall)) == wall
  {
    hide YearOf, MonthUp, DaysBeforeMonth, DaysBeforeYear, IsLeap;
    var day := wall / SECONDS_PER_DAY + EPOCH_DAY;
    var year := YearOf(day);
    var yearDay := day - DaysBeforeYear(year);
    YearOfIs(day);
    YearLength(year);
    FirstMonth(year);
    MonthUpIs(year, 1, yearDay);
    NextMonth(year, MonthUp(year, 1, yearDay));
    ClockFields(wall % SECONDS_PER_DAY);
    var f := FieldsOf(wall);
    assert (f.month - 1) / 12 == 0 && (f.month - 1) % 12 == f.month - 1;
  }

  lemma FirstMonth(year: int)
    ensures DaysBeforeMonth(year, 1) == 0
  {
  }

  lemma NextMonth(year: int, month: int)
    requires 1 <= month <= 12
    ensures DaysBeforeMonth(year, month + 1) == DaysBeforeMonth(year, month) + DaysInMonth(year, month)
  {
  }

  lemma RealMonth(f: Fields)
    requires InRange(f)
    ensures (f.month - 1) / 12 == 0 && (f.month - 1) % 12 == f.month - 1
  {
  }

  /** Where a real date lies within its month, its year and its era. */
  lemma DayOfYear(f: Fields)
    requires InRange(f)
    ensures var yearDay := DaysBeforeMonth(f.year, f.month) + f.day - 1;
            && DaysBeforeMonth(f.year, f.month) <= yearDay < DaysBeforeMonth(f.year, f.month + 1)
            && 0 <= yearDay < DaysInYear(f.year)
  {
    hide DaysBeforeMonth, IsLeap;
    NextMonth(f.year, f.month);
    FirstMonth(f.year);
    YearOfMonths(f.year);
    MonthsAscend(f.year, f.month + 1, 13);
    MonthsAscend(f.year, 1, f.month);
  }

  /** A real date and time reads back as itself. */
  lemma RealFieldsReadBack(f: Fields)
    requires InRange(f)
    ensures FieldsOf(Wall(f)) == f
  {
    hide DaysBeforeMonth, DaysBeforeYear, DaysInYear, DaysInMonth, YearOf, MonthUp;
    var wall := Wall(f);
    var yearDay := DaysBeforeMonth(f.year, f.month) + f.day - 1;
    var day := DaysBeforeYear(f.year) + yearDay;
    var rest := f.hour * 3600 + f.minute * 60 + f.second;
    RealMonth(f);
    DayOfYear(f);
    Quotient(wall, SECONDS_PER_DAY, day - EPOCH_DAY, rest);
    ClockReadBack(f.hour, f.minute, f.second);
    YearLength(f.year);
    YearUnique(day, f.year);
    MonthUnique(f.year, f.month, yearDay);
  }

  lemma ClockReadBack(hour: int, minute: int, second: int)
    requires 0 <= hour < 24 && 0 <= minute < 60 && 0 <= second < 60
    ensures var rest := hour * 3600 + minute * 60 + second;
            0 <= rest < SECONDS_PER_DAY && rest / 3600 == hour && rest % 3600 / 60 == minute && rest % 60 == second
  {
  }

  /** Normalising and comparing accepts exactly the real dates: second 60 or 30 February is not one. */
  lemma NormaliseThenCompare(f: Fields)
    ensures FieldsOf(Wall(f)) == f <==> InRange(f)
  {
    FieldsAreReal(Wall(f));
    if InRange(f) {
      RealFieldsReadBack(f);
    }
  }

  /** The years the parser admits stay well inside 64-bit Unix time. */
  lemma WallOfFourDigitYear(f: Fields)
    requires InRange(f) && 1 <= f.year <= 9999
    ensures -62135596800 <= Wall(f) < 253402300800
  {
    hide DaysBeforeMonth, DaysBeforeYear, DaysInYear, DaysInMonth;
    RealMonth(f);
    DayOfYear(f);
    YearLength(f.year);
    YearsAscend(1, f.year);
    YearsAscend(f.year + 1, 10000);
    FourDigitYears();
  }

  lemma FourDigitYears()
    ensures DaysBeforeYear(1) == 0 && DaysBeforeYear(10000) == 3652059
  {
  }

  // The same calendar in closed form

  /**
    Days from 1970-01-01, by the arithmetic rule for years that begin in March: the months from March on
    have 31, 30, 31, 30, 31 days, twice over and then again, which is what (153 * m + 2) / 5 sums up, and
    the leap day comes last.
   */
  function CivilDay(year: int, month: int, day: int): int {
    var y := if month <= 2 then year - 1 else year;
    365 * y + y / 4 - y / 100 + y / 400 + (153 * ((month + 9) % 12) + 2) / 5 + day - 1 - 719468
  }

  function NextMonthsFirst(year: int, month: int): int {
    if month == 12 then CivilDay(year + 1, 1, 1) else CivilDay(year, month + 1, 1)
  }

  lemma DaysBeforeMonthInLeapAndOtherYears(year: int)
    ensures forall m :: 1 <= m <= 13 ==>
              DaysBeforeMonth(year, m) == if m <= 2 then 31 * (m - 1)
                                          else (153 * (m - 3) + 2) / 5 + DaysInYear(year) - 306
  {
    var march := DaysInYear(year) - 306;
    assert DaysBeforeMonth(year, 2) == 31;
    assert DaysBeforeMonth(year, 3) == march;
    assert DaysBeforeMonth(year, 4) == march + 31;
    assert DaysBeforeMonth(year, 5) == march + 61;
    assert DaysBeforeMonth(year, 6) == march + 92;
    assert DaysBeforeMonth(year, 7) == march + 122;
    assert DaysBeforeMonth(year, 8) == march + 153;
    assert DaysBeforeMonth(year, 9) == march + 184;
    assert DaysBeforeMonth(year, 10) == march + 214;
    assert DaysBeforeMonth(year, 11) == march + 245;
    assert DaysBeforeMonth(year, 12) == march + 275;
    assert DaysBeforeMonth(year, 13) == march + 306;
  }

  lemma FirstOfMonth(year: int, month: int)
    requires 1 <= month <= 12
    ensures DaysBeforeYear(year) + DaysBeforeMonth(year, month) - EPOCH_DAY == CivilDay(year, month, 1)
    ensures DaysBeforeYear(year) + DaysBeforeMonth(year, month + 1) - EPOCH_DAY == NextMonthsFirst(year, month)
  {
    hide DaysBeforeMonth, DaysInYear;
    DaysBeforeMonthInLeapAndOtherYears(year);
    YearLength(year);
    MarchMonth(month);
    if month < 12 {
      MarchMonth(month + 1);
    }
  }

  lemma MarchMonth(month: int)
    requires 1 <= month <= 12
    ensures (month + 9) % 12 == if month <= 2 then month + 9 else month - 3
    ensures month <= 2 ==> (153 * (month + 9) + 2) / 5 == 306 + 31 * (month - 1)
  {
  }

  /** `time.Date` of fields with a month in range, in closed form. */
  lemma WallInClosedForm(f: Fields)
    requires 1 <= f.month <= 12
    ensures Wall(f) == CivilDay(f.year, f.month, f.day) * SECONDS_PER_DAY + f.hour * 3600 + f.minute * 60 + f.second
  {
    hide DaysBeforeMonth, DaysBeforeYear;
    FirstOfMonth(f.year, f.month);
    assert (f.month - 1) / 12 == 0 && (f.month - 1) % 12 == f.month - 1;
  }

  predicate OnTheClock(f: Fields) {
    0 <= f.hour < 24 && 0 <= f.minute < 60 && 0 <= f.second < 60
  }

  /** A date is real iff it lies in its month, counted in closed form. */
  lemma RealIffInItsMonth(f: Fields)
    ensures InRange(f) <==>
            && 1 <= f.month <= 12 && OnTheClock(f)
            && CivilDay(f.year, f.month, 1) <= CivilDay(f.year, f.month, f.day) < NextMonthsFirst(f.year, f.month)
  {
    hide DaysBeforeMonth, DaysBeforeYear, DaysInMonth;
    if 1 <= f.month <= 12 {
      FirstOfMonth(f.year, f.month);
      NextMonth(f.year, f.month);
    }
  }

  /**
    The dates and times that normalise to themselves: 31 days in seven months, 30 in four, and in February
    28, or 29 in years divisible by 4 but not by 100, or by 400.
   */
  lemma AcceptedDates(f: Fields)
    ensures FieldsOf(Wall(f)) == f <==>
            && 1 <= f.month <= 12 && 1 <= f.day && OnTheClock(f)
            && (|| f.day <= 28
                || (f.day <= 29 && f.month == 2 && f.year % 4 == 0 && (f.year % 100 != 0 || f.year % 400 == 0))
                || (f.day <= 30 && f.month in {4, 6, 9, 11})
                || (f.day <= 31 && f.month in {1, 3, 5, 7, 8, 10, 12}))
    ensures FieldsOf(Wall(f)) == f <==>
            && 1 <= f.month <= 12 && OnTheClock(f)
            && CivilDay(f.year, f.month, 1) <= CivilDay(f.year, f.month, f.day) < NextMonthsFirst(f.year, f.month)
  {
    hide FieldsOf, Wall, CivilDay;
    NormaliseThenCompare(f);
    RealIffInItsMonth(f);
  }

  /** The fields of an instant, in closed form. */
  lemma FieldsInClosedForm(wall: int)
    ensures var f := FieldsOf(wall);
            && 1 <= f.month <= 12 && OnTheClock(f)
            && CivilDay(f.year, f.month, 1) <= CivilDay(f.year, f.month, f.day) < NextMonthsFirst(f.year, f.month)
            && CivilDay(f.year, f.month, f.day) * SECONDS_PER_DAY + f.hour * 3600 + f.minute * 60 + f.second == wall
  {
    hide FieldsOf, Wall, CivilDay, DaysInMonth;
    FieldsAreReal(wall);
    RealIffInItsMonth(FieldsOf(wall));
    WallInClosedForm(FieldsOf(wall));
  }
}
