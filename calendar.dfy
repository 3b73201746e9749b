/**
 * The calendar the views reason with.  The source stores every date as an
 * ISO-8601 string and asks date-fns whether two of them fall on the same local
 * day, month or year.  Here a moment is a local day ordinal (day 0 is
 * 1970-01-01) plus the milliseconds elapsed since local midnight, and the
 * civil date of a day ordinal is computed by the proleptic Gregorian
 * days-to-civil conversion.
 */
module Calendar {

  const MsPerDay: int := 86_400_000

  /** Milliseconds since local midnight. */
  type TimeOfDay = ms: int | 0 <= ms < MsPerDay

  /** A local date-time: the day ordinal and the time within that day. */
  datatype Instant = Instant(day: int, ms: TimeOfDay)

  /** A civil (year, month, day-of-month) date. */
  datatype Date = Date(year: int, month: int, dayOfMonth: int)

  /** Lexicographic order on instants: `a` is not later than `b`. */
  predicate AtOrBefore(a: Instant, b: Instant)
  {
    a.day < b.day || (a.day == b.day && a.ms <= b.ms)
  }

  /** The year of the era lies in [0, 399]; quotients as plain integers, so only linear arithmetic is involved. */
  lemma YearOfEraRange(doe: int, a: int, b: int, c: int, yoe: int)
    requires 0 <= doe <= 146096
    requires 1460 * a <= doe < 1460 * a + 1460
    requires 36524 * b <= doe < 36524 * b + 36524
    requires 146096 * c <= doe < 146096 * c + 146096
    requires 365 * yoe <= doe - a + b - c < 365 * yoe + 365
    ensures 0 <= yoe <= 399
  {
  }

  /** The hundred-year quotient of the year of the era is the count of whole centuries in the era's days. */
  lemma CenturyOfEra(doe: int, a: int, b: int, c: int, yoe: int, q: int)
    requires 0 <= doe <= 146096
    requires 1460 * a <= doe < 1460 * a + 1460
    requires 36524 * b <= doe < 36524 * b + 36524
    requires 146096 * c <= doe < 146096 * c + 146096
    requires 365 * yoe <= doe - a + b - c < 365 * yoe + 365
    requires 100 * q <= yoe < 100 * q + 100
    ensures q == b - c
  {
    if c == 1 {
      assert doe == 146096 && a == 100 && b == 4;
    } else if b == 0 {
      assert 0 <= a <= 25;
    } else if b == 1 {
      assert 25 <= a <= 50;
    } else if b == 2 {
      assert 50 <= a <= 75;
    } else {
      assert b == 3 && 75 <= a <= 100;
    }
  }

  /** The four-year quotient of the year of the era is the count of whole 1460-day blocks, or one less. */
  lemma CycleOfEra(doe: int, a: int, b: int, c: int, yoe: int, p: int)
    requires 0 <= doe <= 146096
    requires 1460 * a <= doe < 1460 * a + 1460
    requires 36524 * b <= doe < 36524 * b + 36524
    requires 146096 * c <= doe < 146096 * c + 146096
    requires 365 * yoe <= doe - a + b - c < 365 * yoe + 365
    requires 4 * p <= yoe < 4 * p + 4
    ensures a - 1 <= p <= a
  {
    assert 0 <= c <= 1 && 0 <= b - c <= 3 && b - c <= a <= 100;
    assert 1460 * p <= doe - a + b - c < 1460 * p + 1460;
  }

  /** The day of the year lies in [0, 365]. */
  lemma DayOfYearRange(doe: int, a: int, b: int, c: int, yoe: int, p: int, q: int)
    requires 0 <= doe <= 146096
    requires 1460 * a <= doe < 1460 * a + 1460
    requires 36524 * b <= doe < 36524 * b + 36524
    requires 146096 * c <= doe < 146096 * c + 146096
    requires 365 * yoe <= doe - a + b - c < 365 * yoe + 365
    requires 4 * p <= yoe < 4 * p + 4
    requires 100 * q <= yoe < 100 * q + 100
    ensures 0 <= doe - (365 * yoe + p - q) <= 365
  {
    CenturyOfEra(doe, a, b, c, yoe, q);
    CycleOfEra(doe, a, b, c, yoe, p);
  }

  /** Bounds on the intermediate values of the conversion below. */
  lemma YearOfEraBounds(doe: int)
    requires 0 <= doe <= 146096
    ensures var yoe := (doe - doe / 1460 + doe / 36524 - doe / 146096) / 365;
            0 <= yoe <= 399 &&
            0 <= doe - (365 * yoe + yoe / 4 - yoe / 100) <= 365
  {
    var a, b, c := doe / 1460, doe / 36524, doe / 146096;
    var yoe := (doe - a + b - c) / 365;
    YearOfEraRange(doe, a, b, c, yoe);
    DayOfYearRange(doe, a, b, c, yoe, yoe / 4, yoe / 100);
  }

  /**
   * The civil date of day `doy` (counted from 1 March) of year `yoe` of era
   * `era`: months are counted from March so that the leap day comes last.
   */
  function CivilOfEraDay(era: int, yoe: int, doy: int): (d: Date)
    requires 0 <= doy <= 365
    ensures 1 <= d.month <= 12
    ensures 1 <= d.dayOfMonth <= 31
  {
    var mp := (5 * doy + 2) / 153;
    var dom := doy - (153 * mp + 2) / 5 + 1;
    var m := if mp < 10 then mp + 3 else mp - 9;
    var y := yoe + era * 400;
    Date(if m <= 2 then y + 1 else y, m, dom)
  }

  /**
   * The civil date of a day ordinal (days since 1970-01-01), by the
   * era-based conversion: a 400-year era has 146097 days.
   */
  function CivilFromDays(days: int): (d: Date)
    ensures 1 <= d.month <= 12
    ensures 1 <= d.dayOfMonth <= 31
  {
    var z := days + 719468;
    var era := z / 146097;
    CivilOfEraDoe(era, z - era * 146097)
  }

  /** The civil date of day `doe` of era `era`: the year of the era first, then the day of that year. */
  function CivilOfEraDoe(era: int, doe: int): (d: Date)
    requires 0 <= doe <= 146096
    ensures 1 <= d.month <= 12
    ensures 1 <= d.dayOfMonth <= 31
  {
    YearOfEraBounds(doe);
    var yoe := (doe - doe / 1460 + doe / 36524 - doe / 146096) / 365;
    var doy := doe - (365 * yoe + yoe / 4 - yoe / 100);
    CivilOfEraDay(era, yoe, doy)
  }

  /** The month count since year 0 of a day: year * 12 + (month - 1). */
  function MonthIndex(days: int): int
  {
    var d := CivilFromDays(days);
    d.year * 12 + d.month - 1
  }

  /** date-fns isSameDay: same local calendar day. */
  predicate SameDay(a: Instant, b: Instant)
  {
    a.day == b.day
  }

  /** date-fns isSameMonth: same local year and month. */
  predicate SameMonth(a: Instant, b: Instant)
  {
    var x, y := CivilFromDays(a.day), CivilFromDays(b.day);
    x.year == y.year && x.month == y.month
  }

  /** date-fns isSameYear: same local year. */
  predicate SameYear(a: Instant, b: Instant)
  {
    CivilFromDays(a.day).year == CivilFromDays(b.day).year
  }

  /** Periods nest: the same day lies in the same month, which lies in the same year. */
  lemma PeriodsNest(a: Instant, b: Instant)
    ensures SameDay(a, b) ==> SameMonth(a, b)
    ensures SameMonth(a, b) ==> SameYear(a, b)
  {
  }

  /** Two instants share a month exactly when their month indices agree. */
  lemma SameMonthIffMonthIndex(a: Instant, b: Instant)
    ensures SameMonth(a, b) <==> MonthIndex(a.day) == MonthIndex(b.day)
  {
    var x, y := CivilFromDays(a.day), CivilFromDays(b.day);
    if MonthIndex(a.day) == MonthIndex(b.day) {
      assert (x.year - y.year) * 12 == y.month - x.month;
    }
  }

  /** The day ordinal of day `doy` (counted from 1 March) of year `yoe` of era `era`. */
  function DaysOfEraDay(era: int, yoe: int, doy: int): int
  {
    era * 146097 + 365 * yoe + yoe / 4 - yoe / 100 + doy - 719468
  }

  /** The day ordinal of a civil date: the inverse of the conversion above. */
  function DaysFromCivil(year: int, month: int, dayOfMonth: int): int
    requires 1 <= month <= 12
  {
    var y := if month <= 2 then year - 1 else year;
    var era := y / 400;
    var yoe := y - era * 400;
    var mp := if month > 2 then month - 3 else month + 9;
    DaysOfEraDay(era, yoe, (153 * mp + 2) / 5 + dayOfMonth - 1)
  }

  /** The first day of the month with index `k`, as `new Date(year, month, 1)` gives it. */
  function FirstDayOfMonth(k: int): int
  {
    DaysFromCivil(k / 12, k % 12 + 1, 1)
  }

  /**
   * Year `yoe` of an era has 365 days, numbered 0 to 364 from 1 March, and a
   * 366th, numbered 365, when the February that ends it has a leap day.
   */
  predicate ValidDayOfEra(yoe: int, doy: int)
  {
    0 <= yoe <= 399 &&
    (0 <= doy <= 364 || (doy == 365 && yoe % 4 == 3 && (yoe % 100 != 99 || yoe == 399)))
  }

  /** For a valid day, the century quotient of its day of the era is the century of its year. */
  lemma CenturyOfDay(yoe: int, doy: int, p: int, q: int, b: int, c: int)
    requires ValidDayOfEra(yoe, doy)
    requires 4 * p <= yoe < 4 * p + 4
    requires 100 * q <= yoe < 100 * q + 100
    requires 36524 * b <= 365 * yoe + p - q + doy < 36524 * b + 36524
    requires 146096 * c <= 365 * yoe + p - q + doy < 146096 * c + 146096
    ensures b - c == q
  {
    if q == 0 {
      assert yoe <= 99 && p <= 24;
    } else if q == 1 {
      assert 100 <= yoe <= 199 && 25 <= p <= 49;
    } else if q == 2 {
      assert 200 <= yoe <= 299 && 50 <= p <= 74;
    } else {
      assert q == 3 && 300 <= yoe <= 399 && 75 <= p <= 99;
    }
  }

  /** For a valid day, the 1460-day quotient of its day of the era is the four-year quotient of its year, or one more. */
  lemma CycleOfDay(yoe: int, doy: int, p: int, q: int, a: int)
    requires ValidDayOfEra(yoe, doy)
    requires 4 * p <= yoe < 4 * p + 4
    requires 100 * q <= yoe < 100 * q + 100
    requires 1460 * a <= 365 * yoe + p - q + doy < 1460 * a + 1460
    ensures p <= a <= p + 1
    ensures 0 <= doy - (a - p) <= 364
  {
    assert 0 <= q <= p;
    if doy == 365 {
      assert yoe == 4 * p + 3;
    }
  }

  /** The year-of-era step of the conversion finds the year of a valid day back. */
  lemma YearOfValidDay(yoe: int, doy: int)
    requires ValidDayOfEra(yoe, doy)
    ensures var doe := 365 * yoe + yoe / 4 - yoe / 100 + doy;
            0 <= doe <= 146096 && (doe - doe / 1460 + doe / 36524 - doe / 146096) / 365 == yoe
  {
    var p, q := yoe / 4, yoe / 100;
    var doe := 365 * yoe + p - q + doy;
    var a, b, c := doe / 1460, doe / 36524, doe / 146096;
    CenturyOfDay(yoe, doy, p, q, b, c);
    CycleOfDay(yoe, doy, p, q, a);
    assert 365 * yoe <= doe - a + b - c < 365 * yoe + 365;
  }

  /** The era step of the conversion finds the era and the day of the era back. */
  lemma EraInverse(era: int, doe: int)
    requires 0 <= doe <= 146096
    ensures CivilFromDays(era * 146097 + doe - 719468) == CivilOfEraDoe(era, doe)
  {
    var z := era * 146097 + doe;
    assert z / 146097 == era;
  }

  /** Within an era, the conversion finds the year of the era and the day of the year back from a valid day. */
  lemma YearDayInverse(era: int, yoe: int, doy: int)
    requires ValidDayOfEra(yoe, doy)
    ensures 0 <= 365 * yoe + yoe / 4 - yoe / 100 + doy <= 146096
    ensures CivilOfEraDoe(era, 365 * yoe + yoe / 4 - yoe / 100 + doy) == CivilOfEraDay(era, yoe, doy)
  {
    YearOfValidDay(yoe, doy);
  }

  /** The conversion finds the era, the year of the era and the day of the year back from a valid day. */
  lemma EraDayInverse(era: int, yoe: int, doy: int, x: int)
    requires ValidDayOfEra(yoe, doy)
    requires x == DaysOfEraDay(era, yoe, doy)
    ensures CivilFromDays(x) == CivilOfEraDay(era, yoe, doy)
  {
    var doe := 365 * yoe + yoe / 4 - yoe / 100 + doy;
    YearDayInverse(era, yoe, doy);
    EraInverse(era, doe);
  }

  /** The month counted from March that a day of the year falls in, at a month's first day and the day before it. */
  lemma MonthOfMonthStart(mp: int)
    requires 0 <= mp <= 11
    ensures (5 * ((153 * mp + 2) / 5) + 2) / 153 == mp
    ensures mp > 0 ==> (5 * ((153 * mp + 2) / 5 - 1) + 2) / 153 == mp - 1
  {
    if mp < 6 {
      assert mp == 0 || mp == 1 || mp == 2 || mp == 3 || mp == 4 || mp == 5;
    } else {
      assert mp == 6 || mp == 7 || mp == 8 || mp == 9 || mp == 10 || mp == 11;
    }
  }

  /** The civil date of the first day of month `mp` (counted from March) of a year of an era. */
  lemma CivilOfMonthStart(era: int, yoe: int, mp: int)
    requires 0 <= mp <= 11
    ensures CivilOfEraDay(era, yoe, (153 * mp + 2) / 5) ==
            Date(if mp < 10 then yoe + era * 400 else yoe + era * 400 + 1, if mp < 10 then mp + 3 else mp - 9, 1)
  {
    MonthOfMonthStart(mp);
  }

  /** `DaysFromCivil` names the first day of every month: its civil date is that month's day 1. */
  lemma FirstDayInverse(year: int, month: int)
    requires 1 <= month <= 12
    ensures CivilFromDays(DaysFromCivil(year, month, 1)) == Date(year, month, 1)
  {
    var y := if month <= 2 then year - 1 else year;
    var era := y / 400;
    var yoe := y - era * 400;
    var mp := if month > 2 then month - 3 else month + 9;
    var doy := (153 * mp + 2) / 5;
    EraDayInverse(era, yoe, doy, DaysFromCivil(year, month, 1));
    CivilOfMonthStart(era, yoe, mp);
  }

  /** The day before the first day of month `mp > 0` (counted from March) lies in month `mp - 1` of the same year. */
  lemma CivilBeforeMonthStart(era: int, yoe: int, mp: int)
    requires 1 <= mp <= 11
    ensures var d := CivilOfEraDay(era, yoe, (153 * mp + 2) / 5 - 1);
            d.year == (if mp - 1 < 10 then yoe + era * 400 else yoe + era * 400 + 1) &&
            d.month == (if mp - 1 < 10 then mp + 2 else mp - 10)
  {
    MonthOfMonthStart(mp);
  }

  /** The last day of a year counted from March, the 365th or the 366th, lies in February of the next civil year. */
  lemma CivilOfYearEnd(era: int, yoe: int, doy: int)
    requires doy == 364 || doy == 365
    ensures CivilOfEraDay(era, yoe, doy).year == yoe + era * 400 + 1
    ensures CivilOfEraDay(era, yoe, doy).month == 2
  {
    assert (5 * doy + 2) / 153 == 11;
  }

  /** The number of the last day of year `yoe` of an era, counted from 1 March: 365 when it ends with a leap day. */
  function LastDayOfYear(yoe: int): (r: int)
    ensures r == 364 || r == 365
  {
    if yoe % 4 == 3 && (yoe % 100 != 99 || yoe == 399) then 365 else 364
  }

  /** The day before 1 March of year `yoe > 0` is the last day of year `yoe - 1`. */
  lemma DayBeforeMarch(era: int, yoe: int)
    requires 1 <= yoe <= 399
    ensures ValidDayOfEra(yoe - 1, LastDayOfYear(yoe - 1))
    ensures DaysOfEraDay(era, yoe, 0) - 1 == DaysOfEraDay(era, yoe - 1, LastDayOfYear(yoe - 1))
  {
    var p, q, p1, q1 := yoe / 4, yoe / 100, (yoe - 1) / 4, (yoe - 1) / 100;
    if yoe % 4 == 0 {
      assert p1 == p - 1;
      if yoe % 100 == 0 {
        assert q1 == q - 1 && LastDayOfYear(yoe - 1) == 364;
      } else {
        assert q1 == q && LastDayOfYear(yoe - 1) == 365;
      }
    } else {
      assert yoe % 100 != 0;
      assert p1 == p && q1 == q && LastDayOfYear(yoe - 1) == 364;
    }
  }

  /** The day before the first day of an era is the 366th day of the last year of the era before. */
  lemma DayBeforeEra(era: int)
    ensures DaysOfEraDay(era, 0, 0) - 1 == DaysOfEraDay(era - 1, 399, 365)
  {
  }

  /** The day before the first day of a month other than March lies in the month before, in the same year counted from March. */
  lemma DayBeforeLaterMonth(era: int, yoe: int, mp: int, x: int)
    requires 0 <= yoe <= 399 && 1 <= mp <= 11
    requires x == DaysOfEraDay(era, yoe, (153 * mp + 2) / 5) - 1
    ensures var d := CivilFromDays(x);
            d.year == (if mp - 1 < 10 then yoe + era * 400 else yoe + era * 400 + 1) &&
            d.month == (if mp - 1 < 10 then mp + 2 else mp - 10)
  {
    var doy := (153 * mp + 2) / 5 - 1;
    MonthOfMonthStart(mp);
    EraDayInverse(era, yoe, doy, x);
    CivilBeforeMonthStart(era, yoe, mp);
  }

  /** The day before 1 March lies in February of the same civil year. */
  lemma DayBeforeMarchFirst(era: int, yoe: int, x: int)
    requires 0 <= yoe <= 399
    requires x == DaysOfEraDay(era, yoe, 0) - 1
    ensures var d := CivilFromDays(x);
            d.year == yoe + era * 400 && d.month == 2
  {
    if yoe > 0 {
      DayBeforeMarch(era, yoe);
      EraDayInverse(era, yoe - 1, LastDayOfYear(yoe - 1), x);
      CivilOfYearEnd(era, yoe - 1, LastDayOfYear(yoe - 1));
    } else {
      DayBeforeEra(era);
      EraDayInverse(era - 1, 399, 365, x);
      CivilOfYearEnd(era - 1, 399, 365);
    }
  }

  /** The day before the first day of a month has the civil date of the previous month. */
  lemma DayBeforeFirstDay(year: int, month: int)
    requires 1 <= month <= 12
    ensures var d := CivilFromDays(DaysFromCivil(year, month, 1) - 1);
            d.year * 12 + d.month == year * 12 + month - 1
  {
    var y := if month <= 2 then year - 1 else year;
    var era := y / 400;
    var yoe := y - era * 400;
    var mp := if month > 2 then month - 3 else month + 9;
    var x := DaysFromCivil(year, month, 1) - 1;
    assert x == DaysOfEraDay(era, yoe, (153 * mp + 2) / 5) - 1;
    if mp > 0 {
      DayBeforeLaterMonth(era, yoe, mp, x);
    } else {
      DayBeforeMarchFirst(era, yoe, x);
    }
  }

  /**
   * `FirstDayOfMonth(k)` starts the month with index `k`, and the day before
   * it ends the month with index `k - 1`.
   */
  lemma MonthStartsAtFirstDay(k: int)
    ensures MonthIndex(FirstDayOfMonth(k)) == k
    ensures MonthIndex(FirstDayOfMonth(k) - 1) == k - 1
  {
    var year, month := k / 12, k % 12 + 1;
    assert FirstDayOfMonth(k) == DaysFromCivil(year, month, 1);
    FirstDayInverse(year, month);
    DayBeforeFirstDay(year, month);
    assert year * 12 + month - 1 == k;
  }

  /** Day 19935 is 2024-07-31, the last day of July 2024. */
  lemma July31Of2024()
    ensures CivilFromDays(19935) == Date(2024, 7, 31)
  {
    assert 739403 / 146097 == 5;
    assert 8918 / 1460 == 6 && 8918 / 36524 == 0 && 8918 / 146096 == 0;
    assert 8912 / 365 == 24 && 24 / 4 == 6 && 24 / 100 == 0;
    assert (5 * 152 + 2) / 153 == 4 && (153 * 4 + 2) / 5 == 122;
  }

  /** Day 19950 is 2024-08-15. */
  lemma August15Of2024()
    ensures CivilFromDays(19950) == Date(2024, 8, 15)
  {
    assert 739418 / 146097 == 5;
    assert 8933 / 1460 == 6 && 8933 / 36524 == 0 && 8933 / 146096 == 0;
    assert 8927 / 365 == 24 && 24 / 4 == 6 && 24 / 100 == 0;
    assert (5 * 167 + 2) / 153 == 5 && (153 * 5 + 2) / 5 == 153;
  }

  /** July 2024 (month index 24294) runs from day 19905 to day 19935. */
  lemma July2024Bounds()
    ensures FirstDayOfMonth(24294) == 19905
    ensures FirstDayOfMonth(24295) == 19936
  {
    assert 24294 / 12 == 2024 && 24294 % 12 == 6;
    assert 24295 / 12 == 2024 && 24295 % 12 == 7;
    assert DaysFromCivil(2024, 7, 1) == 19905;
    assert DaysFromCivil(2024, 8, 1) == 19936;
  }
}
