/** Gregorian calendar arithmetic in UTC, as `Date.UTC` counts it, and the month arithmetic on which
    billing periods and the recurrence walk rest. */
module Calendar {
  /** Milliseconds in a day. */
  const DAY: nat := 86400000

  datatype Date = Date(year: int, month: int, day: int)

  predicate Leap(y: int) {
    y % 4 == 0 && (y % 100 != 0 || y % 400 == 0)
  }

  function DaysInMonth(y: int, m: int): (n: int)
    requires 1 <= m <= 12
    ensures 28 <= n <= 31
  {
    if m == 2 then (if Leap(y) then 29 else 28)
    else if m == 4 || m == 6 || m == 9 || m == 11 then 30
    else 31
  }

  /** `Date.UTC` reads the years 0..99 as 1900..1999, so dates before the year 100 are not modelled. */
  predicate Valid(d: Date) {
    100 <= d.year && 1 <= d.month <= 12 && 1 <= d.day <= DaysInMonth(d.year, d.month)
  }

  predicate Before(a: Date, b: Date) {
    a.year < b.year
    || (a.year == b.year && a.month < b.month)
    || (a.year == b.year && a.month == b.month && a.day < b.day)
  }

  // ---- Day numbers ----

  function DaysBeforeYear(y: int): int {
    365 * (y - 1) + (y - 1) / 4 - (y - 1) / 100 + (y - 1) / 400
  }

  /** Days of year y that precede its month m (m counts from 1). */
  function DaysBeforeMonth(y: int, m: int): int
    requires 1 <= m <= 12
  {
    if m == 1 then 0 else DaysBeforeMonth(y, m - 1) + DaysInMonth(y, m - 1)
  }

  const EPOCH: int := 365 * 1969 + 1969 / 4 - 1969 / 100 + 1969 / 400

  /** Whole days from 1970-01-01: what `Date.UTC(y, m - 1, d) / 86400000` yields. */
  function DayNumber(d: Date): int
    requires 1 <= d.month <= 12
  {
    DaysBeforeYear(d.year) + DaysBeforeMonth(d.year, d.month) + d.day - 1 - EPOCH
  }

  /** `new Date(Date.UTC(...)).getUTCDay()`, Sunday being 0. */
  function WeekdayOf(dayNumber: int): int {
    (dayNumber + 4) % 7
  }

  /** The day after `d`, by the three branches of the cursor advance. */
  function NextDay(d: Date): Date
    requires 1 <= d.month <= 12
  {
    if d.day < DaysInMonth(d.year, d.month) then d.(day := d.day + 1)
    else if d.month < 12 then Date(d.year, d.month + 1, 1)
    else Date(d.year + 1, 1, 1)
  }

  /** The months, counted from March, and the days that precede them. */
  lemma MonthTable(y: int, m: int)
    requires 1 <= m <= 12
    ensures DaysBeforeMonth(y, m) == (153 * ((m + 9) % 12) + 2) / 5 + (if m <= 2 then -306 else if Leap(y) then 60 else 59)
    ensures DaysBeforeMonth(y, 12) == 334 + (if Leap(y) then 1 else 0)
  {
    var leap := if Leap(y) then 1 else 0;
    assert DaysBeforeMonth(y, 2) == 31;
    assert DaysBeforeMonth(y, 3) == 59 + leap;
    assert DaysBeforeMonth(y, 4) == 90 + leap;
    assert DaysBeforeMonth(y, 5) == 120 + leap;
    assert DaysBeforeMonth(y, 6) == 151 + leap;
    assert DaysBeforeMonth(y, 7) == 181 + leap;
    assert DaysBeforeMonth(y, 8) == 212 + leap;
    assert DaysBeforeMonth(y, 9) == 243 + leap;
    assert DaysBeforeMonth(y, 10) == 273 + leap;
    assert DaysBeforeMonth(y, 11) == 304 + leap;
  }

  lemma LeapCount(n: int)
    ensures (n + 1) / 4 - (n + 1) / 100 + (n + 1) / 400
         == n / 4 - n / 100 + n / 400 + (if Leap(n + 1) then 1 else 0)
  {
    var y := n + 1;
    assert y / 4 == n / 4 + (if y % 4 == 0 then 1 else 0);
    assert y / 100 == n / 100 + (if y % 100 == 0 then 1 else 0);
    assert y / 400 == n / 400 + (if y % 400 == 0 then 1 else 0);
    assert y % 100 == 0 ==> y % 4 == 0;
    assert y % 400 == 0 ==> y % 100 == 0;
  }

  lemma YearLength(y: int)
    ensures DaysBeforeMonth(y, 12) == 334 + (if Leap(y) then 1 else 0)
    ensures DaysBeforeYear(y + 1) == DaysBeforeYear(y) + DaysBeforeMonth(y, 12) + 31
  {
    MonthTable(y, 12);
    LeapCount(y - 1);
  }

  // ---- The Gregorian calendar, independently ----

  /** Years that begin in March, so that the leap day comes last. */
  function MarchYear(y: int, m: int): int {
    if m <= 2 then y - 1 else y
  }

  /** Days from 1970-01-01 in the proleptic Gregorian calendar: eras of 400 years and 146097 days, the year
      of the era, and months counted from March, of which the k-th begins (153 k + 2) / 5 days into the year. */
  function CivilDays(y: int, m: int, d: int): int {
    var era, yearOfEra := MarchYear(y, m) / 400, MarchYear(y, m) % 400;
    var dayOfYear := (153 * ((m + 9) % 12) + 2) / 5 + d - 1;
    era * 146097 + yearOfEra * 365 + yearOfEra / 4 - yearOfEra / 100 + dayOfYear - 719468
  }

  lemma EraDays(y: int)
    ensures y / 400 * 146097 + y % 400 * 365 + y % 400 / 4 - y % 400 / 100 == 365 * y + y / 4 - y / 100 + y / 400
  {
    var era, left := y / 400, y % 400;
    assert y == 400 * era + left;
    assert y / 4 == 100 * era + left / 4 && y / 100 == 4 * era + left / 100;
  }

  lemma CivilFlat(y: int, m: int, d: int)
    ensures var z := MarchYear(y, m);
            CivilDays(y, m, d) == 365 * z + z / 4 - z / 100 + z / 400 + (153 * ((m + 9) % 12) + 2) / 5 + d - 719469
  {
    EraDays(MarchYear(y, m));
  }

  /** The day number of the walk and of the UTC dates is the civil one. */
  lemma DayNumberIsCivil(d: Date)
    requires 1 <= d.month <= 12
    ensures DayNumber(d) == CivilDays(d.year, d.month, d.day)
  {
    hide CivilDays, DaysBeforeMonth, Leap;
    MonthTable(d.year, d.month);
    CivilFlat(d.year, d.month, d.day);
    LeapCount(d.year - 1);
  }

  /** So a month is as long as the distance between its first day and the first of the next. */
  lemma MonthLengthIsCivil(y: int, m: int)
    requires 1 <= m <= 12
    ensures DaysInMonth(y, m) == (if m < 12 then CivilDays(y, m + 1, 1) else CivilDays(y + 1, 1, 1)) - CivilDays(y, m, 1)
  {
    DayNumberIsCivil(Date(y, m, 1));
    if m < 12 {
      DayNumberIsCivil(Date(y, m + 1, 1));
    } else {
      DayNumberIsCivil(Date(y + 1, 1, 1));
      YearLength(y);
    }
  }

  /** The weekday is the one of Zeller's congruence, Sunday being 0. */
  lemma WeekdayIsCivil(d: Date)
    requires 1 <= d.month <= 12
    ensures var y := MarchYear(d.year, d.month);
            WeekdayOf(DayNumber(d)) == (y + y / 4 - y / 100 + y / 400 + (13 * ((d.month + 9) % 12) + 2) / 5 + d.day + 2) % 7
  {
    hide DayNumber, CivilDays, MarchYear;
    var y, k := MarchYear(d.year, d.month), (d.month + 9) % 12;
    DayNumberIsCivil(d);
    CivilFlat(d.year, d.month, d.day);
    MonthsModWeek(k);
    WholeWeeks(y + y / 4 - y / 100 + y / 400 + (13 * k + 2) / 5 + d.day + 2, 52 * y + 4 * k - 102781);
  }

  lemma MonthsModWeek(k: int)
    ensures (153 * k + 2) / 5 == 28 * k + (13 * k + 2) / 5
  {
  }

  lemma WholeWeeks(z: int, weeks: int)
    ensures (z + 7 * weeks) % 7 == z % 7
  {
  }

  /** The walk visits every civil day once: the day after is valid, later, and one day further on. */
  lemma NextDayIsNext(d: Date)
    requires Valid(d)
    ensures Valid(NextDay(d))
    ensures Before(d, NextDay(d))
    ensures DayNumber(NextDay(d)) == DayNumber(d) + 1
  {
    if d.day < DaysInMonth(d.year, d.month) {
    } else if d.month < 12 {
      assert DaysBeforeMonth(d.year, d.month + 1) == DaysBeforeMonth(d.year, d.month) + DaysInMonth(d.year, d.month);
    } else {
      YearLength(d.year);
    }
  }

  lemma {:induction false} MonthsGrow(y: int, m: int, n: int)
    requires 1 <= m < n <= 12
    ensures DaysBeforeMonth(y, m) + DaysInMonth(y, m) <= DaysBeforeMonth(y, n)
    decreases n
  {
    if m < n - 1 { MonthsGrow(y, m, n - 1); }
  }

  lemma {:induction false} YearsGrow(y: int, z: int)
    requires y < z
    ensures DaysBeforeYear(y) + DaysBeforeMonth(y, 12) + 31 <= DaysBeforeYear(z)
    decreases z - y
  {
    YearLength(y);
    if y + 1 < z {
      YearsGrow(y + 1, z);
      YearLength(y + 1);
    }
  }

  /** Day numbers order valid dates exactly as the calendar does; in particular they are injective. */
  lemma DayNumberOrders(a: Date, b: Date)
    requires Valid(a) && Valid(b)
    ensures DayNumber(a) < DayNumber(b) <==> Before(a, b)
    ensures DayNumber(a) == DayNumber(b) <==> a == b
  {
    if Before(a, b) {
      DayNumberGrows(a, b);
    } else if Before(b, a) {
      DayNumberGrows(b, a);
    } else {
      assert a == b;
    }
  }

  lemma DayNumberGrows(a: Date, b: Date)
    requires Valid(a) && Valid(b) && Before(a, b)
    ensures DayNumber(a) < DayNumber(b)
  {
    if a.year < b.year {
      YearsGrow(a.year, b.year);
      if a.month < 12 { MonthsGrow(a.year, a.month, 12); }
      if 1 < b.month { MonthsGrow(b.year, 1, b.month); }
    } else if a.month < b.month {
      MonthsGrow(a.year, a.month, b.month);
    }
  }

  /** The civil date n days after `d`. */
  function DatePlus(d: Date, n: nat): (r: Date)
    requires Valid(d)
    ensures Valid(r)
  {
    if n == 0 then d
    else
      NextDayIsNext(DatePlus(d, n - 1));
      NextDay(DatePlus(d, n - 1))
  }

  lemma {:induction false} DatePlusCounts(d: Date, n: nat)
    requires Valid(d)
    ensures DayNumber(DatePlus(d, n)) == DayNumber(d) + n
  {
    if n > 0 {
      DatePlusCounts(d, n - 1);
      NextDayIsNext(DatePlus(d, n - 1));
    }
  }

  /** Walking from `d` reaches every later valid date, at exactly one step count. */
  lemma WalkReachesEveryDay(d: Date, e: Date, n: nat)
    requires Valid(d) && Valid(e)
    ensures DatePlus(d, n) == e <==> DayNumber(e) == DayNumber(d) + n
  {
    DatePlusCounts(d, n);
    DayNumberOrders(DatePlus(d, n), e);
  }

  const UNIX_EPOCH: Date := Date(1970, 1, 1)

  /** `toISOString().slice(0, 10)` of the instant `days` days after the epoch. */
  function DateOfDay(days: nat): (d: Date)
    ensures Valid(d)
  {
    DatePlus(UNIX_EPOCH, days)
  }

  lemma DateOfDayInverts(days: nat)
    ensures DayNumber(DateOfDay(days)) == days
  {
    DatePlusCounts(UNIX_EPOCH, days);
    assert DayNumber(UNIX_EPOCH) == 0;
  }

  /** The date of an instant's day, and the year it falls in, by the civil calendar. */
  lemma DateOfDayIsCivil(days: nat)
    ensures var d := DateOfDay(days);
            && CivilDays(d.year, d.month, d.day) == days
            && CivilDays(d.year, 1, 1) <= days < CivilDays(d.year + 1, 1, 1)
  {
    hide CivilDays;
    var d := DateOfDay(days);
    DateOfDayInverts(days);
    DayNumberIsCivil(d);
    DayNumberIsCivil(Date(d.year, 1, 1));
    DayNumberIsCivil(Date(d.year + 1, 1, 1));
    DayNumberOrders(Date(d.year, 1, 1), d);
    DayNumberOrders(d, Date(d.year + 1, 1, 1));
  }

  lemma DateOfDayMonotone(a: nat, b: nat)
    ensures Before(DateOfDay(a), DateOfDay(b)) <==> a < b
  {
    DateOfDayInverts(a);
    DateOfDayInverts(b);
    DayNumberOrders(DateOfDay(a), DateOfDay(b));
  }

  // ---- Month arithmetic ----

  function MonthIndex(d: Date): int {
    12 * d.year + d.month - 1
  }

  function Min(a: int, b: int): int { if a < b then a else b }

  /** `addMonthsUTC`: move to the target month, then clamp the day to its last day. */
  function AddMonths(d: Date, months: int): Date {
    var total := 12 * d.year + (d.month - 1) + months;
    var year := total / 12;
    var month := total % 12 + 1;
    Date(year, month, Min(d.day, DaysInMonth(year, month)))
  }

  /** The day before the first of the next month is the last day of the month: what
      `new Date(Date.UTC(year, month, 0)).getUTCDate()` relies on. */
  lemma LastDayPrecedesNextMonth(y: int, m: int)
    requires 100 <= y && 1 <= m <= 12
    ensures NextDay(Date(y, m, DaysInMonth(y, m))) == FirstOfNext(y, m)
    ensures DayNumber(Date(y, m, DaysInMonth(y, m))) + 1 == DayNumber(FirstOfNext(y, m))
    ensures CivilDays(y, m, DaysInMonth(y, m)) + 1 == CivilDays(FirstOfNext(y, m).year, FirstOfNext(y, m).month, 1)
  {
    hide CivilDays, DayNumber;
    NextDayIsNext(Date(y, m, DaysInMonth(y, m)));
    DayNumberIsCivil(Date(y, m, DaysInMonth(y, m)));
    DayNumberIsCivil(FirstOfNext(y, m));
  }

  function FirstOfNext(y: int, m: int): Date {
    Date((12 * y + m) / 12, (12 * y + m) % 12 + 1, 1)
  }

  /** Month arithmetic is closed on valid dates, exact on the month index, never raises the day and
      keeps a day that started at 28 or more at 28 or more. */
  lemma AddMonthsExact(d: Date, months: nat)
    requires Valid(d)
    ensures Valid(AddMonths(d, months))
    ensures MonthIndex(AddMonths(d, months)) == MonthIndex(d) + months
    ensures AddMonths(d, months).day <= d.day
    ensures d.day <= 28 ==> AddMonths(d, months).day == d.day
    ensures 28 <= d.day ==> 28 <= AddMonths(d, months).day
    ensures AddMonths(d, months).day == d.day || (AddMonths(d, months).day < d.day && NextDay(AddMonths(d, months)).day == 1)
    ensures months > 0 ==> Before(d, AddMonths(d, months))
    ensures months == 0 ==> AddMonths(d, months) == d
  {
    var total := MonthIndex(d) + months;
    assert total == 12 * (total / 12) + total % 12;
  }

  /** The k-th boundary of the billing chain that starts at `start` and moves `months` at a time. */
  function Boundary(start: Date, months: nat, k: nat): (b: Date)
    requires Valid(start)
    ensures Valid(b)
  {
    if k == 0 then start
    else
      AddMonthsExact(Boundary(start, months, k - 1), months);
      AddMonths(Boundary(start, months, k - 1), months)
  }

  lemma {:induction false} BoundaryMonthIndex(start: Date, months: nat, k: nat)
    requires Valid(start)
    ensures MonthIndex(Boundary(start, months, k)) == MonthIndex(start) + months * k
    ensures Boundary(start, months, k).day <= start.day
    ensures 28 <= start.day ==> 28 <= Boundary(start, months, k).day
    ensures start.day <= 28 ==> Boundary(start, months, k).day == start.day
  {
    if k > 0 {
      BoundaryMonthIndex(start, months, k - 1);
      AddMonthsExact(Boundary(start, months, k - 1), months);
      assert months * k == months * (k - 1) + months;
    }
  }

  lemma BoundaryIncreases(start: Date, months: nat, i: nat, j: nat)
    requires Valid(start) && months > 0 && i < j
    ensures Before(Boundary(start, months, i), Boundary(start, months, j))
  {
    BoundaryMonthIndex(start, months, i);
    BoundaryMonthIndex(start, months, j);
    assert months * j == months * i + months * (j - i) && months * (j - i) > 0;
  }

  lemma BoundaryInjective(start: Date, months: nat, i: nat, j: nat)
    requires Valid(start) && months > 0
    ensures Boundary(start, months, i) == Boundary(start, months, j) <==> i == j
    ensures Before(Boundary(start, months, i), Boundary(start, months, j)) <==> i < j
  {
    if i < j { BoundaryIncreases(start, months, i, j); }
    else if j < i { BoundaryIncreases(start, months, j, i); }
  }

  // ---- The printed form ----

  const DIGITS: string := "0123456789"

  function Digit(n: nat): char
    requires n < 10
  {
    DIGITS[n]
  }

  function Pad2(n: nat): string
    requires n < 100
  {
    [Digit(n / 10), Digit(n % 10)]
  }

  /** `YYYY-MM-DD`; the year is printed as it is, so it must have four digits. */
  function Iso(d: Date): string
    requires Valid(d) && 1000 <= d.year <= 9999
  {
    Pad2(d.year / 100) + Pad2(d.year % 100) + "-" + Pad2(d.month) + "-" + Pad2(d.day)
  }

  /** JavaScript's `<` on strings. */
  predicate StringLess(a: string, b: string) {
    b != [] && (a == [] || a[0] < b[0] || (a[0] == b[0] && StringLess(a[1..], b[1..])))
  }

  lemma DigitOrder(m: nat, n: nat)
    requires m < 10 && n < 10
    ensures Digit(m) < Digit(n) <==> m < n
    ensures Digit(m) == Digit(n) <==> m == n
  {
  }

  lemma Pad2Order(m: nat, n: nat, s: string, t: string)
    requires m < 100 && n < 100
    ensures StringLess(Pad2(m) + s, Pad2(n) + t) <==> m < n || (m == n && StringLess(s, t))
  {
    DigitOrder(m / 10, n / 10);
    DigitOrder(m % 10, n % 10);
    var a, b := Pad2(m) + s, Pad2(n) + t;
    assert a[1..] == [Digit(m % 10)] + s && b[1..] == [Digit(n % 10)] + t;
    assert a[1..][1..] == s && b[1..][1..] == t;
  }

  lemma SameHeadOrder(c: char, s: string, t: string)
    ensures StringLess([c] + s, [c] + t) <==> StringLess(s, t)
  {
    assert ([c] + s)[1..] == s && ([c] + t)[1..] == t;
  }

  /** Comparing the printed dates as strings, as the billing code does, compares the dates. */
  lemma IsoOrder(a: Date, b: Date)
    requires Valid(a) && Valid(b) && 1000 <= a.year <= 9999 && 1000 <= b.year <= 9999
    ensures StringLess(Iso(a), Iso(b)) <==> Before(a, b)
  {
    var dayA, dayB := Pad2(a.day), Pad2(b.day);
    assert dayA == dayA + "" && dayB == dayB + "";
    var monA, monB := Pad2(a.month) + (['-'] + dayA), Pad2(b.month) + (['-'] + dayB);
    var lowA, lowB := Pad2(a.year % 100) + (['-'] + monA), Pad2(b.year % 100) + (['-'] + monB);
    assert Iso(a) == Pad2(a.year / 100) + lowA && Iso(b) == Pad2(b.year / 100) + lowB;
    Pad2Order(a.day, b.day, "", "");
    SameHeadOrder('-', dayA, dayB);
    Pad2Order(a.month, b.month, ['-'] + dayA, ['-'] + dayB);
    SameHeadOrder('-', monA, monB);
    Pad2Order(a.year % 100, b.year % 100, ['-'] + monA, ['-'] + monB);
    Pad2Order(a.year / 100, b.year / 100, lowA, lowB);
  }
}
