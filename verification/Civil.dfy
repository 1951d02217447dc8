/**
  Calendar arithmetic of the loyalty rules, on whole days.

  A day number counts days from 1 January 1970 in the proleptic Gregorian calendar. MakeDay is the
  abstract operation of section 21.4.1 of ECMA-262, and FirstDayFormula proves that FirstDay is its
  DayFromYear; the limited range of a Date value is not modelled.
 */
module Civil {
  import opened Options

  // Months are numbered from 1.
  datatype Date = Date(year: int, month: int, day: int)

  const WEEK_RADIUS := 3

  predicate Leap(year: int) {
    year % 4 == 0 && (year % 100 != 0 || year % 400 == 0)
  }

  function DaysInMonth(year: int, month: int): int
    requires 1 <= month <= 12
  {
    if month == 2 then (if Leap(year) then 29 else 28)
    else if month == 4 || month == 6 || month == 9 || month == 11 then 30
    else 31
  }

  predicate Valid(d: Date) {
    1 <= d.month <= 12 && 1 <= d.day <= DaysInMonth(d.year, d.month)
  }

  function DaysInYear(year: int): int {
    if Leap(year) then 366 else 365
  }

  // The day number of 1 January.
  function FirstDay(year: int): int
    decreases if year < 1970 then 1970 - year else year - 1970
  {
    if year == 1970 then 0
    else if year > 1970 then FirstDay(year - 1) + DaysInYear(year - 1)
    else FirstDay(year + 1) - DaysInYear(year)
  }

  // Days of the year before the first of the month.
  function DaysBefore(year: int, month: int): int
    requires 1 <= month <= 13
  {
    if month == 1 then 0 else DaysBefore(year, month - 1) + DaysInMonth(year, month - 1)
  }

  // A month outside 1..12 or a day outside the month carries over.
  function MakeDay(year: int, month: int, day: int): int {
    if 1 <= month <= 12 then FirstDay(year) + DaysBefore(year, month) + day - 1
    else
      var y, m := year + (month - 1) / 12, (month - 1) % 12 + 1;
      FirstDay(y) + DaysBefore(y, m) + day - 1
  }

  function ToDay(d: Date): int {
    MakeDay(d.year, d.month, d.day)
  }

  /* ----- reading the fields of a day number back ----- */

  lemma YearLength(year: int)
    ensures FirstDay(year + 1) == FirstDay(year) + DaysInYear(year)
  {
  }

  lemma Quotient(n: int, k: int)
    requires k == 4 || k == 100 || k == 400
    ensures (n + 1) / k == n / k + (if (n + 1) % k == 0 then 1 else 0)
  {
  }

  function DayFromYear(year: int): int {
    365 * (year - 1970) + (year - 1969) / 4 - (year - 1901) / 100 + (year - 1601) / 400
  }

  lemma FormulaStep(year: int)
    ensures DayFromYear(year + 1) == DayFromYear(year) + DaysInYear(year)
  {
    Quotient(year - 1969, 4);
    Quotient(year - 1901, 100);
    Quotient(year - 1601, 400);
    LeapRule(year);
  }

  lemma LeapRule(year: int)
    ensures (year - 1968) % 4 == 0 <==> year % 4 == 0
    ensures (year - 1900) % 100 == 0 <==> year % 100 == 0
    ensures (year - 1600) % 400 == 0 <==> year % 400 == 0
    ensures year % 400 == 0 ==> year % 100 == 0
    ensures year % 100 == 0 ==> year % 4 == 0
  {
    Fours(year);
    Centuries(year);
    FourCenturies(year);
  }

  lemma Fours(year: int)
    ensures (year - 1968) % 4 == 0 <==> year % 4 == 0
    ensures year % 100 == 0 ==> year % 4 == 0
  {
    assert year == 100 * (year / 100) + year % 100;
  }

  lemma Centuries(year: int)
    ensures (year - 1900) % 100 == 0 <==> year % 100 == 0
    ensures year % 400 == 0 ==> year % 100 == 0
  {
    assert year == 400 * (year / 400) + year % 400;
  }

  lemma FourCenturies(year: int)
    ensures (year - 1600) % 400 == 0 <==> year % 400 == 0
  {
  }

  // Adding up year lengths gives the closed form of ECMA-262.
  lemma {:induction false} FirstDayFormula(year: int)
    ensures FirstDay(year) == DayFromYear(year)
    decreases if year < 1970 then 1970 - year else year - 1970
  {
    if year > 1970 {
      FirstDayFormula(year - 1);
      FormulaStep(year - 1);
    } else if year < 1970 {
      FirstDayFormula(year + 1);
      FormulaStep(year);
    }
  }

  lemma {:induction false} YearsApart(low: int, high: int)
    requires low <= high
    ensures 365 * (high - low) <= FirstDay(high) - FirstDay(low) <= 366 * (high - low)
    decreases high - low
  {
    if low < high {
      YearsApart(low, high - 1);
      YearLength(high - 1);
    }
  }

  function YearNear(n: int, year: int): (y: int)
    ensures FirstDay(y) <= n < FirstDay(y + 1)
    decreases if n < FirstDay(year) then FirstDay(year) - n
              else if n >= FirstDay(year + 1) then n - FirstDay(year) else 0
  {
    YearLength(year);
    YearLength(year - 1);
    YearLength(year + 1);
    if n < FirstDay(year) then YearNear(n, year - 1)
    else if n >= FirstDay(year + 1) then YearNear(n, year + 1)
    else year
  }

  function YearOf(n: int): int {
    YearNear(n, 1970)
  }

  function MonthFrom(year: int, dayOfYear: int, month: int): (m: int)
    requires 1 <= month <= 12
    requires DaysBefore(year, month) <= dayOfYear < DaysBefore(year, 13)
    ensures month <= m <= 12
    ensures DaysBefore(year, m) <= dayOfYear < DaysBefore(year, m + 1)
    decreases 12 - month
  {
    if dayOfYear < DaysBefore(year, month + 1) then month else MonthFrom(year, dayOfYear, month + 1)
  }

  lemma DaysOfYear(year: int)
    ensures DaysBefore(year, 13) == (if Leap(year) then 366 else 365)
  {
    assert DaysBefore(year, 2) == 31;
    assert DaysBefore(year, 4) == 62 + DaysInMonth(year, 2);
    assert DaysBefore(year, 6) == DaysBefore(year, 4) + 61;
    assert DaysBefore(year, 8) == DaysBefore(year, 6) + 61;
    assert DaysBefore(year, 10) == DaysBefore(year, 8) + 61;
    assert DaysBefore(year, 12) == DaysBefore(year, 10) + 61;
  }

  // The UTC fields of a day number.
  function FromDay(n: int): (d: Date)
    ensures Valid(d) && d.year == YearOf(n)
  {
    var year := YearOf(n);
    YearLength(year);
    DaysOfYear(year);
    var month := MonthFrom(year, n - FirstDay(year), 1);
    Date(year, month, n - FirstDay(year) - DaysBefore(year, month) + 1)
  }

  lemma {:induction false} MonthsApart(year: int, low: int, high: int)
    requires 1 <= low <= high <= 13
    ensures DaysBefore(year, high) - DaysBefore(year, low) >= 28 * (high - low)
    decreases high - low
  {
    if low < high { MonthsApart(year, low, high - 1); }
  }

  // Every day number is exactly one real Gregorian date.
  lemma FieldsOfDay(n: int)
    ensures ToDay(FromDay(n)) == n
  {
  }

  lemma DayOfFields(d: Date)
    requires Valid(d)
    ensures FromDay(ToDay(d)) == d
  {
    FieldsOfDay(ToDay(d));
    OneDate(d, FromDay(ToDay(d)));
  }

  lemma OneDate(d: Date, e: Date)
    requires Valid(d) && Valid(e) && ToDay(d) == ToDay(e)
    ensures d == e
  {
    InYear(d);
    InYear(e);
    if d.year < e.year { YearsApart(d.year + 1, e.year); }
    if e.year < d.year { YearsApart(e.year + 1, d.year); }
    assert d.year == e.year;
    if d.month < e.month { MonthsApart(d.year, d.month + 1, e.month); }
    if e.month < d.month { MonthsApart(d.year, e.month + 1, d.month); }
  }

  lemma InYear(d: Date)
    requires Valid(d)
    ensures FirstDay(d.year) <= ToDay(d) < FirstDay(d.year + 1)
  {
    MonthsApart(d.year, 1, d.month);
    MonthsApart(d.year, d.month + 1, 13);
    YearLength(d.year);
    DaysOfYear(d.year);
  }

  /* ----- dates read from messages ----- */

  // Date.UTC: the two-digit years 0..99 mean 1900..1999.
  function DateUtc(year: int, month: int, day: int): int {
    MakeDay(if 0 <= year <= 99 then 1900 + year else year, month, day)
  }

  function ToUtcLocalDate(n: int): int {
    var d := FromDay(n);
    DateUtc(d.year, d.month, d.day)
  }

  predicate TwoDigitYear(n: int) {
    0 <= YearOf(n) <= 99
  }

  predicate Digit(c: char) {
    '0' <= c <= '9'
  }

  // Four digits, two digits and two digits joined by hyphens.
  predicate DateOnly(s: string) {
    |s| == 10 && s[4] == '-' && s[7] == '-' && AllDigits(s[..4]) && AllDigits(s[5..7]) && AllDigits(s[8..])
  }

  predicate AllDigits(s: string) {
    forall i | 0 <= i < |s| :: Digit(s[i])
  }

  function Number(s: string): nat
    requires AllDigits(s)
  {
    if s == "" then 0 else 10 * Number(s[..|s| - 1]) + (s[|s| - 1] as int - '0' as int)
  }

  function Written(s: string): Date
    requires DateOnly(s)
  {
    Date(Number(s[..4]), Number(s[5..7]), Number(s[8..]))
  }

  // The day a trimmed text names; `platform` is the day Date itself reads from any other format.
  function ParseUtcLocalDate(trimmed: string, platform: Option<int>): Option<int> {
    if DateOnly(trimmed) then
      var d := Written(trimmed);
      var n := DateUtc(d.year, d.month, d.day);
      if FromDay(n) != d then None else Some(n)
    else if platform.None? then None
    else Some(ToUtcLocalDate(platform.value))
  }

  // A date-only text is accepted exactly when it is a real date of the year 100 or later, and then
  // keeps its fields.
  lemma DateOnlyAccepted(s: string, platform: Option<int>)
    requires DateOnly(s)
    ensures ParseUtcLocalDate(s, platform).Some? <==> Valid(Written(s)) && Written(s).year >= 100
    ensures ParseUtcLocalDate(s, platform).Some? ==> FromDay(ParseUtcLocalDate(s, platform).value) == Written(s)
  {
    KeptFields(Written(s));
  }

  lemma KeptFields(d: Date)
    ensures FromDay(DateUtc(d.year, d.month, d.day)) == d <==> Valid(d) && !(0 <= d.year <= 99)
  {
    if Valid(d) {
      NormalisedDate(d);
      DayOfFields(d);
      FieldsOfDay(DateUtc(d.year, d.month, d.day));
    }
  }

  lemma DaysBeforeDiffer(a: int, b: int, month: int)
    requires 1 <= month <= 13
    ensures DaysBefore(a, month) - 1 <= DaysBefore(b, month) <= DaysBefore(a, month) + 1
  {
    assert DaysBefore(a, 2) == DaysBefore(b, 2) == 31;
    assert DaysBefore(a, 3) == 31 + DaysInMonth(a, 2) && DaysBefore(b, 3) == 31 + DaysInMonth(b, 2);
    if month > 3 { DaysBeforeFromMarch(a, b, month); }
  }

  lemma LaterYear(low: int, high: int, month: int, day: int)
    requires low < high && 1 <= month <= 12
    ensures MakeDay(low, month, day) < MakeDay(high, month, day)
  {
    YearsApart(low, high);
    DaysBeforeDiffer(low, high, month);
  }

  lemma {:induction false} DaysBeforeFromMarch(a: int, b: int, month: int)
    requires 3 <= month <= 13
    ensures DaysBefore(a, month) - DaysBefore(a, 3) == DaysBefore(b, month) - DaysBefore(b, 3)
  {
    if month > 3 { DaysBeforeFromMarch(a, b, month - 1); }
  }

  // Any other format is moved 1900 years when it names one of the years 0..99, and only then.
  lemma NormalisedDay(n: int)
    ensures ToUtcLocalDate(n) == n <==> !TwoDigitYear(n)
  {
    FieldsOfDay(n);
    NormalisedDate(FromDay(n));
  }

  lemma NormalisedDate(d: Date)
    requires Valid(d)
    ensures DateUtc(d.year, d.month, d.day) == ToDay(d) <==> !(0 <= d.year <= 99)
  {
    if 0 <= d.year <= 99 { LaterYear(d.year, 1900 + d.year, d.month, d.day); }
  }

  /* ----- month keys ----- */

  function Digits(n: nat, width: nat): (s: string)
    ensures |s| == width && AllDigits(s)
  {
    if width == 0 then "" else Digits(n / 10, width - 1) + [('0' as int + n % 10) as char]
  }

  // toISOString cut to the day, for the years it writes with four digits.
  function IsoDate(d: Date): string
    requires Valid(d) && 0 <= d.year <= 9999
  {
    Digits(d.year, 4) + "-" + Digits(d.month, 2) + "-" + Digits(d.day, 2)
  }

  function MonthKey(d: Date): string
    requires Valid(d) && 0 <= d.year <= 9999
  {
    IsoDate(d)[..7]
  }

  function MonthIndex(d: Date): int {
    12 * d.year + d.month - 1
  }

  predicate StringLess(s: string, t: string)
    requires |s| == |t|
  {
    exists i | 0 <= i < |s| :: s[..i] == t[..i] && s[i] < t[i]
  }

  function Power10(n: nat): nat {
    if n == 0 then 1 else 10 * Power10(n - 1)
  }

  lemma {:induction false} NumberOfDigits(n: nat, width: nat)
    requires n < Power10(width)
    ensures Number(Digits(n, width)) == n
  {
    if width > 0 {
      NumberOfDigits(n / 10, width - 1);
      assert Digits(n, width)[..width - 1] == Digits(n / 10, width - 1);
    }
  }

  // Writing a date and reading it back gives the same day.
  lemma WrittenDateRoundTrip(d: Date, platform: Option<int>)
    requires Valid(d) && 100 <= d.year <= 9999
    ensures ParseUtcLocalDate(IsoDate(d), platform) == Some(ToDay(d))
  {
    WrittenIsoDate(d);
    DayOfFields(d);
  }

  lemma Powers()
    ensures Power10(2) == 100 && Power10(4) == 10000
  {
    assert Power10(0) == 1 && Power10(1) == 10;
    assert Power10(3) == 1000;
  }

  lemma IsoParts(d: Date)
    requires Valid(d) && 0 <= d.year <= 9999
    ensures var s := IsoDate(d);
      |s| == 10 && s[4] == '-' && s[7] == '-' &&
      s[..4] == Digits(d.year, 4) && s[5..7] == Digits(d.month, 2) && s[8..] == Digits(d.day, 2)
  {
  }

  lemma WrittenIsoDate(d: Date)
    requires Valid(d) && 0 <= d.year <= 9999
    ensures DateOnly(IsoDate(d)) && Written(IsoDate(d)) == d
  {
    Powers();
    IsoParts(d);
    NumberOfDigits(d.year, 4);
    NumberOfDigits(d.month, 2);
    NumberOfDigits(d.day, 2);
  }

  lemma LessLetters(a: char, b: char)
    ensures StringLess([a], [b]) <==> a < b
  {
    if a < b { assert [a][..0] == [b][..0]; }
  }

  lemma LessByPrefix(s: string, t: string, u: string, v: string)
    requires |s| == |t| && |u| == |v| && StringLess(s, t)
    ensures StringLess(s + u, t + v)
  {
    var i :| 0 <= i < |s| && s[..i] == t[..i] && s[i] < t[i];
    assert (s + u)[..i] == (t + v)[..i] && (s + u)[i] < (t + v)[i];
  }

  lemma LessBySuffix(s: string, u: string, v: string)
    requires |u| == |v| && StringLess(u, v)
    ensures StringLess(s + u, s + v)
  {
    var i :| 0 <= i < |u| && u[..i] == v[..i] && u[i] < v[i];
    assert (s + u)[..|s| + i] == s + u[..i] && (s + v)[..|s| + i] == s + v[..i];
    assert (s + u)[|s| + i] < (s + v)[|s| + i];
  }

  lemma LessSplit(s: string, t: string, u: string, v: string)
    requires |s| == |t| && |u| == |v| && StringLess(s + u, t + v)
    ensures StringLess(s, t) || (s == t && StringLess(u, v))
  {
    var x, y := s + u, t + v;
    var i :| 0 <= i < |x| && x[..i] == y[..i] && x[i] < y[i];
    if i < |s| {
      assert s[..i] == x[..i] && t[..i] == y[..i];
      assert s[i] == x[i] && t[i] == y[i];
    } else {
      var k := i - |s|;
      assert x[..i] == s + u[..k] && y[..i] == t + v[..k];
      assert s == x[..i][..|s|] && t == y[..i][..|s|];
      assert u[..k] == x[..i][|s|..] && v[..k] == y[..i][|s|..];
    }
  }

  lemma LessJoined(s: string, t: string, u: string, v: string)
    requires |s| == |t| && |u| == |v|
    ensures StringLess(s + u, t + v) <==> StringLess(s, t) || (s == t && StringLess(u, v))
  {
    if StringLess(s, t) { LessByPrefix(s, t, u, v); }
    else if s == t && StringLess(u, v) { LessBySuffix(s, u, v); }
    if StringLess(s + u, t + v) { LessSplit(s, t, u, v); }
  }

  lemma {:induction false} DigitsOrder(m: nat, n: nat, width: nat)
    requires m < Power10(width) && n < Power10(width)
    ensures StringLess(Digits(m, width), Digits(n, width)) <==> m < n
    ensures Digits(m, width) == Digits(n, width) <==> m == n
  {
    NumberOfDigits(m, width);
    NumberOfDigits(n, width);
    if width > 0 {
      DigitsOrder(m / 10, n / 10, width - 1);
      var a, b := ('0' as int + m % 10) as char, ('0' as int + n % 10) as char;
      LessLetters(a, b);
      LessJoined(Digits(m / 10, width - 1), Digits(n / 10, width - 1), [a], [b]);
    }
  }

  // Comparing month keys as text compares the months themselves.
  lemma MonthKeyOrder(d: Date, e: Date)
    requires Valid(d) && 0 <= d.year <= 9999 && Valid(e) && 0 <= e.year <= 9999
    ensures StringLess(MonthKey(d), MonthKey(e)) <==> MonthIndex(d) < MonthIndex(e)
    ensures MonthKey(d) == MonthKey(e) <==> MonthIndex(d) == MonthIndex(e)
  {
    var y, z := Digits(d.year, 4), Digits(e.year, 4);
    var m, n := Digits(d.month, 2), Digits(e.month, 2);
    assert MonthKey(d) == y + ("-" + m) && MonthKey(e) == z + ("-" + n);
    assert y == MonthKey(d)[..4] && m == MonthKey(d)[5..];
    assert z == MonthKey(e)[..4] && n == MonthKey(e)[5..];
    LessJoined(y, z, "-" + m, "-" + n);
    LessJoined("-", "-", m, n);
    YearAndMonthOrder(d, e);
  }

  lemma YearAndMonthOrder(d: Date, e: Date)
    requires Valid(d) && 0 <= d.year <= 9999 && Valid(e) && 0 <= e.year <= 9999
    ensures StringLess(Digits(d.year, 4), Digits(e.year, 4)) <==> d.year < e.year
    ensures StringLess(Digits(d.month, 2), Digits(e.month, 2)) <==> d.month < e.month
    ensures Digits(d.year, 4) == Digits(e.year, 4) <==> d.year == e.year
    ensures Digits(d.month, 2) == Digits(e.month, 2) <==> d.month == e.month
  {
    Powers();
    DigitsOrder(d.year, e.year, 4);
    DigitsOrder(d.month, e.month, 2);
  }

  /* ----- birthdays ----- */

  // The candidate setUTCFullYear builds: the birthday's month and day in another year.
  function Candidate(birthday: int, year: int): int {
    var b := FromDay(ToUtcLocalDate(birthday));
    MakeDay(year, b.month, b.day)
  }

  predicate WithinWeek(m: int, n: int) {
    (if m < n then n - m else m - n) <= WEEK_RADIUS
  }

  predicate BirthdayWeek(today: int, birthday: int) {
    var t := ToUtcLocalDate(today);
    exists year | YearOf(t) - 1 <= year <= YearOf(t) + 1 :: WithinWeek(t, Candidate(birthday, year))
  }

  // The day a birthday falls on in a year: 29 February is kept on 1 March of a common year.
  function Occurrence(birthday: Date, year: int): int
    requires Valid(birthday)
  {
    if birthday.month == 2 && birthday.day == 29 && !Leap(year) then ToDay(Date(year, 3, 1))
    else ToDay(Date(year, birthday.month, birthday.day))
  }

  ghost predicate NearBirthday(today: int, birthday: Date)
    requires Valid(birthday)
  {
    exists year: int :: WithinWeek(today, Occurrence(birthday, year))
  }

  lemma LeapDay(year: int)
    requires !Leap(year)
    ensures MakeDay(year, 2, 29) == ToDay(Date(year, 3, 1))
    ensures MakeDay(year, 3, 0) == ToDay(Date(year, 2, 28))
  {
    assert DaysBefore(year, 3) == DaysBefore(year, 2) + 28;
  }

  lemma OccurrenceInYear(birthday: Date, year: int)
    requires Valid(birthday)
    ensures FirstDay(year) <= Occurrence(birthday, year) < FirstDay(year + 1)
    ensures Occurrence(birthday, year) == MakeDay(year, birthday.month, birthday.day)
  {
    if birthday.month == 2 && birthday.day == 29 && !Leap(year) {
      LeapDay(year);
      InYear(Date(year, 3, 1));
    } else {
      InYear(Date(year, birthday.month, birthday.day));
    }
  }

  lemma NormalisedFields(d: Date)
    requires Valid(d) && d != Date(0, 2, 29)
    ensures var e := FromDay(ToUtcLocalDate(ToDay(d))); e.month == d.month && e.day == d.day
  {
    DayOfFields(d);
    var moved := Date(if 0 <= d.year <= 99 then 1900 + d.year else d.year, d.month, d.day);
    MovedDate(d, moved);
    assert ToUtcLocalDate(ToDay(d)) == ToDay(moved);
    DayOfFields(moved);
  }

  lemma MovedDate(d: Date, moved: Date)
    requires Valid(d) && d != Date(0, 2, 29)
    requires moved == Date(if 0 <= d.year <= 99 then 1900 + d.year else d.year, d.month, d.day)
    ensures Valid(moved)
  {
    assert 0 < d.year <= 99 && Leap(d.year) ==> Leap(1900 + d.year);
  }

  lemma CandidateIsOccurrence(birthday: Date, year: int)
    requires Valid(birthday) && birthday != Date(0, 2, 29)
    ensures Candidate(ToDay(birthday), year) == Occurrence(birthday, year)
  {
    NormalisedFields(birthday);
    OccurrenceInYear(birthday, year);
  }

  lemma FarYear(today: int, birthday: Date, year: int)
    requires Valid(birthday) && WithinWeek(today, Occurrence(birthday, year))
    ensures YearOf(today) - 1 <= year <= YearOf(today) + 1
  {
    OccurrenceInYear(birthday, year);
    if year > YearOf(today) + 1 { YearsApart(YearOf(today) + 1, year); }
    if year < YearOf(today) - 1 { YearsApart(year + 1, YearOf(today)); }
  }

  // Checking three years decides the question for every year.
  lemma ThreeYearsSuffice(today: int, birthday: Date)
    requires Valid(birthday) && birthday != Date(0, 2, 29) && !TwoDigitYear(today)
    ensures BirthdayWeek(today, ToDay(birthday)) <==> NearBirthday(today, birthday)
  {
    NormalisedDay(today);
    forall year { CandidateIsOccurrence(birthday, year); }
    if NearBirthday(today, birthday) {
      var year :| WithinWeek(today, Occurrence(birthday, year));
      FarYear(today, birthday, year);
      assert WithinWeek(today, Candidate(ToDay(birthday), year));
    }
  }

  lemma MissedLeapDay(birthday: Date)
    requires birthday == Date(0, 2, 29)
    ensures forall year :: Candidate(ToDay(birthday), year) == MakeDay(year, 3, 1)
  {
    DayOfFields(birthday);
    CarriedLeapDay(1900 + birthday.year);
  }

  // No birthday the parser yields lies in the years 0 to 99.
  lemma ParsedNeverTwoDigit(trimmed: string, platform: Option<int>)
    requires ParseUtcLocalDate(trimmed, platform).Some?
    ensures !TwoDigitYear(ParseUtcLocalDate(trimmed, platform).value)
  {
    var n := ParseUtcLocalDate(trimmed, platform).value;
    if DateOnly(trimmed) {
      DateOnlyAccepted(trimmed, platform);
    } else {
      NeverTwoDigit(FromDay(platform.value));
    }
  }

  lemma NeverTwoDigit(d: Date)
    requires Valid(d)
    ensures !TwoDigitYear(DateUtc(d.year, d.month, d.day))
  {
    if 0 <= d.year <= 99 {
      LaterYear(99, 1900 + d.year, d.month, d.day);
      LatestDay(1900 + d.year, d.month, d.day);
    } else {
      DayOfFields(d);
    }
  }

  lemma LatestDay(year: int, month: int, day: int)
    requires 1900 <= year && 1 <= month <= 12 && 1 <= day
    ensures YearOf(MakeDay(year, month, day)) >= year
  {
    MonthsApart(year, 1, month);
    var n := MakeDay(year, month, day);
    if YearOf(n) < year { YearsApart(YearOf(n) + 1, year); }
  }

  // So the three-year check is exact for every birthday the system can hold.
  lemma ParsedBirthdayWeek(trimmed: string, platform: Option<int>, today: int)
    requires ParseUtcLocalDate(trimmed, platform).Some? && !TwoDigitYear(today)
    ensures var birthday := ParseUtcLocalDate(trimmed, platform).value;
      BirthdayWeek(today, birthday) <==> NearBirthday(today, FromDay(birthday))
  {
    var birthday := ParseUtcLocalDate(trimmed, platform).value;
    ParsedNeverTwoDigit(trimmed, platform);
    FieldsOfDay(birthday);
    ThreeYearsSuffice(today, FromDay(birthday));
  }

  /* ----- 29 February of the year 0, which only a caller that skips the parser could pass ----- */

  lemma NearMarchFirst(today: int)
    requires !TwoDigitYear(today)
    ensures BirthdayWeek(today, ToDay(Date(0, 2, 29))) <==> BirthdayWeek(today, ToDay(Date(2001, 3, 1)))
  {
    MissedLeapDay(Date(0, 2, 29));
    CandidateOfMarchFirst();
    NormalisedDay(today);
  }

  lemma CandidateOfMarchFirst()
    ensures forall year :: Candidate(ToDay(Date(2001, 3, 1)), year) == MakeDay(year, 3, 1)
  {
    DayOfFields(Date(2001, 3, 1));
    NormalisedDate(Date(2001, 3, 1));
  }

  lemma MarchOfYear(year: int)
    ensures DaysBefore(year, 2) == 31 && DaysBefore(year, 3) == (if Leap(year) then 60 else 59)
  {
    assert DaysBefore(year, 1) == 0;
  }

  lemma EarlyMarch(year: int)
    ensures Occurrence(Date(0, 2, 29), year) == FirstDay(year) + 59
    ensures Occurrence(Date(2001, 3, 1), year) == FirstDay(year) + (if Leap(year) then 60 else 59)
  {
    MarchOfYear(year);
  }

  // Only the occurrence of the same year can be near.
  lemma NearInOwnYear(today: int, birthday: Date)
    requires birthday == Date(0, 2, 29) || birthday == Date(2001, 3, 1)
    ensures NearBirthday(today, birthday) <==> WithinWeek(today, Occurrence(birthday, YearOf(today)))
  {
    var y := YearOf(today);
    forall year | WithinWeek(today, Occurrence(birthday, year)) ensures year == y {
      FarYear(today, birthday, year);
      EarlyMarch(year);
      YearLength(year);
    }
  }

  lemma DayOfSpring(today: int)
    requires Leap(YearOf(today))
    ensures today == FirstDay(YearOf(today)) + 56 <==> FromDay(today).month == 2 && FromDay(today).day == 26
    ensures today == FirstDay(YearOf(today)) + 63 <==> FromDay(today).month == 3 && FromDay(today).day == 4
  {
    var y := YearOf(today);
    MarchOfYear(y);
    FieldsOfDay(today);
    DayOfFields(Date(y, 2, 26));
    DayOfFields(Date(y, 3, 4));
  }

  // It is treated as 1 March, so in leap years, and only then, its week starts and ends a day late.
  lemma LeapDayOfYearZero(today: int)
    requires !TwoDigitYear(today)
    ensures (BirthdayWeek(today, ToDay(Date(0, 2, 29))) <==> NearBirthday(today, Date(0, 2, 29))) <==>
      !OffByOne(FromDay(today))
  {
    NearMarchFirst(today);
    ThreeYearsSuffice(today, Date(2001, 3, 1));
    NearInOwnYear(today, Date(2001, 3, 1));
    NearInOwnYear(today, Date(0, 2, 29));
    EarlyMarch(YearOf(today));
    if Leap(YearOf(today)) { DayOfSpring(today); }
  }

  // For every birthday and every day outside the years 0 to 99, the check fails on exactly those days.
  lemma BirthdayWeekExact(today: int, birthday: Date)
    requires Valid(birthday) && !TwoDigitYear(today)
    ensures (BirthdayWeek(today, ToDay(birthday)) <==> NearBirthday(today, birthday)) <==>
      !(birthday == Date(0, 2, 29) && OffByOne(FromDay(today)))
  {
    if birthday == Date(0, 2, 29) { LeapDayOfYearZero(today); } else { ThreeYearsSuffice(today, birthday); }
  }

  predicate OffByOne(d: Date) {
    Leap(d.year) && ((d.month == 2 && d.day == 26) || (d.month == 3 && d.day == 4))
  }

  /* ----- the anniversary of a day ----- */

  function Anniversary(date: Date, years: int): (result: Date)
    requires Valid(date)
  {
    var length := DaysInMonth(date.year + years, date.month);
    Date(date.year + years, date.month, if date.day < length then date.day else length)
  }

  // setFullYear, then setDate(0) when the day carried into the next month.
  method AddYears(date: Date, years: int) returns (result: Date)
    requires Valid(date)
    ensures result == Anniversary(date, years)
  {
    result := FromDay(MakeDay(date.year + years, date.month, date.day));
    Carried(date, years);
    if result.month != date.month {
      result := FromDay(MakeDay(result.year, result.month, 0));
    }
  }

  lemma Carried(date: Date, years: int)
    requires Valid(date)
    ensures var moved := FromDay(MakeDay(date.year + years, date.month, date.day));
      if moved.month == date.month then moved == Anniversary(date, years)
      else FromDay(MakeDay(moved.year, moved.month, 0)) == Anniversary(date, years)
  {
    var a := Anniversary(date, years);
    DayOfFields(a);
    if a.day != date.day {
      assert a == Date(date.year + years, 2, 28) && date.day == 29;
      CarriedLeapDay(a.year);
    }
  }

  lemma CarriedLeapDay(year: int)
    requires !Leap(year)
    ensures FromDay(MakeDay(year, 2, 29)) == Date(year, 3, 1)
    ensures FromDay(MakeDay(year, 3, 0)) == Date(year, 2, 28)
  {
    LeapDay(year);
    DayOfFields(Date(year, 3, 1));
    DayOfFields(Date(year, 2, 28));
  }
}
