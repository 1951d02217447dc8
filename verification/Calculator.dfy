/**
  The readings a transaction takes of one clock instant, in milliseconds since 1 January 1970 UTC, and the
  calculator that turns them into a multiplier.
 */
module Calculator {
  import opened Options
  import opened Accounts
  import opened Transactions
  import opened Civil

  const MS_IN_A_DAY := 86400000

  function Today(now: int): int {
    now / MS_IN_A_DAY
  }

  predicate SameUtcMonthDay(date: int, reference: int) {
    FromDay(date).month == FromDay(reference).month && FromDay(date).day == FromDay(reference).day
  }

  function InAYear(now: int): int {
    ToDay(Anniversary(FromDay(Today(now)), 1)) * MS_IN_A_DAY + now % MS_IN_A_DAY
  }

  function CalendarAt(now: int): Calendar {
    Calendar(now, YearOf(Today(now)), InAYear(now),
             b => BirthdayWeek(Today(now), b), b => SameUtcMonthDay(b, Today(now)))
  }

  lemma AnniversaryDistance(date: Date)
    requires Valid(date)
    ensures 365 <= ToDay(Anniversary(date, 1)) - ToDay(date) <= 366
  {
    YearLength(date.year);
    if date.month == 2 && date.day == 29 {
      ToFebruary(date.year);
      ToFebruary(date.year + 1);
    } else {
      OneYearOn(date);
    }
  }

  lemma OneYearOn(date: Date)
    requires Valid(date) && !(date.month == 2 && date.day == 29)
    ensures 365 <= ToDay(Date(date.year + 1, date.month, date.day)) - ToDay(date) <= 366
    ensures Anniversary(date, 1) == Date(date.year + 1, date.month, date.day)
  {
    YearLength(date.year);
    if date.month <= 2 {
      ToFebruary(date.year);
      ToFebruary(date.year + 1);
    } else {
      DaysBeforeFromMarch(date.year, date.year + 1, date.month);
      ToMarch(date.year);
      ToMarch(date.year + 1);
    }
  }

  lemma ToFebruary(year: int)
    ensures DaysBefore(year, 2) == 31
  {
    assert DaysBefore(year, 1) == 0;
  }

  lemma ToMarch(year: int)
    ensures DaysBefore(year, 3) == 31 + DaysInMonth(year, 2)
  {
    ToFebruary(year);
  }

  // Points earned now expire 365 or 366 whole days from now, at the same time of day.
  lemma ExpiryIsAYearAhead(now: int)
    ensures InAYear(now) == now + 365 * MS_IN_A_DAY || InAYear(now) == now + 366 * MS_IN_A_DAY
  {
    var today := Today(now);
    FieldsOfDay(today);
    AnniversaryDistance(FromDay(today));
    var days := ToDay(Anniversary(FromDay(today), 1)) - today;
    assert now == today * MS_IN_A_DAY + now % MS_IN_A_DAY;
    assert days == 365 || days == 366;
  }

  // The day of the birthday bonus lies in the birthday week.
  lemma BonusDayIsInBirthdayWeek(date: int, today: int)
    requires SameUtcMonthDay(date, today) && !TwoDigitYear(today)
    ensures BirthdayWeek(today, date)
  {
    var b, year := FromDay(date), YearOf(today);
    FieldsOfDay(date);
    FieldsOfDay(today);
    NormalisedDay(today);
    if b == Date(0, 2, 29) {
      MissedLeapDay(b);
      ToFebruary(year);
      assert WithinWeek(today, Candidate(date, year));
    } else {
      NormalisedFields(b);
      assert WithinWeek(today, Candidate(date, year));
    }
  }

  // The day and the year that a grant is made for are those of one reading of the clock: a birthday is today exactly
  // if today is the date with its month and day in the year of the calendar.
  lemma BirthdayIsInItsYear(now: int, date: int)
    ensures CalendarAt(now).birthdayToday(date) <==>
      FromDay(now / 86400000) == Date(CalendarAt(now).year, FromDay(date).month, FromDay(date).day)
  {
  }

  // A year has a bonus day for every birthday but 29 February, which waits for a leap year.
  lemma BonusDayExists(date: int, year: int)
    ensures (exists today | YearOf(today) == year :: SameUtcMonthDay(date, today)) <==>
      Leap(year) || !(FromDay(date).month == 2 && FromDay(date).day == 29)
  {
    var b := FromDay(date);
    if Leap(year) || !(b.month == 2 && b.day == 29) {
      var d := Date(year, b.month, b.day);
      DayOfFields(d);
      assert YearOf(ToDay(d)) == year && SameUtcMonthDay(date, ToDay(d));
    }
  }

  // The rate of an order, case by case.
  function Rate(tier: Tier, birthdayWeek: bool, special: bool): real {
    match tier
    case BRONZE => if birthdayWeek then (if special then 4.0 else 2.0) else if special then 2.0 else 1.0
    case SILVER => if birthdayWeek then (if special then 9.0 else 4.5) else if special then 3.0 else 1.5
    case GOLD => if birthdayWeek then (if special then 20.0 else 10.0) else if special then 4.0 else 2.0
  }

  predicate InBirthdayWeek(profile: Profile, cal: Calendar) {
    profile.birthdayDate.Some? && cal.birthdayWeek(profile.birthdayDate.value)
  }

  // The factors of the purchase transaction multiply to exactly these rates.
  lemma MultiplierIsRate(profile: Profile, special: bool, cal: Calendar)
    ensures Multiplier(profile, special, cal) == Rate(profile.tier, InBirthdayWeek(profile, cal), special)
  {
  }

  class LoyaltyCalculatorService {
    constructor () {}

    // A candidate for each of last year, this year and next year.
    method IsBirthdayWeek(birthdayDate: Option<int>, now: int) returns (within: bool)
      ensures within <==> birthdayDate.Some? && CalendarAt(now).birthdayWeek(birthdayDate.value)
    {
      if birthdayDate.None? { return false; }
      var today := ToUtcLocalDate(Today(now));
      var birthday := FromDay(ToUtcLocalDate(birthdayDate.value));
      within := false;
      for yearOffset := -1 to 2
        invariant within <==> exists year | YearOf(today) - 1 <= year < YearOf(today) + yearOffset ::
          WithinWeek(today, Candidate(birthdayDate.value, year))
      {
        var candidate := MakeDay(YearOf(today) + yearOffset, birthday.month, birthday.day);
        assert candidate == Candidate(birthdayDate.value, YearOf(today) + yearOffset);
        var diffDays := if today < candidate then candidate - today else today - candidate;
        if diffDays <= WEEK_RADIUS { within := true; }
      }
    }

    method ResolveMultiplier(profile: Profile, special: bool, cal: Calendar) returns (multiplier: real)
      ensures multiplier == Rate(profile.tier, InBirthdayWeek(profile, cal), special)
      ensures multiplier == Multiplier(profile, special, cal)
    {
      multiplier := TierMultiplier(profile.tier);
      if profile.birthdayDate.Some? && cal.birthdayWeek(profile.birthdayDate.value) {
        multiplier := multiplier * BirthdayMultiplier(profile.tier);
      }
      if special { multiplier := multiplier * 2.0; }
      MultiplierIsRate(profile, special, cal);
    }
  }
}
