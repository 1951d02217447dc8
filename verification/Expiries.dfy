/**
  When points expire: which transactions move the date, and that a date that lies ahead protects them.
 */
module Expiries {
  import opened Options
  import opened Accounts
  import opened Transactions
  import opened History
  import opened Locking
  import opened YearTotals
  import opened Calculator

  function CalendarOf(op: Op): Option<Calendar> {
    match op
    case BuyTicket(_, cal, _) => Some(cal)
    case SetDateOfBirth(_, _, cal) => Some(cal)
    case GrantBonus(_, cal) => Some(cal)
    case Adjust(_, _, cal) => Some(cal)
    case _ => None
  }

  // The user's points do not expire before `bound`.
  predicate ExpiresFrom(s: Store, u: UserId, bound: int) {
    ProfileOf(s, u).balanceExpiresAt.Some? && ProfileOf(s, u).balanceExpiresAt.value >= bound
  }

  // A date the transaction sets is no earlier than `bound`.
  predicate SetsFrom(op: Op, bound: int) {
    CalendarOf(op).Some? ==> CalendarOf(op).value.inAYear >= bound
  }

  predicate ExpiryMoved(s: Store, op: Op, c: Change) {
    c.profile.balanceExpiresAt == ProfileOf(s, c.user).balanceExpiresAt ||
    (CalendarOf(op).Some? && c.profile.balanceExpiresAt == Some(CalendarOf(op).value.inAYear))
  }

  lemma CalendarPlans(s: Store, op: Op)
    requires CalendarOf(op).Some? && PlanOf(s, op).change.Some?
    ensures ExpiryMoved(s, op, PlanOf(s, op).change.value)
  {
  }

  lemma PointPlans(s: Store, op: Op)
    requires (op.Deduct? || op.Refund? || op.Achieve? || op.Expire?) && PlanOf(s, op).change.Some?
    ensures ExpiryMoved(s, op, PlanOf(s, op).change.value)
  {
  }

  lemma OtherPlans(s: Store, op: Op)
    requires CalendarOf(op).None? && !op.Deduct? && !op.Refund? && !op.Achieve? && !op.Expire?
    requires PlanOf(s, op).change.Some?
    ensures ExpiryMoved(s, op, PlanOf(s, op).change.value)
  {
  }

  lemma ExpiryStep(s: Store, op: Op, u: UserId, bound: int)
    requires ExpiresFrom(s, u, bound) && SetsFrom(op, bound)
    ensures ExpiresFrom(Apply(s, op), u, bound)
  {
    if !op.NextMonth? && PlanOf(s, op).change.Some? {
      if CalendarOf(op).Some? { CalendarPlans(s, op); }
      else if op.Deduct? || op.Refund? || op.Achieve? || op.Expire? { PointPlans(s, op); }
      else { OtherPlans(s, op); }
      CommitExpiry(s, op, PlanOf(s, op).change.value, u, bound);
    }
  }

  lemma CommitExpiry(s: Store, op: Op, c: Change, u: UserId, bound: int)
    requires ExpiresFrom(s, u, bound) && SetsFrom(op, bound) && ExpiryMoved(s, op, c)
    ensures ExpiresFrom(Commit(s, c), u, bound)
  {
  }

  lemma {:induction false} ExpiryAlong(s: Store, more: seq<Op>, u: UserId, bound: int)
    requires ExpiresFrom(s, u, bound) && forall i | 0 <= i < |more| :: SetsFrom(more[i], bound)
    ensures ExpiresFrom(RunFrom(s, more), u, bound)
  {
    if more != [] {
      ExpiryAlong(s, more[..|more| - 1], u, bound);
      ExpiryStep(RunFrom(s, more[..|more| - 1]), more[|more| - 1], u, bound);
    }
  }

  lemma NotYetDue(s: Store, u: UserId, bound: int, t: int)
    requires ExpiresFrom(s, u, bound) && t < bound
    ensures Apply(s, Expire(u, t)) == s
  {
  }

  /* ----- earned points last a year ----- */

  // A transaction that wrote the user a tier-earning row.
  predicate Earns(s: Store, op: Op, u: UserId) {
    !op.NextMonth? && PlanOf(s, op).change.Some? && PlanOf(s, op).change.value.entry.Some? &&
    YearPart(u, PlanOf(s, op).change.value.entry.value) > 0
  }

  lemma EarningRenews(s: Store, op: Op, u: UserId)
    requires Earns(s, op, u)
    ensures CalendarOf(op).Some? && ProfileOf(Apply(s, op), u).balanceExpiresAt == Some(CalendarOf(op).value.inAYear)
  {
  }

  // The transaction read its clock at `now` or later.
  predicate ReadsClockFrom(op: Op, now: int) {
    CalendarOf(op).Some? ==>
      var cal := CalendarOf(op).value;
      cal.now >= now && cal.inAYear == InAYear(cal.now)
  }

  lemma ClockSets(op: Op, now: int)
    requires ReadsClockFrom(op, now)
    ensures SetsFrom(op, now + 365 * MS_IN_A_DAY)
  {
    if CalendarOf(op).Some? { ExpiryIsAYearAhead(CalendarOf(op).value.now); }
  }

  // After a transaction that earned the user points at `now`, and whatever commits after it, no expiry of
  // the next 365 days takes anything.
  lemma EarnedPointsLastAYear(s: Store, op: Op, more: seq<Op>, u: UserId, now: int, t: int)
    requires Earns(s, op, u) && ReadsClockFrom(op, now) && t < now + 365 * MS_IN_A_DAY
    requires forall i | 0 <= i < |more| :: ReadsClockFrom(more[i], now)
    ensures var later := RunFrom(Apply(s, op), more); Apply(later, Expire(u, t)) == later
  {
    EarningRenews(s, op, u);
    ClockSets(op, now);
    forall i | 0 <= i < |more| ensures SetsFrom(more[i], now + 365 * MS_IN_A_DAY) { ClockSets(more[i], now); }
    ExpiryAlong(Apply(s, op), more, u, now + 365 * MS_IN_A_DAY);
    NotYetDue(RunFrom(Apply(s, op), more), u, now + 365 * MS_IN_A_DAY, t);
  }
}
