/**
  The year's points and visits, on which tiers rest: what adds to them and what does not.
 */
module YearTotals {
  import opened Options
  import opened Accounts
  import opened Transactions
  import opened Bookkeeping
  import opened Registers
  import opened History
  import opened Promises
  import opened Locking

  // Purchases, birthdays and an administrator's additions count for the year; rewards and refunds do not.
  function YearPart(u: UserId, e: Entry): int {
    if e.user == u && e.points > 0 &&
      (e.kind == EARN_TICKET || e.kind == EARN_SPECIAL || e.kind == EARN_BIRTHDAY || e.kind == ADMIN_ADDITION)
    then e.points else 0
  }

  function YearEarned(u: UserId, ledger: seq<Entry>): int {
    if ledger == [] then 0 else YearEarned(u, ledger[..|ledger| - 1]) + YearPart(u, ledger[|ledger| - 1])
  }

  lemma YearAppended(u: UserId, ledger: seq<Entry>, e: Entry)
    ensures YearEarned(u, ledger + [e]) == YearEarned(u, ledger) + YearPart(u, e)
  {
    assert (ledger + [e])[..|ledger|] == ledger;
  }

  // A purchase that takes effect.
  predicate Buys(s: Store, op: Op, u: UserId) {
    op.BuyTicket? && op.msg.user == u && op.msg.eventId !in s.processed && op.msg.eventId in Apply(s, op).processed
  }

  function Purchases(s: Store, ops: seq<Op>, u: UserId): nat {
    if |ops| == 0 then 0
    else Purchases(s, ops[..|ops| - 1], u) + (if Buys(RunFrom(s, ops[..|ops| - 1]), ops[|ops| - 1], u) then 1 else 0)
  }

  predicate YearKept(s: Store, c: Change, visits: int) {
    var p := ProfileOf(s, c.user);
    c.profile.yearPoints == p.yearPoints + (if c.entry.Some? then YearPart(c.user, c.entry.value) else 0) &&
    c.profile.yearVisits == p.yearVisits + visits
  }

  lemma PointPlansYear(s: Store, op: Op)
    requires (op.Deduct? || op.Refund? || op.Achieve? || op.Expire?) && PlanOf(s, op).change.Some?
    ensures YearKept(s, PlanOf(s, op).change.value, 0)
  {
  }

  lemma OtherPlansYear(s: Store, op: Op)
    requires !op.Deduct? && !op.Refund? && !op.Achieve? && !op.Expire? && !op.BuyTicket? && !op.ResetYear?
    requires PlanOf(s, op).change.Some?
    ensures YearKept(s, PlanOf(s, op).change.value, 0)
  {
  }

  lemma PurchasePlanYear(s: Store, op: Op)
    requires op.BuyTicket? && PlanOf(s, op).change.Some?
    ensures YearKept(s, PlanOf(s, op).change.value, if Buys(s, op, op.msg.user) then 1 else 0)
  {
  }

  lemma PlanYear(s: Store, op: Op, u: UserId)
    requires !op.ResetYear? && PlanOf(s, op).change.Some?
    ensures YearKept(s, PlanOf(s, op).change.value, if Buys(s, op, PlanOf(s, op).change.value.user) then 1 else 0)
  {
    PlanUser(s, op);
    if op.BuyTicket? { PurchasePlanYear(s, op); }
    else if op.Deduct? || op.Refund? || op.Achieve? || op.Expire? { PointPlansYear(s, op); }
    else { OtherPlansYear(s, op); }
  }

  // From s to s' the year's points move by the user's tier-earning rows and the visits by `visits`.
  predicate YearMoved(s: Store, s': Store, u: UserId, visits: int) {
    ProfileOf(s', u).yearPoints - ProfileOf(s, u).yearPoints == YearEarned(u, s'.ledger) - YearEarned(u, s.ledger) &&
    ProfileOf(s', u).yearVisits - ProfileOf(s, u).yearVisits == visits
  }

  lemma CommitYear(s: Store, c: Change, visits: int, u: UserId)
    requires c.user == u && YearKept(s, c, visits)
    ensures YearMoved(s, Commit(s, c), u, visits)
  {
    if c.entry.Some? { YearAppended(u, s.ledger, c.entry.value); }
  }

  lemma CommitElsewhereYear(s: Store, c: Change, u: UserId)
    requires c.user != u && Posted(s, c)
    ensures YearMoved(s, Commit(s, c), u, 0)
  {
    if c.entry.Some? { YearAppended(u, s.ledger, c.entry.value); }
  }

  lemma OnlyBuyersVisit(s: Store, op: Op, u: UserId)
    requires Buys(s, op, u)
    ensures PlanOf(s, op).change.Some? && PlanOf(s, op).change.value.user == u
  {
    if PlanOf(s, op).change.Some? { PlanUser(s, op); }
  }

  lemma ExecuteYear(s: Store, p: Plan, u: UserId, visits: int)
    requires p.change.Some? ==> Posted(s, p.change.value)
    requires p.change.Some? && p.change.value.user == u ==> YearKept(s, p.change.value, visits)
    requires p.change.None? || p.change.value.user != u ==> visits == 0
    ensures YearMoved(s, Execute(s, p), u, visits)
  {
    if p.change.Some? {
      if p.change.value.user == u { CommitYear(s, p.change.value, visits, u); }
      else { CommitElsewhereYear(s, p.change.value, u); }
    }
  }

  lemma YearStep(s: Store, op: Op, u: UserId)
    requires Attained(s) && op != ResetYear(u)
    ensures YearMoved(s, Apply(s, op), u, if Buys(s, op, u) then 1 else 0)
  {
    if op.NextMonth? {
      MonthEndYear(s, op, u);
    } else {
      YearPlanned(s, op, PlanOf(s, op), u, if Buys(s, op, u) then 1 else 0);
    }
  }

  lemma MonthEndYear(s: Store, op: Op, u: UserId)
    requires op.NextMonth?
    ensures YearMoved(s, Apply(s, op), u, 0)
  {
  }

  lemma YearPlanned(s: Store, op: Op, plan: Plan, u: UserId, visits: int)
    requires Attained(s) && op != ResetYear(u) && !op.NextMonth? && plan == PlanOf(s, op)
    requires visits == if Buys(s, op, u) then 1 else 0
    ensures YearMoved(s, Execute(s, plan), u, visits)
  {
    if Buys(s, op, u) { OnlyBuyersVisit(s, op, u); }
    if plan.change.Some? {
      PlanPosted(s, op);
      if plan.change.value.user == u { PlanYear(s, op, u); }
    }
    ExecuteYear(s, plan, u, visits);
  }

  lemma {:induction false} YearAlong(s: Store, more: seq<Op>, u: UserId)
    requires Attained(s) && forall i | 0 <= i < |more| :: more[i] != ResetYear(u)
    ensures YearMoved(s, RunFrom(s, more), u, Purchases(s, more, u))
  {
    if more != [] {
      YearAlong(s, more[..|more| - 1], u);
      AttainedAlong(s, more[..|more| - 1]);
      YearStep(RunFrom(s, more[..|more| - 1]), more[|more| - 1], u);
    }
  }

  lemma ResetZeroes(s: Store, u: UserId)
    requires u in s.profiles
    ensures ProfileOf(Apply(s, ResetYear(u)), u).yearPoints == ProfileOf(Apply(s, ResetYear(u)), u).yearVisits == 0
  {
  }

  // Since a user's annual reset, the year's points are what the tier-earning rows brought, and the year's
  // visits are the purchases that took effect.
  lemma SinceTheReset(ops: seq<Op>, u: UserId, more: seq<Op>)
    requires u in Run(ops).profiles && forall i | 0 <= i < |more| :: more[i] != ResetYear(u)
    ensures
      var reset := Apply(Run(ops), ResetYear(u));
      var s := RunFrom(reset, more);
      ProfileOf(s, u).yearPoints == YearEarned(u, s.ledger) - YearEarned(u, reset.ledger) &&
      ProfileOf(s, u).yearVisits == Purchases(reset, more, u)
  {
    AttainedRun(ops);
    ResetZeroes(Run(ops), u);
    AttainedNext(Run(ops), ResetYear(u));
    YearAlong(Apply(Run(ops), ResetYear(u)), more, u);
  }

  /* ----- the year's totals never fall below zero ----- */

  lemma EarnedGrows(s: Store, op: Op, u: UserId)
    ensures YearEarned(u, Apply(s, op).ledger) >= YearEarned(u, s.ledger)
  {
    if !op.NextMonth? && PlanOf(s, op).change.Some? && PlanOf(s, op).change.value.entry.Some? {
      YearAppended(u, s.ledger, PlanOf(s, op).change.value.entry.value);
    }
  }

  // Without a reset neither total falls.
  lemma TotalsGrow(s: Store, op: Op, u: UserId)
    requires Attained(s) && op != ResetYear(u)
    ensures ProfileOf(Apply(s, op), u).yearPoints >= ProfileOf(s, u).yearPoints
    ensures ProfileOf(Apply(s, op), u).yearVisits >= ProfileOf(s, u).yearVisits
  {
    YearStep(s, op, u);
    EarnedGrows(s, op, u);
  }

  lemma {:induction false} TotalsNotNegative(ops: seq<Op>, u: UserId)
    ensures ProfileOf(Run(ops), u).yearPoints >= 0 && ProfileOf(Run(ops), u).yearVisits >= 0
  {
    if ops != [] {
      var before, op := ops[..|ops| - 1], ops[|ops| - 1];
      TotalsNotNegative(before, u);
      AttainedRun(before);
      if op == ResetYear(u) {
        if u in Run(before).profiles { ResetZeroes(Run(before), u); }
      } else {
        TotalsGrow(Run(before), op, u);
      }
    }
  }

  lemma AttainedTotals(s: Store, u: UserId)
    requires Attained(s)
    ensures ProfileOf(s, u).yearPoints >= 0 && ProfileOf(s, u).yearVisits >= 0
  {
    var ops :| Run(ops) == s;
    TotalsNotNegative(ops, u);
  }

  /* ----- the tier follows from the totals ----- */

  // Resolving after each of several steps ends where resolving once with the totals would.
  lemma TierFromTotals(current: Tier, visits: int, points: int, moreVisits: int, morePoints: int)
    requires moreVisits >= visits && morePoints >= points
    ensures ResolveNewTier(ResolveNewTier(current, visits, points), moreVisits, morePoints) ==
      ResolveNewTier(current, moreVisits, morePoints)
  {
  }

  // The tier a profile has is the one its totals give, on top of the one it had.
  predicate TierResolved(before: Profile, after: Profile) {
    after.tier == ResolveNewTier(before.tier, after.yearVisits, after.yearPoints)
  }

  lemma PurchaseResolves(s: Store, op: Op)
    requires op.BuyTicket? && PlanOf(s, op).change.Some?
    requires var p := ProfileOf(s, op.msg.user); Rank(CalculateTier(p.yearVisits, p.yearPoints)) <= Rank(p.tier)
    ensures TierResolved(ProfileOf(s, op.msg.user), PlanOf(s, op).change.value.profile)
  {
  }

  lemma PointPlanResolves(s: Store, op: Op)
    requires (op.Deduct? || op.Refund? || op.Achieve? || op.Expire?) && PlanOf(s, op).change.Some?
    requires var p := ProfileOf(s, UserOf(op).value); Rank(CalculateTier(p.yearVisits, p.yearPoints)) <= Rank(p.tier)
    ensures TierResolved(ProfileOf(s, UserOf(op).value), PlanOf(s, op).change.value.profile)
  {
  }

  lemma OtherPlanResolves(s: Store, op: Op)
    requires !op.Deduct? && !op.Refund? && !op.Achieve? && !op.Expire? && !op.BuyTicket? && !op.ResetYear?
    requires !op.GrantVip?
    requires PlanOf(s, op).change.Some? && UserOf(op).Some?
    requires var p := ProfileOf(s, UserOf(op).value); Rank(CalculateTier(p.yearVisits, p.yearPoints)) <= Rank(p.tier)
    ensures TierResolved(ProfileOf(s, UserOf(op).value), PlanOf(s, op).change.value.profile)
  {
  }

  lemma AttainedTier(s: Store, u: UserId)
    requires Attained(s)
    ensures var p := ProfileOf(s, u); Rank(CalculateTier(p.yearVisits, p.yearPoints)) <= Rank(p.tier)
  {
    AttainedInv(s);
  }

  lemma PlanResolves(s: Store, op: Op, u: UserId)
    requires Attained(s) && UserOf(op) == Some(u) && op != ResetYear(u) && op != GrantVip(u)
    requires PlanOf(s, op).change.Some?
    ensures TierResolved(ProfileOf(s, u), PlanOf(s, op).change.value.profile)
  {
    AttainedTier(s, u);
    if op.BuyTicket? { PurchaseResolves(s, op); }
    else if op.Deduct? || op.Refund? || op.Achieve? || op.Expire? { PointPlanResolves(s, op); }
    else { OtherPlanResolves(s, op); }
  }

  lemma ExecuteResolves(s: Store, p: Plan, u: UserId)
    requires TierResolved(ProfileOf(s, u), ProfileOf(s, u))
    requires p.change.Some? && p.change.value.user == u ==> TierResolved(ProfileOf(s, u), p.change.value.profile)
    ensures TierResolved(ProfileOf(s, u), ProfileOf(Execute(s, p), u))
  {
  }

  lemma TierStepResolves(s: Store, op: Op, u: UserId)
    requires Attained(s) && op != ResetYear(u) && op != GrantVip(u)
    ensures TierResolved(ProfileOf(s, u), ProfileOf(Apply(s, op), u))
  {
    AttainedTier(s, u);
    if !op.NextMonth? {
      if PlanOf(s, op).change.Some? {
        PlanUser(s, op);
        if UserOf(op) == Some(u) { PlanResolves(s, op, u); }
      }
      ExecuteResolves(s, PlanOf(s, op), u);
    }
  }

  predicate Ordinary(op: Op, u: UserId) {
    op != ResetYear(u) && op != GrantVip(u)
  }

  // Between a user's annual resets, and unless an administrator grants VIP, the tier after any run is exactly
  // the one that the tier before it and the totals after it determine: nothing else raises it.
  lemma {:induction false} TierIsEarned(s: Store, more: seq<Op>, u: UserId)
    requires Attained(s) && forall i | 0 <= i < |more| :: Ordinary(more[i], u)
    ensures TierResolved(ProfileOf(s, u), ProfileOf(RunFrom(s, more), u))
  {
    AttainedTier(s, u);
    if more != [] {
      var before, op := more[..|more| - 1], more[|more| - 1];
      var p, q, r := ProfileOf(s, u), ProfileOf(RunFrom(s, before), u), ProfileOf(RunFrom(s, more), u);
      TierIsEarned(s, before, u);
      AttainedAlong(s, before);
      TierStepResolves(RunFrom(s, before), op, u);
      TotalsGrow(RunFrom(s, before), op, u);
      TierFromTotals(p.tier, q.yearVisits, q.yearPoints, r.yearVisits, r.yearPoints);
    }
  }

  // And only those figures raise it: who was not GOLD is GOLD afterwards exactly if the totals reach twenty visits
  // or 5000 points, and who was BRONZE is SILVER exactly if they reach eight visits or 2000 points and no more.
  lemma TierNeedsItsFigures(s: Store, more: seq<Op>, u: UserId)
    requires Attained(s) && forall i | 0 <= i < |more| :: Ordinary(more[i], u)
    ensures
      var p, p' := ProfileOf(s, u), ProfileOf(RunFrom(s, more), u);
      var gold, silver := p'.yearVisits >= 20 || p'.yearPoints >= 5000, p'.yearVisits >= 8 || p'.yearPoints >= 2000;
      (p'.tier == GOLD <==> p.tier == GOLD || gold) && (p'.tier == BRONZE <==> p.tier == BRONZE && !silver && !gold)
  {
    TierIsEarned(s, more, u);
  }
}
