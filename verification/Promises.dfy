/**
  What the points economy promises over every run of all its writers.
 */
module Promises {
  import opened Options
  import opened Accounts
  import opened Transactions
  import opened Bookkeeping
  import opened Registers
  import opened History

  /* ----- conservation ----- */

  // The balance is the sum of the user's ledger rows and the lifetime the sum of its gains without
  // refunds; every row shows the balance it left; and the balance stays between zero and the lifetime.
  lemma Conservation(ops: seq<Op>, u: UserId)
    ensures
      var s := Run(ops);
      var p := ProfileOf(s, u);
      p.balance == Total(BalanceOf(u), s.ledger) && p.lifetimePoints == Total(LifetimeOf(u), s.ledger) &&
      0 <= p.balance <= p.lifetimePoints &&
      forall i | 0 <= i < |s.ledger| && s.ledger[i].user == u ::
        s.ledger[i].balanceAfter == Total(BalanceOf(u), s.ledger[..i + 1])
  {
    Reachable(ops);
    OpenNonNegative(OfUser(u), Run(ops), |Run(ops).ledger|);
    var ledger := Run(ops).ledger;
    forall i | 0 <= i < |ledger| && ledger[i].user == u
      ensures ledger[i].balanceAfter == Total(BalanceOf(u), ledger[..i + 1])
    {
      assert Running(ledger, i);
    }
  }

  // Refunds never exceed debits, for a user and for each order.
  lemma RefundedWithinBurned(ops: seq<Op>, scope: Scope)
    ensures Total(Refunded(scope), Run(ops).ledger) <= Total(Burned(scope), Run(ops).ledger)
  {
    Reachable(ops);
    OpenNonNegative(scope, Run(ops), |Run(ops).ledger|);
  }

  // Links pair the refund rows with some of the debit rows, one to one and with opposite points; an order
  // of a user has at most one refund.
  lemma RefundMatching(ops: seq<Op>)
    ensures
      var s := Run(ops);
      (forall i | 0 <= i < |s.ledger| :: i in s.checkout <==> s.ledger[i].kind == BURN_DISCOUNT) &&
      (forall d | d in s.checkout && s.checkout[d].Some? ::
        d < s.checkout[d].value < |s.ledger| && Compensates(s.ledger[d], s.ledger[s.checkout[d].value])) &&
      (forall d, f | d in s.checkout && f in s.checkout && s.checkout[d].Some? &&
        s.checkout[d] == s.checkout[f] :: d == f) &&
      (forall r | 0 <= r < |s.ledger| && s.ledger[r].kind == REFUND :: RefundOfLink(s, r)) &&
      (forall q, r | 0 <= q < r < |s.ledger| && s.ledger[q].kind == REFUND && s.ledger[r].kind == REFUND ::
        s.ledger[q].user != s.ledger[r].user || s.ledger[q].order != s.ledger[r].order)
  {
    Reachable(ops);
  }

  /* ----- idempotency keys ----- */

  function CarriedKey(op: Op): Option<Key> {
    match op
    case Deduct(cmd, _) => Some(cmd.key)
    case Refund(cmd, _) => Some(cmd.key)
    case BuyTicket(msg, _, _) => Some(msg.eventId)
    case Achieve(_, eventId, a, _) => Some(AchievementKey(eventId, a.id))
    case _ => None
  }

  // The same accounts, except that a profile may have been opened.
  ghost predicate SameAccounts(s: Store, s': Store) {
    s' == s.(profiles := s'.profiles) && s.profiles.Keys <= s'.profiles.Keys &&
    forall u :: ProfileOf(s', u) == ProfileOf(s, u)
  }

  lemma OpeningChangesNothing(s: Store, u: UserId)
    ensures SameAccounts(s, Commit(s, Only(u, ProfileOf(s, u))))
  {
  }

  lemma CommandKeyEffect(s: Store, op: Op)
    requires IsCommand(op)
    ensures op.cmd.key in s.processed || op.cmd.key !in Apply(s, op).processed ==> Apply(s, op) == s
  {
  }

  lemma PurchaseKeyEffect(s: Store, op: Op)
    requires op.BuyTicket?
    ensures op.msg.eventId in s.processed || op.msg.eventId !in Apply(s, op).processed ==> SameAccounts(s, Apply(s, op))
  {
    OpeningChangesNothing(s, op.msg.user);
  }

  lemma AchievementKeyEffect(s: Store, op: Op)
    requires op.Achieve?
    ensures var key := AchievementKey(op.eventId, op.achievement.id);
      key in s.processed || key !in Apply(s, op).processed ==> SameAccounts(s, Apply(s, op))
  {
    OpeningChangesNothing(s, op.user);
  }

  lemma KeyEffect(s: Store, op: Op)
    requires CarriedKey(op).Some?
    ensures var key := CarriedKey(op).value;
      key in s.processed || key !in Apply(s, op).processed ==> SameAccounts(s, Apply(s, op))
  {
    if op.BuyTicket? { PurchaseKeyEffect(s, op); }
    else if op.Achieve? { AchievementKeyEffect(s, op); }
    else { CommandKeyEffect(s, op); }
  }

  // Once a key is taken, nothing that carries it has any effect.
  lemma TakenKeyHasNoEffect(s: Store, op: Op)
    requires CarriedKey(op).Some? && CarriedKey(op).value in s.processed
    ensures SameAccounts(s, Apply(s, op))
  {
    KeyEffect(s, op);
  }

  // And whatever carries a key and has an effect takes it.
  lemma EffectTakesKey(s: Store, op: Op)
    requires CarriedKey(op).Some? && !SameAccounts(s, Apply(s, op))
    ensures CarriedKey(op).value in Apply(s, op).processed
  {
    KeyEffect(s, op);
  }

  lemma KeptKey(s: Store, c: Change, k: Key)
    requires Keyed(s, c) && k in s.processed
    ensures k in ProcessedAfter(s, c) && ProcessedAfter(s, c)[k] == s.processed[k]
  {
  }

  lemma KeyStays(s: Store, op: Op, k: Key)
    requires Inv(s) && k in s.processed
    ensures k in Apply(s, op).processed && Apply(s, op).processed[k] == s.processed[k]
  {
    if !op.NextMonth? && PlanOf(s, op).change.Some? {
      PlanLegal(s, op);
      KeptKey(s, PlanOf(s, op).change.value, k);
    }
  }

  lemma {:induction false} KeyStaysForever(s: Store, more: seq<Op>, k: Key)
    requires Inv(s) && k in s.processed
    ensures k in RunFrom(s, more).processed && RunFrom(s, more).processed[k] == s.processed[k]
  {
    if more != [] {
      var before := more[..|more| - 1];
      KeyStaysForever(s, before, k);
      InvAlong(s, before);
      KeyStays(RunFrom(s, before), more[|more| - 1], k);
    }
  }

  // Over a run, a key causes at most one effect, whoever the users and whatever the operations are.
  lemma OneEffectPerKey(ops: seq<Op>, first: Op, between: seq<Op>, second: Op)
    requires CarriedKey(first).Some? && CarriedKey(first) == CarriedKey(second)
    requires !SameAccounts(Run(ops), Apply(Run(ops), first))
    ensures var s := RunFrom(Apply(Run(ops), first), between); SameAccounts(s, Apply(s, second))
  {
    Reachable(ops);
    EffectTakesKey(Run(ops), first);
    InvKept(Run(ops), first);
    KeyStaysForever(Apply(Run(ops), first), between, CarriedKey(first).value);
    TakenKeyHasNoEffect(RunFrom(Apply(Run(ops), first), between), second);
  }

  predicate IsCommand(op: Op) {
    op.Deduct? || op.Refund?
  }

  function Signed(op: Op): PointCommand
    requires IsCommand(op)
  {
    op.cmd.(operation := if op.Deduct? then DEDUCT else REFUNDING)
  }

  lemma RowOfKey(s: Store, k: Key)
    requires Keys(s) && k in s.processed && s.processed[k].CommandKey?
    ensures exists i | 0 <= i < |s.ledger| :: s.ledger[i].cause == Command(k) && Describes(s.processed[k], s.ledger[i])
  {
    assert HasRow(s, k);
    var i :| 0 <= i < |s.ledger| && s.ledger[i].cause == Command(k);
    assert KeyRecorded(s, i);
  }

  // A success reports the row its key stands for: same user, order, amount and balance after it.
  lemma SuccessReportsItsRow(ops: seq<Op>, op: Op)
    requires IsCommand(op) && PlanOf(Run(ops), op).response.Success?
    ensures
      var s := Apply(Run(ops), op);
      var cmd := Signed(op);
      exists i | 0 <= i < |s.ledger| :: s.ledger[i].cause == Command(cmd.key) &&
        Describes(KeyRow(cmd, PlanOf(Run(ops), op).response.balanceAfter), s.ledger[i])
  {
    var s := Run(ops);
    var s' := Apply(s, op);
    AttainedRun(ops);
    AttainedNext(s, op);
    AttainedKeys(s');
    SuccessStored(s, op);
    RowOfKey(s', op.cmd.key);
  }

  lemma SuccessStored(s: Store, op: Op)
    requires IsCommand(op) && PlanOf(s, op).response.Success?
    ensures op.cmd.key in Apply(s, op).processed &&
      Apply(s, op).processed[op.cmd.key] == KeyRow(Signed(op), PlanOf(s, op).response.balanceAfter)
  {
  }

  // A command that does not succeed leaves every table untouched.
  lemma RejectionChangesNothing(s: Store, op: Op)
    requires IsCommand(op) && !PlanOf(s, op).response.Success?
    ensures Apply(s, op) == s
  {
  }

  // Two successes with one key, however far apart, are the same command with the same answer.
  lemma SameKeySameAnswer(ops: seq<Op>, first: Op, between: seq<Op>, second: Op)
    requires IsCommand(first) && IsCommand(second) && first.cmd.key == second.cmd.key
    requires PlanOf(Run(ops), first).response.Success?
    requires PlanOf(RunFrom(Apply(Run(ops), first), between), second).response.Success?
    ensures Signed(first) == Signed(second)
    ensures PlanOf(Run(ops), first).response == PlanOf(RunFrom(Apply(Run(ops), first), between), second).response
  {
    var s := Apply(Run(ops), first);
    var later := RunFrom(s, between);
    Reachable(ops);
    InvKept(Run(ops), first);
    InvAlong(s, between);
    SuccessStored(Run(ops), first);
    KeyStaysForever(s, between, first.cmd.key);
    SuccessStored(later, second);
    KeyStays(later, second, first.cmd.key);
  }

  // So a client that lost the answer and sends the command again gets the answer it missed.
  lemma ResendGetsSameAnswer(ops: seq<Op>, first: Op, between: seq<Op>, second: Op)
    requires IsCommand(first) && IsCommand(second) && Signed(first) == Signed(second) && !second.missed
    requires PlanOf(Run(ops), first).response.Success?
    ensures PlanOf(RunFrom(Apply(Run(ops), first), between), second).response == PlanOf(Run(ops), first).response
  {
    var s := Apply(Run(ops), first);
    Reachable(ops);
    InvKept(Run(ops), first);
    SuccessStored(Run(ops), first);
    KeyStaysForever(s, between, first.cmd.key);
    ReplayAnswers(RunFrom(s, between), second, PlanOf(Run(ops), first).response.balanceAfter);
  }

  lemma ReplayAnswers(s: Store, op: Op, balanceAfter: int)
    requires IsCommand(op) && !op.missed && op.cmd.key in s.processed
    requires s.processed[op.cmd.key] == KeyRow(Signed(op), balanceAfter)
    ensures PlanOf(s, op).response == Success(balanceAfter)
  {
  }

  /* ----- tiers ----- */

  // The announced upgrades of a user rise from BRONZE to the user's tier, so there are at most two; and
  // twenty visits or 5000 points of the year make GOLD, eight visits or 2000 points at least SILVER.
  lemma TierHistory(ops: seq<Op>, u: UserId)
    ensures
      var s := Run(ops);
      var p := ProfileOf(s, u);
      RisingChain(s.outbox) && AnnouncedTier(s.outbox, u) == p.tier && Announcements(s.outbox, u) <= 2 &&
      (p.yearVisits >= 20 || p.yearPoints >= 5000 ==> p.tier == GOLD) &&
      (p.yearVisits >= 8 || p.yearPoints >= 2000 ==> p.tier != BRONZE)
  {
    Reachable(ops);
    AtMostRank(Run(ops).outbox, u);
  }

  lemma TierStep(s: Store, op: Op, u: UserId)
    requires Inv(s)
    ensures Rank(ProfileOf(s, u).tier) <= Rank(ProfileOf(Apply(s, op), u).tier)
  {
    PlanLegal(s, op);
  }

  // No transaction lowers a tier, the annual reset included.
  lemma {:induction false} TierNeverFalls(ops: seq<Op>, more: seq<Op>, u: UserId)
    ensures Rank(ProfileOf(Run(ops), u).tier) <= Rank(ProfileOf(RunFrom(Run(ops), more), u).tier)
  {
    if more != [] {
      var before := more[..|more| - 1];
      TierNeverFalls(ops, before, u);
      Reachable(ops);
      InvAlong(Run(ops), before);
      TierStep(RunFrom(Run(ops), before), more[|more| - 1], u);
    }
  }

  /* ----- the Gold quota ----- */

  // At most one reservation of a user is active in a month, and the mirror on the profile names the
  // current month exactly when one is active in it.
  lemma GoldQuota(ops: seq<Op>, u: UserId)
    ensures
      var s := Run(ops);
      (forall m, o, q | Occupies(s, u, m, o) && Occupies(s, u, m, q) :: o == q) &&
      (ProfileOf(s, u).goldUpgradeUsedMonth == Some(s.month) <==> Occupied(s, u, s.month))
  {
    Reachable(ops);
  }

  // What the profile reports as available is what a use for a new order would get; and the answer that
  // asks for reconciliation is never given.
  lemma AvailableMeansUsable(ops: seq<Op>, u: UserId, o: OrderId)
    requires (u, o) !in Run(ops).reservations
    ensures
      var s := Run(ops);
      (GoldUpgradeAvailable(s, u) <==> UseGoldUpgrade(s, u, o).change.Some?) &&
      UseGoldUpgrade(s, u, o).response != Rejected(GoldLegacyReconciliation, 0)
  {
    Reachable(ops);
  }

  lemma RollbackElsewhere(s: Store, u: UserId, o: OrderId, v: UserId)
    requires v != u
    ensures ProfileOf(Apply(s, RollbackGold(u, o)), v) == ProfileOf(s, v)
    ensures Apply(s, RollbackGold(u, o)).month == s.month
  {
  }

  lemma RollbackOwn(s: Store, u: UserId, o: OrderId)
    requires Mirror(s)
    ensures
      var s' := Apply(s, RollbackGold(u, o));
      GoldUpgradeAvailable(s', u) && !GoldUpgradeAvailable(s, u) <==>
        Occupies(s, u, s.month, o) && u in s.profiles && s.profiles[u].tier == GOLD
  {
  }

  // A rollback makes the upgrade available again only for the month its own reservation held.
  lemma RollbackFreesOwnMonth(ops: seq<Op>, u: UserId, o: OrderId, v: UserId)
    ensures
      var s := Run(ops);
      var s' := Apply(s, RollbackGold(u, o));
      GoldUpgradeAvailable(s', v) && !GoldUpgradeAvailable(s, v) <==>
        v == u && Occupies(s, u, s.month, o) && u in s.profiles && s.profiles[u].tier == GOLD
  {
    Reachable(ops);
    if v == u { RollbackOwn(Run(ops), u, o); } else { RollbackElsewhere(Run(ops), u, o, v); }
  }

  /* ----- birthdays ----- */

  // Grants and bonus rows correspond one to one, at most one for a user and a year.
  lemma BirthdayGrants(ops: seq<Op>)
    ensures
      var s := Run(ops);
      (forall u, y | (u, y) in s.grants :: s.grants[(u, y)] < |s.ledger| &&
        IsBonus(s.ledger[s.grants[(u, y)]], u, y)) &&
      (forall i | 0 <= i < |s.ledger| && s.ledger[i].kind == EARN_BIRTHDAY :: BonusGranted(s, i)) &&
      (forall i, j | 0 <= i < j < |s.ledger| && s.ledger[i].kind == EARN_BIRTHDAY &&
        s.ledger[j].kind == EARN_BIRTHDAY ::
        s.ledger[i].user != s.ledger[j].user || s.ledger[i].cause != s.ledger[j].cause)
  {
    Reachable(ops);
    var s := Run(ops);
    forall i, j | 0 <= i < j < |s.ledger| && s.ledger[i].kind == EARN_BIRTHDAY && s.ledger[j].kind == EARN_BIRTHDAY
      ensures s.ledger[i].user != s.ledger[j].user || s.ledger[i].cause != s.ledger[j].cause
    {
      assert BonusGranted(s, i) && BonusGranted(s, j);
    }
  }

  // Setting a date of birth saves the date unless it throws, and then changes nothing; the bonus comes with
  // it exactly on the birthday of a year not granted yet.
  lemma DateOfBirthSaved(s: Store, u: UserId, date: int, cal: Calendar)
    ensures
      var s' := Apply(s, SetDateOfBirth(u, date, cal));
      var thrown := PlanOf(s, SetDateOfBirth(u, date, cal)).response.Thrown?;
      (thrown ==> s' == s) && (!thrown ==> ProfileOf(s', u).birthdayDate == Some(date)) &&
      (!thrown ==> (s'.ledger != s.ledger <==> cal.birthdayToday(date) && (u, cal.year) !in s.grants)) &&
      (s'.grants != s.grants ==> (u, cal.year) !in s.grants && s'.grants == s.grants[(u, cal.year) := |s.ledger|])
  {
  }
}
