/**
  How transactions answer one another: a refund undoes its debit, and what a discounted order earns.
 */
module RoundTrips {
  import opened Options
  import opened Accounts
  import opened Transactions
  import opened Bookkeeping
  import opened Registers
  import opened History
  import opened Promises
  import opened Locking
  import opened Calculator

  /* ----- debit and refund ----- */

  lemma DebitsAppended(ledger: seq<Entry>, e: Entry, u: UserId, o: OrderId)
    ensures Debits(ledger + [e], u, o) == Debits(ledger, u, o) + (if IsDebit(e, u, o) then [|ledger|] else [])
  {
    assert (ledger + [e])[..|ledger|] == ledger;
  }

  // No refund without a debit.
  lemma NoDebitNoRefund(s: Store, u: UserId, o: OrderId)
    requires Refunds(s) && Closed(s) && Links(s) && Debits(s.ledger, u, o) == []
    ensures !HasRefund(s.ledger, u, o)
  {
    if HasRefund(s.ledger, u, o) {
      var r :| 0 <= r < |s.ledger| && IsRefund(s.ledger[r], u, o);
      assert RefundOfLink(s, r);
      var d :| d in s.checkout && s.checkout[d] == Some(r);
      DebitListed(s.ledger, d, u, o);
    }
  }

  lemma {:induction false} DebitListed(ledger: seq<Entry>, d: nat, u: UserId, o: OrderId)
    requires d < |ledger| && IsDebit(ledger[d], u, o)
    ensures d in Debits(ledger, u, o)
  {
    if d < |ledger| - 1 { DebitListed(ledger[..|ledger| - 1], d, u, o); }
  }

  predicate FirstDebit(s: Store, cmd: PointCommand) {
    cmd.operation == DEDUCT && Debits(s.ledger, cmd.user, cmd.order) == [] &&
      PlanOf(s, Deduct(cmd, false)).response.Success? &&
    cmd.key !in s.processed
  }

  lemma DebitCommits(s: Store, cmd: PointCommand)
    requires FirstDebit(s, cmd)
    ensures cmd.user in s.profiles
    ensures Apply(s, Deduct(cmd, false)) == Commit(s, DebitWithKey(s.profiles[cmd.user], cmd))
  {
  }

  function DebitWithKey(p: Profile, cmd: PointCommand): Change {
    DebitChange(p, cmd).(key := Some((cmd.key, KeyRow(cmd, p.balance - cmd.amount))))
  }

  // The state right after the first debit of an order.
  lemma AfterDebit(s: Store, s': Store, cmd: PointCommand)
    requires Refunds(s) && Closed(s) && Links(s) && cmd.user in s.profiles && cmd.amount > 0
    requires Debits(s.ledger, cmd.user, cmd.order) == [] && s' == Commit(s, DebitWithKey(s.profiles[cmd.user], cmd))
    ensures
      var d := |s.ledger|;
      cmd.user in s'.profiles && s'.profiles[cmd.user] ==
        s.profiles[cmd.user].(balance := s.profiles[cmd.user].balance - cmd.amount) &&
      Debits(s'.ledger, cmd.user, cmd.order) == [d] && d < |s'.ledger| && s'.ledger[d].points == -cmd.amount &&
        s'.ledger[d].user == cmd.user &&
      !HasRefund(s'.ledger, cmd.user, cmd.order) && d in s'.checkout && s'.checkout[d].None?
  {
    var e := DebitChange(s.profiles[cmd.user], cmd).entry.value;
    DebitsAppended(s.ledger, e, cmd.user, cmd.order);
    NoDebitNoRefund(s, cmd.user, cmd.order);
    StillNoRefund(s.ledger, e, cmd.user, cmd.order);
  }

  lemma StillNoRefund(ledger: seq<Entry>, e: Entry, u: UserId, o: OrderId)
    requires !HasRefund(ledger, u, o) && !IsRefund(e, u, o)
    ensures !HasRefund(ledger + [e], u, o)
  {
  }

  // A refund of the whole first debit under a new key succeeds and gives the account back as it was,
  // whatever other users did in between.
  lemma RefundUndoesDebit(ops: seq<Op>, debit: PointCommand, between: seq<Op>, refund: PointCommand)
    requires FirstDebit(Run(ops), debit) && OtherUsers(between, debit.user)
    requires refund == debit.(operation := REFUNDING, key := refund.key)
    requires refund.key !in RunFrom(Apply(Run(ops), Deduct(debit, false)), between).processed
    ensures
      var later := RunFrom(Apply(Run(ops), Deduct(debit, false)), between);
      PlanOf(later, Refund(refund, false)).response == Success(ProfileOf(Run(ops), debit.user).balance) &&
      ProfileOf(Apply(later, Refund(refund, false)), debit.user) == ProfileOf(Run(ops), debit.user)
  {
    var s := Run(ops);
    var s1 := Apply(s, Deduct(debit, false));
    var later := RunFrom(s1, between);
    Reachable(ops);
    OldFits(s, debit.user);
    DebitCommits(s, debit);
    DebitMade(s, debit);
    AfterDebit(s, s1, debit);
    AttainedRun(ops);
    AttainedNext(s, Deduct(debit, false));
    OthersLeaveUser(s1, between, debit.user);
    SameLedgerReads(s1, later, debit.user, debit.order);
    assert |s.ledger| in Debits(s1.ledger, debit.user, debit.order);
    RefundSucceeds(later, refund, |s.ledger|);
  }

  lemma DebitMade(s: Store, cmd: PointCommand)
    requires FirstDebit(s, cmd) && ProfileFits(ProfileOf(s, cmd.user))
    ensures cmd.amount > 0 && Int32(cmd.amount)
  {
  }

  lemma OldFits(s: Store, u: UserId)
    requires Inv(s)
    ensures ProfileFits(ProfileOf(s, u))
  {
  }

  lemma RefundSucceeds(s: Store, cmd: PointCommand, d: nat)
    requires cmd.operation == REFUNDING && cmd.key !in s.processed && cmd.user in s.profiles && cmd.amount > 0
    requires Debits(s.ledger, cmd.user, cmd.order) == [d] && d < |s.ledger| && s.ledger[d].points == -cmd.amount
    requires !HasRefund(s.ledger, cmd.user, cmd.order) && d in s.checkout && s.checkout[d].None?
    requires ProfileFits(s.profiles[cmd.user].(balance := s.profiles[cmd.user].balance + cmd.amount))
    requires Int32(cmd.amount)
    ensures
      var after := s.profiles[cmd.user].(balance := s.profiles[cmd.user].balance + cmd.amount);
      PlanOf(s, Refund(cmd, false)).response == Success(after.balance) &&
        ProfileOf(Apply(s, Refund(cmd, false)), cmd.user) == after
  {
  }

  /* ----- a discounted order earns nothing ----- */

  predicate NewKey(s: Store, s': Store, msg: TicketPurchase) {
    msg.eventId in s'.processed && msg.eventId !in s.processed
  }

  lemma DebitsStay(s: Store, op: Op, u: UserId, o: OrderId)
    requires Debits(s.ledger, u, o) != []
    ensures Debits(Apply(s, op).ledger, u, o) != []
  {
    if !op.NextMonth? && PlanOf(s, op).change.Some? && PlanOf(s, op).change.value.entry.Some? {
      DebitsAppended(s.ledger, PlanOf(s, op).change.value.entry.value, u, o);
    }
  }

  lemma {:induction false} DebitsStayForever(s: Store, more: seq<Op>, u: UserId, o: OrderId)
    requires Debits(s.ledger, u, o) != []
    ensures Debits(RunFrom(s, more).ledger, u, o) != []
  {
    if more != [] {
      DebitsStayForever(s, more[..|more| - 1], u, o);
      DebitsStay(RunFrom(s, more[..|more| - 1]), more[|more| - 1], u, o);
    }
  }

  // A message's own figure is taken before the order's debit is looked up, and cut to a whole number of points.
  predicate StatesNone(msg: TicketPurchase) {
    msg.pointsUsed.Some? && msg.pointsUsed.value < 1.0
  }

  lemma StatedFirst(s: Store, msg: TicketPurchase)
    requires Debits(s.ledger, msg.user, msg.order) != []
    ensures PointsUsed(s, msg) == 0 <==> StatesNone(msg)
  {
    var debits := Debits(s.ledger, msg.user, msg.order);
    assert IsDebit(s.ledger[debits[|debits| - 1]], msg.user, msg.order);
  }

  // What the purchase is worth when nothing was redeemed for its order.
  function FullPoints(s: Store, msg: TicketPurchase, cal: Calendar): int {
    var paid := if msg.paidAmount.Some? then msg.paidAmount.value else msg.totalAmount;
    var p := ProfileOf(s, msg.user);
    (paid * Rate(p.tier, InBirthdayWeek(p, cal), msg.special)).Floor
  }

  predicate CountsVisit(s: Store, s': Store, msg: TicketPurchase) {
    ProfileOf(s', msg.user).yearVisits == ProfileOf(s, msg.user).yearVisits + 1
  }

  predicate EarnsNothing(s: Store, s': Store, msg: TicketPurchase) {
    ProfileOf(s', msg.user).balance == ProfileOf(s, msg.user).balance && s'.ledger == s.ledger
  }

  // The account and the row after a purchase that earned so many points, but for the tier.
  function Credited(p: Profile, earned: int, cal: Calendar, tier: Tier): Profile {
    Profile(tier, p.balance + earned, p.lifetimePoints + earned, p.yearPoints + earned, p.yearVisits + 1,
      if earned > 0 then Some(cal.inAYear) else p.balanceExpiresAt, p.birthdayDate, p.goldUpgradeUsedMonth)
  }

  function TicketRow(msg: TicketPurchase, earned: int, balance: int): Entry {
    Entry(msg.user, if msg.special then EARN_SPECIAL else EARN_TICKET, earned, balance, Some(msg.order),
      Purchase(msg.eventId))
  }

  predicate Earns(s: Store, s': Store, msg: TicketPurchase, cal: Calendar, earned: int) {
    var p, p' := ProfileOf(s, msg.user), ProfileOf(s', msg.user);
    p' == Credited(p, earned, cal, p'.tier) &&
    s'.ledger == if earned > 0 then s.ledger + [TicketRow(msg, earned, p'.balance)] else s.ledger
  }

  // Once points were redeemed for an order, what its purchase earns, at whatever time it arrives and even when
  // the debit was refunded meanwhile, depends on the message alone: all of it if the message states less than
  // one redeemed point, and nothing otherwise. Either way it counts as a visit.
  lemma DiscountedOrderEarnsNothing(ops: seq<Op>, cmd: PointCommand, more: seq<Op>, msg: TicketPurchase, cal: Calendar)
    requires cmd.operation == DEDUCT && cmd.key !in Run(ops).processed
    requires PlanOf(Run(ops), Deduct(cmd, false)).response.Success?
    requires msg.user == cmd.user && msg.order == cmd.order
    ensures
      var s := RunFrom(Apply(Run(ops), Deduct(cmd, false)), more);
      var s' := Apply(s, BuyTicket(msg, cal, false));
      (!StatesNone(msg) ==> EarnsNothing(s, s', msg)) &&
      (StatesNone(msg) && NewKey(s, s', msg) ==> Earns(s, s', msg, cal, FullPoints(s, msg, cal))) &&
      (NewKey(s, s', msg) ==> CountsVisit(s, s', msg))
  {
    var s0 := Run(ops);
    var e := DebitChange(s0.profiles[cmd.user], cmd).entry.value;
    Reachable(ops);
    PlanLegal(s0, Deduct(cmd, false));
    assert Apply(s0, Deduct(cmd, false)).ledger == s0.ledger + [e];
    DebitsAppended(s0.ledger, e, cmd.user, cmd.order);
    DebitsStayForever(Apply(s0, Deduct(cmd, false)), more, cmd.user, cmd.order);
    var s := RunFrom(Apply(s0, Deduct(cmd, false)), more);
    StatedFirst(s, msg);
    if StatesNone(msg) { AllPoints(s, msg, cal); } else { NoPoints(s, msg, cal); }
  }

  lemma NoPoints(s: Store, msg: TicketPurchase, cal: Calendar)
    requires PointsUsed(s, msg) > 0
    ensures
      var s' := Apply(s, BuyTicket(msg, cal, false));
      EarnsNothing(s, s', msg) && (NewKey(s, s', msg) ==> Earns(s, s', msg, cal, 0) && CountsVisit(s, s', msg))
  {
    assert PointsEarned(s, msg, cal) == 0;
  }

  lemma AllPoints(s: Store, msg: TicketPurchase, cal: Calendar)
    requires PointsUsed(s, msg) == 0
    ensures
      var s' := Apply(s, BuyTicket(msg, cal, false));
      NewKey(s, s', msg) ==> Earns(s, s', msg, cal, FullPoints(s, msg, cal)) && CountsVisit(s, s', msg)
  {
    EarnedIsFull(s, msg, cal);
  }

  lemma EarnedIsFull(s: Store, msg: TicketPurchase, cal: Calendar)
    requires PointsUsed(s, msg) == 0
    ensures PointsEarned(s, msg, cal) == FullPoints(s, msg, cal)
  {
    MultiplierIsRate(ProfileOf(s, msg.user), msg.special, cal);
  }

  /* ----- what a purchase earns ----- */

  predicate IsBurn(e: Entry, u: UserId, o: OrderId) {
    e.kind == BURN_DISCOUNT && e.user == u && e.order == Some(o)
  }

  // The message says so, or says nothing and no row of the ledger redeems points for its order.
  predicate NothingRedeemed(s: Store, msg: TicketPurchase) {
    if msg.pointsUsed.Some? then msg.pointsUsed.value < 1.0
    else forall i | 0 <= i < |s.ledger| :: !IsBurn(s.ledger[i], msg.user, msg.order)
  }

  lemma BurnsAreDebits(s: Store, u: UserId, o: OrderId)
    requires Links(s)
    ensures Debits(s.ledger, u, o) == [] <==> forall i | 0 <= i < |s.ledger| :: !IsBurn(s.ledger[i], u, o)
  {
    if i: nat :| i < |s.ledger| && IsBurn(s.ledger[i], u, o) {
      assert i in s.checkout;
      DebitListed(s.ledger, i, u, o);
    }
    var debits := Debits(s.ledger, u, o);
    if debits != [] { assert IsDebit(s.ledger[debits[0]], u, o); }
  }

  lemma RedeemedByRows(s: Store, msg: TicketPurchase)
    requires Links(s)
    ensures PointsUsed(s, msg) == 0 <==> NothingRedeemed(s, msg)
  {
    BurnsAreDebits(s, msg.user, msg.order);
    if Debits(s.ledger, msg.user, msg.order) != [] { StatedFirst(s, msg); }
  }

  function EarnedPoints(s: Store, msg: TicketPurchase, cal: Calendar): int {
    if NothingRedeemed(s, msg) then FullPoints(s, msg, cal) else 0
  }

  // On every run: a purchase that takes its key earns the paid amount times the rate, rounded down, with its row,
  // exactly if nothing was redeemed for its order, and otherwise nothing; it counts one visit in both cases.
  lemma PurchaseEarns(ops: seq<Op>, msg: TicketPurchase, cal: Calendar)
    requires NewKey(Run(ops), Apply(Run(ops), BuyTicket(msg, cal, false)), msg)
    ensures
      var s := Run(ops);
      Earns(s, Apply(s, BuyTicket(msg, cal, false)), msg, cal, EarnedPoints(s, msg, cal))
  {
    AttainedRun(ops);
    AttainedLinks(Run(ops));
    RedeemedByRows(Run(ops), msg);
    if NothingRedeemed(Run(ops), msg) { AllPoints(Run(ops), msg, cal); } else { NoPoints(Run(ops), msg, cal); }
  }

  // And it takes its key exactly if the key is free and the totals stay within their columns.
  lemma PurchaseTakesEffect(ops: seq<Op>, msg: TicketPurchase, cal: Calendar)
    ensures
      var s := Run(ops);
      var p := ProfileOf(s, msg.user);
      NewKey(s, Apply(s, BuyTicket(msg, cal, false)), msg) <==>
        msg.eventId !in s.processed && p.yearVisits < INT32_MAX &&
        p.lifetimePoints + EarnedPoints(s, msg, cal) <= INT32_MAX &&
        p.yearPoints + EarnedPoints(s, msg, cal) <= INT32_MAX
  {
    var s := Run(ops);
    Conservation(ops, msg.user);
    AttainedRun(ops);
    AttainedLinks(s);
    AttainedFits(s, msg.user);
    RedeemedByRows(s, msg);
    if NothingRedeemed(s, msg) { EarnedIsFull(s, msg, cal); }
    TakesKey(s, msg, cal, PointsEarned(s, msg, cal));
  }

  lemma TakesKey(s: Store, msg: TicketPurchase, cal: Calendar, earned: int)
    requires earned == PointsEarned(s, msg, cal) && ProfileFits(ProfileOf(s, msg.user))
    requires 0 <= ProfileOf(s, msg.user).balance <= ProfileOf(s, msg.user).lifetimePoints
    ensures var p := ProfileOf(s, msg.user);
      NewKey(s, Apply(s, BuyTicket(msg, cal, false)), msg) <==>
        msg.eventId !in s.processed && p.yearVisits < INT32_MAX && p.lifetimePoints + earned <= INT32_MAX &&
        p.yearPoints + earned <= INT32_MAX
  {
  }

  // A run in which an order earns although points were redeemed for it: 75 of 100 points are redeemed, and the
  // purchase states that none were.
  const REDEEMED_ORDER: OrderId := 7

  function Redemption(cal: Calendar): seq<Op> {
    [Adjust(1, 100, cal), Deduct(PointCommand(DEDUCT, 1, REDEEMED_ORDER, 75, "redeem"), false)]
  }

  const DENYING_PURCHASE: TicketPurchase :=
    TicketPurchase("purchase", 1, REDEEMED_ORDER, 100.0, Some(100.0), Some(0.0), false)

  function Holder(balance: int, cal: Calendar): Profile {
    NewProfile.(balance := balance, lifetimePoints := 100, yearPoints := 100, balanceExpiresAt := Some(cal.inAYear))
  }

  lemma Given(cal: Calendar)
    ensures var s := Apply(Empty, Adjust(1, 100, cal));
      s.profiles == map[1 := Holder(100, cal)] && s.ledger == [Entry(1, ADMIN_ADDITION, 100, 100, None, Unkeyed)] &&
      s.processed == map[]
  {
  }

  lemma Taken(s: Store, cmd: PointCommand, p: Profile)
    requires cmd.operation == DEDUCT && cmd.user in s.profiles && s.profiles[cmd.user] == p && s.processed == map[]
    requires MINIMUM_DEDUCTION <= cmd.amount <= p.balance && Int32(cmd.amount) && ProfileFits(p)
    ensures Apply(s, Deduct(cmd, false)) == Commit(s, DebitWithKey(p, cmd))
  {
  }

  lemma Redeemed(cal: Calendar)
    ensures var s := Run(Redemption(cal));
      Debits(s.ledger, 1, REDEEMED_ORDER) != [] && ProfileOf(s, 1) == Holder(25, cal) && "purchase" !in s.processed
  {
    var first, second := Redemption(cal)[0], Redemption(cal)[1];
    var s1 := Apply(Empty, first);
    assert Redemption(cal) == [first] + [second] && [] + [first] == [first];
    RunOneMore(Empty, [], first);
    RunOneMore(Empty, [first], second);
    Given(cal);
    Taken(s1, second.cmd, Holder(100, cal));
    DebitsAppended(s1.ledger, DebitChange(Holder(100, cal), second.cmd).entry.value, 1, REDEEMED_ORDER);
  }

  lemma DenyingPurchaseCounts(s: Store, cal: Calendar)
    requires ProfileOf(s, 1) == Holder(25, cal) && "purchase" !in s.processed
    requires Debits(s.ledger, 1, REDEEMED_ORDER) != []
    ensures FullPoints(s, DENYING_PURCHASE, cal) == 100
    ensures NewKey(s, Apply(s, BuyTicket(DENYING_PURCHASE, cal, false)), DENYING_PURCHASE)
  {
    StatedFirst(s, DENYING_PURCHASE);
  }

  lemma RedeemedYetEarns(cal: Calendar)
    ensures var s := Run(Redemption(cal));
      var s' := Apply(s, BuyTicket(DENYING_PURCHASE, cal, false));
      Debits(s.ledger, 1, REDEEMED_ORDER) != [] && ProfileOf(s, 1).balance == 25 && ProfileOf(s', 1).balance == 125
  {
    Redeemed(cal);
    YetEarns(Run(Redemption(cal)), cal);
  }

  lemma YetEarns(s: Store, cal: Calendar)
    requires ProfileOf(s, 1) == Holder(25, cal) && "purchase" !in s.processed
    requires Debits(s.ledger, 1, REDEEMED_ORDER) != []
    ensures ProfileOf(Apply(s, BuyTicket(DENYING_PURCHASE, cal, false)), 1).balance == 125
  {
    DenyingPurchaseCounts(s, cal);
    StatedFirst(s, DENYING_PURCHASE);
    AllPoints(s, DENYING_PURCHASE, cal);
  }

  /* ----- debits are never small ----- */

  lemma {:induction false} DebitsMeetMinimum(ops: seq<Op>, i: nat)
    requires i < |Run(ops).ledger| && Run(ops).ledger[i].kind == BURN_DISCOUNT
    ensures Run(ops).ledger[i].points <= -MINIMUM_DEDUCTION
  {
    if ops != [] {
      var before, op := ops[..|ops| - 1], ops[|ops| - 1];
      if i < |Run(before).ledger| { OldRow(Run(before), op, i); DebitsMeetMinimum(before, i); }
      else { NewDebit(Run(before), op, i); }
    }
  }

  lemma OldRow(s: Store, op: Op, i: nat)
    requires i < |s.ledger|
    ensures i < |Apply(s, op).ledger| && Apply(s, op).ledger[i] == s.ledger[i]
  {
  }

  lemma NewDebit(s: Store, op: Op, i: nat)
    requires |s.ledger| <= i < |Apply(s, op).ledger| && Apply(s, op).ledger[i].kind == BURN_DISCOUNT
    ensures Apply(s, op).ledger[i].points <= -MINIMUM_DEDUCTION
  {
    if !op.Deduct? { OnlyDeductionsDebit(s, op); }
  }

  lemma OnlyDeductionsDebit(s: Store, op: Op)
    requires !op.Deduct? && PlanOf(s, op).change.Some? && PlanOf(s, op).change.value.entry.Some?
    ensures PlanOf(s, op).change.value.entry.value.kind != BURN_DISCOUNT
  {
  }
}
