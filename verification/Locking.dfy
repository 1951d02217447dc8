/**
  Why one profile lock is enough. While a transaction holds a user's profile, transactions of other users
  may commit; nothing they write is read by the transaction, except a shared idempotency key.
 */
module Locking {
  import opened Options
  import opened Accounts
  import opened Transactions
  import opened Bookkeeping
  import opened Registers
  import opened History
  import opened Promises

  function UserOf(op: Op): Option<UserId> {
    match op
    case Deduct(cmd, _) => Some(cmd.user)
    case Refund(cmd, _) => Some(cmd.user)
    case BuyTicket(msg, _, _) => Some(msg.user)
    case NextMonth(_) => None
    case Aborted => None
    case _ => Some(op.user)
  }

  // Everything of a user that a transaction can read.
  ghost predicate SameFor(s: Store, s': Store, u: UserId) {
    (u in s.profiles <==> u in s'.profiles) && ProfileOf(s, u) == ProfileOf(s', u) && s.month == s'.month &&
    |s.ledger| <= |s'.ledger| && s'.ledger[..|s.ledger|] == s.ledger &&
    (forall i | |s.ledger| <= i < |s'.ledger| :: s'.ledger[i].user != u) &&
    (forall d | 0 <= d < |s.ledger| && s.ledger[d].user == u ::
      (d in s.checkout <==> d in s'.checkout) && (d in s.checkout ==> s.checkout[d] == s'.checkout[d])) &&
    (forall y :: (u, y) in s.grants <==> (u, y) in s'.grants) &&
    (forall o :: (u, o) in s.reservations <==> (u, o) in s'.reservations) &&
    (forall o | (u, o) in s.reservations :: s.reservations[(u, o)] == s'.reservations[(u, o)]) &&
    (forall a :: (u, a) in s.progress <==> (u, a) in s'.progress) &&
    (forall a | (u, a) in s.progress :: s.progress[(u, a)] == s'.progress[(u, a)])
  }

  lemma CommitElsewhere(s: Store, c: Change, u: UserId)
    requires c.user != u && Links(s) && Posted(s, c) && Linked(s, c)
    ensures SameFor(s, Commit(s, c), u)
  {
  }

  lemma SameOn(s: Store, s': Store, s'': Store, u: UserId)
    requires SameFor(s, s', u) && SameFor(s', s'', u)
    ensures SameFor(s, s'', u)
  {
    assert s''.ledger[..|s.ledger|] == s''.ledger[..|s'.ledger|][..|s.ledger|];
    forall i | |s.ledger| <= i < |s''.ledger| ensures s''.ledger[i].user != u {
      if i < |s'.ledger| { assert s''.ledger[i] == s''.ledger[..|s'.ledger|][i]; }
    }
    forall d | 0 <= d < |s.ledger| ensures s.ledger[d] == s'.ledger[d] {
      assert s.ledger[d] == s'.ledger[..|s.ledger|][d];
    }
  }

  predicate OtherUsers(ops: seq<Op>, u: UserId) {
    forall i | 0 <= i < |ops| :: UserOf(ops[i]) != Some(u) && !ops[i].NextMonth?
  }

  lemma {:induction false} OthersLeaveUser(s: Store, ops: seq<Op>, u: UserId)
    requires Attained(s) && OtherUsers(ops, u)
    ensures SameFor(s, RunFrom(s, ops), u)
  {
    if ops != [] {
      var before, op := ops[..|ops| - 1], ops[|ops| - 1];
      OthersLeaveUser(s, before, u);
      AttainedAlong(s, before);
      StepElsewhere(RunFrom(s, before), op, u);
      SameOn(s, RunFrom(s, before), RunFrom(s, ops), u);
    }
  }

  lemma StepElsewhere(s: Store, op: Op, u: UserId)
    requires Attained(s) && UserOf(op) != Some(u) && !op.NextMonth?
    ensures SameFor(s, Apply(s, op), u)
  {
    AttainedSound(s);
    AttainedLinks(s);
    PlanLegal(s, op);
    if PlanOf(s, op).change.Some? { PlanUser(s, op); }
    PlanElsewhere(s, PlanOf(s, op), u);
  }

  lemma PlanElsewhere(s: Store, p: Plan, u: UserId)
    requires Links(s) && LegalPlan(s, p) && (p.change.Some? ==> p.change.value.user != u)
    ensures SameFor(s, Execute(s, p), u)
  {
    if p.change.Some? { CommitElsewhere(s, p.change.value, u); }
  }

  lemma PlanUser(s: Store, op: Op)
    requires PlanOf(s, op).change.Some?
    ensures UserOf(op) == Some(PlanOf(s, op).change.value.user)
  {
  }

  lemma PlanPosted(s: Store, op: Op)
    requires Attained(s) && PlanOf(s, op).change.Some?
    ensures Posted(s, PlanOf(s, op).change.value) && UserOf(op) == Some(PlanOf(s, op).change.value.user)
  {
    AttainedSound(s);
    PlanLegal(s, op);
    PlanUser(s, op);
  }

  lemma {:induction false} SameDebits(ledger: seq<Entry>, more: seq<Entry>, u: UserId, o: OrderId)
    requires forall i | 0 <= i < |more| :: more[i].user != u
    ensures Debits(ledger + more, u, o) == Debits(ledger, u, o)
    decreases |more|
  {
    if more == [] {
      assert ledger + more == ledger;
    } else {
      var earlier := more[..|more| - 1];
      SameDebits(ledger, earlier, u, o);
      assert (ledger + more)[..|ledger + more| - 1] == ledger + earlier;
    }
  }

  lemma SameLedgerReads(s: Store, s': Store, u: UserId, o: OrderId)
    requires SameFor(s, s', u)
    ensures Debits(s'.ledger, u, o) == Debits(s.ledger, u, o)
    ensures HasRefund(s'.ledger, u, o) == HasRefund(s.ledger, u, o)
    ensures forall d | d in Debits(s.ledger, u, o) ::
      d < |s.ledger| && s.ledger[d] == s'.ledger[d] && s.ledger[d].user == u
  {
    var more := s'.ledger[|s.ledger|..];
    assert s'.ledger == s.ledger + more;
    SameDebits(s.ledger, more, u, o);
    forall i | 0 <= i < |s.ledger| ensures s.ledger[i] == s'.ledger[i] {
      assert s.ledger[i] == s'.ledger[..|s.ledger|][i];
    }
    if HasRefund(s.ledger, u, o) {
      var i :| 0 <= i < |s.ledger| && IsRefund(s.ledger[i], u, o);
      assert IsRefund(s'.ledger[i], u, o);
    }
  }

  // The key a transaction carries reads the same.
  predicate SameKey(s: Store, s': Store, op: Op) {
    CarriedKey(op).Some? ==>
      var k := CarriedKey(op).value;
      (k in s.processed <==> k in s'.processed) && (k in s.processed ==> s.processed[k] == s'.processed[k])
  }

  lemma CommandReads(s: Store, s': Store, op: Op)
    requires IsCommand(op) && SameFor(s, s', op.cmd.user) && SameKey(s, s', op)
    ensures PlanOf(s', op) == PlanOf(s, op)
  {
    if op.Refund? {
      RefundRows(s, s', Signed(op));
      RefundReads(s, s', Signed(op), op.missed);
    }
  }

  // All that a refund reads of its user.
  ghost predicate SameRefundRows(s: Store, s': Store, cmd: PointCommand) {
    (cmd.user in s.profiles <==> cmd.user in s'.profiles) && ProfileOf(s, cmd.user) == ProfileOf(s', cmd.user) &&
    Debits(s'.ledger, cmd.user, cmd.order) == Debits(s.ledger, cmd.user, cmd.order) &&
    HasRefund(s'.ledger, cmd.user, cmd.order) == HasRefund(s.ledger, cmd.user, cmd.order) &&
    forall d | d in Debits(s.ledger, cmd.user, cmd.order) ::
      d < |s.ledger| && d < |s'.ledger| && s.ledger[d] == s'.ledger[d] && SameLink(s, s', d)
  }

  predicate SameLink(s: Store, s': Store, d: nat) {
    (d in s.checkout <==> d in s'.checkout) && (d in s.checkout ==> s.checkout[d] == s'.checkout[d])
  }

  lemma RefundRows(s: Store, s': Store, cmd: PointCommand)
    requires SameFor(s, s', cmd.user)
    ensures SameRefundRows(s, s', cmd)
  {
    SameLedgerReads(s, s', cmd.user, cmd.order);
  }

  lemma RefundReads(s: Store, s': Store, cmd: PointCommand, missed: bool)
    requires SameRefundRows(s, s', cmd)
    requires (cmd.key in s.processed <==> cmd.key in s'.processed)
    requires (cmd.key in s.processed ==> s.processed[cmd.key] == s'.processed[cmd.key])
    ensures RefundPoints(s', cmd, missed) == RefundPoints(s, cmd, missed)
  {
    var debits := Debits(s.ledger, cmd.user, cmd.order);
    if |debits| == 1 { assert debits[0] in debits; }
  }

  lemma UsedReads(s: Store, s': Store, msg: TicketPurchase)
    requires SameFor(s, s', msg.user)
    ensures PointsUsed(s', msg) == PointsUsed(s, msg)
  {
    var debits := Debits(s.ledger, msg.user, msg.order);
    SameLedgerReads(s, s', msg.user, msg.order);
    if |debits| > 0 { assert debits[|debits| - 1] in debits; }
  }

  lemma EarnedReads(s: Store, s': Store, msg: TicketPurchase, cal: Calendar)
    requires ProfileOf(s, msg.user) == ProfileOf(s', msg.user) && PointsUsed(s', msg) == PointsUsed(s, msg)
    ensures PointsEarned(s', msg, cal) == PointsEarned(s, msg, cal)
  {
  }

  lemma PurchasePlanReads(s: Store, s': Store, msg: TicketPurchase, cal: Calendar, missed: bool)
    requires ProfileOf(s, msg.user) == ProfileOf(s', msg.user)
    requires PointsEarned(s', msg, cal) == PointsEarned(s, msg, cal)
    requires SameKey(s, s', BuyTicket(msg, cal, missed))
    ensures ProcessTicketPurchase(s', msg, cal, missed) == ProcessTicketPurchase(s, msg, cal, missed)
  {
  }

  lemma PurchaseReads(s: Store, s': Store, op: Op)
    requires op.BuyTicket? && SameFor(s, s', op.msg.user) && SameKey(s, s', op)
    ensures PlanOf(s', op) == PlanOf(s, op)
  {
    UsedReads(s, s', op.msg);
    EarnedReads(s, s', op.msg, op.cal);
    PurchasePlanReads(s, s', op.msg, op.cal, op.missed);
  }

  lemma GoldReads(s: Store, s': Store, op: Op)
    requires (op.UseGold? || op.RollbackGold? || op.ResetGold?) && SameFor(s, s', op.user)
    ensures PlanOf(s', op) == PlanOf(s, op)
  {
    SameOccupied(s, s', op.user);
  }

  lemma GrantReads(s: Store, s': Store, op: Op)
    requires (op.SetDateOfBirth? || op.GrantBonus? || op.Achieve?) && SameFor(s, s', op.user) && SameKey(s, s', op)
    ensures PlanOf(s', op) == PlanOf(s, op)
  {
  }

  lemma ProfileReads(s: Store, s': Store, op: Op)
    requires op.Expire? || op.ResetYear? || op.Adjust? || op.GrantVip? || op.OpenAccount?
    requires (op.user in s.profiles <==> op.user in s'.profiles) && ProfileOf(s, op.user) == ProfileOf(s', op.user)
    ensures PlanOf(s', op) == PlanOf(s, op)
  {
  }

  // So a transaction that read its user's rows earlier answers and writes the same at its commit.
  lemma ReadsAreStable(s: Store, s': Store, op: Op)
    requires UserOf(op).Some? && SameFor(s, s', UserOf(op).value) && SameKey(s, s', op)
    ensures PlanOf(s', op) == PlanOf(s, op)
  {
    if IsCommand(op) { CommandReads(s, s', op); }
    else if op.BuyTicket? { PurchaseReads(s, s', op); }
    else if op.UseGold? || op.RollbackGold? || op.ResetGold? { GoldReads(s, s', op); }
    else if op.SetDateOfBirth? || op.GrantBonus? || op.Achieve? { GrantReads(s, s', op); }
    else { ProfileReads(s, s', op); }
  }

  lemma SameOccupied(s: Store, s': Store, u: UserId)
    requires SameFor(s, s', u)
    ensures Occupied(s, u, s.month) <==> Occupied(s', u, s.month)
  {
    forall o: OrderId ensures Occupies(s, u, s.month, o) <==> Occupies(s', u, s.month, o) {}
  }

  // The lock theorem: whatever other users' transactions commit between a transaction's reads and its
  // commit, its plan is the one made from the rows it read, unless they took its key.
  lemma LockCoversReads(ops: seq<Op>, others: seq<Op>, op: Op)
    requires UserOf(op).Some? && OtherUsers(others, UserOf(op).value)
    requires SameKey(Run(ops), RunFrom(Run(ops), others), op)
    ensures PlanOf(RunFrom(Run(ops), others), op) == PlanOf(Run(ops), op)
  {
    AttainedRun(ops);
    OthersLeaveUser(Run(ops), others, UserOf(op).value);
    ReadsAreStable(Run(ops), RunFrom(Run(ops), others), op);
  }
}
