/**
  What each command of the points economy is answered on every run, decided by the rows of the tables: when it
  succeeds, what it then changes, and why it is refused.
 */
module Answers {
  import opened Options
  import opened Accounts
  import opened Transactions
  import opened Bookkeeping
  import opened Registers
  import opened History
  import opened Promises
  import opened RoundTrips

  /* ----- requests ----- */

  predicate WholeAmount(amount: real, n: int) {
    1 <= n <= 2147483647 && amount == n as real
  }

  // A request is a command exactly if its ids are UUIDs, its amount is a whole number from 1 to 2147483647 and its
  // key has 1 to 128 characters; the command is the request, field by field.
  lemma RequestIsCommand(raw: RawCommand)
    ensures ParsePointCommand(raw).Some? <==>
      raw.user.Some? && raw.order.Some? && 1 <= |raw.key| <= 128 &&
      exists n :: WholeAmount(raw.amount, n)
    ensures ParsePointCommand(raw).Some? ==>
      var cmd := ParsePointCommand(raw).value;
      raw.operation == cmd.operation && raw.user == Some(cmd.user) && raw.order == Some(cmd.order) &&
      raw.amount == cmd.amount as real && raw.key == cmd.key
  {
    if n :| WholeAmount(raw.amount, n) { assert raw.amount.Floor == n; }
    else if 1 <= raw.amount.Floor <= 2147483647 { assert !WholeAmount(raw.amount, raw.amount.Floor); }
  }

  // A command whose key is taken is answered from the key alone and changes nothing.
  lemma TakenKeyAnswers(s: Store, op: Op)
    requires IsCommand(op) && !op.missed && op.cmd.key in s.processed
    ensures Apply(s, op) == s
    ensures PlanOf(s, op).response ==
      match s.processed[op.cmd.key]
      case EventKey => Rejected(LegacyIdempotency, 0)
      case CommandKey(operation, user, order, amount, balanceAfter) =>
        if Signed(op) == PointCommand(operation, user, order, amount, op.cmd.key) then Success(balanceAfter)
        else Rejected(IdempotencyConflict, 0)
  {
  }

  // A purchase whose key is taken changes no account: it is done already, or the key belongs to a command.
  lemma TakenPurchaseAnswers(s: Store, msg: TicketPurchase, cal: Calendar)
    requires msg.eventId in s.processed
    ensures SameAccounts(s, Apply(s, BuyTicket(msg, cal, false)))
    ensures PlanOf(s, BuyTicket(msg, cal, false)).response ==
      if s.processed[msg.eventId] == EventKey then Done else Thrown(IdempotencyConflict)
  {
    TakenKeyHasNoEffect(s, BuyTicket(msg, cal, false));
  }

  /* ----- deductions ----- */

  // The row that a command leaves in the table of keys.
  function ResultRow(cmd: PointCommand, balance: int): Processed {
    CommandKey(cmd.operation, cmd.user, cmd.order, cmd.amount, balance)
  }

  function Deducted(s: Store, cmd: PointCommand): Store {
    var p := ProfileOf(s, cmd.user);
    var balance := p.balance - cmd.amount;
    s.(profiles := s.profiles[cmd.user := p.(balance := balance)],
       ledger := s.ledger +
         [Entry(cmd.user, BURN_DISCOUNT, -cmd.amount, balance, Some(cmd.order), Command(cmd.key))],
       processed := s.processed[cmd.key := ResultRow(cmd, balance)],
       checkout := s.checkout[|s.ledger| := None])
  }

  function DeductionAnswer(s: Store, cmd: PointCommand): Response {
    var balance := ProfileOf(s, cmd.user).balance;
    if 75 <= cmd.amount <= balance then Success(balance - cmd.amount)
    else if cmd.amount < 75 then Rejected(MinimumDeduction, 0)
    else if cmd.user in s.profiles then Rejected(InsufficientPoints, balance)
    else Thrown(ProfileNotFound)
  }

  // A deduction under a new key succeeds exactly if it takes at least 75 points and the balance covers it.
  lemma DeductionAnswers(ops: seq<Op>, cmd: PointCommand, missed: bool)
    requires cmd.operation == DEDUCT && 1 <= cmd.amount <= 2147483647 && cmd.key !in Run(ops).processed
    ensures
      var s := Run(ops);
      var r := PlanOf(s, Deduct(cmd, missed)).response;
      r == DeductionAnswer(s, cmd) && (r.Success? <==> 75 <= cmd.amount <= ProfileOf(s, cmd.user).balance) &&
      Apply(s, Deduct(cmd, missed)) == (if r.Success? then Deducted(s, cmd) else s)
  {
    AttainedRun(ops);
    AttainedFits(Run(ops), cmd.user);
    DeductionOf(Run(ops), cmd, missed);
  }

  lemma DeductionOf(s: Store, cmd: PointCommand, missed: bool)
    requires cmd.operation == DEDUCT && 1 <= cmd.amount <= 2147483647 && cmd.key !in s.processed
    requires ProfileFits(ProfileOf(s, cmd.user))
    ensures var plan := PlanOf(s, Deduct(cmd, missed));
      plan.response == DeductionAnswer(s, cmd) &&
      (if plan.response.Success? then Execute(s, plan) == Deducted(s, cmd) else plan.change.None?)
  {
  }

  /* ----- refunds ----- */

  // The order's only debit is this row of the ledger.
  ghost predicate OnlyBurn(s: Store, u: UserId, o: OrderId, d: nat) {
    d < |s.ledger| && IsBurn(s.ledger[d], u, o) && forall i | 0 <= i < |s.ledger| && IsBurn(s.ledger[i], u, o) :: i == d
  }

  ghost predicate Burnt(s: Store, u: UserId, o: OrderId) {
    exists i | 0 <= i < |s.ledger| :: IsBurn(s.ledger[i], u, o)
  }

  lemma {:induction false} DebitsAscend(ledger: seq<Entry>, u: UserId, o: OrderId)
    ensures forall j, k | 0 <= j < k < |Debits(ledger, u, o)| :: Debits(ledger, u, o)[j] < Debits(ledger, u, o)[k]
  {
    if ledger != [] { DebitsAscend(ledger[..|ledger| - 1], u, o); }
  }

  lemma SoleDebit(s: Store, u: UserId, o: OrderId)
    requires Links(s)
    ensures var debits := Debits(s.ledger, u, o);
      if |debits| == 0 then !Burnt(s, u, o)
      else if |debits| == 1 then OnlyBurn(s, u, o, debits[0])
      else Burnt(s, u, o) && forall d: nat :: !OnlyBurn(s, u, o, d)
  {
    var debits := Debits(s.ledger, u, o);
    BurnsAreDebits(s, u, o);
    DebitsAscend(s.ledger, u, o);
    forall i | 0 <= i < |s.ledger| && IsBurn(s.ledger[i], u, o) ensures i in debits {
      assert i in s.checkout;
      DebitListed(s.ledger, i, u, o);
    }
    if |debits| > 1 {
      assert IsDebit(s.ledger[debits[0]], u, o) && IsDebit(s.ledger[debits[1]], u, o) && debits[0] < debits[1];
    }
  }

  // Every ledger row belongs to a user who has a profile.
  predicate Owned(s: Store) {
    forall i | 0 <= i < |s.ledger| :: s.ledger[i].user in s.profiles
  }

  lemma OwnedStep(s: Store, op: Op)
    requires Sound(s) && Owned(s)
    ensures Owned(Apply(s, op))
  {
    PlanLegal(s, op);
  }

  lemma {:induction false} RowsAreOwned(ops: seq<Op>)
    ensures Owned(Run(ops))
  {
    if ops != [] {
      RowsAreOwned(ops[..|ops| - 1]);
      AttainedRun(ops[..|ops| - 1]);
      AttainedSound(Run(ops[..|ops| - 1]));
      OwnedStep(Run(ops[..|ops| - 1]), ops[|ops| - 1]);
    }
  }

  // An open debit is part of what is open, so the refund stays within the lifetime points.
  lemma {:induction false} OpenDebitCounts(s: Store, u: UserId, d: nat, n: nat)
    requires Links(s) && d < n <= |s.ledger| && s.ledger[d].user == u && d in s.checkout && s.checkout[d].None?
    ensures -s.ledger[d].points <= Open(OfUser(u), s.ledger, s.checkout, n)
    decreases n
  {
    if d == n - 1 { OpenNonNegative(OfUser(u), s, n - 1); } else { OpenDebitCounts(s, u, d, n - 1); }
  }

  lemma ClosedHasRefund(s: Store, u: UserId, o: OrderId, d: nat)
    requires Links(s) && Closed(s) && d < |s.ledger| && IsBurn(s.ledger[d], u, o) && d in s.checkout
    requires s.checkout[d].Some?
    ensures HasRefund(s.ledger, u, o)
  {
    assert IsRefund(s.ledger[s.checkout[d].value], u, o);
  }

  lemma UnrefundedIsOpen(s: Store, u: UserId, o: OrderId, d: nat)
    requires Links(s) && Closed(s) && OnlyBurn(s, u, o, d) && !HasRefund(s.ledger, u, o)
    ensures d in s.checkout && s.checkout[d].None? && s.ledger[d].points < 0
  {
    assert d in s.checkout;
    if s.checkout[d].Some? { ClosedHasRefund(s, u, o, d); }
  }

  function Refunded(s: Store, cmd: PointCommand, d: nat): Store {
    var p := ProfileOf(s, cmd.user);
    var balance := p.balance + cmd.amount;
    s.(profiles := s.profiles[cmd.user := p.(balance := balance)],
       ledger := s.ledger + [Entry(cmd.user, REFUND, cmd.amount, balance, Some(cmd.order), Command(cmd.key))],
       processed := s.processed[cmd.key := ResultRow(cmd, balance)],
       checkout := s.checkout[d := Some(|s.ledger|)])
  }

  // The order has one debit, of exactly this amount, and no refund yet.
  ghost predicate RefundDue(s: Store, cmd: PointCommand, d: nat) {
    OnlyBurn(s, cmd.user, cmd.order, d) && s.ledger[d].points == -cmd.amount &&
    !HasRefund(s.ledger, cmd.user, cmd.order)
  }

  lemma RefundOf(s: Store, cmd: PointCommand, missed: bool, d: nat)
    requires cmd.operation == REFUNDING && 1 <= cmd.amount <= 2147483647 && cmd.key !in s.processed
    requires Debits(s.ledger, cmd.user, cmd.order) == [d] && d < |s.ledger| && s.ledger[d].points == -cmd.amount
    requires !HasRefund(s.ledger, cmd.user, cmd.order) && d in s.checkout && s.checkout[d].None?
    requires cmd.user in s.profiles && ProfileFits(s.profiles[cmd.user])
    requires 0 <= s.profiles[cmd.user].balance <= 2147483647 - cmd.amount
    ensures var plan := PlanOf(s, Refund(cmd, missed));
      plan.response == Success(s.profiles[cmd.user].balance + cmd.amount) && Execute(s, plan) == Refunded(s, cmd, d)
  {
  }

  // A refund under a new key succeeds exactly if the order has one debit, of its amount, and no refund; it closes
  // that debit. Its amount always fits.
  lemma RefundSucceedsExactly(ops: seq<Op>, cmd: PointCommand, missed: bool)
    requires cmd.operation == REFUNDING && 1 <= cmd.amount <= 2147483647 && cmd.key !in Run(ops).processed
    ensures
      var s := Run(ops);
      var r := PlanOf(s, Refund(cmd, missed)).response;
      (r.Success? <==> exists d: nat :: RefundDue(s, cmd, d)) &&
      (forall d: nat | RefundDue(s, cmd, d) :: r == Success(ProfileOf(s, cmd.user).balance + cmd.amount) &&
        Apply(s, Refund(cmd, missed)) == Refunded(s, cmd, d))
  {
    var s := Run(ops);
    forall d: nat | RefundDue(s, cmd, d)
      ensures PlanOf(s, Refund(cmd, missed)).response == Success(ProfileOf(s, cmd.user).balance + cmd.amount)
      ensures Apply(s, Refund(cmd, missed)) == Refunded(s, cmd, d)
    {
      DueRefundSucceeds(ops, cmd, missed, d);
    }
    if PlanOf(s, Refund(cmd, missed)).response.Success? {
      AttainedRun(ops);
      AttainedLinks(s);
      SuccessWasDue(s, cmd, missed);
    }
  }

  lemma DueRefundSucceeds(ops: seq<Op>, cmd: PointCommand, missed: bool, d: nat)
    requires cmd.operation == REFUNDING && 1 <= cmd.amount <= 2147483647 && cmd.key !in Run(ops).processed
    requires RefundDue(Run(ops), cmd, d)
    ensures var plan := PlanOf(Run(ops), Refund(cmd, missed));
      plan.response == Success(ProfileOf(Run(ops), cmd.user).balance + cmd.amount) &&
      Execute(Run(ops), plan) == Refunded(Run(ops), cmd, d)
  {
    var s := Run(ops);
    RowsAreOwned(ops);
    OneOpenDebit(ops, cmd.user, cmd.order, d);
    RefundOf(s, cmd, missed, d);
  }

  lemma OneOpenDebit(ops: seq<Op>, u: UserId, o: OrderId, d: nat)
    requires OnlyBurn(Run(ops), u, o, d) && !HasRefund(Run(ops).ledger, u, o)
    ensures
      var s := Run(ops);
      Debits(s.ledger, u, o) == [d] && d in s.checkout && s.checkout[d].None? && ProfileFits(ProfileOf(s, u)) &&
      0 <= ProfileOf(s, u).balance <= 2147483647 + s.ledger[d].points
  {
    var s := Run(ops);
    Reachable(ops);
    SoleDebit(s, u, o);
    UnrefundedIsOpen(s, u, o, d);
    OpenDebitCounts(s, u, d, |s.ledger|);
    assert ProfileFits(ProfileOf(s, u));
  }

  lemma SuccessWasDue(s: Store, cmd: PointCommand, missed: bool)
    requires Links(s) && cmd.operation == REFUNDING && cmd.key !in s.processed
    requires PlanOf(s, Refund(cmd, missed)).response.Success?
    ensures exists d: nat :: RefundDue(s, cmd, d)
  {
    SoleDebit(s, cmd.user, cmd.order);
    assert RefundDue(s, cmd, Debits(s.ledger, cmd.user, cmd.order)[0]);
  }

  ghost function RefundRefusal(s: Store, cmd: PointCommand): Response {
    if cmd.user !in s.profiles then Rejected(ProfileNotFound, 0)
    else if !Burnt(s, cmd.user, cmd.order) then Rejected(DebitNotFound, 0)
    else if forall d: nat :: !OnlyBurn(s, cmd.user, cmd.order, d) then Rejected(Reconciliation, 0)
    else if HasRefund(s.ledger, cmd.user, cmd.order) then Rejected(AlreadyCompensated, 0)
    else Rejected(AmountMismatch, 0)
  }

  // Why a refund is refused.
  lemma RefundRefused(ops: seq<Op>, cmd: PointCommand, missed: bool)
    requires cmd.operation == REFUNDING && cmd.key !in Run(ops).processed
    requires forall d: nat :: !RefundDue(Run(ops), cmd, d)
    ensures
      var s := Run(ops);
      Apply(s, Refund(cmd, missed)) == s && PlanOf(s, Refund(cmd, missed)).response == RefundRefusal(s, cmd)
  {
    BooksOfLinks(ops);
    RefusalOf(Run(ops), cmd, missed, Debits(Run(ops).ledger, cmd.user, cmd.order));
  }

  lemma BooksOfLinks(ops: seq<Op>)
    ensures Links(Run(ops)) && Closed(Run(ops))
  {
    Reachable(ops);
  }

  lemma RefusalOf(s: Store, cmd: PointCommand, missed: bool, debits: seq<nat>)
    requires Links(s) && Closed(s) && cmd.operation == REFUNDING && cmd.key !in s.processed
    requires debits == Debits(s.ledger, cmd.user, cmd.order) && forall d: nat :: !RefundDue(s, cmd, d)
    ensures PlanOf(s, Refund(cmd, missed)) == Plan(RefundRefusal(s, cmd), None)
  {
    SoleDebit(s, cmd.user, cmd.order);
    if |debits| == 1 {
      assert OnlyBurn(s, cmd.user, cmd.order, debits[0]) && !RefundDue(s, cmd, debits[0]);
      if !HasRefund(s.ledger, cmd.user, cmd.order) { UnrefundedIsOpen(s, cmd.user, cmd.order, debits[0]); }
    }
  }

  /* ----- the administrator ----- */

  function Adjusted(s: Store, u: UserId, points: int, cal: Calendar, tier: Tier): Profile {
    var p := ProfileOf(s, u);
    var gained := if points > 0 then points else 0;
    Profile(tier, p.balance + points, p.lifetimePoints + gained, p.yearPoints + gained, p.yearVisits,
      if points > 0 then Some(cal.inAYear) else p.balanceExpiresAt, p.birthdayDate, p.goldUpgradeUsedMonth)
  }

  predicate CanAdjust(p: Profile, points: int) {
    points != 0 && p.balance + points >= 0 &&
    (points > 0 ==> p.lifetimePoints + points <= 2147483647 && p.yearPoints + points <= 2147483647)
  }

  function AdjustmentAnswer(p: Profile, points: int): Response {
    if CanAdjust(p, points) then Success(p.balance + points)
    else if points == 0 then Thrown(ZeroPoints)
    else if p.balance + points < 0 then Thrown(InsufficientPoints)
    else Thrown(OutOfRange)
  }

  predicate AdjustmentMade(s: Store, s': Store, u: UserId, points: int, cal: Calendar) {
    var p' := ProfileOf(s', u);
    p' == Adjusted(s, u, points, cal, p'.tier) && s'.ledger == s.ledger +
      [Entry(u, if points > 0 then ADMIN_ADDITION else ADMIN_DEDUCTION, points, p'.balance, None, Unkeyed)]
  }

  // An adjustment goes through exactly if it is not zero, leaves no negative balance, and an addition leaves the
  // lifetime and the year's points in their columns; only an addition counts for them and renews the expiry.
  lemma AdjustmentAnswers(ops: seq<Op>, u: UserId, points: int, cal: Calendar)
    ensures
      var s := Run(ops);
      var s' := Apply(s, Adjust(u, points, cal));
      PlanOf(s, Adjust(u, points, cal)).response == AdjustmentAnswer(ProfileOf(s, u), points) &&
      if CanAdjust(ProfileOf(s, u), points) then AdjustmentMade(s, s', u, points, cal) else s' == s
  {
    Conservation(ops, u);
    AttainedRun(ops);
    AttainedFits(Run(ops), u);
    AdjustmentOf(Run(ops), u, points, cal);
  }

  lemma AdjustmentOf(s: Store, u: UserId, points: int, cal: Calendar)
    requires ProfileFits(ProfileOf(s, u)) && 0 <= ProfileOf(s, u).balance <= ProfileOf(s, u).lifetimePoints
    ensures
      var s' := Apply(s, Adjust(u, points, cal));
      PlanOf(s, Adjust(u, points, cal)).response == AdjustmentAnswer(ProfileOf(s, u), points) &&
      if CanAdjust(ProfileOf(s, u), points) then AdjustmentMade(s, s', u, points, cal) else s' == s
  {
  }

  /* ----- the Gold upgrade ----- */

  // Some order holds the user's upgrade of this month.
  ghost predicate HeldThisMonth(s: Store, u: UserId) {
    exists o :: (u, o) in s.reservations && s.reservations[(u, o)].month == s.month && !s.reservations[(u, o)].released
  }

  lemma OccupiedIsHeld(s: Store, u: UserId)
    ensures Occupied(s, u, s.month) <==> HeldThisMonth(s, u)
  {
    if o :| (u, o) in s.reservations && s.reservations[(u, o)].month == s.month && !s.reservations[(u, o)].released {
      assert Occupies(s, u, s.month, (u, o).1);
    }
  }

  ghost function UseAnswer(s: Store, u: UserId, o: OrderId): Response {
    if u !in s.profiles then Thrown(ProfileNotFound)
    else if (u, o) in s.reservations then
      if s.reservations[(u, o)].released then Rejected(GoldReservationReleased, 0) else Done
    else if s.profiles[u].tier != GOLD then Rejected(NotGoldTier, 0)
    else if HeldThisMonth(s, u) then Rejected(GoldQuotaExceeded, 0)
    else Done
  }

  // An order that was used before gets the answer of its reservation, active or released, and changes nothing,
  // whatever the month and the tier are by then; a new order of a GOLD user takes the month's upgrade exactly if
  // none holds it.
  lemma UseAnswers(ops: seq<Op>, u: UserId, o: OrderId)
    ensures
      var s := Run(ops);
      PlanOf(s, UseGold(u, o)).response == UseAnswer(s, u, o) &&
      Apply(s, UseGold(u, o)) ==
        if UseAnswer(s, u, o) == Done && (u, o) !in s.reservations then
          s.(profiles := s.profiles[u := ProfileOf(s, u).(goldUpgradeUsedMonth := Some(s.month))],
             reservations := s.reservations[(u, o) := Reservation(s.month, false)])
        else s
  {
    MirrorIsHeld(ops, u);
    OccupiedIsHeld(Run(ops), u);
    UseOf(Run(ops), u, o);
  }

  lemma MirrorIsHeld(ops: seq<Op>, u: UserId)
    ensures ProfileOf(Run(ops), u).goldUpgradeUsedMonth == Some(Run(ops).month) ==> HeldThisMonth(Run(ops), u)
  {
    GoldQuota(ops, u);
    OccupiedIsHeld(Run(ops), u);
  }

  lemma UseOf(s: Store, u: UserId, o: OrderId)
    requires Occupied(s, u, s.month) <==> HeldThisMonth(s, u)
    requires ProfileOf(s, u).goldUpgradeUsedMonth == Some(s.month) ==> HeldThisMonth(s, u)
    ensures
      PlanOf(s, UseGold(u, o)).response == UseAnswer(s, u, o) &&
      Apply(s, UseGold(u, o)) ==
        if UseAnswer(s, u, o) == Done && (u, o) !in s.reservations then
          s.(profiles := s.profiles[u := ProfileOf(s, u).(goldUpgradeUsedMonth := Some(s.month))],
             reservations := s.reservations[(u, o) := Reservation(s.month, false)])
        else s
  {
  }

  // A rollback releases an active reservation, whatever its month, once; the mirror on the profile is cleared only
  // if it names that month.
  lemma RollbackAnswers(s: Store, u: UserId, o: OrderId)
    ensures
      var held := u in s.profiles && (u, o) in s.reservations && !s.reservations[(u, o)].released;
      var r := PlanOf(s, RollbackGold(u, o)).response;
      (r.Done? <==> u in s.profiles && (u, o) in s.reservations) &&
      (!r.Done? ==> r == Rejected(if u in s.profiles then GoldReservationNotFound else ProfileNotFound, 0)) &&
      Apply(s, RollbackGold(u, o)) == if held then Released(s, u, o) else s
  {
  }

  function Released(s: Store, u: UserId, o: OrderId): Store
    requires u in s.profiles && (u, o) in s.reservations
  {
    var p, r := s.profiles[u], s.reservations[(u, o)];
    var mirror := if p.goldUpgradeUsedMonth == Some(r.month) then None else p.goldUpgradeUsedMonth;
    s.(profiles := s.profiles[u := p.(goldUpgradeUsedMonth := mirror)],
       reservations := s.reservations[(u, o) := Reservation(r.month, true)])
  }

  /* ----- the birthday bonus ----- */

  // It is the user's birthday, in a year not granted yet, and the columns have room for 100 points more.
  predicate BonusDue(s: Store, u: UserId, cal: Calendar) {
    u in s.profiles && s.profiles[u].birthdayDate.Some? && cal.birthdayToday(s.profiles[u].birthdayDate.value) &&
    (u, cal.year) !in s.grants
  }

  predicate BonusFits(p: Profile, cal: Calendar) {
    p.lifetimePoints + 100 <= 2147483647 && p.yearPoints + 100 <= 2147483647 && -32768 <= cal.year <= 32767
  }

  predicate BonusGiven(s: Store, s': Store, u: UserId, cal: Calendar) {
    var p, p' := ProfileOf(s, u), ProfileOf(s', u);
    p' == Profile(p'.tier, p.balance + 100, p.lifetimePoints + 100, p.yearPoints + 100, p.yearVisits,
      Some(cal.inAYear), p.birthdayDate, p.goldUpgradeUsedMonth) &&
    s'.ledger == s.ledger + [Entry(u, EARN_BIRTHDAY, 100, p'.balance, None, Birthday(cal.year))] &&
    s'.grants == s.grants[(u, cal.year) := |s.ledger|]
  }

  // The bonus of 100 points is given exactly when it is due and fits, and otherwise nothing changes.
  lemma BonusAnswers(ops: seq<Op>, u: UserId, cal: Calendar)
    ensures
      var s := Run(ops);
      var s' := Apply(s, GrantBonus(u, cal));
      var r := PlanOf(s, GrantBonus(u, cal)).response;
      if BonusDue(s, u, cal) && BonusFits(ProfileOf(s, u), cal)
      then r == Success(ProfileOf(s, u).balance + 100) && BonusGiven(s, s', u, cal)
      else SameAccounts(s, s') && (r == Thrown(OutOfRange) <==> BonusDue(s, u, cal)) && !r.Success?
  {
    Conservation(ops, u);
    AttainedRun(ops);
    AttainedFits(Run(ops), u);
    BonusOf(Run(ops), u, cal);
  }

  lemma BonusOf(s: Store, u: UserId, cal: Calendar)
    requires ProfileFits(ProfileOf(s, u)) && 0 <= ProfileOf(s, u).balance <= ProfileOf(s, u).lifetimePoints
    ensures
      var s' := Apply(s, GrantBonus(u, cal));
      var r := PlanOf(s, GrantBonus(u, cal)).response;
      if BonusDue(s, u, cal) && BonusFits(ProfileOf(s, u), cal)
      then r == Success(ProfileOf(s, u).balance + 100) && BonusGiven(s, s', u, cal)
      else SameAccounts(s, s') && (r == Thrown(OutOfRange) <==> BonusDue(s, u, cal)) && !r.Success?
  {
    OpeningChangesNothing(s, u);
  }

  /* ----- achievement steps ----- */

  predicate InColumn(n: int) {
    -2147483648 <= n <= 2147483647
  }

  // The step would leave a column: its progress, its target, or the reward it unlocks.
  predicate StepOverflows(s: Store, u: UserId, a: Achievement, incrementBy: int) {
    var current := (if (u, a.id) in s.progress then s.progress[(u, a.id)].current else 0) + incrementBy;
    !InColumn(current) || !InColumn(a.target) ||
    (current >= a.target && a.rewardPoints > 0 && ProfileOf(s, u).lifetimePoints + a.rewardPoints > 2147483647)
  }

  // A delivery fails exactly if its key belongs to a command, or if it is new, the achievement is still locked and
  // the step would leave a column; then it changes nothing, and otherwise it leaves its key behind.
  lemma DeliveryFailsExactly(ops: seq<Op>, u: UserId, eventId: Key, a: Achievement, incrementBy: int)
    ensures
      var s := Run(ops);
      var op := Achieve(u, eventId, a, incrementBy);
      var key := AchievementKey(eventId, a.id);
      var locked := (u, a.id) in s.progress ==> !s.progress[(u, a.id)].unlocked;
      (PlanOf(s, op).response.Thrown? <==>
        if key in s.processed then s.processed[key] != EventKey else locked && StepOverflows(s, u, a, incrementBy)) &&
      if PlanOf(s, op).response.Thrown? then Apply(s, op) == s
      else key in Apply(s, op).processed && Apply(s, op).processed[key] == EventKey
  {
    Conservation(ops, u);
    AttainedRun(ops);
    AttainedFits(Run(ops), u);
    DeliveryOf(Run(ops), u, eventId, a, incrementBy);
  }

  lemma DeliveryOf(s: Store, u: UserId, eventId: Key, a: Achievement, incrementBy: int)
    requires ProfileFits(ProfileOf(s, u)) && 0 <= ProfileOf(s, u).balance <= ProfileOf(s, u).lifetimePoints
    ensures
      var op := Achieve(u, eventId, a, incrementBy);
      var key := AchievementKey(eventId, a.id);
      var locked := (u, a.id) in s.progress ==> !s.progress[(u, a.id)].unlocked;
      (PlanOf(s, op).response.Thrown? <==>
        if key in s.processed then s.processed[key] != EventKey else locked && StepOverflows(s, u, a, incrementBy)) &&
      if PlanOf(s, op).response.Thrown? then Apply(s, op) == s
      else key in Apply(s, op).processed && Apply(s, op).processed[key] == EventKey
  {
  }
}
