/**
  Every writer of the points economy in one machine: a run is any sequence of transactions of any users,
  in the order they commit, with the months passing in between. Retried and crashed transactions are steps
  that leave no trace.
 */
module History {
  import opened Options
  import opened Accounts
  import opened Transactions
  import opened Bookkeeping
  import opened Registers

  datatype Op =
    | Deduct(cmd: PointCommand, missed: bool)
    | Refund(cmd: PointCommand, missed: bool)
    | BuyTicket(msg: TicketPurchase, cal: Calendar, missed: bool)
    | SetDateOfBirth(user: UserId, date: int, cal: Calendar)
    | GrantBonus(user: UserId, cal: Calendar)
    | Achieve(user: UserId, eventId: Key, achievement: Achievement, incrementBy: int)
    | Expire(user: UserId, now: int)
    | ResetYear(user: UserId)
    | Adjust(user: UserId, points: int, cal: Calendar)
    | GrantVip(user: UserId)
    | OpenAccount(user: UserId)
    | UseGold(user: UserId, order: OrderId)
    | RollbackGold(user: UserId, order: OrderId)
    | ResetGold(user: UserId)
    | NextMonth(month: int)
    | Aborted

  function PlanOf(s: Store, op: Op): Plan {
    match op
    case Deduct(cmd, missed) => DeductPoints(s, cmd.(operation := DEDUCT), missed)
    case Refund(cmd, missed) => RefundPoints(s, cmd.(operation := REFUNDING), missed)
    case BuyTicket(msg, cal, missed) => ProcessTicketPurchase(s, msg, cal, missed)
    case SetDateOfBirth(u, date, cal) => ProcessDateOfBirth(s, u, date, cal)
    case GrantBonus(u, cal) => GrantBirthdayBonusForUser(s, u, cal)
    case Achieve(u, eventId, a, incrementBy) => ProcessAchievement(s, u, eventId, a, incrementBy)
    case Expire(u, now) => ExpirePoints(s, u, now)
    case ResetYear(u) => ResetAnnualStats(s, u)
    case Adjust(u, points, cal) => ModifyPoints(s, u, points, cal)
    case GrantVip(u) => GrantVipStatus(s, u)
    case OpenAccount(u) => OpenProfile(s, u)
    case UseGold(u, o) => UseGoldUpgrade(s, u, o)
    case RollbackGold(u, o) => RollbackGoldUpgrade(s, u, o)
    case ResetGold(u) => GoldReset(s, u)
    case NextMonth(_) => Plan(Done, None)
    case Aborted => Throw(OutOfRange)
  }

  function Apply(s: Store, op: Op): Store {
    if op.NextMonth? then (if op.month >= s.month then s.(month := op.month) else s)
    else Execute(s, PlanOf(s, op))
  }

  function RunFrom(s: Store, ops: seq<Op>): Store {
    if ops == [] then s else Apply(RunFrom(s, ops[..|ops| - 1]), ops[|ops| - 1])
  }

  function Run(ops: seq<Op>): Store {
    RunFrom(Empty, ops)
  }

  /* ----- each transaction writes a legal change ----- */

  ghost predicate Legal(s: Store, c: Change) {
    Posted(s, c) && Linked(s, c) && Keyed(s, c) && Tiered(s, c) && Reserved(s, c) && Granted(s, c) &&
      Progressed(s, c) && Fits(c)
  }

  ghost predicate LegalPlan(s: Store, p: Plan) {
    p.change.Some? ==> Legal(s, p.change.value)
  }

  // What the transactions rely on.
  ghost predicate Sound(s: Store) {
    BalanceBooks(s) && Tiers(s) && Columns(s)
  }

  lemma OnlyLegal(s: Store, u: UserId, p: Profile)
    requires Sound(s) && p.balance == ProfileOf(s, u).balance && p.lifetimePoints == ProfileOf(s, u).lifetimePoints
    requires p.tier == ProfileOf(s, u).tier && p.goldUpgradeUsedMonth == ProfileOf(s, u).goldUpgradeUsedMonth
    requires Rank(CalculateTier(p.yearVisits, p.yearPoints)) <= Rank(p.tier) && ProfileFits(p)
    ensures Legal(s, Only(u, p))
  {
  }

  lemma DeductLegal(s: Store, cmd: PointCommand, missed: bool)
    requires Sound(s) && cmd.operation == DEDUCT
    ensures LegalPlan(s, DeductPoints(s, cmd, missed))
  {
  }

  lemma RefundLegal(s: Store, cmd: PointCommand, missed: bool)
    requires Sound(s) && cmd.operation == REFUNDING
    ensures LegalPlan(s, RefundPoints(s, cmd, missed))
  {
  }

  lemma PurchaseBooks(s: Store, msg: TicketPurchase, earned: int, cal: Calendar)
    requires Sound(s) && earned >= 0
    ensures var c := PurchaseChange(ProfileOf(s, msg.user), msg, earned, cal);
      Posted(s, c) && Linked(s, c) && Tiered(s, c)
  {
  }

  lemma PurchaseRegisters(s: Store, msg: TicketPurchase, earned: int, cal: Calendar)
    requires earned >= 0 && msg.eventId !in s.processed
    ensures var c := PurchaseChange(ProfileOf(s, msg.user), msg, earned, cal);
      Keyed(s, c) && Reserved(s, c) && Granted(s, c) && Progressed(s, c)
  {
  }

  lemma PurchaseLegal(s: Store, msg: TicketPurchase, cal: Calendar, missed: bool)
    requires Sound(s)
    ensures LegalPlan(s, ProcessTicketPurchase(s, msg, cal, missed))
  {
    var earned := PointsEarned(s, msg, cal);
    OnlyLegal(s, msg.user, ProfileOf(s, msg.user));
    PurchaseBooks(s, msg, earned, cal);
    if msg.eventId !in s.processed { PurchaseRegisters(s, msg, earned, cal); }
  }

  lemma BonusLegal(s: Store, u: UserId, p: Profile, cal: Calendar)
    requires Sound(s) && p == ProfileOf(s, u).(birthdayDate := p.birthdayDate)
    ensures LegalPlan(s, GrantBirthdayBonus(s, u, p, cal))
  {
    OnlyLegal(s, u, p);
  }

  lemma MarkLegal(s: Store, u: UserId, key: Key)
    requires Sound(s)
    ensures key !in s.processed ==> Legal(s, Only(u, ProfileOf(s, u)).(key := Some((key, EventKey))))
  {
    OnlyLegal(s, u, ProfileOf(s, u));
  }

  lemma UnlockLegal(s: Store, u: UserId, eventId: Key, a: Achievement, current: int)
    requires Sound(s) && AchievementKey(eventId, a.id) !in s.processed
    requires (u, a.id) in s.progress ==> !s.progress[(u, a.id)].unlocked
    ensures LegalPlan(s, Write(Done, UnlockChange(u, ProfileOf(s, u), a, eventId, current)))
  {
  }

  lemma AchievementLegal(s: Store, u: UserId, eventId: Key, a: Achievement, incrementBy: int)
    requires Sound(s)
    ensures LegalPlan(s, ProcessAchievement(s, u, eventId, a, incrementBy))
  {
    var key := AchievementKey(eventId, a.id);
    OnlyLegal(s, u, ProfileOf(s, u));
    MarkLegal(s, u, key);
    if key !in s.processed && !((u, a.id) in s.progress && s.progress[(u, a.id)].unlocked) {
      var before := if (u, a.id) in s.progress then s.progress[(u, a.id)].current else 0;
      UnlockLegal(s, u, eventId, a, before + incrementBy);
    }
  }

  lemma ExpiryLegal(s: Store, u: UserId, now: int)
    requires Sound(s)
    ensures LegalPlan(s, ExpirePoints(s, u, now))
  {
  }

  lemma AdminLegal(s: Store, u: UserId, points: int, cal: Calendar)
    requires Sound(s)
    ensures LegalPlan(s, ModifyPoints(s, u, points, cal)) && LegalPlan(s, GrantVipStatus(s, u))
  {
  }

  lemma UseLegal(s: Store, u: UserId, o: OrderId)
    requires Sound(s)
    ensures LegalPlan(s, UseGoldUpgrade(s, u, o))
  {
    OnlyLegal(s, u, ProfileOf(s, u));
    if UseGoldUpgrade(s, u, o).change.Some? { assert Reserved(s, UseGoldUpgrade(s, u, o).change.value); }
  }

  lemma RollbackLegal(s: Store, u: UserId, o: OrderId)
    requires Sound(s)
    ensures LegalPlan(s, RollbackGoldUpgrade(s, u, o))
  {
    OnlyLegal(s, u, ProfileOf(s, u));
    if RollbackGoldUpgrade(s, u, o).change.Some? { assert Reserved(s, RollbackGoldUpgrade(s, u, o).change.value); }
  }

  lemma GoldResetLegal(s: Store, u: UserId)
    requires Sound(s)
    ensures LegalPlan(s, GoldReset(s, u))
  {
    if GoldReset(s, u).change.Some? {
      assert Reserved(s, GoldReset(s, u).change.value);
      assert Tiered(s, GoldReset(s, u).change.value);
    }
  }

  lemma ResetLegal(s: Store, u: UserId)
    requires Sound(s)
    ensures LegalPlan(s, ResetAnnualStats(s, u)) && LegalPlan(s, OpenProfile(s, u))
  {
    OnlyLegal(s, u, ProfileOf(s, u));
    OnlyLegal(s, u, ProfileOf(s, u).(yearPoints := 0, yearVisits := 0));
  }

  lemma PlanLegal(s: Store, op: Op)
    requires Sound(s)
    ensures LegalPlan(s, PlanOf(s, op))
  {
    match op
    case Deduct(cmd, missed) => DeductLegal(s, cmd.(operation := DEDUCT), missed);
    case Refund(cmd, missed) => RefundLegal(s, cmd.(operation := REFUNDING), missed);
    case BuyTicket(msg, cal, missed) => PurchaseLegal(s, msg, cal, missed);
    case SetDateOfBirth(u, date, cal) => DateOfBirthLegal(s, u, date, cal);
    case GrantBonus(u, cal) => BonusLegal(s, u, ProfileOf(s, u), cal);
    case Achieve(u, eventId, a, incrementBy) => AchievementLegal(s, u, eventId, a, incrementBy);
    case Expire(u, now) => ExpiryLegal(s, u, now);
    case ResetYear(u) => ResetLegal(s, u);
    case Adjust(u, points, cal) => AdminLegal(s, u, points, cal);
    case GrantVip(u) => AdminLegal(s, u, 0, Calendar(0, 0, 0, _ => false, _ => false));
    case OpenAccount(u) => ResetLegal(s, u);
    case UseGold(u, o) => UseLegal(s, u, o);
    case RollbackGold(u, o) => RollbackLegal(s, u, o);
    case ResetGold(u) => GoldResetLegal(s, u);
    case _ =>
  }

  lemma DateOfBirthLegal(s: Store, u: UserId, date: int, cal: Calendar)
    requires Sound(s)
    ensures LegalPlan(s, ProcessDateOfBirth(s, u, date, cal))
  {
    var p := ProfileOf(s, u).(birthdayDate := Some(date));
    OnlyLegal(s, u, p);
    BonusLegal(s, u, p, cal);
  }

  /* ----- so every run keeps the books and the registers ----- */

  ghost predicate Books(s: Store) {
    BalanceBooks(s) && LifetimeBooks(s) && RunningBalances(s) && Links(s) && Closed(s) && Refunds(s) && OpenBooks(s) &&
      Covered(s)
  }

  ghost predicate Inv(s: Store) {
    Books(s) && Keys(s) && Tiers(s) && Quota(s) && Mirror(s) && Grants(s) && Unlocks(s) && Columns(s)
  }

  lemma BooksKept(s: Store, c: Change)
    requires Books(s) && Posted(s, c) && Linked(s, c)
    ensures Books(Commit(s, c))
  {
    BalanceKept(s, c);
    LifetimeKept(s, c);
    RunningKept(s, c);
    LinksKept(s, c);
    ClosedKept(s, c);
    RefundsKept(s, c);
    OpenBooksKept(s, c);
    CoveredKept(s, c);
  }

  lemma CommitKeeps(s: Store, c: Change)
    requires Inv(s) && Legal(s, c)
    ensures Inv(Commit(s, c))
  {
    BooksKept(s, c);
    KeysKept(s, c);
    TiersKept(s, c);
    QuotaKept(s, c);
    MirrorKept(s, c);
    GrantsKept(s, c);
    UnlocksKept(s, c);
    ColumnsKept(s, c);
  }

  lemma MonthKeeps(s: Store, month: int)
    requires Inv(s) && month >= s.month
    ensures Inv(s.(month := month))
  {
    MonthBooks(s, month);
    MonthRegisters(s, month);
    MonthQuota(s, month);
  }

  lemma MonthBalances(s: Store, month: int)
    requires BalanceBooks(s) && LifetimeBooks(s) && Covered(s)
    ensures var s' := s.(month := month); BalanceBooks(s') && LifetimeBooks(s') && Covered(s')
  {
    var s' := s.(month := month);
    forall u ensures ProfileOf(s', u) == ProfileOf(s, u) {}
  }

  lemma MonthRefunds(s: Store, month: int)
    requires Refunds(s) && Closed(s) && Links(s)
    ensures var s' := s.(month := month); Refunds(s') && Closed(s') && Links(s')
  {
    var s' := s.(month := month);
    forall r | RefundOfLink(s, r) ensures RefundOfLink(s', r) {}
  }

  lemma MonthBooks(s: Store, month: int)
    requires Books(s)
    ensures Books(s.(month := month))
  {
    MonthBalances(s, month);
    MonthRefunds(s, month);
  }

  lemma MonthRegisters(s: Store, month: int)
    requires Keys(s) && Tiers(s) && Grants(s) && Unlocks(s) && Columns(s)
    ensures var s' := s.(month := month); Keys(s') && Tiers(s') && Grants(s') && Unlocks(s') && Columns(s')
  {
    var s' := s.(month := month);
    forall i: nat | i < |s.ledger| && KeyOf(s.ledger[i].cause).Some? ensures KeyRecorded(s', i) {
      assert KeyRecorded(s, i);
    }
    forall k | HasRow(s, k) ensures HasRow(s', k) {}
    forall i: nat | i < |s.ledger| && s.ledger[i].kind == EARN_BIRTHDAY ensures BonusGranted(s', i) {
      assert BonusGranted(s, i);
    }
    forall i: nat | i < |s.ledger| && s.ledger[i].cause.Unlock? ensures Rewarded(s', i) { assert Rewarded(s, i); }
  }

  lemma MonthQuota(s: Store, month: int)
    requires Quota(s) && Mirror(s) && month >= s.month
    ensures Quota(s.(month := month)) && Mirror(s.(month := month))
  {
    var s' := s.(month := month);
    forall u, m, o | Occupies(s', u, m, o) ensures Occupies(s, u, m, o) {}
    forall u | ProfileOf(s', u).goldUpgradeUsedMonth.Some?
      ensures Occupied(s', u, ProfileOf(s', u).goldUpgradeUsedMonth.value)
    {
      var used := ProfileOf(s, u).goldUpgradeUsedMonth.value;
      var o := ActiveOrder(s, u, used);
      assert Occupies(s', u, used, o);
    }
  }

  lemma InvSound(s: Store)
    requires Inv(s)
    ensures Sound(s)
  {
  }

  lemma PlanKeeps(s: Store, p: Plan)
    requires Inv(s) && LegalPlan(s, p)
    ensures Inv(Execute(s, p))
  {
    if p.change.Some? { CommitKeeps(s, p.change.value); }
  }

  lemma InvKept(s: Store, op: Op)
    requires Inv(s)
    ensures Inv(Apply(s, op))
  {
    if op.NextMonth? {
      if op.month >= s.month { MonthKeeps(s, op.month); }
    } else {
      InvSound(s);
      PlanLegal(s, op);
      PlanKeeps(s, PlanOf(s, op));
    }
  }

  lemma {:induction false} InvAlong(s: Store, ops: seq<Op>)
    requires Inv(s)
    ensures Inv(RunFrom(s, ops))
  {
    if ops != [] {
      InvAlong(s, ops[..|ops| - 1]);
      InvKept(RunFrom(s, ops[..|ops| - 1]), ops[|ops| - 1]);
    }
  }

  lemma EmptyBooks()
    ensures Books(Empty)
  {
  }

  lemma EmptyRegisters()
    ensures Keys(Empty) && Tiers(Empty) && Grants(Empty) && Unlocks(Empty) && Columns(Empty)
  {
  }

  lemma EmptyInv()
    ensures Inv(Empty)
  {
    EmptyBooks();
    EmptyRegisters();
  }

  lemma Reachable(ops: seq<Op>)
    ensures Inv(Run(ops))
  {
    EmptyInv();
    InvAlong(Empty, ops);
  }

  // A store that some run produced.
  ghost predicate Attained(s: Store) {
    exists ops :: Run(ops) == s
  }

  lemma AttainedRun(ops: seq<Op>)
    ensures Attained(Run(ops))
  {
  }

  lemma AttainedInv(s: Store)
    requires Attained(s)
    ensures Inv(s)
  {
    var ops :| Run(ops) == s;
    Reachable(ops);
  }

  lemma AttainedSound(s: Store)
    requires Attained(s)
    ensures Sound(s)
  {
    AttainedInv(s);
  }

  lemma AttainedKeys(s: Store)
    requires Attained(s)
    ensures Keys(s)
  {
    AttainedInv(s);
  }

  lemma AttainedLinks(s: Store)
    requires Attained(s)
    ensures Links(s)
  {
    AttainedInv(s);
  }

  lemma AttainedFits(s: Store, u: UserId)
    requires Attained(s)
    ensures ProfileFits(ProfileOf(s, u))
  {
    AttainedInv(s);
  }

  lemma RunOneMore(s: Store, ops: seq<Op>, op: Op)
    ensures RunFrom(s, ops + [op]) == Apply(RunFrom(s, ops), op)
  {
    assert (ops + [op])[..|ops|] == ops;
  }

  lemma RunLonger(s: Store, first: seq<Op>, before: seq<Op>, op: Op)
    requires RunFrom(RunFrom(s, first), before) == RunFrom(s, first + before)
    ensures RunFrom(RunFrom(s, first), before + [op]) == RunFrom(s, first + before + [op])
  {
    RunOneMore(RunFrom(s, first), before, op);
    RunOneMore(s, first + before, op);
  }

  lemma {:induction false} RunConcat(s: Store, first: seq<Op>, second: seq<Op>)
    ensures RunFrom(RunFrom(s, first), second) == RunFrom(s, first + second)
  {
    if second == [] {
      assert first + second == first;
    } else {
      var before, op := second[..|second| - 1], second[|second| - 1];
      RunConcat(s, first, before);
      RunLonger(s, first, before, op);
      assert second == before + [op] && first + second == first + before + [op];
    }
  }

  lemma AttainedNext(s: Store, op: Op)
    requires Attained(s)
    ensures Attained(Apply(s, op))
  {
    var ops :| Run(ops) == s;
    RunOneMore(Empty, ops, op);
    assert Run(ops + [op]) == Apply(s, op);
  }

  lemma {:induction false} AttainedAlong(s: Store, ops: seq<Op>)
    requires Attained(s)
    ensures Attained(RunFrom(s, ops))
  {
    if ops != [] {
      AttainedAlong(s, ops[..|ops| - 1]);
      AttainedNext(RunFrom(s, ops[..|ops| - 1]), ops[|ops| - 1]);
    }
  }
}
