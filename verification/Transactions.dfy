/**
  What each transaction of the points economy answers and writes, given the rows it reads.

  A Plan with no change leaves every table as it was: a business rejection, or an exception that rolled
  the transaction back. `missed` says that the transaction's first look at a shared idempotency key came
  before another user's transaction committed that key; rows of the locked user cannot change meanwhile.
 */
module Transactions {
  import opened Options
  import opened Accounts

  const MINIMUM_DEDUCTION := 75
  const BIRTHDAY_BONUS_POINTS := 100
  const INT32_MAX := 2147483647

  datatype Reason =
    | InvalidPointCommand | LegacyIdempotency | IdempotencyConflict | MinimumDeduction | InsufficientPoints
    | ProfileNotFound | DebitNotFound | Reconciliation | AlreadyCompensated | AmountMismatch | OwnershipChanged
    | NotGoldTier | GoldQuotaExceeded | GoldLegacyReconciliation | GoldReservationReleased
    | GoldReservationNotFound | AlreadyVip | ZeroPoints | AlreadyGranted | NotBirthday
    | InvalidDateOfBirth | OutOfRange | KeyTaken | NothingToExpire | NothingToReset
    | UniqueViolation | InternalError

  // Thrown is an exception that leaves the transaction; the others are answers.
  datatype Response =
    | Success(balanceAfter: int)
    | Done
    | Rejected(reason: Reason, balanceAfter: int)
    | Thrown(reason: Reason)

  datatype Plan = Plan(response: Response, change: Option<Change>)

  function Execute(s: Store, p: Plan): Store {
    if p.change.None? then s else Commit(s, p.change.value)
  }

  function Refuse(reason: Reason, balanceAfter: int): Plan {
    Plan(Rejected(reason, balanceAfter), None)
  }

  function Throw(reason: Reason): Plan {
    Plan(Thrown(reason), None)
  }

  function Write(response: Response, c: Change): Plan {
    if Fits(c) then Plan(response, Some(c)) else Throw(OutOfRange)
  }

  // The readings a transaction takes of the clock and the calendar.
  datatype Calendar = Calendar(now: int, year: int, inAYear: int, birthdayWeek: int -> bool, birthdayToday: int -> bool)

  /* ----- tiers ----- */

  function CalculateTier(visits: int, points: int): Tier {
    if visits >= 20 || points >= 5000 then GOLD
    else if visits >= 8 || points >= 2000 then SILVER
    else BRONZE
  }

  function ResolveNewTier(current: Tier, visits: int, points: int): Tier {
    var calculated := CalculateTier(visits, points);
    if Rank(calculated) > Rank(current) then calculated else current
  }

  function UpgradeEvent(u: UserId, before: Tier, after: Tier): Option<TierUpgraded> {
    if before == after then None else Some(TierUpgraded(u, before, after))
  }

  /* ----- point commands ----- */

  datatype PointCommand = PointCommand(operation: PointOperation, user: UserId, order: OrderId, amount: int, key: Key)

  // A request before validation: an id that is not a UUID reads as None.
  datatype RawCommand = RawCommand(
    operation: PointOperation, user: Option<UserId>, order: Option<OrderId>, amount: real, key: Key)

  function ParsePointCommand(raw: RawCommand): (r: Option<PointCommand>)
  {
    var amount := raw.amount.Floor;
    if raw.user.Some? && raw.order.Some? && amount as real == raw.amount && 0 < amount <= INT32_MAX &&
      1 <= |raw.key| <= 128
    then Some(PointCommand(raw.operation, raw.user.value, raw.order.value, amount, raw.key))
    else None
  }

  function KeyRow(cmd: PointCommand, balanceAfter: int): Processed {
    CommandKey(cmd.operation, cmd.user, cmd.order, cmd.amount, balanceAfter)
  }

  // The answer the key already has, if it is taken.
  function ReplayPointCommand(processed: map<Key, Processed>, cmd: PointCommand): Option<Response> {
    if cmd.key !in processed then None
    else match processed[cmd.key]
      case EventKey => Some(Rejected(LegacyIdempotency, 0))
      case CommandKey(operation, user, order, amount, balanceAfter) =>
        if operation == cmd.operation && user == cmd.user && order == cmd.order && amount == cmd.amount
        then Some(Success(balanceAfter))
        else Some(Rejected(IdempotencyConflict, 0))
  }

  // The claim inserts the key with its result; when another user's transaction took it first, the claim
  // answers from the row it finds and nothing is written.
  function Claim(s: Store, cmd: PointCommand, c: Change): Plan {
    var replay := ReplayPointCommand(s.processed, cmd);
    if !Int32(c.profile.balance) then Throw(OutOfRange)
    else if replay.Some? then Plan(replay.value, None)
    else Write(Success(c.profile.balance), c.(key := Some((cmd.key, KeyRow(cmd, c.profile.balance)))))
  }

  function FirstLook(s: Store, cmd: PointCommand, missed: bool): Option<Response> {
    if missed then None else ReplayPointCommand(s.processed, cmd)
  }

  function DebitChange(p: Profile, cmd: PointCommand): Change {
    var balance := p.balance - cmd.amount;
    Only(cmd.user, p.(balance := balance)).(
      entry := Some(Entry(cmd.user, BURN_DISCOUNT, -cmd.amount, balance, Some(cmd.order), Command(cmd.key))),
      link := OpenDebit)
  }

  function DeductPoints(s: Store, cmd: PointCommand, missed: bool): Plan {
    var replay := FirstLook(s, cmd, missed);
    if replay.Some? then Plan(replay.value, None)
    else if cmd.amount < MINIMUM_DEDUCTION then Refuse(MinimumDeduction, 0)
    else if cmd.user !in s.profiles then Throw(ProfileNotFound)
    else if s.profiles[cmd.user].balance < cmd.amount then Refuse(InsufficientPoints, s.profiles[cmd.user].balance)
    else Claim(s, cmd, DebitChange(s.profiles[cmd.user], cmd))
  }

  predicate IsDebit(e: Entry, u: UserId, o: OrderId) {
    e.user == u && e.order == Some(o) && e.kind == BURN_DISCOUNT && e.points < 0
  }

  predicate IsRefund(e: Entry, u: UserId, o: OrderId) {
    e.user == u && e.order == Some(o) && e.kind == REFUND
  }

  // The debits of an order, oldest first.
  function Debits(ledger: seq<Entry>, u: UserId, o: OrderId): (r: seq<nat>)
    ensures forall k | 0 <= k < |r| :: r[k] < |ledger| && IsDebit(ledger[r[k]], u, o)
  {
    if ledger == [] then [] else
      var n := |ledger| - 1;
      var earlier := Debits(ledger[..n], u, o);
      if IsDebit(ledger[n], u, o) then earlier + [n] else earlier
  }

  predicate HasRefund(ledger: seq<Entry>, u: UserId, o: OrderId) {
    exists i | 0 <= i < |ledger| :: IsRefund(ledger[i], u, o)
  }

  function RefundChange(p: Profile, cmd: PointCommand, debit: nat): Change {
    var balance := p.balance + cmd.amount;
    Only(cmd.user, p.(balance := balance)).(
      entry := Some(Entry(cmd.user, REFUND, cmd.amount, balance, Some(cmd.order), Command(cmd.key))),
      link := CloseDebit(debit))
  }

  function RefundPoints(s: Store, cmd: PointCommand, missed: bool): Plan {
    var replay := FirstLook(s, cmd, missed);
    var debits := Debits(s.ledger, cmd.user, cmd.order);
    if replay.Some? then Plan(replay.value, None)
    else if cmd.user !in s.profiles then Refuse(ProfileNotFound, 0)
    else if |debits| == 0 then Refuse(DebitNotFound, 0)
    else if |debits| != 1 then Refuse(Reconciliation, 0)
    else
      var d := debits[0];
      if HasRefund(s.ledger, cmd.user, cmd.order) || (d in s.checkout && s.checkout[d].Some?)
        then Refuse(AlreadyCompensated, 0)
      else if d !in s.checkout then Refuse(Reconciliation, 0)
      else if cmd.amount != -s.ledger[d].points then Refuse(AmountMismatch, 0)
      else Claim(s, cmd, RefundChange(s.profiles[cmd.user], cmd, d))
  }

  /* ----- ticket purchases ----- */

  type Amount = r: real | r >= 0.0

  datatype TicketPurchase = TicketPurchase(
    eventId: Key, user: UserId, order: OrderId, totalAmount: Amount, paidAmount: Option<Amount>,
    pointsUsed: Option<Amount>, special: bool)

  function TierMultiplier(t: Tier): real {
    match t case BRONZE => 1.0 case SILVER => 1.5 case GOLD => 2.0
  }

  function BirthdayMultiplier(t: Tier): real {
    match t case BRONZE => 2.0 case SILVER => 3.0 case GOLD => 5.0
  }

  function Boosted(multiplier: real, applies: bool, factor: real): real {
    if applies then multiplier * factor else multiplier
  }

  function Multiplier(p: Profile, special: bool, cal: Calendar): (r: real)
    ensures 1.0 <= r <= 20.0
  {
    var birthday := p.birthdayDate.Some? && cal.birthdayWeek(p.birthdayDate.value);
    Boosted(Boosted(TierMultiplier(p.tier), birthday, BirthdayMultiplier(p.tier)), special, 2.0)
  }

  // The points redeemed for the order: as the message says, or the latest debit of the order.
  function PointsUsed(s: Store, msg: TicketPurchase): (n: int)
    ensures n >= 0
  {
    if msg.pointsUsed.Some? then msg.pointsUsed.value.Floor
    else
      var debits := Debits(s.ledger, msg.user, msg.order);
      if |debits| == 0 then 0 else -s.ledger[debits[|debits| - 1]].points
  }

  function PointsEarned(s: Store, msg: TicketPurchase, cal: Calendar): (n: int)
    ensures n >= 0
  {
    var paid := if msg.paidAmount.Some? then msg.paidAmount.value else msg.totalAmount;
    var multiplier := Multiplier(ProfileOf(s, msg.user), msg.special, cal);
    assert paid * multiplier >= 0.0;
    if PointsUsed(s, msg) > 0 then 0 else (paid * multiplier).Floor
  }

  function PurchaseProfile(p: Profile, earned: int, cal: Calendar): Profile {
    var visited := p.(yearVisits := p.yearVisits + 1,
      tier := ResolveNewTier(p.tier, p.yearVisits + 1, p.yearPoints + earned));
    if earned > 0 then
      visited.(balance := p.balance + earned, lifetimePoints := p.lifetimePoints + earned,
               yearPoints := p.yearPoints + earned, balanceExpiresAt := Some(cal.inAYear))
    else visited
  }

  function PurchaseEntry(msg: TicketPurchase, earned: int, balance: int): Option<Entry> {
    if earned > 0 then
      var kind := if msg.special then EARN_SPECIAL else EARN_TICKET;
      Some(Entry(msg.user, kind, earned, balance, Some(msg.order), Purchase(msg.eventId)))
    else None
  }

  function PurchaseChange(p: Profile, msg: TicketPurchase, earned: int, cal: Calendar): Change {
    var after := PurchaseProfile(p, earned, cal);
    Only(msg.user, after).(
      entry := PurchaseEntry(msg, earned, after.balance),
      key := Some((msg.eventId, EventKey)),
      upgrade := UpgradeEvent(msg.user, p.tier, after.tier))
  }

  function ProcessTicketPurchase(s: Store, msg: TicketPurchase, cal: Calendar, missed: bool): Plan {
    var p := ProfileOf(s, msg.user);
    if !missed && msg.eventId in s.processed then
      if s.processed[msg.eventId].CommandKey? then Throw(IdempotencyConflict)
      else Plan(Done, Some(Only(msg.user, p)))
    else
      var plan := Write(Done, PurchaseChange(p, msg, PointsEarned(s, msg, cal), cal));
      if plan.change.Some? && msg.eventId in s.processed then Throw(KeyTaken) else plan
  }

  /* ----- birthdays ----- */

  function BonusChange(u: UserId, p: Profile, cal: Calendar): Change {
    var points := p.yearPoints + BIRTHDAY_BONUS_POINTS;
    var tier := ResolveNewTier(p.tier, p.yearVisits, points);
    var balance := p.balance + BIRTHDAY_BONUS_POINTS;
    Only(u, p.(balance := balance, lifetimePoints := p.lifetimePoints + BIRTHDAY_BONUS_POINTS,
               yearPoints := points, tier := tier, balanceExpiresAt := Some(cal.inAYear))).(
      entry := Some(Entry(u, EARN_BIRTHDAY, BIRTHDAY_BONUS_POINTS, balance, None, Birthday(cal.year))),
      grant := Some(cal.year),
      upgrade := UpgradeEvent(u, p.tier, tier))
  }

  // The bonus step on a profile already written as `p` in the same transaction.
  function GrantBirthdayBonus(s: Store, u: UserId, p: Profile, cal: Calendar): Plan {
    if (u, cal.year) in s.grants then Plan(Rejected(AlreadyGranted, 0), Some(Only(u, p)))
    else if p.birthdayDate.None? || !cal.birthdayToday(p.birthdayDate.value) then
      Plan(Rejected(NotBirthday, 0), Some(Only(u, p)))
    else Write(Success(p.balance + BIRTHDAY_BONUS_POINTS), BonusChange(u, p, cal))
  }

  function ProcessDateOfBirth(s: Store, u: UserId, date: int, cal: Calendar): Plan {
    var p := ProfileOf(s, u).(birthdayDate := Some(date));
    if !cal.birthdayToday(date) then Plan(Done, Some(Only(u, p))) else GrantBirthdayBonus(s, u, p, cal)
  }

  function GrantBirthdayBonusForUser(s: Store, u: UserId, cal: Calendar): Plan {
    if u !in s.profiles then Refuse(ProfileNotFound, 0) else GrantBirthdayBonus(s, u, s.profiles[u], cal)
  }

  /* ----- achievements ----- */

  datatype Achievement = Achievement(id: Uuid, target: int, rewardPoints: int)

  function AchievementKey(eventId: Key, achievement: Uuid): Key {
    eventId + "_" + achievement
  }

  function UnlockChange(u: UserId, p: Profile, a: Achievement, eventId: Key, current: int): Change {
    var marked := Only(u, p).(
      key := Some((AchievementKey(eventId, a.id), EventKey)),
      progress := Some((a.id, Progress(current, a.target, current >= a.target))));
    if current < a.target || a.rewardPoints <= 0 then marked
    else
      var balance := p.balance + a.rewardPoints;
      marked.(profile := p.(balance := balance, lifetimePoints := p.lifetimePoints + a.rewardPoints),
              entry := Some(Entry(u, EARN_ACHIEVEMENT, a.rewardPoints, balance, None, Unlock(a.id))))
  }

  function ProcessAchievement(s: Store, u: UserId, eventId: Key, a: Achievement, incrementBy: int): Plan {
    var key := AchievementKey(eventId, a.id);
    var p := ProfileOf(s, u);
    if key in s.processed then
      if s.processed[key].CommandKey? then Throw(KeyTaken) else Plan(Done, Some(Only(u, p)))
    else if (u, a.id) in s.progress && s.progress[(u, a.id)].unlocked then
      Plan(Done, Some(Only(u, p).(key := Some((key, EventKey)))))
    else
      var before := if (u, a.id) in s.progress then s.progress[(u, a.id)].current else 0;
      Write(Done, UnlockChange(u, p, a, eventId, before + incrementBy))
  }

  /* ----- expiry, annual reset and the administrator ----- */

  function ExpiryDue(p: Profile, now: int): bool {
    p.balance > 0 && p.balanceExpiresAt.Some? && p.balanceExpiresAt.value <= now
  }

  function ExpirePoints(s: Store, u: UserId, now: int): Plan {
    if u !in s.profiles || !ExpiryDue(s.profiles[u], now) then Refuse(NothingToExpire, 0)
    else
      var p := s.profiles[u];
      Write(Done, Only(u, p.(balance := 0)).(entry := Some(Entry(u, EXPIRE, -p.balance, 0, None, Unkeyed))))
  }

  function ResetAnnualStats(s: Store, u: UserId): Plan {
    if u !in s.profiles then Plan(Done, None)
    else Plan(Done, Some(Only(u, s.profiles[u].(yearPoints := 0, yearVisits := 0))))
  }

  function ModifyPoints(s: Store, u: UserId, points: int, cal: Calendar): Plan {
    var p := ProfileOf(s, u);
    if points == 0 then Throw(ZeroPoints)
    else if p.balance + points < 0 then Throw(InsufficientPoints)
    else
      var gained := if points > 0 then points else 0;
      var kind := if points > 0 then ADMIN_ADDITION else ADMIN_DEDUCTION;
      var tier := ResolveNewTier(p.tier, p.yearVisits, p.yearPoints + gained);
      var balance := p.balance + points;
      Write(Success(balance),
        Only(u, p.(balance := balance, lifetimePoints := p.lifetimePoints + gained, yearPoints := p.yearPoints + gained,
                   tier := tier, balanceExpiresAt := if points > 0 then Some(cal.inAYear) else p.balanceExpiresAt)).(
          entry := Some(Entry(u, kind, points, balance, None, Unkeyed)),
          upgrade := UpgradeEvent(u, p.tier, tier)))
  }

  function GrantVipStatus(s: Store, u: UserId): Plan {
    var p := ProfileOf(s, u);
    if p.tier == GOLD then Throw(AlreadyVip)
    else
      Write(Done, Only(u, p.(tier := GOLD)).(
        entry := Some(Entry(u, ADMIN_ADDITION, 0, p.balance, None, Unkeyed)),
        upgrade := UpgradeEvent(u, p.tier, GOLD)))
  }

  // Reading a balance creates a missing profile.
  function OpenProfile(s: Store, u: UserId): Plan {
    Plan(Done, Some(Only(u, ProfileOf(s, u))))
  }

  /* ----- the Gold quota ----- */

  predicate Occupies(s: Store, u: UserId, month: int, o: OrderId) {
    (u, o) in s.reservations && s.reservations[(u, o)] == Reservation(month, false)
  }

  predicate Occupied(s: Store, u: UserId, month: int) {
    exists key | key in s.reservations :: key.0 == u && Occupies(s, u, month, key.1)
  }

  function UseGoldUpgrade(s: Store, u: UserId, o: OrderId): Plan {
    if u !in s.profiles then Throw(ProfileNotFound)
    else if (u, o) in s.reservations then
      if s.reservations[(u, o)].released then Refuse(GoldReservationReleased, 0) else Plan(Done, None)
    else if s.profiles[u].tier != GOLD then Refuse(NotGoldTier, 0)
    else if Occupied(s, u, s.month) then Refuse(GoldQuotaExceeded, 0)
    else if s.profiles[u].goldUpgradeUsedMonth == Some(s.month) then Refuse(GoldLegacyReconciliation, 0)
    else
      Plan(Done, Some(Only(u, s.profiles[u].(goldUpgradeUsedMonth := Some(s.month))).(
        reservation := Some((o, Reservation(s.month, false))))))
  }

  function RollbackGoldUpgrade(s: Store, u: UserId, o: OrderId): Plan {
    if u !in s.profiles then Refuse(ProfileNotFound, 0)
    else if (u, o) !in s.reservations then Refuse(GoldReservationNotFound, 0)
    else if s.reservations[(u, o)].released then Plan(Done, None)
    else
      var p, month := s.profiles[u], s.reservations[(u, o)].month;
      Plan(Done, Some(
        Only(u, p.(goldUpgradeUsedMonth := if p.goldUpgradeUsedMonth == Some(month) then None
          else p.goldUpgradeUsedMonth)).(
          reservation := Some((o, Reservation(month, true))))))
  }

  function GoldReset(s: Store, u: UserId): Plan {
    if u !in s.profiles then Refuse(NothingToReset, 0)
    else
      var p := s.profiles[u];
      if p.goldUpgradeUsedMonth.Some? && p.goldUpgradeUsedMonth.value < s.month
      then Plan(Done, Some(Only(u, p.(goldUpgradeUsedMonth := None))))
      else Refuse(NothingToReset, 0)
  }

  predicate GoldUpgradeAvailable(s: Store, u: UserId) {
    ProfileOf(s, u).tier == GOLD && ProfileOf(s, u).goldUpgradeUsedMonth != Some(s.month)
  }
}
