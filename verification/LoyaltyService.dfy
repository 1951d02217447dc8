/**
  LoyaltyService: each transaction as the sequence of statements it runs, with the exceptions that roll it
  back.
 */
module LoyaltyServices {
  import opened Options
  import opened Accounts
  import opened Transactions
  import opened History
  import opened Locking
  import opened Database
  import opened Calculator
  import opened Civil

  function Recorded(msg: TicketPurchase, profile: Profile, data: Profile, pointsEarned: int): Change {
    Only(msg.user, data).(entry := PurchaseEntry(msg, pointsEarned, data.balance), key := Some((msg.eventId, EventKey)),
                          upgrade := UpgradeEvent(msg.user, profile.tier, data.tier))
  }

  lemma CommitsRecord(s: Store, s': Store, msg: TicketPurchase, profile: Profile, data: Profile, pointsEarned: nat)
    requires s'.profiles == s.profiles[msg.user := data]
    requires s'.ledger == Appended(s.ledger, PurchaseEntry(msg, pointsEarned, data.balance))
    requires s'.processed == s.processed[msg.eventId := EventKey]
    requires s'.outbox == Appended(s.outbox, UpgradeEvent(msg.user, profile.tier, data.tier))
    requires s' == s.(profiles := s'.profiles, ledger := s'.ledger, processed := s'.processed, outbox := s'.outbox)
    ensures s' == Commit(s, Recorded(msg, profile, data, pointsEarned))
  {
  }

  lemma CommitsBonus(s: Store, s': Store, u: UserId, p: Profile, cal: Calendar)
    requires var c := BonusChange(u, p, cal);
      s'.profiles == s.profiles[u := c.profile] && s'.ledger == s.ledger + [c.entry.value] &&
      s'.grants == s.grants[(u, cal.year) := |s.ledger|] && s'.outbox == Appended(s.outbox, c.upgrade)
    requires s' == s.(profiles := s'.profiles, ledger := s'.ledger, grants := s'.grants, outbox := s'.outbox)
    ensures s' == Commit(s, BonusChange(u, p, cal))
  {
  }

  class LoyaltyService {
    const db: LoyaltyDatabase
    const calculator: LoyaltyCalculatorService

    constructor (db: LoyaltyDatabase, calculator: LoyaltyCalculatorService)
      ensures this.db == db && this.calculator == calculator
    {
      this.db, this.calculator := db, calculator;
    }

    /* ----- deductions ----- */

    // The transaction of a parsed deduction. `missed` says that its first look at the key found nothing.
    method DeductPoints(cmd: PointCommand) returns (response: Response, ghost missed: bool, ghost others: seq<Op>)
      requires Attained(db.Contents()) && cmd.operation == DEDUCT
      modifies db
      ensures Serialised(old(db.Contents()), others, db.Contents(), Deduct(cmd, missed), response)
    {
      ghost var start := db.Contents();
      var replay := ReplayPointCommand(db.processed, cmd);
      if replay.Some? {
        SerialisedAlone(start, start, Deduct(cmd, false), replay.value);
        return replay.value, false, [];
      }
      missed := true;
      others := db.OthersCommit(cmd.user);
      response := Debit(cmd);
    }

    // The deduction from the minimum check on.
    method Debit(cmd: PointCommand) returns (response: Response)
      modifies db
      ensures var plan := Transactions.DeductPoints(old(db.Contents()), cmd, true);
        db.Contents() == Execute(old(db.Contents()), plan) && response == plan.response
    {
      if cmd.amount < MINIMUM_DEDUCTION { return Rejected(MinimumDeduction, 0); }
      var begun := db.Contents();
      var found := db.LockLoyaltyProfile(cmd.user, false);
      if !found { return Thrown(ProfileNotFound); }
      var profile := db.profiles[cmd.user];
      if profile.balance < cmd.amount { return Rejected(InsufficientPoints, profile.balance); }
      var newBalance := profile.balance - cmd.amount;
      var racedReplay := db.ClaimPointCommand(cmd, newBalance);
      if racedReplay.Some? { return racedReplay.value; }
      response := WriteDebit(cmd, profile, newBalance, begun);
    }

    method WriteDebit(cmd: PointCommand, profile: Profile, newBalance: int, begun: Store) returns (response: Response)
      requires newBalance == profile.balance - cmd.amount
      requires db.Contents() == begun.(processed := begun.processed[cmd.key := KeyRow(cmd, newBalance)])
      modifies db
      ensures var change := DebitChange(profile, cmd).(key := Some((cmd.key, KeyRow(cmd, newBalance))));
        var plan := Write(Success(newBalance), change);
        db.Contents() == Execute(begun, plan) && response == plan.response
    {
      var updated := db.UpdateProfile(cmd.user, profile.(balance := newBalance));
      var created, debit := db.CreateTransaction(
        Entry(cmd.user, BURN_DISCOUNT, -cmd.amount, newBalance, Some(cmd.order), Command(cmd.key)));
      if !updated || !created {
        db.Restore(begun);
        return Thrown(OutOfRange);
      }
      db.checkout := db.checkout[debit := None];
      response := Success(newBalance);
    }

    /* ----- the Gold upgrade ----- */

    method UseGoldUpgrade(u: UserId, o: OrderId) returns (response: Response)
      modifies db
      ensures var plan := Transactions.UseGoldUpgrade(old(db.Contents()), u, o);
        db.Contents() == Execute(old(db.Contents()), plan) && response == plan.response
    {
      var found := db.LockLoyaltyProfile(u, false);
      if !found { return Thrown(ProfileNotFound); }
      var profile := db.profiles[u];
      if (u, o) in db.reservations {
        return if db.reservations[(u, o)].released then Rejected(GoldReservationReleased, 0) else Done;
      }
      if profile.tier != GOLD { return Rejected(NotGoldTier, 0); }
      var currentMonth := db.month;
      var occupied := Occupied(db.Contents(), u, currentMonth);
      if occupied || profile.goldUpgradeUsedMonth == Some(currentMonth) {
        return Rejected(if occupied then GoldQuotaExceeded else GoldLegacyReconciliation, 0);
      }
      db.reservations := db.reservations[(u, o) := Reservation(currentMonth, false)];
      db.profiles := db.profiles[u := profile.(goldUpgradeUsedMonth := Some(currentMonth))];
      response := Done;
    }

    method RollbackGoldUpgrade(u: UserId, o: OrderId) returns (response: Response)
      modifies db
      ensures var plan := Transactions.RollbackGoldUpgrade(old(db.Contents()), u, o);
        db.Contents() == Execute(old(db.Contents()), plan) && response == plan.response
    {
      var found := db.LockLoyaltyProfile(u, false);
      if !found { return Rejected(ProfileNotFound, 0); }
      if (u, o) !in db.reservations { return Rejected(GoldReservationNotFound, 0); }
      var reservation := db.reservations[(u, o)];
      if reservation.released { return Done; }
      db.reservations := db.reservations[(u, o) := reservation.(released := true)];
      ghost var before := db.profiles;
      if db.profiles[u].goldUpgradeUsedMonth == Some(reservation.month) {
        db.profiles := db.profiles[u := db.profiles[u].(goldUpgradeUsedMonth := None)];
      }
      assert before == before[u := before[u]];
      response := Done;
    }

    /* ----- ticket purchases ----- */

    method ProcessTicketPurchase(msg: TicketPurchase, cal: Calendar)
      returns (response: Response, ghost missed: bool, ghost others: seq<Op>)
      requires Attained(db.Contents())
      modifies db
      ensures Serialised(old(db.Contents()), others, db.Contents(), BuyTicket(msg, cal, missed), response)
    {
      ghost var start := db.Contents();
      missed, others := msg.eventId !in db.processed, [];
      if msg.eventId in db.processed {
        if db.processed[msg.eventId].CommandKey? {
          response := Thrown(IdempotencyConflict);
        } else {
          var _ := db.LockLoyaltyProfile(msg.user, true);
          response := Done;
        }
        SerialisedAlone(start, db.Contents(), BuyTicket(msg, cal, false), response);
      } else {
        others := db.OthersCommit(msg.user);
        response := Purchase(msg, cal);
      }
    }

    // The purchase after its first look at the event. The row its lock inserted is not visible to others
    // before the commit, so it is added here.
    method Purchase(msg: TicketPurchase, cal: Calendar) returns (response: Response)
      modifies db
      ensures var plan := Transactions.ProcessTicketPurchase(old(db.Contents()), msg, cal, true);
        db.Contents() == Execute(old(db.Contents()), plan) && response == plan.response
    {
      var begun := db.Contents();
      var _ := db.LockLoyaltyProfile(msg.user, true);
      var profile := db.profiles[msg.user];
      var pointsUsed := PointsUsed(begun, msg);
      var multiplier := calculator.ResolveMultiplier(profile, msg.special, cal);
      var actualAmountToReward := if msg.paidAmount.Some? then msg.paidAmount.value else msg.totalAmount;
      var pointsEarned := if pointsUsed > 0 then 0 else (actualAmountToReward * multiplier).Floor;
      assert pointsEarned == PointsEarned(begun, msg, cal);
      response := Earn(msg, profile, pointsEarned, cal, begun);
    }

    method Earn(msg: TicketPurchase, profile: Profile, pointsEarned: nat, cal: Calendar, begun: Store)
      returns (response: Response)
      requires profile == ProfileOf(begun, msg.user)
      requires db.Contents() == begun.(profiles := begun.profiles[msg.user := profile])
      modifies db
      ensures var change := PurchaseChange(profile, msg, pointsEarned, cal);
        if !Fits(change) then db.Contents() == begun && response == Thrown(OutOfRange)
        else if msg.eventId in begun.processed then db.Contents() == begun && response == Thrown(KeyTaken)
        else db.Contents() == Commit(begun, change) && response == Done
    {
      var newTier := ResolveNewTier(profile.tier, profile.yearVisits + 1, profile.yearPoints + pointsEarned);
      var data := profile.(yearVisits := profile.yearVisits + 1, tier := newTier);
      if pointsEarned > 0 {
        data := data.(balance := profile.balance + pointsEarned,
                      lifetimePoints := profile.lifetimePoints + pointsEarned,
                      yearPoints := profile.yearPoints + pointsEarned, balanceExpiresAt := Some(cal.inAYear));
      }
      assert data == PurchaseProfile(profile, pointsEarned, cal);
      response := Record(msg, profile, data, pointsEarned, begun);
    }

    method Record(msg: TicketPurchase, profile: Profile, data: Profile, pointsEarned: nat, begun: Store)
      returns (response: Response)
      requires msg.user in db.profiles && db.Contents() == begun.(profiles := begun.profiles[msg.user := profile])
      modifies db
      ensures var change := Recorded(msg, profile, data, pointsEarned);
        if !Fits(change) then db.Contents() == begun && response == Thrown(OutOfRange)
        else if msg.eventId in begun.processed then db.Contents() == begun && response == Thrown(KeyTaken)
        else db.Contents() == Commit(begun, change) && response == Done
    {
      var ok := PostPurchase(msg, data, pointsEarned);
      assert ok ==> db.profiles == begun.profiles[msg.user := data];
      if !ok || msg.eventId in db.processed {
        db.Restore(begun);
        return Thrown(if ok then KeyTaken else OutOfRange);
      }
      db.processed := db.processed[msg.eventId := EventKey];
      db.AnnounceUpgrade(msg.user, profile.tier, data.tier);
      CommitsRecord(begun, db.Contents(), msg, profile, data, pointsEarned);
      response := Done;
    }

    method PostPurchase(msg: TicketPurchase, data: Profile, pointsEarned: nat) returns (ok: bool)
      modifies db`profiles, db`ledger
      ensures var entry := PurchaseEntry(msg, pointsEarned, data.balance);
        (ok <==> ProfileFits(data) && (entry.Some? ==> EntryFits(entry.value))) &&
        (ok ==> db.profiles == old(db.profiles)[msg.user := data]) &&
        (ok ==> db.ledger == Appended(old(db.ledger), entry))
    {
      ok := db.UpdateProfile(msg.user, data);
      if ok && pointsEarned > 0 {
        var kind := if msg.special then EARN_SPECIAL else EARN_TICKET;
        var created, _ := db.CreateTransaction(
          Entry(msg.user, kind, pointsEarned, data.balance, Some(msg.order), Cause.Purchase(msg.eventId)));
        ok := created;
      }
    }

    /* ----- birthdays ----- */

    // The date a message gives, or None when it cannot be read or lies in the future; `trimmed` is its text
    // and `platform` what Date reads from another format.
    method ReadDateOfBirth(trimmed: string, platform: Option<int>, now: int) returns (date: Option<int>)
      ensures date.Some? ==> ParseUtcLocalDate(trimmed, platform) == date && date.value <= ToUtcLocalDate(Today(now))
      ensures date.None? ==> var read := ParseUtcLocalDate(trimmed, platform);
        read.None? || read.value > ToUtcLocalDate(Today(now))
    {
      date := ParseUtcLocalDate(trimmed, platform);
      if date.Some? && date.value > ToUtcLocalDate(Today(now)) { date := None; }
    }

    // The row written with the new date stays private until the commit. A violation of the grants' unique
    // key would be taken for a grant made before, although it rolled the date back too; it cannot happen.
    method ProcessUserDateOfBirthSet(u: UserId, birthdayDate: int, cal: Calendar)
      returns (response: Response, ghost others: seq<Op>)
      requires Attained(db.Contents())
      modifies db
      ensures Serialised(old(db.Contents()), others, db.Contents(), SetDateOfBirth(u, birthdayDate, cal), response)
      ensures !response.Thrown? ==> ProfileOf(db.Contents(), u).birthdayDate == Some(birthdayDate)
    {
      var row := db.LockedRow(u);
      row := row.(birthdayDate := Some(birthdayDate));
      if !cal.birthdayToday(birthdayDate) {
        ghost var start := db.Contents();
        db.profiles := db.profiles[u := row];
        SerialisedAlone(start, db.Contents(), SetDateOfBirth(u, birthdayDate, cal), Done);
        return Done, [];
      }
      ghost var start := db.Contents();
      response, others := GrantBirthdayBonusInTransaction(u, row, cal);
      DateOfBirthPlan(start, others, u, birthdayDate, row, cal);
      if response == Thrown(UniqueViolation) { response := Done; }
    }

    method GrantBirthdayBonusForUser(u: UserId, cal: Calendar) returns (response: Response, ghost others: seq<Op>)
      requires Attained(db.Contents())
      modifies db
      ensures Serialised(old(db.Contents()), others, db.Contents(), GrantBonus(u, cal), response)
    {
      ghost var start := db.Contents();
      var found := db.LockLoyaltyProfile(u, false);
      if !found {
        SerialisedAlone(start, start, GrantBonus(u, cal), Rejected(ProfileNotFound, 0));
        return Rejected(ProfileNotFound, 0), [];
      }
      response, others := GrantBirthdayBonusInTransaction(u, db.profiles[u], cal);
      GrantPlan(start, others, u, cal);
      if response == Thrown(UniqueViolation) { response := Rejected(AlreadyGranted, 0); }
    }

    // The bonus step on the transaction's own version `row` of the profile. Other users may commit between
    // its reads and its writes.
    method GrantBirthdayBonusInTransaction(u: UserId, row: Profile, cal: Calendar)
      returns (response: Response, ghost others: seq<Op>)
      requires Attained(db.Contents()) && row == ProfileOf(db.Contents(), u).(birthdayDate := row.birthdayDate)
      modifies db
      ensures OtherUsers(others, u)
      ensures var s := RunFrom(old(db.Contents()), others);
        var plan := GrantBirthdayBonus(s, u, row, cal);
        db.Contents() == Execute(s, plan) && response == plan.response && response != Thrown(UniqueViolation)
    {
      ghost var seen := db.Contents();
      assert RunFrom(seen, []) == seen;
      if (u, cal.year) in db.grants {
        db.profiles := db.profiles[u := row];
        return Rejected(AlreadyGranted, 0), [];
      }
      if row.birthdayDate.None? || !cal.birthdayToday(row.birthdayDate.value) {
        db.profiles := db.profiles[u := row];
        return Rejected(NotBirthday, 0), [];
      }
      others := db.OthersCommit(u);
      response := WriteBonus(u, row, cal, seen, others);
    }

    // The writes, after `others` committed to what the checks read in `seen`. A grant that is there already
    // violates the unique key and rolls everything back; the profile lock is why there never is one.
    method WriteBonus(u: UserId, row: Profile, cal: Calendar, ghost seen: Store, ghost others: seq<Op>)
      returns (response: Response)
      requires Attained(seen) && (u, cal.year) !in seen.grants && OtherUsers(others, u)
      requires db.Contents() == RunFrom(seen, others)
      requires row.birthdayDate.Some? && cal.birthdayToday(row.birthdayDate.value)
      modifies db
      ensures var s := RunFrom(seen, others);
        var plan := GrantBirthdayBonus(s, u, row, cal);
        db.Contents() == Execute(s, plan) && response == plan.response && response != Thrown(UniqueViolation)
    {
      var points := BIRTHDAY_BONUS_POINTS;
      var newTier := ResolveNewTier(row.tier, row.yearVisits, row.yearPoints + points);
      var updated := row.(balance := row.balance + points, lifetimePoints := row.lifetimePoints + points,
                          yearPoints := row.yearPoints + points, tier := newTier,
                          balanceExpiresAt := Some(cal.inAYear));
      response := PostBonus(u, row, updated, cal);
      OthersLeaveGrant(seen, others, u, cal.year);
    }

    method PostBonus(u: UserId, row: Profile, updated: Profile, cal: Calendar) returns (response: Response)
      requires updated == BonusChange(u, row, cal).profile
      modifies db
      ensures var s := old(db.Contents());
        if !Fits(BonusChange(u, row, cal)) then db.Contents() == s && response == Thrown(OutOfRange)
        else if (u, cal.year) in s.grants then db.Contents() == s && response == Thrown(UniqueViolation)
        else db.Contents() == Commit(s, BonusChange(u, row, cal)) && response == Success(updated.balance)
    {
      var begun := db.Contents();
      var entry := Entry(u, EARN_BIRTHDAY, BIRTHDAY_BONUS_POINTS, updated.balance, None, Birthday(cal.year));
      var ok := db.Post(u, updated, entry);
      if !ok || !Int16(cal.year) {
        db.Restore(begun);
        return Thrown(OutOfRange);
      }
      var unique := db.CreateGrant(u, cal.year, |begun.ledger|);
      if !unique {
        db.Restore(begun);
        return Thrown(UniqueViolation);
      }
      db.AnnounceUpgrade(u, row.tier, updated.tier);
      CommitsBonus(begun, db.Contents(), u, row, cal);
      response := Success(updated.balance);
    }
  }

  // What others commit adds no grant of this user.
  lemma OthersLeaveGrant(seen: Store, others: seq<Op>, u: UserId, year: int)
    requires Attained(seen) && OtherUsers(others, u)
    ensures (u, year) in RunFrom(seen, others).grants <==> (u, year) in seen.grants
    ensures ProfileOf(RunFrom(seen, others), u) == ProfileOf(seen, u)
    ensures u in RunFrom(seen, others).profiles <==> u in seen.profiles
  {
    OthersLeaveUser(seen, others, u);
  }

  lemma DateOfBirthPlan(seen: Store, others: seq<Op>, u: UserId, date: int, row: Profile, cal: Calendar)
    requires Attained(seen) && OtherUsers(others, u) && cal.birthdayToday(date)
    requires row == ProfileOf(seen, u).(birthdayDate := Some(date))
    ensures ProcessDateOfBirth(RunFrom(seen, others), u, date, cal) ==
      GrantBirthdayBonus(RunFrom(seen, others), u, row, cal)
  {
    OthersLeaveGrant(seen, others, u, cal.year);
  }

  lemma GrantPlan(seen: Store, others: seq<Op>, u: UserId, cal: Calendar)
    requires Attained(seen) && OtherUsers(others, u) && u in seen.profiles
    ensures Transactions.GrantBirthdayBonusForUser(RunFrom(seen, others), u, cal)
      == GrantBirthdayBonus(RunFrom(seen, others), u, seen.profiles[u], cal)
  {
    OthersLeaveGrant(seen, others, u, cal.year);
  }
}
