/**
  LoyaltyExpirationService: refunds, and the transactions the nightly scans run for one profile.
 */
module LoyaltyExpiration {
  import opened Options
  import opened Accounts
  import opened Transactions
  import opened History
  import opened Locking
  import opened Database

  // Everything a refund checks, in the state it read.
  predicate Refundable(s: Store, cmd: PointCommand, debit: nat) {
    cmd.user in s.profiles && Debits(s.ledger, cmd.user, cmd.order) == [debit] && debit < |s.ledger| &&
    !HasRefund(s.ledger, cmd.user, cmd.order) && OpenLink(s.checkout, debit) && cmd.amount == -s.ledger[debit].points
  }

  function RefundWrites(cmd: PointCommand, profile: Profile, newBalance: int, debit: nat): Change {
    Only(cmd.user, profile.(balance := newBalance)).(
      entry := Some(Entry(cmd.user, REFUND, cmd.amount, newBalance, Some(cmd.order), Command(cmd.key))),
      key := Some((cmd.key, KeyRow(cmd, newBalance))),
      link := CloseDebit(debit))
  }

  // What others commit leaves everything that the refund checked.
  lemma OthersLeaveLink(seen: Store, others: seq<Op>, cmd: PointCommand, debit: nat)
    requires Attained(seen) && Refundable(seen, cmd, debit) && OtherUsers(others, cmd.user)
    ensures Refundable(RunFrom(seen, others), cmd, debit)
    ensures ProfileOf(RunFrom(seen, others), cmd.user) == ProfileOf(seen, cmd.user)
  {
    OthersLeaveUser(seen, others, cmd.user);
    StillRefundable(seen, RunFrom(seen, others), cmd, debit);
  }

  lemma StillRefundable(s: Store, s': Store, cmd: PointCommand, debit: nat)
    requires SameFor(s, s', cmd.user) && Refundable(s, cmd, debit)
    ensures Refundable(s', cmd, debit)
  {
    SameLedgerReads(s, s', cmd.user, cmd.order);
    assert debit in Debits(s.ledger, cmd.user, cmd.order);
  }

  // From a refundable state the transaction is its claim and its writes.
  lemma RefundFrom(s: Store, cmd: PointCommand, debit: nat)
    requires Refundable(s, cmd, debit)
    ensures Transactions.RefundPoints(s, cmd, true) == Claim(s, cmd, RefundChange(s.profiles[cmd.user], cmd, debit))
  {
  }

  // The account update, the ledger row and the link together, or nothing.
  predicate Written(s: Store, c: Change, debit: nat, newBalance: int, s': Store, response: Response) {
    if !Fits(c) then s' == s && response == Thrown(OutOfRange)
    else if !OpenLink(s.checkout, debit) then s' == s && response == Thrown(OwnershipChanged)
    else s' == Commit(s, c) && response == Success(newBalance)
  }

  // The claim of the key, and the writes if it was free.
  predicate Credited(s: Store, cmd: PointCommand, profile: Profile, debit: nat, s': Store, response: Response) {
    var newBalance := profile.balance + cmd.amount;
    var replay := ReplayPointCommand(s.processed, cmd);
    if !Int32(newBalance) then s' == s && response == Thrown(OutOfRange)
    else if replay.Some? then s' == s && response == replay.value
    else Written(s, RefundWrites(cmd, profile, newBalance, debit), debit, newBalance, s', response)
  }

  lemma CreditedRefund(s: Store, cmd: PointCommand, debit: nat, s': Store, response: Response)
    requires Refundable(s, cmd, debit) && Credited(s, cmd, ProfileOf(s, cmd.user), debit, s', response)
    ensures var plan := Transactions.RefundPoints(s, cmd, true);
      s' == Execute(s, plan) && response == plan.response && response != Thrown(OwnershipChanged)
  {
    RefundFrom(s, cmd, debit);
  }

  lemma RefundSerialised(seen: Store, others: seq<Op>, cmd: PointCommand, debit: nat, s': Store, response: Response)
    requires Attained(seen) && Refundable(seen, cmd, debit) && OtherUsers(others, cmd.user)
    requires cmd.operation == REFUNDING
    requires Credited(RunFrom(seen, others), cmd, ProfileOf(seen, cmd.user), debit, s', response)
    ensures Serialised(seen, others, s', Refund(cmd, true), response) && response != Thrown(OwnershipChanged)
  {
    OthersLeaveLink(seen, others, cmd, debit);
    CreditedRefund(RunFrom(seen, others), cmd, debit, s', response);
  }

  class LoyaltyExpirationService {
    const db: LoyaltyDatabase

    constructor (db: LoyaltyDatabase)
      ensures this.db == db
    {
      this.db := db;
    }

    // The transaction of a parsed refund. `missed` says that its first look at the key found nothing.
    method RefundPoints(cmd: PointCommand) returns (response: Response, ghost missed: bool, ghost others: seq<Op>)
      requires Attained(db.Contents()) && cmd.operation == REFUNDING
      modifies db
      ensures Serialised(old(db.Contents()), others, db.Contents(), Refund(cmd, missed), response)
    {
      ghost var start := db.Contents();
      var replay := ReplayPointCommand(db.processed, cmd);
      if replay.Some? {
        SerialisedAlone(start, start, Refund(cmd, false), replay.value);
        return replay.value, false, [];
      }
      ghost var first := db.OthersCommit(cmd.user);
      ghost var second;
      response, second := Compensate(cmd);
      SerialisedLater(start, first, second, db.Contents(), Refund(cmd, true), response);
      missed, others := true, first + second;
    }

    // The refund from the profile check on: the order must have exactly one debit, still open and of
    // exactly this amount. Other users may commit between these reads and the writes.
    method Compensate(cmd: PointCommand) returns (response: Response, ghost others: seq<Op>)
      requires Attained(db.Contents()) && cmd.operation == REFUNDING
      modifies db
      ensures Serialised(old(db.Contents()), others, db.Contents(), Refund(cmd, true), response)
    {
      ghost var seen := db.Contents();
      var profile, debit, refusal := ReadsRefund(cmd);
      if refusal.Some? {
        SerialisedAlone(seen, seen, Refund(cmd, true), refusal.value);
        return refusal.value, [];
      }
      others := db.OthersCommit(cmd.user);
      response := CreditRefund(cmd, profile, debit, seen, others);
    }

    // What a refund reads before it writes: the account and the debit, or the reason to refuse.
    method ReadsRefund(cmd: PointCommand) returns (profile: Profile, debit: nat, refusal: Option<Response>)
      ensures if refusal.Some? then Transactions.RefundPoints(db.Contents(), cmd, true) == Plan(refusal.value, None)
        else Refundable(db.Contents(), cmd, debit) && profile == ProfileOf(db.Contents(), cmd.user)
    {
      profile, debit := NewProfile, 0;
      if cmd.user !in db.profiles { return profile, debit, Some(Rejected(ProfileNotFound, 0)); }
      profile := db.profiles[cmd.user];
      var debits := Debits(db.ledger, cmd.user, cmd.order);
      if |debits| == 0 { return profile, debit, Some(Rejected(DebitNotFound, 0)); }
      if |debits| != 1 { return profile, debit, Some(Rejected(Reconciliation, 0)); }
      debit := debits[0];
      if HasRefund(db.ledger, cmd.user, cmd.order) || (debit in db.checkout && db.checkout[debit].Some?) {
        return profile, debit, Some(Rejected(AlreadyCompensated, 0));
      }
      if debit !in db.checkout { return profile, debit, Some(Rejected(Reconciliation, 0)); }
      if cmd.amount != -db.ledger[debit].points { return profile, debit, Some(Rejected(AmountMismatch, 0)); }
      refusal := None;
    }

    // The writes, made from what was read in `seen`. The guarded update of the link rolls everything back
    // when it finds the link taken; the profile lock is why it never does.
    method CreditRefund(cmd: PointCommand, profile: Profile, debit: nat, ghost seen: Store, ghost others: seq<Op>)
      returns (response: Response)
      requires cmd.operation == REFUNDING && Attained(seen) && Refundable(seen, cmd, debit)
      requires profile == ProfileOf(seen, cmd.user)
      requires OtherUsers(others, cmd.user) && db.Contents() == RunFrom(seen, others)
      modifies db
      ensures Serialised(seen, others, db.Contents(), Refund(cmd, true), response)
      ensures response != Thrown(OwnershipChanged)
    {
      var begun := db.Contents();
      var newBalance := profile.balance + cmd.amount;
      var racedReplay := db.ClaimPointCommand(cmd, newBalance);
      if racedReplay.Some? {
        response := racedReplay.value;
      } else {
        response := WriteRefund(cmd, profile, newBalance, debit, begun);
      }
      RefundSerialised(seen, others, cmd, debit, db.Contents(), response);
    }

    method WriteRefund(cmd: PointCommand, profile: Profile, newBalance: int, debit: nat, begun: Store)
      returns (response: Response)
      requires Int32(newBalance)
      requires db.Contents() == begun.(processed := begun.processed[cmd.key := KeyRow(cmd, newBalance)])
      modifies db
      ensures Written(begun, RefundWrites(cmd, profile, newBalance, debit), debit, newBalance, db.Contents(), response)
    {
      var ok := db.UpdateProfile(cmd.user, profile.(balance := newBalance));
      var created, refund := db.CreateTransaction(
        Entry(cmd.user, REFUND, cmd.amount, newBalance, Some(cmd.order), Command(cmd.key)));
      if !ok || !created {
        db.Restore(begun);
        return Thrown(OutOfRange);
      }
      var linked := db.LinkRefund(debit, refund);
      if linked != 1 {
        db.Restore(begun);
        return Thrown(OwnershipChanged);
      }
      response := Success(newBalance);
    }

    /* ----- one profile of a nightly scan ----- */

    method ExpireProfile(u: UserId, now: int) returns (response: Response)
      modifies db
      ensures var plan := Transactions.ExpirePoints(old(db.Contents()), u, now);
        db.Contents() == Execute(old(db.Contents()), plan) && response == plan.response
    {
      var begun := db.Contents();
      var found := db.LockLoyaltyProfile(u, false);
      if !found { return Rejected(NothingToExpire, 0); }
      var profile := db.profiles[u];
      if profile.balance <= 0 || profile.balanceExpiresAt.None? || profile.balanceExpiresAt.value > now {
        return Rejected(NothingToExpire, 0);
      }
      var ok := db.Post(u, profile.(balance := 0), Entry(u, EXPIRE, -profile.balance, 0, None, Unkeyed));
      if !ok {
        db.Restore(begun);
        return Thrown(OutOfRange);
      }
      response := Done;
    }

    method ResetProfile(u: UserId)
      modifies db
      ensures db.Contents() == Execute(old(db.Contents()), Transactions.ResetAnnualStats(old(db.Contents()), u))
    {
      var found := db.LockLoyaltyProfile(u, false);
      if !found { return; }
      db.profiles := db.profiles[u := db.profiles[u].(yearPoints := 0, yearVisits := 0)];
    }

    method ResetGold(u: UserId) returns (response: Response)
      modifies db
      ensures var plan := Transactions.GoldReset(old(db.Contents()), u);
        db.Contents() == Execute(old(db.Contents()), plan) && response == plan.response
    {
      var found := db.LockLoyaltyProfile(u, false);
      if !found { return Rejected(NothingToReset, 0); }
      var used := db.profiles[u].goldUpgradeUsedMonth;
      if used.None? || used.value >= db.month { return Rejected(NothingToReset, 0); }
      db.profiles := db.profiles[u := db.profiles[u].(goldUpgradeUsedMonth := None)];
      response := Done;
    }
  }
}
