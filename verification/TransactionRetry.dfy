/**
  The services behind withTransactionRetry: a transaction is run again after a conflict, which the database
  has rolled back, and not after any other error, which may have come after the commit.
 */
module TransactionRetry {
  import opened Options
  import opened Accounts
  import opened Transactions
  import opened History
  import opened Locking
  import opened Database
  import opened LoyaltyServices
  import opened LoyaltyExpiration
  import opened AdminLoyalty
  import opened Achievements

  const MAX_TRANSACTION_ATTEMPTS := 3

  // An error of the database client; `sqlState` is what the driver's adapter reported.
  datatype Failure =
    | KnownRequest(code: string, sqlState: Option<string>)
    | DriverAdapter(sqlState: Option<string>)
    | OtherError

  predicate IsPostgresConflict(sqlState: Option<string>) {
    sqlState == Some("40001") || sqlState == Some("40P01")
  }

  predicate IsRetryableConflict(f: Failure) {
    match f
    case KnownRequest(code, sqlState) => code == "P2034" || (code == "P2010" && IsPostgresConflict(sqlState))
    case DriverAdapter(sqlState) => IsPostgresConflict(sqlState)
    case OtherError => false
  }

  // Serialization failures (40001) and deadlocks (40P01), however the client wraps them, and its own report of a
  // write conflict are retried; nothing else is.
  lemma RetriedErrors(f: Failure)
    ensures IsRetryableConflict(f) <==>
      (f.KnownRequest? && f.code == "P2034") ||
      ((f.DriverAdapter? || (f.KnownRequest? && f.code == "P2010")) && f.sqlState.Some? &&
        f.sqlState.value in ["40001", "40P01"])
  {
  }

  // An attempt commits and answers, fails without effect, or commits and loses the answer. A conflict is only
  // reported for a transaction that was rolled back.
  datatype Ending = Answers | Fails(failure: Failure) | LosesAnswer(failure: Failure)

  predicate Commits(e: Ending) {
    e.Answers? || (e.LosesAnswer? && !IsRetryableConflict(e.failure))
  }

  predicate Conflicts(e: Ending) {
    !e.Answers? && IsRetryableConflict(e.failure)
  }

  // Three attempts at most, each but the first after a conflict.
  predicate Attempted(endings: seq<Ending>) {
    1 <= |endings| <= MAX_TRANSACTION_ATTEMPTS && forall i | 0 <= i < |endings| - 1 :: Conflicts(endings[i])
  }

  function Last(endings: seq<Ending>): Ending
    requires endings != []
  {
    endings[|endings| - 1]
  }

  // And none is left out: a conflict at the end is the third.
  predicate Retried(endings: seq<Ending>) {
    Attempted(endings) && (Conflicts(Last(endings)) ==> |endings| == MAX_TRANSACTION_ATTEMPTS)
  }

  lemma TryAgain(endings: seq<Ending>, e: Ending)
    requires Attempted(endings) && Conflicts(Last(endings)) && |endings| < MAX_TRANSACTION_ATTEMPTS
    ensures Attempted(endings + [e]) && Last(endings + [e]) == e
  {
  }

  // The request behind a transaction, whatever its first look at the key found.
  function Request(op: Op): Op {
    match op
    case Deduct(cmd, _) => Deduct(cmd.(operation := DEDUCT), false)
    case Refund(cmd, _) => Refund(cmd.(operation := REFUNDING), false)
    case BuyTicket(msg, cal, _) => BuyTicket(msg, cal, false)
    case _ => op
  }

  // The tables after other commits and then, if it ran, the transaction.
  function After(s: Store, before: seq<Op>, ran: Option<Op>): Store {
    if ran.None? then RunFrom(s, before) else Apply(RunFrom(s, before), ran.value)
  }

  class RetriedTransactions {
    const db: LoyaltyDatabase
    const loyalty: LoyaltyService
    const expiration: LoyaltyExpirationService
    const admin: AdminLoyaltyService
    const achievements: AchievementsProcessor

    constructor (db: LoyaltyDatabase, loyalty: LoyaltyService, expiration: LoyaltyExpirationService,
            admin: AdminLoyaltyService, achievements: AchievementsProcessor)
      requires loyalty.db == expiration.db == admin.db == achievements.db == db
      ensures this.db == db && Wired()
    {
      this.db, this.loyalty, this.expiration, this.admin, this.achievements := db, loyalty, expiration, admin,
        achievements;
    }

    ghost predicate Wired() {
      loyalty.db == expiration.db == admin.db == achievements.db == db
    }

    // Transactions that look at a shared key first, or whose guarded writes rely on the profile lock.
    method RunKeyed(op: Op) returns (response: Response, ghost ran: Op, ghost others: seq<Op>)
      requires Wired() && Attained(db.Contents()) && (op.Deduct? || op.Refund? || op.BuyTicket?)
      modifies db
      ensures Request(ran) == Request(op) && Serialised(old(db.Contents()), others, db.Contents(), ran, response)
    {
      ghost var missed;
      match op
      case Deduct(cmd, _) =>
        response, missed, others := loyalty.DeductPoints(cmd.(operation := DEDUCT));
        ran := Deduct(cmd.(operation := DEDUCT), missed);
      case Refund(cmd, _) =>
        response, missed, others := expiration.RefundPoints(cmd.(operation := REFUNDING));
        ran := Refund(cmd.(operation := REFUNDING), missed);
      case BuyTicket(msg, cal, _) =>
        response, missed, others := loyalty.ProcessTicketPurchase(msg, cal);
        ran := BuyTicket(msg, cal, missed);
    }

    method RunGold(op: Op) returns (response: Response)
      requires Wired() && (op.UseGold? || op.RollbackGold?)
      modifies db
      ensures db.Contents() == Apply(old(db.Contents()), op) && response == PlanOf(old(db.Contents()), op).response
    {
      if op.UseGold? {
        response := loyalty.UseGoldUpgrade(op.user, op.order);
      } else {
        response := loyalty.RollbackGoldUpgrade(op.user, op.order);
      }
    }

    method RunAdmin(op: Op) returns (response: Response)
      requires Wired() && (op.Adjust? || op.GrantVip? || op.OpenAccount?)
      modifies db
      ensures db.Contents() == Apply(old(db.Contents()), op) && response == PlanOf(old(db.Contents()), op).response
    {
      match op
      case Adjust(u, points, cal) => response := admin.ModifyPointsGrpc(u, points, cal);
      case GrantVip(u) => response := admin.GrantVipStatusGrpc(u);
      case OpenAccount(u) =>
        var _ := db.LockLoyaltyProfile(u, true);
        response := Done;
    }

    method RunExpiry(u: UserId, now: int) returns (response: Response)
      requires Wired()
      modifies db
      ensures db.Contents() == Apply(old(db.Contents()), Expire(u, now))
      ensures response == PlanOf(old(db.Contents()), Expire(u, now)).response
    {
      response := expiration.ExpireProfile(u, now);
    }

    method RunReset(op: Op) returns (response: Response)
      requires Wired() && (op.ResetYear? || op.ResetGold?)
      modifies db
      ensures db.Contents() == Apply(old(db.Contents()), op) && response == PlanOf(old(db.Contents()), op).response
    {
      if op.ResetGold? {
        response := expiration.ResetGold(op.user);
      } else {
        expiration.ResetProfile(op.user);
        response := Done;
      }
    }

    method RunAchievement(op: Op) returns (response: Response)
      requires Wired() && Attained(db.Contents()) && op.Achieve?
      modifies db
      ensures db.Contents() == Apply(old(db.Contents()), op) && response == PlanOf(old(db.Contents()), op).response
    {
      AttainedFits(db.Contents(), op.user);
      response := achievements.Advance(op.user, op.eventId, op.achievement, op.incrementBy);
    }

    // One attempt that commits.
    method RunOnce(op: Op) returns (response: Response, ghost ran: Op, ghost others: seq<Op>)
      requires Wired() && Attained(db.Contents()) && UserOf(op).Some?
      modifies db
      ensures Request(ran) == Request(op) && Serialised(old(db.Contents()), others, db.Contents(), ran, response)
    {
      ghost var start := db.Contents();
      ran, others := op, [];
      if op.Deduct? || op.Refund? || op.BuyTicket? {
        response, ran, others := RunKeyed(op);
      } else if op.SetDateOfBirth? {
        response, others := loyalty.ProcessUserDateOfBirthSet(op.user, op.date, op.cal);
      } else if op.GrantBonus? {
        response, others := loyalty.GrantBirthdayBonusForUser(op.user, op.cal);
      } else {
        response := RunAlone(op);
        SerialisedAlone(start, db.Contents(), op, response);
      }
    }

    method RunAlone(op: Op) returns (response: Response)
      requires Wired() && Attained(db.Contents()) && UserOf(op).Some?
      requires !op.Deduct? && !op.Refund? && !op.BuyTicket? && !op.SetDateOfBirth? && !op.GrantBonus?
      modifies db
      ensures db.Contents() == Apply(old(db.Contents()), op) && response == PlanOf(old(db.Contents()), op).response
    {
      if op.UseGold? || op.RollbackGold? { response := RunGold(op); }
      else if op.Adjust? || op.GrantVip? || op.OpenAccount? { response := RunAdmin(op); }
      else if op.Achieve? { response := RunAchievement(op); }
      else if op.Expire? { response := RunExpiry(op.user, op.now); }
      else { response := RunReset(op); }
    }

    // Anything else commits, of the same user too.
    method AnyoneCommits(ghost start: Store, ghost done: seq<Op>) returns (ghost ops: seq<Op>)
      requires Attained(start) && db.Contents() == RunFrom(start, done)
      modifies db
      ensures db.Contents() == RunFrom(start, ops) && done <= ops
    {
      ops := done;
      var more: nat := *;
      while more > 0
        invariant done <= ops && db.Contents() == RunFrom(start, ops)
      {
        var op: Op := *;
        RunOneMore(start, ops, op);
        db.Restore(Apply(db.Contents(), op));
        ops := ops + [op];
        more := more - 1;
      }
    }

    method LastAttempt(op: Op, ghost start: Store, ghost earlier: seq<Op>)
      returns (response: Response, ghost before: seq<Op>, ghost ran: Op)
      requires Wired() && Attained(start) && db.Contents() == RunFrom(start, earlier) && UserOf(op).Some?
      modifies db
      ensures Request(ran) == Request(op) && db.Contents() == Apply(RunFrom(start, before), ran)
      ensures response == PlanOf(RunFrom(start, before), ran).response
    {
      AttainedAlong(start, earlier);
      ghost var others;
      response, ran, others := RunOnce(op);
      RunConcat(start, earlier, others);
      before := earlier + others;
    }

    // Three attempts at most, each after a conflict, with anything committing between them. The transaction ran
    // exactly if the last attempt committed, and its answer arrives exactly if that attempt did not lose it.
    method WithTransactionRetry(op: Op)
      returns (answer: Option<Response>, ghost before: seq<Op>, ghost ran: Option<Op>, ghost endings: seq<Ending>)
      requires Wired() && Attained(db.Contents()) && UserOf(op).Some?
      modifies db
      ensures Retried(endings) && |endings| <= 3
      ensures ran.Some? <==> Commits(Last(endings))
      ensures answer.Some? <==> Last(endings).Answers?
      ensures db.Contents() == After(old(db.Contents()), before, ran) &&
        (ran.Some? ==> Request(ran.value) == Request(op))
      ensures answer.Some? ==> answer.value == PlanOf(RunFrom(old(db.Contents()), before), ran.value).response
    {
      ghost var start := db.Contents();
      before, ran := [], None;
      var attempt, ending: Ending := 1, *;
      endings := [ending];
      while !Commits(ending)
        invariant Attempted(endings) && attempt == |endings| && ending == Last(endings)
        invariant db.Contents() == RunFrom(start, before)
        decreases MAX_TRANSACTION_ATTEMPTS - attempt
      {
        if !IsRetryableConflict(ending.failure) || attempt >= MAX_TRANSACTION_ATTEMPTS {
          return None, before, None, endings;
        }
        before := AnyoneCommits(start, before);
        attempt, ending := attempt + 1, *;
        TryAgain(endings, ending);
        endings := endings + [ending];
      }
      var response;
      ghost var own;
      response, before, own := LastAttempt(op, start, before);
      ran := Some(own);
      answer := if ending.Answers? then Some(response) else None;
    }

    /* ----- two of the service's methods as a caller sees them ----- */

    // Only an unknown profile leaves as an exception of its own; every other error becomes INTERNAL_ERROR.
    method DeductPoints(raw: RawCommand) returns (response: Response, ghost before: seq<Op>, ghost ran: Option<Op>)
      requires Wired() && Attained(db.Contents())
      modifies db
      ensures db.Contents() == After(old(db.Contents()), before, ran)
      ensures ran.Some? ==>
        var command := ParsePointCommand(raw.(operation := DEDUCT));
        command.Some? && Request(ran.value) == Deduct(command.value, false)
      ensures !Unclear(response) && ran.Some? ==>
        response == PlanOf(RunFrom(old(db.Contents()), before), ran.value).response
      ensures response.Success? ==> ran.Some?
    {
      before, ran := [], None;
      assert RunFrom(db.Contents(), []) == db.Contents();
      var command := ParsePointCommand(raw.(operation := DEDUCT));
      if command.None? { return Rejected(InvalidPointCommand, 0), before, ran; }
      var answer;
      ghost var endings;
      answer, before, ran, endings := WithTransactionRetry(Deduct(command.value, false));
      var hidden := answer.None? || (answer.value.Thrown? && answer.value != Thrown(ProfileNotFound));
      response := if hidden then Rejected(InternalError, 0) else answer.value;
    }

    method RefundPoints(raw: RawCommand) returns (response: Response, ghost before: seq<Op>, ghost ran: Option<Op>)
      requires Wired() && Attained(db.Contents())
      modifies db
      ensures db.Contents() == After(old(db.Contents()), before, ran)
      ensures ran.Some? ==>
        var command := ParsePointCommand(raw.(operation := REFUNDING));
        command.Some? && Request(ran.value) == Refund(command.value, false)
      ensures !Unclear(response) && ran.Some? ==>
        response == PlanOf(RunFrom(old(db.Contents()), before), ran.value).response
      ensures response.Success? ==> ran.Some?
    {
      before, ran := [], None;
      assert RunFrom(db.Contents(), []) == db.Contents();
      var command := ParsePointCommand(raw.(operation := REFUNDING));
      if command.None? { return Rejected(InvalidPointCommand, 0), before, ran; }
      var answer;
      ghost var endings;
      answer, before, ran, endings := WithTransactionRetry(Refund(command.value, false));
      response := if answer.None? || answer.value.Thrown? then Rejected(InternalError, 0) else answer.value;
    }
  }

  // An answer that does not say whether the command took effect.
  predicate Unclear(r: Response) {
    r == Rejected(InternalError, 0)
  }
}
