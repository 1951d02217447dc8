/**
  When an outbox row can be claimed, recovered and settled, and how a failed send comes back: every row of a
  run that is not final can be taken up again, from a moment that its columns name.
 */
module OutboxRetries {
  import opened Options
  import opened Tokens
  import opened Outbox
  import Backoff

  // A pending row whose moment has come; that it has budget left need not be asked.
  predicate Waiting(r: Row, st: int) {
    r.status == PENDING && r.nextAttemptAt <= st
  }

  predicate LeaseExpired(r: Row, st: int) {
    r.status == PROCESSING && r.leaseExpiresAt.Some? && r.leaseExpiresAt.value <= st
  }

  // The row is claimed under this token, once more than before.
  predicate ClaimedUnder(r: Row, r': Row, t: Token, expiry: int) {
    r'.status == PROCESSING && r'.leaseToken == Some(t) && r'.leaseExpiresAt == Some(expiry) &&
    r'.attempts == r.attempts + 1 && r'.maxAttempts == r.maxAttempts
  }

  // What the publisher keeps of its claim.
  predicate Remembers(s: System, t: Token, e: EventId, expiry: int) {
    e in s.rows && t in s.flights && s.flights[t] == Flight(e, s.rows[e].attempts, expiry, Sending, false)
  }

  predicate OnlyRow(s: System, s': System, e: EventId) {
    s'.rows.Keys == s.rows.Keys && forall d | d in s.rows && d != e :: s'.rows[d] == s.rows[d]
  }

  predicate TakenBy(s: System, s': System, e: EventId, t: Token, expiry: int) {
    e in s.rows && OnlyRow(s, s', e) && ClaimedUnder(s.rows[e], s'.rows[e], t, expiry) && Remembers(s', t, e, expiry)
  }

  lemma WaitingIsClaimable(s: System, e: EventId, st: int)
    requires Rows(s) && e in s.rows
    ensures Claimable(s.rows[e], st) <==> Waiting(s.rows[e], st)
  {
  }

  lemma ReachableRows(steps: seq<Step>)
    ensures Rows(Run(steps))
  {
    Reachable(steps);
  }

  lemma ClaimEffect(s: System, e: EventId, t: Token, st: int, leaseMs: nat)
    requires Rows(s) && e in s.rows && t !in s.flights && st <= s.now
    ensures Enabled(s, Claim(e, t, st, leaseMs)) <==> Waiting(s.rows[e], st)
    ensures var s' := Apply(s, Claim(e, t, st, leaseMs));
      Waiting(s.rows[e], st) ==> TakenBy(s, s', e, t, s.now + leaseMs)
  {
    WaitingIsClaimable(s, e, st);
  }

  // On every run, a claim under a fresh token takes exactly the rows that are waiting, and makes them its own.
  lemma ClaimTakesWaiting(steps: seq<Step>, e: EventId, t: Token, st: int, leaseMs: nat)
    requires var s := Run(steps); e in s.rows && t !in s.flights && st <= s.now
    ensures
      var s := Run(steps);
      var s' := Apply(s, Claim(e, t, st, leaseMs));
      (Enabled(s, Claim(e, t, st, leaseMs)) <==> Waiting(s.rows[e], st)) &&
      (Waiting(s.rows[e], st) ==> TakenBy(s, s', e, t, s.now + leaseMs))
  {
    ReachableRows(steps);
    ClaimEffect(Run(steps), e, t, st, leaseMs);
  }

  // A new event waits from the moment it is written, with all of its budget.
  lemma NewEventWaits(steps: seq<Step>, e: EventId, max: nat)
    requires e !in Run(steps).rows && max >= 1
    ensures
      var s := Run(steps);
      var s' := Apply(s, Create(e, max));
      e in s'.rows && Waiting(s'.rows[e], s.now) && s'.rows[e].attempts == 0 && s'.rows[e].maxAttempts == max &&
      s'.rows[e].leaseToken.None? && forall d | d in s.rows :: d in s'.rows && s'.rows[d] == s.rows[d]
  {
    ReachableRows(steps);
  }

  // A claim is recovered exactly when its lease has expired.
  lemma RecoveryTakesExpired(steps: seq<Step>, e: EventId, st: int)
    requires var s := Run(steps); e in s.rows && st <= s.now
    ensures Enabled(Run(steps), Recover(e, st)) <==> LeaseExpired(Run(steps).rows[e], st)
  {
    Reachable(steps);
  }

  // The result of a claim is recorded exactly while its token is on the row and its lease runs.
  predicate Settles(s: System, t: Token) {
    t in s.flights && (s.flights[t].phase == Confirmed || s.flights[t].phase == Refused) &&
    s.flights[t].lease > s.now && s.flights[t].event in s.rows && s.rows[s.flights[t].event].leaseToken == Some(t)
  }

  // What a result leaves behind.
  predicate SettledRow(s: System, s': System, t: Token)
    requires t in s.flights
  {
    var e := s.flights[t].event;
    OnlyRow(s, s', e) && e in s.rows &&
    if s.flights[t].phase == Confirmed then s'.rows[e].status == COMPLETED && s'.rows[e].leaseToken.None?
    else GivenBack(s, s', e)
  }

  lemma HeldClaim(s: System, t: Token)
    requires Inv(s) && t in s.flights && Holds(s, t)
    ensures var r := s.rows[s.flights[t].event];
      r.status == PROCESSING && r.leaseExpiresAt == Some(s.flights[t].lease) && r.attempts == s.flights[t].attempts >= 1
  {
    assert Holder(s, s.flights[t].event, t);
  }

  // The guard of the statement, on the columns.
  predicate Guarded(s: System, t: Token) {
    s.rows.Keys == s.changes.Keys && t in s.flights && s.flights[t].event in s.rows &&
    Owned(s.rows[s.flights[t].event], t, s.now)
  }

  lemma ConfirmedSettles(s: System, t: Token)
    requires Guarded(s, t) && s.flights[t].phase == Confirmed
    ensures SettledRow(s, Apply(s, Settle(t)), t)
  {
  }

  lemma RefusedSettles(s: System, t: Token)
    requires Guarded(s, t) && s.flights[t].phase == Refused
    requires s.rows[s.flights[t].event].attempts == s.flights[t].attempts >= 1
    ensures SettledRow(s, Apply(s, Settle(t)), t)
  {
    FailureDelay(s.flights[t].attempts);
  }

  lemma UnguardedSettles(s: System, t: Token)
    requires t in s.flights && !Guarded(s, t)
    ensures Apply(s, Settle(t)).rows == s.rows
  {
  }

  lemma SettlesOwn(s: System, t: Token)
    requires Inv(s) && Settles(s, t)
    ensures SettledRow(s, Apply(s, Settle(t)), t)
  {
    HeldClaim(s, t);
    if s.flights[t].phase == Confirmed { ConfirmedSettles(s, t); } else { RefusedSettles(s, t); }
  }

  lemma SettlesNothing(s: System, t: Token)
    requires Inv(s) && t in s.flights && !Settles(s, t)
    ensures Apply(s, Settle(t)).rows == s.rows
  {
    if Holds(s, t) { HeldClaim(s, t); }
    if !Guarded(s, t) { UnguardedSettles(s, t); }
  }

  lemma SettlesExactly(steps: seq<Step>, t: Token)
    requires t in Run(steps).flights
    ensures
      var s := Run(steps);
      var s' := Apply(s, Settle(t));
      if Settles(s, t) then SettledRow(s, s', t) else s'.rows == s.rows
  {
    Reachable(steps);
    if Settles(Run(steps), t) { SettlesOwn(Run(steps), t); } else { SettlesNothing(Run(steps), t); }
  }

  lemma FailureDelay(attempts: nat)
    requires attempts >= 1
    ensures Backoff.OutboxDelay(attempts).Floor == Backoff.Exponential(5000, 60000, attempts)
    ensures Backoff.OutboxSqlDelay(attempts) == Backoff.Exponential(5000, 60000, attempts)
  {
    Backoff.OutboxDelaysAgree(attempts);
  }

  // The row waits for its next attempt, doubled per attempt from five seconds up to a minute, or has failed
  // because its budget is spent.
  predicate GivenBack(s: System, s': System, e: EventId) {
    e in s.rows && e in s'.rows && s.rows[e].attempts >= 1 &&
    var r, r' := s.rows[e], s'.rows[e];
    r'.attempts == r.attempts && r'.maxAttempts == r.maxAttempts && r'.leaseToken.None? && r'.leaseExpiresAt.None? &&
    if r.attempts < r.maxAttempts
    then r'.status == PENDING && r'.nextAttemptAt == s.now + Backoff.Exponential(5000, 60000, r.attempts)
    else r'.status == FAILED
  }

  lemma RecoveryGivesBack(steps: seq<Step>, e: EventId, st: int)
    requires Enabled(Run(steps), Recover(e, st))
    ensures var s := Run(steps); GivenBack(s, Apply(s, Recover(e, st)), e) && OnlyRow(s, Apply(s, Recover(e, st)), e)
  {
    Reachable(steps);
    FailureDelay(Run(steps).rows[e].attempts);
  }

  /* ----- a failed send is tried again ----- */

  // A recorded failure, or the recovery of an expired claim.
  predicate GivesUp(s: System, step: Step, e: EventId) {
    (step.Recover? && step.event == e && Enabled(s, step)) ||
    (step.Settle? && Settles(s, step.token) && s.flights[step.token].phase == Refused &&
      s.flights[step.token].event == e)
  }

  lemma GivingUpGivesBack(steps: seq<Step>, step: Step, e: EventId)
    requires GivesUp(Run(steps), step, e)
    ensures GivenBack(Run(steps), Apply(Run(steps), step), e)
  {
    if step.Recover? { RecoveryGivesBack(steps, e, step.st); } else { SettlesExactly(steps, step.token); }
  }

  lemma RunOneMore(steps: seq<Step>, step: Step)
    ensures Run(steps + [step]) == Apply(Run(steps), step)
  {
    assert (steps + [step])[..|steps|] == steps;
  }

  // With budget left, an event whose send failed is claimed again exactly from its delay on, by whoever asks,
  // and is then that claim's with one attempt more; without, it has failed for good.
  lemma FailedSendComesBack(steps: seq<Step>, step: Step, e: EventId, later: int, u: Token, st: int, leaseMs: nat)
    requires GivesUp(Run(steps), step, e) && st <= later && Run(steps).now <= later
    requires u !in Run(steps).flights
    ensures
      var s := Run(steps);
      var s' := Apply(Apply(s, step), Tick(later));
      var claim := Claim(e, u, st, leaseMs);
      e in s.rows && s.rows[e].attempts >= 1 && e in s'.rows &&
      if s.rows[e].attempts < s.rows[e].maxAttempts then
        (Enabled(s', claim) <==> st >= s.now + Backoff.Exponential(5000, 60000, s.rows[e].attempts)) &&
        (Enabled(s', claim) ==> e in Apply(s', claim).rows) &&
        (Enabled(s', claim) ==> ClaimedUnder(s.rows[e], Apply(s', claim).rows[e], u, later + leaseMs))
      else s'.rows[e].status == FAILED && !Enabled(s', claim)
  {
    var s := Run(steps);
    GivingUpGivesBack(steps, step, e);
    SameTokens(s, step);
    RunOneMore(steps, step);
    ClaimLater(steps + [step], e, later, u, st, leaseMs);
  }

  lemma ClaimLater(steps: seq<Step>, e: EventId, later: int, u: Token, st: int, leaseMs: nat)
    requires var s := Run(steps); e in s.rows && u !in s.flights && s.now <= later && st <= later
    ensures
      var r := Run(steps).rows[e];
      var s' := Apply(Run(steps), Tick(later));
      var claim := Claim(e, u, st, leaseMs);
      s'.rows == Run(steps).rows && (Enabled(s', claim) <==> Waiting(r, st)) &&
      (Waiting(r, st) ==> e in Apply(s', claim).rows) &&
      (Waiting(r, st) ==> ClaimedUnder(r, Apply(s', claim).rows[e], u, later + leaseMs))
  {
    ReachableRows(steps);
    LaterIsTick(Run(steps), later);
    RunOneMore(steps, Tick(later));
    ClaimTakesWaiting(steps + [Tick(later)], e, u, st, leaseMs);
  }

  lemma SameTokens(s: System, step: Step)
    requires step.Recover? || step.Settle?
    ensures Apply(s, step).flights.Keys == s.flights.Keys && Apply(s, step).now == s.now
  {
  }

  lemma LaterIsTick(s: System, later: int)
    requires s.now <= later && s.rows.Keys == s.changes.Keys
    ensures Apply(s, Tick(later)) == s.(now := later)
  {
  }

  // No event is lost: a row that is not final can be claimed, or its claim recovered, from a moment its
  // columns name.
  lemma NothingIsStuck(steps: seq<Step>, e: EventId, u: Token, later: int, leaseMs: nat)
    requires var s := Run(steps); e in s.rows && u !in s.flights && s.now <= later && s.rows[e].nextAttemptAt <= later
    requires var r := Run(steps).rows[e];
      r.status != COMPLETED && r.status != FAILED && (r.leaseExpiresAt.Some? ==> r.leaseExpiresAt.value <= later)
    ensures var s' := Apply(Run(steps), Tick(later));
      Enabled(s', Claim(e, u, later, leaseMs)) || Enabled(s', Recover(e, later))
  {
    Reachable(steps);
    LaterIsTick(Run(steps), later);
  }
}
