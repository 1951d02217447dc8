/**
  The transactional outbox: rows that any number of publishers claim under a lease, emit and settle.

  A Step is one guarded SQL statement on one row, one thing the network does, or the passing of time;
  a run is any sequence of them. Statements carry two clock readings: `st`, taken when the statement
  began, and the clock when it executes, which is the `now` of the state. A step whose guard is false
  changes nothing.
 */
module Outbox {
  import opened Options
  import opened Tokens
  import Backoff

  type EventId = nat

  datatype Status = PENDING | PROCESSING | COMPLETED | FAILED

  datatype Row = Row(
    status: Status,
    attempts: nat,
    maxAttempts: nat,
    leaseToken: Option<Token>,
    leaseExpiresAt: Option<int>,
    nextAttemptAt: int
  )

  // What a publisher remembers of a claim, and how far the claim has come.
  datatype Phase = Sending | Confirmed | Refused | Settled | Lost

  datatype Flight = Flight(event: EventId, attempts: nat, lease: int, phase: Phase, emitted: bool)

  // `completions` and `changes` only record history: who completed a row and when, and how often a
  // row's status changed.
  datatype Completion = Completion(token: Token, at: int)

  datatype System = System(
    rows: map<EventId, Row>,
    flights: map<Token, Flight>,
    now: int,
    completions: map<EventId, Completion>,
    changes: map<EventId, nat>
  )

  const Initial := System(map[], map[], 0, map[], map[])

  datatype Step =
    | Create(event: EventId, maxAttempts: nat)
    | Recover(event: EventId, st: int)
    | FailExhausted(event: EventId)
    | Claim(event: EventId, token: Token, st: int, leaseMs: nat)
    | Emit(token: Token)
    | Resolve(token: Token, success: bool)
    | Settle(token: Token)
    | Lose(token: Token)
    | Tick(later: int)

  /* ----- the guarded statements, on one row ----- */

  predicate Recoverable(r: Row, st: int) {
    r.status == PROCESSING && r.leaseToken.Some? && r.leaseExpiresAt.Some? && r.leaseExpiresAt.value <= st
  }

  predicate Exhausted(r: Row) {
    r.status == PENDING && r.attempts >= r.maxAttempts
  }

  predicate Claimable(r: Row, st: int) {
    r.status == PENDING && r.attempts < r.maxAttempts && r.nextAttemptAt <= st
  }

  // Guard of both result statements: the claim is still this publisher's and its lease still runs.
  predicate Owned(r: Row, token: Token, now: int) {
    r.status == PROCESSING && r.leaseToken == Some(token) && r.leaseExpiresAt.Some? && r.leaseExpiresAt.value > now
  }

  function Released(r: Row, status: Status, nextAttemptAt: int): Row {
    r.(status := status, leaseToken := None, leaseExpiresAt := None, nextAttemptAt := nextAttemptAt)
  }

  function AfterFailure(r: Row): Status {
    if r.attempts >= r.maxAttempts then FAILED else PENDING
  }

  function RecoveredRow(r: Row, now: int): Row {
    Released(r, AfterFailure(r), now + Backoff.OutboxSqlDelay(r.attempts))
  }

  function ClaimedRow(r: Row, token: Token, expiry: int): Row {
    r.(status := PROCESSING, attempts := r.attempts + 1, leaseToken := Some(token), leaseExpiresAt := Some(expiry))
  }

  // The delay is computed from the attempt number the claim returned.
  function FailedRow(r: Row, claimedAttempts: nat, now: int): Row {
    Released(r, AfterFailure(r), now + Backoff.OutboxDelay(claimedAttempts).Floor)
  }

  function CompletedRow(r: Row): Row {
    Released(r, COMPLETED, r.nextAttemptAt)
  }

  /* ----- the system ----- */

  // One more change is counted when the status differs.
  function WithRow(s: System, e: EventId, r: Row): System
    requires e in s.rows && e in s.changes
  {
    var changed := if r.status == s.rows[e].status then s.changes else s.changes[e := s.changes[e] + 1];
    s.(rows := s.rows[e := r], changes := changed)
  }

  function WithPhase(s: System, t: Token, phase: Phase): System
    requires t in s.flights
  {
    s.(flights := s.flights[t := s.flights[t].(phase := phase)])
  }

  predicate Enabled(s: System, step: Step) {
    s.rows.Keys == s.changes.Keys &&
    match step
    case Create(e, max) => e !in s.rows && max >= 1
    case Recover(e, st) => e in s.rows && st <= s.now && Recoverable(s.rows[e], st)
    case FailExhausted(e) => e in s.rows && Exhausted(s.rows[e])
    case Claim(e, t, st, _) => e in s.rows && t !in s.flights && st <= s.now && Claimable(s.rows[e], st)
    case Emit(t) => t in s.flights && !s.flights[t].emitted
    case Resolve(t, success) => t in s.flights && s.flights[t].phase == Sending && (success ==> s.flights[t].emitted)
    case Settle(t) => t in s.flights && (s.flights[t].phase == Confirmed || s.flights[t].phase == Refused)
    case Lose(t) => t in s.flights && s.flights[t].phase != Settled
    case Tick(later) => later >= s.now
  }

  function Apply(s: System, step: Step): System {
    if !Enabled(s, step) then s else
    match step
    case Create(e, max) =>
      s.(rows := s.rows[e := Row(PENDING, 0, max, None, None, s.now)], changes := s.changes[e := 0])
    case Recover(e, _) => WithRow(s, e, RecoveredRow(s.rows[e], s.now))
    case FailExhausted(e) => WithRow(s, e, RecoveredRow(s.rows[e], s.now))
    case Claim(e, t, _, leaseMs) => WithClaim(s, e, t, s.now + leaseMs)
    case Emit(t) => s.(flights := s.flights[t := s.flights[t].(emitted := true)])
    case Resolve(t, success) => WithPhase(s, t, if success then Confirmed else Refused)
    case Settle(t) => SettleClaim(s, t)
    case Lose(t) => WithPhase(s, t, Lost)
    case Tick(later) => s.(now := later)
  }

  function WithClaim(s: System, e: EventId, t: Token, expiry: int): System
    requires e in s.rows && s.rows.Keys == s.changes.Keys
  {
    var r := ClaimedRow(s.rows[e], t, expiry);
    WithRow(s, e, r).(flights := s.flights[t := Flight(e, r.attempts, expiry, Sending, false)])
  }

  function SettleClaim(s: System, t: Token): System
    requires t in s.flights && s.rows.Keys == s.changes.Keys
  {
    var f := s.flights[t];
    var settled := WithPhase(s, t, Settled);
    if f.event !in s.rows || !Owned(s.rows[f.event], t, s.now) then settled
    else if f.phase == Confirmed then
      WithRow(settled, f.event, CompletedRow(s.rows[f.event]))
        .(completions := s.completions[f.event := Completion(t, s.now)])
    else WithRow(settled, f.event, FailedRow(s.rows[f.event], f.attempts, s.now))
  }

  function RunFrom(s: System, steps: seq<Step>): System {
    if steps == [] then s else Apply(RunFrom(s, steps[..|steps| - 1]), steps[|steps| - 1])
  }

  function Run(steps: seq<Step>): System {
    RunFrom(Initial, steps)
  }

  /* ----- what every reachable state satisfies ----- */

  // Status changes a row has left.
  function Measure(r: Row): nat {
    match r.status
    case PENDING => if r.attempts < r.maxAttempts then 2 * (r.maxAttempts - r.attempts) else 0
    case PROCESSING => if r.attempts <= r.maxAttempts then 2 * (r.maxAttempts - r.attempts) + 1 else 0
    case COMPLETED => 0
    case FAILED => 0
  }

  ghost predicate RowShape(r: Row) {
    r.attempts <= r.maxAttempts &&
    (r.status == PROCESSING <==> r.leaseToken.Some?) &&
    (r.leaseToken.Some? <==> r.leaseExpiresAt.Some?) &&
    (r.status == PENDING ==> r.attempts < r.maxAttempts) &&
    (r.status == PROCESSING ==> r.attempts >= 1) &&
    (r.status == FAILED ==> r.attempts == r.maxAttempts)
  }

  ghost predicate Rows(s: System) {
    s.rows.Keys == s.changes.Keys &&
    forall e | e in s.rows :: RowShape(s.rows[e]) && s.changes[e] + Measure(s.rows[e]) <= 2 * s.rows[e].maxAttempts
  }

  // The token on a row is a claim of that row, remembered with its attempt number and its lease; every
  // claim has an earlier or the same attempt number, and no two claims of a row share one.
  ghost predicate Claims(s: System) {
    (forall e | e in s.rows && s.rows[e].leaseToken.Some? :: Holder(s, e, s.rows[e].leaseToken.value)) &&
    (forall t | t in s.flights :: s.flights[t].event in s.rows &&
      1 <= s.flights[t].attempts <= s.rows[s.flights[t].event].attempts) &&
    (forall t, u | t in s.flights && u in s.flights && t != u && s.flights[t].event == s.flights[u].event ::
      s.flights[t].attempts != s.flights[u].attempts)
  }

  ghost predicate Holder(s: System, e: EventId, t: Token)
    requires e in s.rows
  {
    t in s.flights && s.flights[t].event == e && s.flights[t].attempts == s.rows[e].attempts &&
    s.rows[e].leaseExpiresAt == Some(s.flights[t].lease)
  }

  // A publisher whose lease still runs and who has not settled holds the row.
  ghost predicate Fenced(s: System) {
    forall t | Live(s, t) :: Holds(s, t)
  }

  predicate Live(s: System, t: Token) {
    t in s.flights && s.flights[t].phase != Settled && s.flights[t].lease > s.now
  }

  predicate Holds(s: System, t: Token)
    requires t in s.flights
  {
    s.flights[t].event in s.rows && s.rows[s.flights[t].event].leaseToken == Some(t)
  }

  // A confirmed publisher did send; a completed row was completed by one of them inside its lease.
  ghost predicate Sent(s: System) {
    (forall t | t in s.flights && s.flights[t].phase == Confirmed :: s.flights[t].emitted) &&
    (forall e | e in s.rows && s.rows[e].status == COMPLETED :: e in s.completions) &&
    (forall e | e in s.completions :: CompletedInLease(s, e, s.completions[e]))
  }

  ghost predicate CompletedInLease(s: System, e: EventId, c: Completion) {
    c.token in s.flights && s.flights[c.token].event == e && s.flights[c.token].emitted &&
      c.at < s.flights[c.token].lease
  }

  ghost predicate Inv(s: System) {
    Rows(s) && Claims(s) && Fenced(s) && Sent(s)
  }

  /* ----- rows: shape and remaining status changes ----- */

  // A row may move to r: the shape holds, and each status change uses up the measure.
  ghost predicate Moves(from: Row, r: Row) {
    RowShape(r) && r.maxAttempts == from.maxAttempts &&
    Measure(r) + (if r.status == from.status then 0 else 1) <= Measure(from)
  }

  lemma RowMoves(r: Row, token: Token, expiry: int, claimedAttempts: nat, now: int)
    requires RowShape(r)
    ensures r.status == PROCESSING ==>
      Moves(r, RecoveredRow(r, now)) && Moves(r, CompletedRow(r)) && Moves(r, FailedRow(r, claimedAttempts, now))
    ensures r.status == PENDING ==> !Exhausted(r) && Moves(r, ClaimedRow(r, token, expiry))
  {
  }

  lemma RowsPut(s: System, e: EventId, r: Row)
    requires Rows(s) && e in s.rows && Moves(s.rows[e], r)
    ensures Rows(WithRow(s, e, r))
  {
  }

  lemma RowsKept(s: System, step: Step)
    requires Rows(s)
    ensures Rows(Apply(s, step))
  {
    if Enabled(s, step) {
      if step.Create? { RowsCreated(s, step); }
      else if step.Recover? { RowsReleased(s, step); }
      else if step.Claim? { RowsClaimed(s, step); }
      else if step.Settle? { RowsSettled(s, step.token); }
      else { RowsUntouched(s, step); }
    }
  }

  lemma RowsUntouched(s: System, step: Step)
    requires Rows(s) && Enabled(s, step)
    requires !step.Create? && !step.Recover? && !step.Claim? && !step.Settle?
    ensures Rows(Apply(s, step))
  {
  }

  lemma RowsCreated(s: System, step: Step)
    requires Rows(s) && Enabled(s, step) && step.Create?
    ensures Rows(Apply(s, step))
  {
  }

  lemma RowsReleased(s: System, step: Step)
    requires Rows(s) && Enabled(s, step) && step.Recover?
    ensures Rows(Apply(s, step))
  {
    var r := s.rows[step.event];
    RowMoves(r, 0, 0, 0, s.now);
    RowsPut(s, step.event, RecoveredRow(r, s.now));
  }

  lemma RowsClaimed(s: System, step: Step)
    requires Rows(s) && Enabled(s, step) && step.Claim?
    ensures Rows(Apply(s, step))
  {
    var r, expiry := s.rows[step.event], s.now + step.leaseMs;
    RowMoves(r, step.token, expiry, 0, s.now);
    RowsPut(s, step.event, ClaimedRow(r, step.token, expiry));
  }

  lemma RowsSettled(s: System, t: Token)
    requires Rows(s) && t in s.flights
    ensures Rows(SettleClaim(s, t))
  {
    var f := s.flights[t];
    if f.event in s.rows && Owned(s.rows[f.event], t, s.now) {
      RowMoves(s.rows[f.event], 0, 0, f.attempts, s.now);
      RowsPut(WithPhase(s, t, Settled), f.event, CompletedRow(s.rows[f.event]));
      RowsPut(WithPhase(s, t, Settled), f.event, FailedRow(s.rows[f.event], f.attempts, s.now));
    }
  }

  /* ----- claims ----- */

  // Everything but the claim itself keeps a flight's identity and a row's attempts.
  ghost predicate SameClaims(s: System, s': System) {
    s'.flights.Keys == s.flights.Keys && s.rows.Keys <= s'.rows.Keys &&
    (forall t | t in s.flights :: s'.flights[t].event == s.flights[t].event &&
      s'.flights[t].attempts == s.flights[t].attempts && s'.flights[t].lease == s.flights[t].lease) &&
    (forall e | e in s.rows :: s'.rows[e].attempts == s.rows[e].attempts) &&
    (forall e | e in s'.rows && s'.rows[e].leaseToken.Some? ::
      e in s.rows && s'.rows[e].leaseToken == s.rows[e].leaseToken &&
        s'.rows[e].leaseExpiresAt == s.rows[e].leaseExpiresAt)
  }

  lemma ClaimsOfSame(s: System, s': System)
    requires Claims(s) && SameClaims(s, s')
    ensures Claims(s')
  {
    forall e | e in s'.rows && s'.rows[e].leaseToken.Some? ensures Holder(s', e, s'.rows[e].leaseToken.value) {
      assert Holder(s, e, s.rows[e].leaseToken.value);
    }
  }

  lemma SameWithRow(s: System, e: EventId, r: Row)
    requires e in s.rows && e in s.changes && r.attempts == s.rows[e].attempts && r.leaseToken.None?
    ensures SameClaims(s, WithRow(s, e, r))
  {
  }

  lemma SameSettled(s: System, t: Token)
    requires t in s.flights && s.rows.Keys == s.changes.Keys
    ensures SameClaims(s, SettleClaim(s, t))
  {
    var f := s.flights[t];
    if f.event in s.rows && Owned(s.rows[f.event], t, s.now) {
      SameWithRow(s, f.event, CompletedRow(s.rows[f.event]));
      SameWithRow(s, f.event, FailedRow(s.rows[f.event], f.attempts, s.now));
    }
  }

  lemma OnlyClaimsAdd(s: System, step: Step)
    requires !step.Claim?
    ensures SameClaims(s, Apply(s, step))
  {
    if Enabled(s, step) {
      if step.Settle? { SameSettled(s, step.token); }
      else if step.Recover? || step.FailExhausted? {
        SameWithRow(s, step.event, RecoveredRow(s.rows[step.event], s.now));
      }
    }
  }

  lemma ClaimAdded(s: System, e: EventId, t: Token, expiry: int)
    requires Rows(s) && Claims(s) && e in s.rows && t !in s.flights
    ensures Claims(WithClaim(s, e, t, expiry))
  {
    var s' := WithClaim(s, e, t, expiry);
    forall d | d in s'.rows && s'.rows[d].leaseToken.Some? ensures Holder(s', d, s'.rows[d].leaseToken.value) {
      if d != e { assert Holder(s, d, s.rows[d].leaseToken.value); }
    }
  }

  lemma ClaimsKept(s: System, step: Step)
    requires Rows(s) && Claims(s)
    ensures Claims(Apply(s, step))
  {
    if step.Claim? {
      ClaimStep(s, step);
    } else {
      OnlyClaimsAdd(s, step);
      ClaimsOfSame(s, Apply(s, step));
    }
  }

  lemma ClaimStep(s: System, step: Step)
    requires Rows(s) && Claims(s) && step.Claim?
    ensures Claims(Apply(s, step))
  {
    if Enabled(s, step) { ClaimAdded(s, step.event, step.token, s.now + step.leaseMs); }
  }

  /* ----- fencing ----- */

  lemma FencedKept(s: System, step: Step)
    requires Rows(s) && Claims(s) && Fenced(s)
    ensures Fenced(Apply(s, step))
  {
    if !Enabled(s, step) || step.Create? {
      forall t | Live(Apply(s, step), t) ensures Holds(Apply(s, step), t) { LiveUntouched(s, step, t); }
    } else {
      forall t | Live(Apply(s, step), t) ensures Holds(Apply(s, step), t) { LiveHolds(s, step, t); }
    }
  }

  lemma LiveHolds(s: System, step: Step, t: Token)
    requires Rows(s) && Claims(s) && Fenced(s) && Enabled(s, step) && !step.Create?
    requires Live(Apply(s, step), t)
    ensures Holds(Apply(s, step), t)
  {
    if step.Settle? { LiveAfterSettle(s, step.token, t); }
    else if t in s.flights { LiveKept(s, step, t); }
    else { LiveClaimed(s, step, t); }
  }

  lemma LiveUntouched(s: System, step: Step, t: Token)
    requires Fenced(s) && (!Enabled(s, step) || step.Create?) && Live(Apply(s, step), t)
    ensures Holds(Apply(s, step), t)
  {
    assert Live(s, t);
  }

  lemma LiveClaimed(s: System, step: Step, t: Token)
    requires Enabled(s, step) && !step.Settle? && t !in s.flights && t in Apply(s, step).flights
    ensures Holds(Apply(s, step), t)
  {
    assert step.Claim?;
  }

  lemma LiveAfterSettle(s: System, settling: Token, t: Token)
    requires Claims(s) && Fenced(s) && settling in s.flights && s.rows.Keys == s.changes.Keys
    requires Live(SettleClaim(s, settling), t)
    ensures Holds(SettleClaim(s, settling), t)
  {
    assert t != settling && Live(s, t);
  }

  // A live claim's row cannot be recovered, claimed or failed by anyone else.
  lemma LiveKept(s: System, step: Step, t: Token)
    requires Rows(s) && Claims(s) && Fenced(s) && Enabled(s, step) && !step.Create? && !step.Settle?
    requires t in s.flights && Live(Apply(s, step), t)
    ensures Holds(Apply(s, step), t)
  {
    assert Live(s, t);
    assert Holder(s, s.flights[t].event, t);
    if step.Recover? || step.FailExhausted? || step.Claim? { LiveRowKept(s, step, t); }
    else { LivePhaseKept(s, step, t); }
  }

  lemma LiveRowKept(s: System, step: Step, t: Token)
    requires Enabled(s, step) && (step.Recover? || step.FailExhausted? || step.Claim?)
    requires t in s.flights && s.flights[t].lease > s.now && Holds(s, t) && Holder(s, s.flights[t].event, t)
    requires forall e | e in s.rows :: RowShape(s.rows[e])
    ensures t in Apply(s, step).flights && Holds(Apply(s, step), t)
  {
  }

  lemma LivePhaseKept(s: System, step: Step, t: Token)
    requires Enabled(s, step) && (step.Emit? || step.Resolve? || step.Lose? || step.Tick?)
    requires t in s.flights && Holds(s, t)
    ensures t in Apply(s, step).flights && Holds(Apply(s, step), t)
  {
  }

  /* ----- what was sent ----- */

  // Nothing new is completed and no emission is forgotten.
  ghost predicate SameSends(s: System, s': System) {
    s'.completions == s.completions &&
    (forall t | t in s.flights :: t in s'.flights && s'.flights[t].event == s.flights[t].event &&
      s'.flights[t].lease == s.flights[t].lease && (s.flights[t].emitted ==> s'.flights[t].emitted)) &&
    (forall t | t in s'.flights && s'.flights[t].phase == Confirmed :: s'.flights[t].emitted) &&
    (forall e | e in s'.rows && s'.rows[e].status == COMPLETED :: e in s.rows && s.rows[e].status == COMPLETED)
  }

  lemma SentOfSame(s: System, s': System)
    requires Sent(s) && SameSends(s, s')
    ensures Sent(s')
  {
    forall e | e in s'.completions ensures CompletedInLease(s', e, s'.completions[e]) {
      assert CompletedInLease(s, e, s.completions[e]);
    }
  }

  lemma SendsOfRow(s: System, e: EventId, r: Row)
    requires Sent(s) && e in s.rows && e in s.changes && r.status != COMPLETED
    ensures SameSends(s, WithRow(s, e, r))
  {
  }

  lemma SendsOfFlight(s: System, t: Token, f: Flight)
    requires Sent(s) && (f.phase == Confirmed ==> f.emitted)
    requires t in s.flights ==>
      f.event == s.flights[t].event && f.lease == s.flights[t].lease && (s.flights[t].emitted ==> f.emitted)
    ensures SameSends(s, s.(flights := s.flights[t := f]))
  {
  }

  lemma SentKept(s: System, step: Step)
    requires Rows(s) && Claims(s) && Sent(s)
    ensures Sent(Apply(s, step))
  {
    if Enabled(s, step) {
      if step.Settle? { SentSettled(s, step.token); }
      else if step.Emit? || step.Resolve? || step.Lose? { SentByPublisher(s, step); }
      else if step.Claim? { SentByClaim(s, step); }
      else { SentByRest(s, step); }
    }
  }

  lemma SentByRest(s: System, step: Step)
    requires Rows(s) && Sent(s) && Enabled(s, step)
    requires step.Create? || step.Tick? || step.Recover? || step.FailExhausted?
    ensures Sent(Apply(s, step))
  {
    if step.Recover? { SentRow(s, step.event, RecoveredRow(s.rows[step.event], s.now)); }
    else if !step.FailExhausted? { SentOfSame(s, Apply(s, step)); }
  }

  lemma SentByClaim(s: System, step: Step)
    requires Sent(s) && Enabled(s, step) && step.Claim?
    ensures Sent(Apply(s, step))
  {
    SentClaimed(s, step.event, step.token, s.now + step.leaseMs);
  }

  lemma SentByPublisher(s: System, step: Step)
    requires Sent(s) && Enabled(s, step) && (step.Emit? || step.Resolve? || step.Lose?)
    ensures Sent(Apply(s, step))
  {
    var t := step.token;
    SentFlight(s, t, Apply(s, step).flights[t]);
  }

  lemma SentClaimed(s: System, e: EventId, t: Token, expiry: int)
    requires Sent(s) && e in s.rows && e in s.changes && t !in s.flights
    ensures
      var r := ClaimedRow(s.rows[e], t, expiry);
      Sent(WithRow(s, e, r).(flights := s.flights[t := Flight(e, r.attempts, expiry, Sending, false)]))
  {
    var r := ClaimedRow(s.rows[e], t, expiry);
    SentRow(s, e, r);
    SentFlight(WithRow(s, e, r), t, Flight(e, r.attempts, expiry, Sending, false));
  }

  lemma SentRow(s: System, e: EventId, r: Row)
    requires Sent(s) && e in s.rows && e in s.changes && r.status != COMPLETED
    ensures Sent(WithRow(s, e, r))
  {
    SendsOfRow(s, e, r);
    SentOfSame(s, WithRow(s, e, r));
  }

  lemma SentFlight(s: System, t: Token, f: Flight)
    requires Sent(s) && (f.phase == Confirmed ==> f.emitted)
    requires t in s.flights ==>
      f.event == s.flights[t].event && f.lease == s.flights[t].lease && (s.flights[t].emitted ==> f.emitted)
    ensures Sent(s.(flights := s.flights[t := f]))
  {
    SendsOfFlight(s, t, f);
    SentOfSame(s, s.(flights := s.flights[t := f]));
  }

  lemma SentSettled(s: System, t: Token)
    requires Rows(s) && Claims(s) && Sent(s) && t in s.flights
    ensures Sent(SettleClaim(s, t))
  {
    var f := s.flights[t];
    var settled := WithPhase(s, t, Settled);
    SentFlight(s, t, f.(phase := Settled));
    if f.event in s.rows && Owned(s.rows[f.event], t, s.now) {
      if f.phase == Confirmed {
        assert Holder(s, f.event, t);
        SentCompleted(settled, f.event, t);
      } else {
        SentRow(settled, f.event, FailedRow(s.rows[f.event], f.attempts, s.now));
      }
    }
  }

  lemma SentCompleted(s: System, e: EventId, t: Token)
    requires Sent(s) && e in s.rows && e in s.changes
    requires CompletedInLease(s, e, Completion(t, s.now))
    ensures Sent(WithRow(s, e, CompletedRow(s.rows[e])).(completions := s.completions[e := Completion(t, s.now)]))
  {
    var s' := WithRow(s, e, CompletedRow(s.rows[e])).(completions := s.completions[e := Completion(t, s.now)]);
    forall d | d in s'.completions ensures CompletedInLease(s', d, s'.completions[d]) {
      if d != e { assert CompletedInLease(s, d, s.completions[d]); }
      else { assert CompletedInLease(s, e, Completion(t, s.now)); }
    }
  }

  lemma InvKept(s: System, step: Step)
    requires Inv(s)
    ensures Inv(Apply(s, step))
  {
    RowsKept(s, step);
    ClaimsKept(s, step);
    FencedKept(s, step);
    SentKept(s, step);
  }

  lemma {:induction false} InvAlong(s: System, steps: seq<Step>)
    requires Inv(s)
    ensures Inv(RunFrom(s, steps))
  {
    if steps != [] {
      InvAlong(s, steps[..|steps| - 1]);
      InvKept(RunFrom(s, steps[..|steps| - 1]), steps[|steps| - 1]);
    }
  }

  lemma Reachable(steps: seq<Step>)
    ensures Inv(Run(steps))
  {
    InvAlong(Initial, steps);
  }

  /* ----- the promises ----- */

  // A row's status changes at most twice per attempt of its budget, its attempts stay within the budget,
  // and a pending row always has budget left, so the cleanup of exhausted rows never finds one.
  lemma BoundedChanges(steps: seq<Step>, e: EventId)
    requires e in Run(steps).rows
    ensures
      var s := Run(steps);
      e in s.changes && s.changes[e] <= 2 * s.rows[e].maxAttempts && s.rows[e].attempts <= s.rows[e].maxAttempts &&
      !Enabled(s, FailExhausted(e)) &&
      (s.rows[e].status == PROCESSING <==> s.rows[e].leaseToken.Some?) &&
      (s.rows[e].status == FAILED ==> s.rows[e].attempts == s.rows[e].maxAttempts)
  {
    Reachable(steps);
  }

  // COMPLETED and FAILED are final.
  lemma {:induction false} FinalForever(steps: seq<Step>, more: seq<Step>, e: EventId)
    requires e in Run(steps).rows
    requires Run(steps).rows[e].status == COMPLETED || Run(steps).rows[e].status == FAILED
    ensures e in Run(steps + more).rows && Run(steps + more).rows[e] == Run(steps).rows[e]
    decreases |more|
  {
    if more == [] {
      assert steps + more == steps;
    } else {
      var before := more[..|more| - 1];
      FinalForever(steps, before, e);
      Reachable(steps + before);
      assert (steps + more)[..|steps + more| - 1] == steps + before;
      assert (steps + more)[|steps + more| - 1] == more[|more| - 1];
      FinalStep(Run(steps + before), more[|more| - 1], e);
    }
  }

  lemma FinalStep(s: System, step: Step, e: EventId)
    requires Rows(s) && e in s.rows && (s.rows[e].status == COMPLETED || s.rows[e].status == FAILED)
    ensures e in Apply(s, step).rows && Apply(s, step).rows[e] == s.rows[e]
  {
    if step.Settle? && Enabled(s, step) { FinalSettle(s, step.token, e); }
  }

  lemma FinalSettle(s: System, t: Token, e: EventId)
    requires Rows(s) && t in s.flights && e in s.rows && s.rows[e].status != PROCESSING
    ensures SettleClaim(s, t).rows.Keys == s.rows.Keys && SettleClaim(s, t).rows[e] == s.rows[e]
  {
  }

  // A completed row was sent by the publisher that completed it, while its lease still ran.
  lemma CompletedWasSent(steps: seq<Step>, e: EventId)
    requires e in Run(steps).rows && Run(steps).rows[e].status == COMPLETED
    ensures e in Run(steps).completions && CompletedInLease(Run(steps), e, Run(steps).completions[e])
  {
    Reachable(steps);
  }

  ghost function Emissions(s: System, e: EventId): set<Token> {
    set t | t in s.flights && s.flights[t].event == e && s.flights[t].emitted
  }

  // How often an event was emitted over a run. A publisher emits once for a claim; a send it gave up waiting
  // for is that same emission.
  function EmissionCount(steps: seq<Step>, e: EventId): nat {
    if steps == [] then 0
    else
      var before, step := steps[..|steps| - 1], steps[|steps| - 1];
      EmissionCount(before, e) + (if Emits(Run(before), step, e) then 1 else 0)
  }

  predicate Emits(s: System, step: Step, e: EventId) {
    step.Emit? && Enabled(s, step) && s.flights[step.token].event == e
  }

  lemma EmissionStep(s: System, step: Step, e: EventId)
    ensures Emits(s, step, e) ==> step.token !in Emissions(s, e)
    ensures Emits(s, step, e) ==> Emissions(Apply(s, step), e) == Emissions(s, e) + {step.token}
    ensures !Emits(s, step, e) ==> Emissions(Apply(s, step), e) == Emissions(s, e)
  {
    if step.Settle? && Enabled(s, step) { EmissionSettled(s, step.token, e); }
  }

  lemma EmissionSettled(s: System, t: Token, e: EventId)
    requires t in s.flights && s.rows.Keys == s.changes.Keys
    ensures Emissions(SettleClaim(s, t), e) == Emissions(s, e)
  {
  }

  lemma {:induction false} EmissionsCounted(steps: seq<Step>, e: EventId)
    ensures EmissionCount(steps, e) == |Emissions(Run(steps), e)|
  {
    if steps != [] {
      EmissionsCounted(steps[..|steps| - 1], e);
      EmissionStep(Run(steps[..|steps| - 1]), steps[|steps| - 1], e);
    }
  }

  // An event goes out at most once per attempt.
  lemma EmissionsWithinAttempts(steps: seq<Step>, e: EventId)
    requires e in Run(steps).rows
    ensures EmissionCount(steps, e) <= Run(steps).rows[e].attempts
  {
    Reachable(steps);
    EmissionsCounted(steps, e);
    Pigeonhole(Run(steps), e, Emissions(Run(steps), e), Run(steps).rows[e].attempts);
  }

  lemma {:induction false} Pigeonhole(s: System, e: EventId, tokens: set<Token>, n: nat)
    requires forall t | t in tokens :: t in s.flights && s.flights[t].event == e && 1 <= s.flights[t].attempts <= n
    requires forall t, u | t in tokens && u in tokens && t != u :: s.flights[t].attempts != s.flights[u].attempts
    ensures |tokens| <= n
  {
    if tokens != {} {
      if exists t :: t in tokens && s.flights[t].attempts == n {
        var t :| t in tokens && s.flights[t].attempts == n;
        Pigeonhole(s, e, tokens - {t}, n - 1);
      } else {
        Pigeonhole(s, e, tokens, n - 1);
      }
    }
  }

  // A publisher whose event was claimed again since cannot change any row.
  lemma LatePublisherHarmless(steps: seq<Step>, late: Token, successor: Token)
    requires var s := Run(steps);
      late in s.flights && successor in s.flights && s.flights[late].event == s.flights[successor].event &&
      s.flights[late].attempts < s.flights[successor].attempts
    ensures Apply(Run(steps), Settle(late)).rows == Run(steps).rows
  {
    Reachable(steps);
    NotHolder(Run(steps), late, successor);
    SettlesOnlyItsOwn(Run(steps), late);
  }

  lemma SettlesOnlyItsOwn(s: System, t: Token)
    requires t in s.flights && !Holds(s, t)
    ensures Apply(s, Settle(t)).rows == s.rows
  {
  }

  lemma NotHolder(s: System, late: Token, successor: Token)
    requires Claims(s) && late in s.flights && successor in s.flights
    requires s.flights[late].event == s.flights[successor].event
    requires s.flights[late].attempts < s.flights[successor].attempts
    ensures !Holds(s, late)
  {
    var e := s.flights[late].event;
    if s.rows[e].leaseToken.Some? { assert Holder(s, e, s.rows[e].leaseToken.value); }
  }

  // While a publisher's lease runs and it has not settled, the row is its own: nobody can recover or
  // claim it, and settling takes effect.
  lemma LeaseExcludes(steps: seq<Step>, t: Token)
    requires Live(Run(steps), t)
    ensures
      var s := Run(steps);
      var e := s.flights[t].event;
      Holds(s, t) && Owned(s.rows[e], t, s.now) &&
      (forall st :: !Enabled(s, Recover(e, st))) && (forall u, st, ms :: !Enabled(s, Claim(e, u, st, ms))) &&
      (s.flights[t].phase == Confirmed ==> Apply(s, Settle(t)).rows[e].status == COMPLETED)
  {
    Reachable(steps);
    var s := Run(steps);
    assert Holder(s, s.flights[t].event, t);
  }

  // Recording a failure and recovering the expired claim leave the same row behind.
  lemma FailureEqualsRecovery(steps: seq<Step>, t: Token)
    requires var s := Run(steps); t in s.flights && Holds(s, t)
    ensures
      var s := Run(steps);
      var r := s.rows[s.flights[t].event];
      FailedRow(r, s.flights[t].attempts, s.now) == RecoveredRow(r, s.now)
  {
    Reachable(steps);
    var s := Run(steps);
    assert Holder(s, s.flights[t].event, t);
    Backoff.OutboxDelaysAgree(s.flights[t].attempts);
  }
}
