/**
  Inbound delivery: one row of inbound_deliveries, every worker that holds a copy of its message, the
  operator's replays and the clock. Rows of different ids never meet, since every statement names its id.

  A step is one SQL statement, one decision of a worker, or something outside: a crash, a redelivery, the
  end of the business work, time. `st` is the time a statement began; `now` is the clock it executes at.
  `heard` is false when a statement took effect but its answer was lost, so the worker looks or runs it again;
  Retry is a statement that failed without effect.
 */
module Delivery {
  import opened Options
  import opened Tokens

  type WorkerId = nat

  datatype Operation = TicketPurchased | UserDateOfBirthSet

  // SHA-256 is taken to be injective: an id is the text it digests.
  datatype DeliveryId = Sha256(text: string)

  function InboundDeliveryId(queue: string, body: string): DeliveryId {
    Sha256(queue + "\0" + body)
  }

  datatype Row = Row(
    operation: Operation,
    attempts: nat,
    maxAttempts: nat,
    nextAttemptAt: int,
    leaseToken: Option<Token>,
    leaseExpiresAt: Option<int>,
    completed: bool,
    quarantineRequired: bool,
    quarantined: bool,
    originalBody: Option<string>,
    replayId: Option<nat>,
    replayCount: nat
  )

  // What a claim returned; `lease` and `cycle` only record when it expires and in which admission or
  // replay cycle it was made.
  datatype Claimed = Claimed(token: Token, attempts: nat, maxAttempts: nat, lease: int, cycle: nat)

  datatype Outcome = Succeeded | FailedTransient | FailedPermanent

  // Where a worker stands in handling its copy.
  datatype Stage =
    | Received
    | Looking
    | Finished
    | Quarantining
    | Claiming
    | Running(claim: Claimed)
    | Recording(claim: Claimed, outcome: Outcome)
    | Acked
    | Gone

  datatype Worker = Worker(body: string, stage: Stage)

  // `tokens`, `cycle`, `claims`, `commits`, `worked` and `completer` are history: every claim made, how often
  // the budget was opened, how many claims and business commits there were, the claims whose work committed,
  // and the claim that completed the row.
  datatype System = System(
    queue: string,
    id: DeliveryId,
    operation: Operation,
    row: Option<Row>,
    workers: map<WorkerId, Worker>,
    now: int,
    tokens: map<Token, Claimed>,
    cycle: nat,
    claims: nat,
    commits: nat,
    worked: set<Token>,
    completer: Option<Token>
  )

  datatype Step =
    | Deliver(worker: WorkerId, body: string)
    | Admit(worker: WorkerId, maxAttempts: nat, heard: bool)
    | Read(worker: WorkerId, st: int)
    | Claim(worker: WorkerId, token: Token, st: int, leaseMs: nat, heard: bool)
    | Quarantine(worker: WorkerId, st: int, heard: bool)
    | Work(worker: WorkerId, committed: bool, outcome: Outcome)
    | Record(worker: WorkerId, delay: nat, heard: bool)
    | Retry(worker: WorkerId)
    | Ack(worker: WorkerId)
    | Crash(worker: WorkerId)
    | Replay(replayId: nat)
    | Tick(later: int)

  /* ----- the guarded statements ----- */

  predicate LeaseFree(r: Row, t: int) {
    r.leaseExpiresAt.None? || r.leaseExpiresAt.value <= t
  }

  function AdmittedRow(row: Option<Row>, operation: Operation, max: nat, now: int): Row {
    if row.None? then Row(operation, 0, max, now, None, None, false, false, false, None, None, 0)
    else if row.value.operation == UserDateOfBirthSet && row.value.completed then
      row.value.(attempts := 0, maxAttempts := max, completed := false, nextAttemptAt := now)
    else row.value
  }

  predicate Claimable(r: Row, st: int) {
    r.attempts < r.maxAttempts && !r.quarantineRequired && !r.completed && !r.quarantined &&
    r.nextAttemptAt <= st && LeaseFree(r, st)
  }

  function ClaimedRow(r: Row, t: Token, expiry: int): Row {
    r.(attempts := r.attempts + 1, leaseToken := Some(t), leaseExpiresAt := Some(expiry))
  }

  predicate Quarantinable(r: Row, st: int) {
    !r.completed && !r.quarantined && (r.quarantineRequired || r.attempts >= r.maxAttempts) && LeaseFree(r, st)
  }

  function QuarantinedRow(r: Row, body: string): Row {
    r.(quarantineRequired := true, quarantined := true, originalBody := Some(body),
       leaseToken := None, leaseExpiresAt := None)
  }

  // Guard of both result statements.
  predicate Recordable(r: Row, t: Token, now: int) {
    r.leaseToken == Some(t) && r.leaseExpiresAt.Some? && r.leaseExpiresAt.value > now && !r.completed && !r.quarantined
  }

  function CompletedRow(r: Row): Row {
    r.(completed := true, leaseToken := None, leaseExpiresAt := None)
  }

  predicate Terminal(claim: Claimed, outcome: Outcome) {
    outcome == FailedPermanent || claim.attempts >= claim.maxAttempts
  }

  function FailedRow(r: Row, terminal: bool, next: int): Row {
    r.(quarantineRequired := terminal, nextAttemptAt := next, leaseToken := None, leaseExpiresAt := None)
  }

  predicate Replayable(r: Row, replayId: nat, now: int) {
    r.quarantined && r.replayId != Some(replayId) && LeaseFree(r, now)
  }

  function ReplayedRow(r: Row, replayId: nat, now: int): Row {
    r.(replayId := Some(replayId), replayCount := r.replayCount + 1, attempts := 0, quarantineRequired := false,
       quarantined := false, completed := false, leaseToken := None, leaseExpiresAt := None, nextAttemptAt := now)
  }

  /* ----- what a worker does with what it read ----- */

  datatype Decision = Acknowledge | SaveQuarantine | Wait | TryClaim

  function Decide(r: Row, st: int): Decision {
    if r.completed || r.quarantined then Acknowledge
    else if LeaseFree(r, st) && (r.quarantineRequired || r.attempts >= r.maxAttempts) then SaveQuarantine
    else if !LeaseFree(r, st) || r.nextAttemptAt > st then Wait
    else TryClaim
  }

  function StageAfter(d: Decision): Stage {
    match d
    case Acknowledge => Finished
    case SaveQuarantine => Quarantining
    case Wait => Looking
    case TryClaim => Claiming
  }

  /* ----- the system ----- */

  function Start(queue: string, body: string, operation: Operation): System {
    System(queue, InboundDeliveryId(queue, body), operation, None, map[], 0, map[], 0, 0, 0, {}, None)
  }

  predicate At(s: System, w: WorkerId, stage: Stage) {
    w in s.workers && s.workers[w].stage == stage
  }

  predicate Enabled(s: System, step: Step) {
    match step
    case Deliver(w, body) => w !in s.workers && InboundDeliveryId(s.queue, body) == s.id
    case Admit(w, max, _) => At(s, w, Received) && 1 <= max <= 10
    case Read(w, st) => At(s, w, Looking) && st <= s.now && s.row.Some?
    case Claim(w, t, st, _, _) => At(s, w, Claiming) && st <= s.now && s.row.Some? && t !in s.tokens
    case Quarantine(w, st, _) => At(s, w, Quarantining) && st <= s.now && s.row.Some?
    case Work(w, committed, outcome) => w in s.workers && s.workers[w].stage.Running? &&
      (outcome == Succeeded ==> committed)
    case Record(w, _, _) => w in s.workers && s.workers[w].stage.Recording? && s.row.Some?
    case Retry(w) => At(s, w, Quarantining) || At(s, w, Claiming)
    case Ack(w) => At(s, w, Finished)
    case Crash(w) => w in s.workers && !s.workers[w].stage.Acked?
    case Replay(replayId) => s.row.Some? && Replayable(s.row.value, replayId, s.now)
    case Tick(later) => later >= s.now
  }

  function Move(s: System, w: WorkerId, stage: Stage): System
    requires w in s.workers
  {
    s.(workers := s.workers[w := s.workers[w].(stage := stage)])
  }

  function Apply(s: System, step: Step): System {
    if !Enabled(s, step) then s else
    match step
    case Deliver(w, body) => s.(workers := s.workers[w := Worker(body, Received)])
    case Admit(w, max, heard) => ApplyAdmit(s, w, max, heard)
    case Read(w, st) => Move(s, w, StageAfter(Decide(s.row.value, st)))
    case Claim(w, t, st, leaseMs, heard) => ApplyClaim(s, w, t, st, leaseMs, heard)
    case Quarantine(w, st, heard) => ApplyQuarantine(s, w, st, heard)
    case Work(w, committed, outcome) => ApplyWork(s, w, committed, outcome)
    case Record(w, delay, heard) => ApplyRecord(s, w, delay, heard)
    case Retry(w) => Move(s, w, Looking)
    case Ack(w) => Move(s, w, Acked)
    case Crash(w) => Move(s, w, Gone)
    case Replay(replayId) => s.(row := Some(ReplayedRow(s.row.value, replayId, s.now)), cycle := s.cycle + 1,
      completer := None)
    case Tick(later) => s.(now := later)
  }

  function ApplyAdmit(s: System, w: WorkerId, max: nat, heard: bool): System
    requires w in s.workers
  {
    var r := AdmittedRow(s.row, s.operation, max, s.now);
    var s' := if s.row == Some(r) then s else s.(row := Some(r), cycle := s.cycle + 1, completer := None);
    if heard then Move(s', w, Looking) else s'
  }

  function ApplyClaim(s: System, w: WorkerId, t: Token, st: int, leaseMs: nat, heard: bool): System
    requires w in s.workers && s.row.Some?
  {
    if !Claimable(s.row.value, st) then Move(s, w, Looking)
    else
      var r := ClaimedRow(s.row.value, t, s.now + leaseMs);
      var c := Claimed(t, r.attempts, r.maxAttempts, s.now + leaseMs, s.cycle);
      Move(s, w, if heard then Running(c) else Looking)
        .(row := Some(r), tokens := s.tokens[t := c], claims := s.claims + 1)
  }

  function ApplyQuarantine(s: System, w: WorkerId, st: int, heard: bool): System
    requires w in s.workers && s.row.Some?
  {
    if !Quarantinable(s.row.value, st) then Move(s, w, Looking)
    else
      Move(s, w, if heard then Finished else Looking).(row := Some(QuarantinedRow(s.row.value, s.workers[w].body)))
  }

  function ApplyWork(s: System, w: WorkerId, committed: bool, outcome: Outcome): System
    requires w in s.workers && s.workers[w].stage.Running?
  {
    var c := s.workers[w].stage.claim;
    var after := Move(s, w, Recording(c, outcome));
    if committed then after.(commits := s.commits + 1, worked := s.worked + {c.token}) else after
  }

  function ApplyRecord(s: System, w: WorkerId, delay: nat, heard: bool): System
    requires w in s.workers && s.workers[w].stage.Recording? && s.row.Some?
  {
    var Recording(c, outcome) := s.workers[w].stage;
    var after := if !heard then s else Move(s, w, if outcome == Succeeded then Finished else Looking);
    if !Recordable(s.row.value, c.token, s.now) then after
    else if outcome == Succeeded then after.(row := Some(CompletedRow(s.row.value)), completer := Some(c.token))
    else after.(row := Some(FailedRow(s.row.value, Terminal(c, outcome), s.now + delay)))
  }

  function RunFrom(s: System, steps: seq<Step>): System {
    if steps == [] then s else Apply(RunFrom(s, steps[..|steps| - 1]), steps[|steps| - 1])
  }

  /* ----- what every reachable state satisfies ----- */

  ghost predicate RowShape(r: Row) {
    1 <= r.maxAttempts <= 10 && r.attempts <= r.maxAttempts &&
    (r.leaseToken.Some? <==> r.leaseExpiresAt.Some?) &&
    (r.completed ==> !r.quarantined && !r.quarantineRequired) &&
    (r.quarantined ==> r.quarantineRequired && r.originalBody.Some?) &&
    (r.completed || r.quarantined || r.quarantineRequired ==> r.leaseToken.None?)
  }

  // The row's shape, its stored body, its budget and its completion.
  ghost predicate RowInv(s: System) {
    (s.worked != {} ==> s.commits >= 1) &&
    if s.row.None? then s.claims == 0 else
      var r := s.row.value;
      RowShape(r) && r.operation == s.operation &&
      (r.originalBody.Some? ==> InboundDeliveryId(s.queue, r.originalBody.value) == s.id) &&
      (r.completed ==> s.completer.Some? && MadeThisCycle(s, s.completer.value) && s.completer.value in s.worked) &&
      (s.operation == TicketPurchased ==> WithinBudget(s.claims, r)) &&
      (r.leaseToken.Some? ==> Leased(s, r, r.leaseToken.value))
  }

  predicate WithinBudget(claims: nat, r: Row) {
    claims <= r.maxAttempts * r.replayCount + r.attempts
  }

  ghost predicate MadeThisCycle(s: System, t: Token) {
    t in s.tokens && s.tokens[t].cycle == s.cycle
  }

  ghost predicate Leased(s: System, r: Row, t: Token) {
    MadeThisCycle(s, t) && r.leaseExpiresAt == Some(s.tokens[t].lease) &&
    r.attempts == s.tokens[t].attempts && r.maxAttempts == s.tokens[t].maxAttempts
  }

  ghost predicate WorkerInv(s: System) {
    forall w | w in s.workers :: WorkerOk(s, s.workers[w])
  }

  ghost predicate WorkerOk(s: System, worker: Worker) {
    InboundDeliveryId(s.queue, worker.body) == s.id &&
    (worker.stage.Running? ==> KnownClaim(s, worker.stage.claim)) &&
    (worker.stage.Recording? ==> KnownClaim(s, worker.stage.claim)) &&
    (worker.stage.Recording? && worker.stage.outcome == Succeeded ==> worker.stage.claim.token in s.worked)
  }

  ghost predicate KnownClaim(s: System, c: Claimed) {
    c.token in s.tokens && s.tokens[c.token] == c
  }

  function TokenOf(stage: Stage): Option<Token> {
    if stage.Running? || stage.Recording? then Some(stage.claim.token) else None
  }

  ghost predicate OwnTokens(s: System) {
    forall v, w | v in s.workers && w in s.workers && v != w && TokenOf(s.workers[v].stage).Some? ::
      TokenOf(s.workers[v].stage) != TokenOf(s.workers[w].stage)
  }

  // A worker whose work runs within its lease is the row's token holder.
  predicate Live(s: System, w: WorkerId) {
    w in s.workers && s.workers[w].stage.Running? && s.workers[w].stage.claim.lease > s.now
  }

  predicate Holds(s: System, w: WorkerId)
    requires w in s.workers && s.workers[w].stage.Running?
  {
    s.row.Some? && s.row.value.leaseToken == Some(s.workers[w].stage.claim.token)
  }

  ghost predicate Fenced(s: System) {
    forall w | Live(s, w) :: Holds(s, w)
  }

  ghost predicate Inv(s: System) {
    RowInv(s) && WorkerInv(s) && OwnTokens(s) && Fenced(s)
  }

  /* ----- the row ----- */

  lemma RowAdmitted(s: System, w: WorkerId, max: nat, heard: bool)
    requires RowInv(s) && w in s.workers && 1 <= max <= 10
    ensures RowInv(ApplyAdmit(s, w, max, heard))
  {
  }

  lemma RowClaimed(s: System, w: WorkerId, t: Token, st: int, leaseMs: nat, heard: bool)
    requires RowInv(s) && w in s.workers && s.row.Some? && t !in s.tokens
    ensures RowInv(ApplyClaim(s, w, t, st, leaseMs, heard))
  {
  }

  lemma RowQuarantined(s: System, w: WorkerId, st: int, heard: bool)
    requires RowInv(s) && w in s.workers && s.row.Some? && InboundDeliveryId(s.queue, s.workers[w].body) == s.id
    ensures RowInv(ApplyQuarantine(s, w, st, heard))
  {
  }

  lemma RowRecorded(s: System, w: WorkerId, delay: nat, heard: bool)
    requires RowInv(s) && w in s.workers && s.workers[w].stage.Recording? && s.row.Some?
    requires s.workers[w].stage.outcome == Succeeded ==> s.workers[w].stage.claim.token in s.worked
    ensures RowInv(ApplyRecord(s, w, delay, heard))
  {
  }

  lemma FreshBudget(claims: nat, r: Row, replayId: nat, now: int)
    requires WithinBudget(claims, r) && r.attempts <= r.maxAttempts
    ensures WithinBudget(claims, ReplayedRow(r, replayId, now))
  {
    assert r.maxAttempts * (r.replayCount + 1) == r.maxAttempts * r.replayCount + r.maxAttempts;
  }

  // Nothing of the old cycle is left but the message and the count of replays, and one more budget is open.
  ghost predicate Reopened(s: System, s': System, replayId: nat) {
    s.row.Some? && s'.row.Some? &&
    var r, r' := s.row.value, s'.row.value;
    r'.replayId == Some(replayId) && r'.replayCount == r.replayCount + 1 && r'.attempts == 0 && !r'.completed &&
    !r'.quarantined && !r'.quarantineRequired && r'.leaseToken.None? && r'.originalBody == r.originalBody &&
    s'.cycle == s.cycle + 1 && s'.completer.None? && Claimable(r', s.now) && !Replayable(r', replayId, s.now) &&
    (s.operation == TicketPurchased ==> s'.claims + r'.maxAttempts <= r'.maxAttempts * (1 + r'.replayCount))
  }

  lemma RowReplayed(s: System, replayId: nat)
    requires RowInv(s) && Enabled(s, Replay(replayId))
    ensures RowInv(Apply(s, Replay(replayId)))
    ensures Reopened(s, Apply(s, Replay(replayId)), replayId)
  {
    if s.operation == TicketPurchased { FreshBudget(s.claims, s.row.value, replayId, s.now); }
  }

  lemma RowKept(s: System, step: Step)
    requires RowInv(s) && WorkerInv(s)
    ensures RowInv(Apply(s, step))
  {
    if Enabled(s, step) {
      match step
      case Admit(w, max, heard) => RowAdmitted(s, w, max, heard);
      case Claim(w, t, st, leaseMs, heard) => RowClaimed(s, w, t, st, leaseMs, heard);
      case Quarantine(w, st, heard) =>
        assert WorkerOk(s, s.workers[w]);
        RowQuarantined(s, w, st, heard);
      case Record(w, delay, heard) =>
        assert WorkerOk(s, s.workers[w]);
        RowRecorded(s, w, delay, heard);
      case Replay(replayId) => RowReplayed(s, replayId);
      case _ => RowUntouched(s, step);
    }
  }

  lemma RowUntouched(s: System, step: Step)
    requires RowInv(s) && Enabled(s, step)
    requires step.Deliver? || step.Read? || step.Work? || step.Retry? || step.Ack? || step.Crash? || step.Tick?
    ensures RowInv(Apply(s, step))
  {
  }

  /* ----- the workers ----- */

  // What happened stays: claims and commits.
  ghost predicate Grows(s: System, s': System) {
    s'.queue == s.queue && s'.id == s.id && s.commits <= s'.commits && s.worked <= s'.worked &&
    (forall t | t in s.tokens :: t in s'.tokens && s'.tokens[t] == s.tokens[t])
  }

  lemma StepGrows(s: System, step: Step)
    ensures Grows(s, Apply(s, step))
  {
  }

  lemma StillOk(s: System, s': System, worker: Worker)
    requires WorkerOk(s, worker) && Grows(s, s')
    ensures WorkerOk(s', worker)
  {
  }

  // The worker a step moves, if any.
  function Mover(step: Step): Option<WorkerId> {
    match step
    case Replay(_) => None
    case Tick(_) => None
    case _ => Some(step.worker)
  }

  lemma OnlyMoverMoves(s: System, step: Step, w: WorkerId)
    requires w in Apply(s, step).workers && Mover(step) != Some(w)
    ensures w in s.workers && Apply(s, step).workers[w] == s.workers[w]
  {
    OthersStay(s, step, w);
  }

  predicate IsStatement(step: Step) {
    step.Admit? || step.Claim? || step.Quarantine? || step.Record?
  }

  lemma RecordMovesOne(s: System, step: Step, w: WorkerId)
    requires step.Record? && Enabled(s, step) && Mover(step) != Some(w)
    ensures w in Apply(s, step).workers <==> w in s.workers
    ensures w in s.workers ==> Apply(s, step).workers[w] == s.workers[w]
  {
  }

  lemma StatementMovesOne(s: System, step: Step, w: WorkerId)
    requires IsStatement(step) && Enabled(s, step) && Mover(step) != Some(w)
    ensures w in Apply(s, step).workers <==> w in s.workers
    ensures w in s.workers ==> Apply(s, step).workers[w] == s.workers[w]
  {
    if step.Record? { RecordMovesOne(s, step, w); }
  }

  lemma OthersStay(s: System, step: Step, w: WorkerId)
    requires Mover(step) != Some(w)
    ensures w in Apply(s, step).workers <==> w in s.workers
    ensures w in s.workers ==> Apply(s, step).workers[w] == s.workers[w]
  {
    if Enabled(s, step) && IsStatement(step) { StatementMovesOne(s, step, w); }
  }

  lemma RowStays(s: System, step: Step)
    requires s.row.Some?
    ensures Apply(s, step).row.Some?
  {
  }

  lemma MovedOk(s: System, step: Step)
    requires RowInv(s) && WorkerInv(s) && Enabled(s, step) && Mover(step).Some?
    ensures WorkerOk(Apply(s, step), Apply(s, step).workers[Mover(step).value])
  {
    var w := Mover(step).value;
    if w in s.workers { assert WorkerOk(s, s.workers[w]); }
    if IsStatement(step) { StatementOk(s, step, w); }
    else { PlainMoveOk(s, step, w); }
  }

  lemma AdmittedOk(s: System, w: WorkerId, max: nat, heard: bool)
    requires w in s.workers && WorkerOk(s, s.workers[w]) && At(s, w, Received)
    ensures WorkerOk(ApplyAdmit(s, w, max, heard), ApplyAdmit(s, w, max, heard).workers[w])
  {
  }

  lemma ClaimedOk(s: System, w: WorkerId, t: Token, st: int, leaseMs: nat, heard: bool)
    requires w in s.workers && WorkerOk(s, s.workers[w]) && s.row.Some?
    ensures WorkerOk(ApplyClaim(s, w, t, st, leaseMs, heard), ApplyClaim(s, w, t, st, leaseMs, heard).workers[w])
  {
  }

  lemma QuarantinedOk(s: System, w: WorkerId, st: int, heard: bool)
    requires w in s.workers && WorkerOk(s, s.workers[w]) && s.row.Some?
    ensures WorkerOk(ApplyQuarantine(s, w, st, heard), ApplyQuarantine(s, w, st, heard).workers[w])
  {
  }

  lemma RecordedOk(s: System, w: WorkerId, delay: nat, heard: bool)
    requires w in s.workers && WorkerOk(s, s.workers[w]) && s.row.Some? && s.workers[w].stage.Recording?
    ensures WorkerOk(ApplyRecord(s, w, delay, heard), ApplyRecord(s, w, delay, heard).workers[w])
  {
  }

  lemma StatementOk(s: System, step: Step, w: WorkerId)
    requires Enabled(s, step) && Mover(step) == Some(w) && w in s.workers && WorkerOk(s, s.workers[w])
    requires IsStatement(step)
    ensures WorkerOk(Apply(s, step), Apply(s, step).workers[w])
  {
    match step
    case Admit(_, max, heard) => AdmittedOk(s, w, max, heard);
    case Claim(_, t, st, leaseMs, heard) => ClaimedOk(s, w, t, st, leaseMs, heard);
    case Quarantine(_, st, heard) => QuarantinedOk(s, w, st, heard);
    case Record(_, delay, heard) => RecordedOk(s, w, delay, heard);
  }

  lemma PlainMoveOk(s: System, step: Step, w: WorkerId)
    requires RowInv(s) && Enabled(s, step) && Mover(step) == Some(w) && (w in s.workers ==> WorkerOk(s, s.workers[w]))
    requires !step.Admit? && !step.Claim? && !step.Quarantine? && !step.Record?
    ensures WorkerOk(Apply(s, step), Apply(s, step).workers[w])
  {
  }

  lemma WorkersKept(s: System, step: Step)
    requires RowInv(s) && WorkerInv(s)
    ensures WorkerInv(Apply(s, step))
  {
    if Enabled(s, step) {
      StepGrows(s, step);
      forall w | w in Apply(s, step).workers ensures WorkerOk(Apply(s, step), Apply(s, step).workers[w]) {
        if Mover(step) == Some(w) {
          MovedOk(s, step);
        } else {
          OnlyMoverMoves(s, step, w);
          StillOk(s, Apply(s, step), s.workers[w]);
        }
      }
    }
  }

  /* ----- tokens ----- */

  // The mover keeps its token, drops it, or takes a new one.
  lemma MovedToken(s: System, step: Step)
    requires Enabled(s, step) && Mover(step).Some?
    ensures
      var w := Mover(step).value;
      var token := TokenOf(Apply(s, step).workers[w].stage);
      token.None? || (w in s.workers && token == TokenOf(s.workers[w].stage)) || token.value !in s.tokens
  {
  }

  lemma TokensKept(s: System, step: Step)
    requires WorkerInv(s) && OwnTokens(s)
    ensures OwnTokens(Apply(s, step))
  {
    if Enabled(s, step) {
      var s' := Apply(s, step);
      forall v, w | v in s'.workers && w in s'.workers && v != w && TokenOf(s'.workers[v].stage).Some?
        ensures TokenOf(s'.workers[v].stage) != TokenOf(s'.workers[w].stage)
      {
        TokensApart(s, step, v, w);
      }
    }
  }

  lemma TokensApart(s: System, step: Step, v: WorkerId, w: WorkerId)
    requires WorkerInv(s) && OwnTokens(s) && Enabled(s, step)
    requires v in Apply(s, step).workers && w in Apply(s, step).workers && v != w
    requires TokenOf(Apply(s, step).workers[v].stage).Some?
    ensures TokenOf(Apply(s, step).workers[v].stage) != TokenOf(Apply(s, step).workers[w].stage)
  {
    if Mover(step).Some? { MovedToken(s, step); }
    if Mover(step) != Some(v) { OnlyMoverMoves(s, step, v); assert WorkerOk(s, s.workers[v]); }
    if Mover(step) != Some(w) { OnlyMoverMoves(s, step, w); assert WorkerOk(s, s.workers[w]); }
  }

  /* ----- fencing ----- */

  // While a worker's lease runs, nobody else's statement changes the row.
  lemma LiveRowUntouched(s: System, step: Step, w: WorkerId)
    requires RowInv(s) && OwnTokens(s) && WorkerInv(s) && Fenced(s) && Live(s, w) && Mover(step) != Some(w)
    ensures Apply(s, step).row == s.row
  {
    assert WorkerOk(s, s.workers[w]);
    assert Holds(s, w);
    if Enabled(s, step) && step.Record? {
      RecordByAnother(s, step.worker, step.delay, step.heard, w);
    }
  }

  lemma RecordByAnother(s: System, v: WorkerId, delay: nat, heard: bool, w: WorkerId)
    requires OwnTokens(s) && v != w && v in s.workers && s.workers[v].stage.Recording? && s.row.Some?
    requires w in s.workers && s.workers[w].stage.Running? && Holds(s, w)
    ensures ApplyRecord(s, v, delay, heard).row == s.row
  {
    assert TokenOf(s.workers[w].stage) != TokenOf(s.workers[v].stage);
  }

  lemma FencedKept(s: System, step: Step)
    requires Inv(s)
    ensures Fenced(Apply(s, step))
  {
    if Enabled(s, step) {
      forall w: WorkerId | Live(Apply(s, step), w) ensures Holds(Apply(s, step), w) {
        if Mover(step) == Some(w) { NewlyLive(s, step, w); } else { StillLive(s, step, w); }
      }
    }
  }

  lemma NewlyLive(s: System, step: Step, w: WorkerId)
    requires Enabled(s, step) && Mover(step) == Some(w) && Live(Apply(s, step), w)
    ensures Holds(Apply(s, step), w)
  {
    assert step.Claim?;
  }

  lemma StillLive(s: System, step: Step, w: WorkerId)
    requires Inv(s) && Enabled(s, step) && Mover(step) != Some(w) && Live(Apply(s, step), w)
    ensures Holds(Apply(s, step), w)
  {
    OnlyMoverMoves(s, step, w);
    ClockForward(s, step);
    assert Live(s, w);
    LiveRowUntouched(s, step, w);
  }

  lemma ClockForward(s: System, step: Step)
    ensures s.now <= Apply(s, step).now
  {
  }

  lemma InvKept(s: System, step: Step)
    requires Inv(s)
    ensures Inv(Apply(s, step))
  {
    RowKept(s, step);
    WorkersKept(s, step);
    TokensKept(s, step);
    FencedKept(s, step);
  }

  lemma {:induction false} InvAlong(s: System, steps: seq<Step>)
    requires Inv(s)
    ensures Inv(RunFrom(s, steps))
  {
    if steps != [] {
      InvAlong(s, steps[..|steps| - 1]);
      InvKept(RunFrom(s, steps[..|steps| - 1]), steps[|steps| - 1]);
    }
  }

  function Run(queue: string, body: string, operation: Operation, steps: seq<Step>): System {
    RunFrom(Start(queue, body, operation), steps)
  }

  lemma Reachable(queue: string, body: string, operation: Operation, steps: seq<Step>)
    ensures Inv(Run(queue, body, operation, steps))
  {
    InvAlong(Start(queue, body, operation), steps);
  }

  /* ----- the promises ----- */

  lemma SameBody(queue: string, a: string, b: string)
    requires InboundDeliveryId(queue, a) == InboundDeliveryId(queue, b)
    ensures a == b
  {
    assert a == (queue + "\0" + a)[|queue| + 1..] && b == (queue + "\0" + b)[|queue| + 1..];
  }

  // Queue names hold no NUL, so an id names one queue and one body.
  lemma IdNamesQueueAndBody(q: string, a: string, r: string, b: string)
    requires '\0' !in q && '\0' !in r
    ensures InboundDeliveryId(q, a) == InboundDeliveryId(r, b) <==> q == r && a == b
  {
    if InboundDeliveryId(q, a) == InboundDeliveryId(r, b) {
      var text := q + "\0" + a;
      assert text == r + "\0" + b;
      assert text[|q|] == '\0' && text[|r|] == '\0';
      assert forall i | 0 <= i < |q| :: text[i] == q[i] && q[i] in q;
      assert forall i | 0 <= i < |r| :: text[i] == r[i] && r[i] in r;
      assert q == text[..|q|] && r == text[..|r|];
      SameBody(q, a, b);
    }
  }

  predicate Quarantined(s: System, body: string) {
    s.row.Some? && s.row.value.quarantined && s.row.value.originalBody == Some(body)
  }

  // The row was completed in this cycle, by a claim whose work committed.
  ghost predicate CompletedByWork(s: System) {
    s.row.Some? && s.row.value.completed && s.completer.Some? && MadeThisCycle(s, s.completer.value) &&
      s.completer.value in s.worked
  }

  // The worker's own work committed under the claim whose outcome it was recording.
  predicate OwnWorkCommitted(s: System, w: WorkerId) {
    w in s.workers && s.workers[w].stage.Recording? && s.workers[w].stage.claim.token in s.worked
  }

  // Ready to acknowledge, or beyond.
  predicate IsDone(s: System, w: WorkerId) {
    w in s.workers && (s.workers[w].stage.Finished? || s.workers[w].stage.Acked?)
  }

  // A step makes a worker ready to acknowledge only when the row was completed by committed work of this
  // cycle, or is quarantined now with exactly this body, or when the worker's own work has committed.
  lemma FinishedMeans(queue: string, body: string, operation: Operation, steps: seq<Step>, step: Step, w: WorkerId)
    requires !IsDone(Run(queue, body, operation, steps), w)
    requires IsDone(Apply(Run(queue, body, operation, steps), step), w)
    ensures
      var s := Run(queue, body, operation, steps);
      var s' := Apply(s, step);
      CompletedByWork(s') || Quarantined(s', body) || OwnWorkCommitted(s, w)
  {
    var s := Run(queue, body, operation, steps);
    Reachable(queue, body, operation, steps);
    assert Mover(step) == Some(w) by { if Mover(step) != Some(w) { OnlyMoverMoves(s, step, w); } }
    assert WorkerOk(s, s.workers[w]);
    WorkerBody(queue, body, operation, steps, w);
    if step.Read? && s.row.value.quarantined { StoredBodyIsOwn(queue, body, operation, steps); }
  }

  // A replay came after the worker was ready to acknowledge.
  predicate ReplayedSince(s: System, steps: seq<Step>, w: WorkerId) {
    steps != [] &&
    (var before, step := steps[..|steps| - 1], steps[|steps| - 1];
     ReplayedSince(s, before, w) ||
       (step.Replay? && Enabled(RunFrom(s, before), step) && IsDone(RunFrom(s, before), w)))
  }

  lemma CommitsStay(s: System, step: Step)
    ensures Apply(s, step).commits >= s.commits
  {
  }

  lemma QuarantineStays(s: System, step: Step, body: string)
    requires RowInv(s) && Quarantined(s, body) && !(step.Replay? && Enabled(s, step))
    ensures Quarantined(Apply(s, step), body)
  {
  }

  lemma DoneIsSafe(queue: string, body: string, operation: Operation, steps: seq<Step>, step: Step, w: WorkerId)
    requires !IsDone(Run(queue, body, operation, steps), w)
    requires IsDone(Apply(Run(queue, body, operation, steps), step), w)
    ensures var s' := Apply(Run(queue, body, operation, steps), step); s'.commits >= 1 || Quarantined(s', body)
  {
    var s := Run(queue, body, operation, steps);
    FinishedMeans(queue, body, operation, steps, step, w);
    Reachable(queue, body, operation, steps);
    InvKept(s, step);
    CommitsStay(s, step);
  }

  // A copy is acknowledged only if the work has committed, or the row is quarantined with exactly its bytes,
  // or a replay took the quarantined message up again after this worker had found it safe.
  lemma {:induction false} AckedOnlyWhenSafe(queue: string, body: string, operation: Operation, steps: seq<Step>,
          w: WorkerId)
    requires IsDone(Run(queue, body, operation, steps), w)
    ensures var s := Run(queue, body, operation, steps);
      s.commits >= 1 || Quarantined(s, body) || ReplayedSince(Start(queue, body, operation), steps, w)
  {
    if steps != [] {
      var before, step := steps[..|steps| - 1], steps[|steps| - 1];
      if !IsDone(Run(queue, body, operation, before), w) {
        DoneIsSafe(queue, body, operation, before, step, w);
      } else {
        AckedOnlyWhenSafe(queue, body, operation, before, w);
        Reachable(queue, body, operation, before);
        CommitsStay(Run(queue, body, operation, before), step);
        if Quarantined(Run(queue, body, operation, before), body) &&
          !(step.Replay? && Enabled(Run(queue, body, operation, before), step)) {
          QuarantineStays(Run(queue, body, operation, before), step, body);
        }
      }
    }
  }

  lemma StoredBodyIsOwn(queue: string, body: string, operation: Operation, steps: seq<Step>)
    requires var s := Run(queue, body, operation, steps); s.row.Some? && s.row.value.originalBody.Some?
    ensures var s := Run(queue, body, operation, steps);
      s.row.value.originalBody == Some(body) && s.queue == queue && s.id == InboundDeliveryId(queue, body)
  {
    var s := Run(queue, body, operation, steps);
    Reachable(queue, body, operation, steps);
    Constants(Start(queue, body, operation), steps);
    SameBody(queue, s.row.value.originalBody.value, body);
  }

  // Every copy of an id has the same body.
  lemma WorkerBody(queue: string, body: string, operation: Operation, steps: seq<Step>, w: WorkerId)
    requires w in Run(queue, body, operation, steps).workers
    ensures Run(queue, body, operation, steps).workers[w].body == body
  {
    var s := Run(queue, body, operation, steps);
    Reachable(queue, body, operation, steps);
    Constants(Start(queue, body, operation), steps);
    assert WorkerOk(s, s.workers[w]);
    SameBody(queue, s.workers[w].body, body);
  }

  lemma {:induction false} Constants(s: System, steps: seq<Step>)
    ensures RunFrom(s, steps).queue == s.queue && RunFrom(s, steps).id == s.id
    ensures RunFrom(s, steps).operation == s.operation
  {
    if steps != [] {
      Constants(s, steps[..|steps| - 1]);
      ConstantStep(RunFrom(s, steps[..|steps| - 1]), steps[|steps| - 1]);
    }
  }

  lemma ConstantStep(s: System, step: Step)
    ensures Apply(s, step).queue == s.queue && Apply(s, step).id == s.id && Apply(s, step).operation == s.operation
  {
  }

  // A worker whose work runs within its lease is the row's token holder, and no other worker, replay or
  // redelivery can change the row.
  lemma LeaseExcludes(queue: string, body: string, operation: Operation, steps: seq<Step>, w: WorkerId)
    requires Live(Run(queue, body, operation, steps), w)
    ensures var s := Run(queue, body, operation, steps);
      Holds(s, w) && forall step | Mover(step) != Some(w) :: Apply(s, step).row == s.row
  {
    var s := Run(queue, body, operation, steps);
    Reachable(queue, body, operation, steps);
    assert Holds(s, w);
    forall step | Mover(step) != Some(w) ensures Apply(s, step).row == s.row { LiveRowUntouched(s, step, w); }
  }

  // Claims are ordered by their cycle and, within it, by their attempt.
  predicate Earlier(c: Claimed, e: Claimed) {
    c.cycle < e.cycle || (c.cycle == e.cycle && c.attempts < e.attempts)
  }

  // No claim lies ahead of the row, and no two claims are of the same cycle and attempt.
  ghost predicate ClaimsOrdered(s: System) {
    (forall t | t in s.tokens :: s.tokens[t].token == t && UpToRow(s, s.tokens[t])) &&
    (forall t, u | t in s.tokens && u in s.tokens && t != u ::
      Earlier(s.tokens[t], s.tokens[u]) || Earlier(s.tokens[u], s.tokens[t]))
  }

  predicate UpToRow(s: System, c: Claimed) {
    c.cycle < s.cycle || (c.cycle == s.cycle && s.row.Some? && c.attempts <= s.row.value.attempts)
  }

  lemma ClaimOrdered(s: System, w: WorkerId, t: Token, st: int, leaseMs: nat, heard: bool)
    requires ClaimsOrdered(s) && w in s.workers && s.row.Some? && t !in s.tokens
    ensures ClaimsOrdered(ApplyClaim(s, w, t, st, leaseMs, heard))
  {
  }

  lemma AdmitOrdered(s: System, w: WorkerId, max: nat, heard: bool)
    requires ClaimsOrdered(s) && w in s.workers
    ensures ClaimsOrdered(ApplyAdmit(s, w, max, heard))
  {
  }

  lemma RecordOrdered(s: System, w: WorkerId, delay: nat, heard: bool)
    requires ClaimsOrdered(s) && w in s.workers && s.workers[w].stage.Recording? && s.row.Some?
    ensures ClaimsOrdered(ApplyRecord(s, w, delay, heard))
  {
  }

  lemma OrderKept(s: System, step: Step)
    requires ClaimsOrdered(s)
    ensures ClaimsOrdered(Apply(s, step))
  {
    if Enabled(s, step) {
      match step
      case Admit(w, max, heard) => AdmitOrdered(s, w, max, heard);
      case Claim(w, t, st, leaseMs, heard) => ClaimOrdered(s, w, t, st, leaseMs, heard);
      case Record(w, delay, heard) => RecordOrdered(s, w, delay, heard);
      case _ =>
    }
  }

  lemma {:induction false} OrderAlong(s: System, steps: seq<Step>)
    requires ClaimsOrdered(s)
    ensures ClaimsOrdered(RunFrom(s, steps))
  {
    if steps != [] {
      OrderAlong(s, steps[..|steps| - 1]);
      OrderKept(RunFrom(s, steps[..|steps| - 1]), steps[|steps| - 1]);
    }
  }

  // Of two workers that run the work at once one claimed earlier, and the lease of that claim has passed.
  lemma OverlapOutlivesLease(queue: string, body: string, operation: Operation, steps: seq<Step>, v: WorkerId,
          w: WorkerId)
    requires var s := Run(queue, body, operation, steps);
      v != w && v in s.workers && w in s.workers && s.workers[v].stage.Running? && s.workers[w].stage.Running?
    ensures
      var s := Run(queue, body, operation, steps);
      var c, e := s.workers[v].stage.claim, s.workers[w].stage.claim;
      (Earlier(c, e) || Earlier(e, c)) && (Earlier(c, e) ==> c.lease <= s.now)
  {
    var s := Run(queue, body, operation, steps);
    Reachable(queue, body, operation, steps);
    OrderAlong(Start(queue, body, operation), steps);
    EarlierPassed(s, v, w);
  }

  lemma EarlierPassed(s: System, v: WorkerId, w: WorkerId)
    requires Inv(s) && ClaimsOrdered(s) && v != w && v in s.workers && w in s.workers
    requires s.workers[v].stage.Running? && s.workers[w].stage.Running?
    ensures var c, e := s.workers[v].stage.claim, s.workers[w].stage.claim;
      (Earlier(c, e) || Earlier(e, c)) && (Earlier(c, e) ==> c.lease <= s.now)
  {
    var c, e := s.workers[v].stage.claim, s.workers[w].stage.claim;
    assert WorkerOk(s, s.workers[v]) && WorkerOk(s, s.workers[w]);
    assert TokenOf(s.workers[v].stage) != TokenOf(s.workers[w].stage);
    assert UpToRow(s, s.tokens[e.token]);
    if Live(s, v) {
      assert Holds(s, v);
      assert Leased(s, s.row.value, c.token);
    }
  }

  // A token that lost the row never gets it back, so the late worker's result changes nothing for ever.
  lemma {:induction false} LostForever(s: System, more: seq<Step>, t: Token)
    requires t in s.tokens && s.row.Some? && s.row.value.leaseToken != Some(t)
    ensures var s' := RunFrom(s, more);
      t in s'.tokens && s'.row.Some? && s'.row.value.leaseToken != Some(t) &&
      forall w, delay, heard | w in s'.workers && s'.workers[w].stage.Recording? &&
        s'.workers[w].stage.claim.token == t ::
        ApplyRecord(s', w, delay, heard).row == s'.row
  {
    if more != [] {
      LostForever(s, more[..|more| - 1], t);
      LostStep(RunFrom(s, more[..|more| - 1]), more[|more| - 1], t);
    }
  }

  lemma LostStep(s: System, step: Step, t: Token)
    requires t in s.tokens && s.row.Some? && s.row.value.leaseToken != Some(t)
    ensures var s' := Apply(s, step); t in s'.tokens && s'.row.Some? && s'.row.value.leaseToken != Some(t)
  {
  }

  // Every claim of a purchase is paid from a budget that only a replay reopens.
  lemma BudgetBound(queue: string, body: string, steps: seq<Step>)
    requires Run(queue, body, TicketPurchased, steps).row.Some?
    ensures var s := Run(queue, body, TicketPurchased, steps);
      s.row.value.attempts <= s.row.value.maxAttempts &&
        s.claims <= s.row.value.maxAttempts * (1 + s.row.value.replayCount)
  {
    Reachable(queue, body, TicketPurchased, steps);
    Constants(Start(queue, body, TicketPurchased), steps);
    var r := Run(queue, body, TicketPurchased, steps).row.value;
    assert r.maxAttempts * (1 + r.replayCount) == r.maxAttempts + r.maxAttempts * r.replayCount;
  }

  // How often the business work has run to its end.
  function WorkRuns(s: System, steps: seq<Step>): nat {
    if steps == [] then 0
    else
      var before, step := steps[..|steps| - 1], steps[|steps| - 1];
      WorkRuns(s, before) + (if step.Work? && Enabled(RunFrom(s, before), step) then 1 else 0)
  }

  function Busy(s: System): set<WorkerId> {
    set w | w in s.workers && s.workers[w].stage.Running?
  }

  // A claim makes at most one worker busy, and the end of the work frees one.
  lemma BusyStep(s: System, step: Step)
    ensures
      var s' := Apply(s, step);
      |Busy(s')| + (if step.Work? && Enabled(s, step) then 1 else 0) + s.claims <= |Busy(s)| + s'.claims
  {
    var s' := Apply(s, step);
    if !Enabled(s, step) || Mover(step).None? {
      assert Busy(s') == Busy(s);
    } else {
      var w := Mover(step).value;
      forall v | v in Busy(s') && v != w ensures v in Busy(s) { OnlyMoverMoves(s, step, v); }
      if step.Work? { FewerBusy(Busy(s'), Busy(s), w); }
      else if w in Busy(s') { MoverBusy(s, step, w); MoreBusy(Busy(s'), Busy(s), w); }
      else { SubsetSize(Busy(s'), Busy(s)); MoverClaims(s, step); }
    }
  }

  lemma MoverBusy(s: System, step: Step, w: WorkerId)
    requires Enabled(s, step) && Mover(step) == Some(w) && !step.Work? && w in Busy(Apply(s, step))
    ensures Apply(s, step).claims == s.claims + 1
  {
    assert step.Claim?;
  }

  lemma MoverClaims(s: System, step: Step)
    ensures s.claims <= Apply(s, step).claims
  {
  }

  lemma {:induction false} SubsetSize(a: set<WorkerId>, b: set<WorkerId>)
    requires a <= b
    ensures |a| <= |b|
  {
    if a != {} {
      var w :| w in a;
      SubsetSize(a - {w}, b - {w});
    }
  }

  lemma FewerBusy(after: set<WorkerId>, before: set<WorkerId>, w: WorkerId)
    requires w in before && w !in after && forall v | v in after && v != w :: v in before
    ensures |after| + 1 <= |before|
  {
    SubsetSize(after, before - {w});
  }

  lemma MoreBusy(after: set<WorkerId>, before: set<WorkerId>, w: WorkerId)
    requires forall v | v in after && v != w :: v in before
    ensures |after| <= |before| + 1
  {
    SubsetSize(after, before + {w});
  }

  lemma {:induction false} RunsWithinClaims(s: System, steps: seq<Step>)
    requires Busy(s) == {}
    ensures WorkRuns(s, steps) + |Busy(RunFrom(s, steps))| + s.claims <= RunFrom(s, steps).claims
  {
    if steps != [] {
      RunsWithinClaims(s, steps[..|steps| - 1]);
      BusyStep(RunFrom(s, steps[..|steps| - 1]), steps[|steps| - 1]);
    }
  }

  // So the work of a purchase runs, ended and still running, at most the budget times one plus the replays.
  lemma WorkBudget(queue: string, body: string, steps: seq<Step>)
    requires Run(queue, body, TicketPurchased, steps).row.Some?
    ensures var s := Run(queue, body, TicketPurchased, steps);
      WorkRuns(Start(queue, body, TicketPurchased), steps) + |Busy(s)| <=
        s.row.value.maxAttempts * (1 + s.row.value.replayCount)
  {
    RunsWithinClaims(Start(queue, body, TicketPurchased), steps);
    BudgetBound(queue, body, steps);
  }

  // Completed and quarantined exclude each other, either of them or a pending quarantine leaves no lease,
  // the stored body belongs to the id, and completion was recorded by a claim of the current cycle.
  lemma RowConsistent(queue: string, body: string, operation: Operation, steps: seq<Step>)
    requires Run(queue, body, operation, steps).row.Some?
    ensures
      var s := Run(queue, body, operation, steps);
      var r := s.row.value;
      !(r.completed && r.quarantined) &&
      (r.completed || r.quarantined || r.quarantineRequired ==> r.leaseToken.None? && r.leaseExpiresAt.None?) &&
      (r.quarantined ==> r.originalBody == Some(body)) &&
      (r.completed ==> s.commits >= 1 && CompletedByWork(s))
  {
    Reachable(queue, body, operation, steps);
    Constants(Start(queue, body, operation), steps);
    var s := Run(queue, body, operation, steps);
    if s.row.value.originalBody.Some? { SameBody(queue, s.row.value.originalBody.value, body); }
  }

  // A recorded failure is retried after its delay exactly if it was transient and budget is left; otherwise
  // the message can only be quarantined.
  lemma FailureDecides(queue: string, body: string, operation: Operation, steps: seq<Step>, w: WorkerId, delay: nat,
          heard: bool, st: int)
    requires var s := Run(queue, body, operation, steps);
      w in s.workers && s.workers[w].stage.Recording? && s.workers[w].stage.outcome != Succeeded &&
      s.row.Some? && s.row.value.leaseToken == Some(s.workers[w].stage.claim.token) &&
      s.workers[w].stage.claim.lease > s.now && st >= s.now + delay
    ensures
      var s := Run(queue, body, operation, steps);
      var r := Apply(s, Record(w, delay, heard)).row.value;
      (Claimable(r, st) <==> s.workers[w].stage.outcome == FailedTransient && r.attempts < r.maxAttempts) &&
      (Quarantinable(r, st) <==> s.workers[w].stage.outcome == FailedPermanent || r.attempts >= r.maxAttempts)
  {
    Reachable(queue, body, operation, steps);
    var s := Run(queue, body, operation, steps);
    assert WorkerOk(s, s.workers[w]);
    assert Leased(s, s.row.value, s.workers[w].stage.claim.token);
  }

  // A row waiting for its quarantine is never claimed or completed.
  predicate Barred(s: System) {
    s.row.Some? && s.row.value.quarantineRequired && !s.row.value.completed && s.row.value.leaseToken.None?
  }

  lemma BarredStep(s: System, step: Step)
    requires Barred(s) && !step.Replay?
    ensures Barred(Apply(s, step)) && Apply(s, step).claims == s.claims
  {
  }

  // So after a permanent failure the message is not worked on again, whatever is redelivered, until a replay.
  lemma {:induction false} PermanentFailureStops(s: System, w: WorkerId, delay: nat, heard: bool, more: seq<Step>)
    requires w in s.workers && s.workers[w].stage.Recording? && s.workers[w].stage.outcome == FailedPermanent
    requires s.row.Some? && Recordable(s.row.value, s.workers[w].stage.claim.token, s.now)
    requires forall i | 0 <= i < |more| :: !more[i].Replay?
    ensures Barred(RunFrom(Apply(s, Record(w, delay, heard)), more))
    ensures RunFrom(Apply(s, Record(w, delay, heard)), more).claims == s.claims
  {
    if more != [] {
      PermanentFailureStops(s, w, delay, heard, more[..|more| - 1]);
      BarredStep(RunFrom(Apply(s, Record(w, delay, heard)), more[..|more| - 1]), more[|more| - 1]);
    }
  }

  predicate WaitedOut(r: Row, t: int) {
    (r.leaseExpiresAt.Some? ==> r.leaseExpiresAt.value <= t) && r.nextAttemptAt <= t
  }

  // Once its lease and its wait have passed, a row that is not finished can be claimed or quarantined, and
  // only one of the two.
  lemma ClaimOrQuarantine(queue: string, body: string, operation: Operation, steps: seq<Step>, st: int)
    requires var s := Run(queue, body, operation, steps);
      s.row.Some? && !s.row.value.completed && !s.row.value.quarantined
    requires WaitedOut(Run(queue, body, operation, steps).row.value, st)
    ensures var r := Run(queue, body, operation, steps).row.value;
      (Claimable(r, st) <==> !r.quarantineRequired && r.attempts < r.maxAttempts) &&
      (Quarantinable(r, st) <==> r.quarantineRequired || r.attempts >= r.maxAttempts) &&
      Decide(r, st) == (if Claimable(r, st) then TryClaim else SaveQuarantine)
  {
    Reachable(queue, body, operation, steps);
  }

  // A look at the row finds it done, or leads to running the work under an own lease, or to the quarantine.
  ghost predicate LookLeadsOn(s: System, body: string, w: WorkerId, t: Token, leaseMs: nat)
    requires w in s.workers
  {
    var seen := Apply(s, Read(w, s.now));
    (At(seen, w, Finished) && (CompletedByWork(seen) || Quarantined(seen, body))) ||
    RunsOwnLease(Apply(seen, Claim(w, t, s.now, leaseMs, true)), w) ||
    (At(Apply(seen, Quarantine(w, s.now, true)), w, Finished) &&
      SavedBody(Apply(seen, Quarantine(w, s.now, true)), s, w))
  }

  predicate RunsOwnLease(s: System, w: WorkerId) {
    w in s.workers && s.workers[w].stage.Running? && Holds(s, w)
  }

  predicate SavedBody(s: System, earlier: System, w: WorkerId) {
    w in earlier.workers && Quarantined(s, earlier.workers[w].body)
  }

  lemma LookAtDone(s: System, body: string, w: WorkerId, t: Token, leaseMs: nat)
    requires At(s, w, Looking) && s.row.Some? && RowInv(s) && (s.row.value.completed || s.row.value.quarantined)
    requires s.row.value.quarantined ==> s.row.value.originalBody == Some(body)
    ensures LookLeadsOn(s, body, w, t, leaseMs)
  {
  }

  lemma LookAndClaim(s: System, w: WorkerId, t: Token, leaseMs: nat)
    requires At(s, w, Looking) && s.row.Some? && t !in s.tokens
    requires Claimable(s.row.value, s.now) && Decide(s.row.value, s.now) == TryClaim
    ensures RunsOwnLease(Apply(Apply(s, Read(w, s.now)), Claim(w, t, s.now, leaseMs, true)), w)
  {
  }

  lemma LookAndQuarantine(s: System, w: WorkerId)
    requires At(s, w, Looking) && s.row.Some?
    requires Quarantinable(s.row.value, s.now) && Decide(s.row.value, s.now) == SaveQuarantine
    ensures var saved := Apply(Apply(s, Read(w, s.now)), Quarantine(w, s.now, true));
      At(saved, w, Finished) && SavedBody(saved, s, w)
  {
  }

  lemma AttainedRow(queue: string, body: string, operation: Operation, steps: seq<Step>)
    ensures RowInv(Run(queue, body, operation, steps))
  {
    Reachable(queue, body, operation, steps);
  }

  // So no row is stuck: a worker that reads it then starts the work or stores the message.
  lemma NeverStuck(queue: string, body: string, operation: Operation, steps: seq<Step>, w: WorkerId, t: Token,
          leaseMs: nat)
    requires var s := Run(queue, body, operation, steps);
      At(s, w, Looking) && s.row.Some? && t !in s.tokens && WaitedOut(s.row.value, s.now)
    ensures LookLeadsOn(Run(queue, body, operation, steps), body, w, t, leaseMs)
  {
    var s := Run(queue, body, operation, steps);
    AttainedRow(queue, body, operation, steps);
    if s.row.value.completed || s.row.value.quarantined {
      if s.row.value.quarantined { StoredBodyIsOwn(queue, body, operation, steps); }
      LookAtDone(s, body, w, t, leaseMs);
    } else {
      ClaimOrQuarantine(queue, body, operation, steps, s.now);
      if Claimable(s.row.value, s.now) { LookAndClaim(s, w, t, leaseMs); } else { LookAndQuarantine(s, w); }
    }
  }
}
