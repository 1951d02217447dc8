/**
  RmqDeliveryService.handle and QuarantineReplayService.replay as programs: which statements they run, in
  which order, whatever the other workers, the network and the database do in between.
 */
module RmqDelivery {
  import opened Options
  import opened Delivery
  import opened DeliveryOutcomes
  import opened Tokens
  import Backoff

  // How often a worker ended its work in a run.
  function WorksOf(steps: seq<Step>, w: WorkerId): nat {
    if steps == [] then 0
    else
      var step := steps[|steps| - 1];
      WorksOf(steps[..|steps| - 1], w) + (if step.Work? && step.worker == w then 1 else 0)
  }

  lemma OneMoreStep(s: System, steps: seq<Step>, step: Step, w: WorkerId)
    ensures RunFrom(s, steps + [step]) == Apply(RunFrom(s, steps), step)
    ensures WorksOf(steps + [step], w) == WorksOf(steps, w) + (if step.Work? && step.worker == w then 1 else 0)
  {
    assert (steps + [step])[..|steps|] == steps;
  }

  // How a statement can end: no effect, an effect whose answer was lost, or an answer.
  datatype Statement = Failed | Unheard | Answered

  // How a round ends: ready to acknowledge, to be looked at again, or cut off by the abort signal.
  datatype RoundEnd = Settled | Again | Aborted

  function StageOf(end: RoundEnd): Stage {
    match end case Settled => Finished case Again => Looking case Aborted => Gone
  }

  function StageAfterRecord(recorded: bool, claim: Claimed, outcome: Outcome): Stage {
    if !recorded then Recording(claim, outcome) else if outcome == Succeeded then Finished else Looking
  }

  // The row is leased to this claim from now on.
  predicate TakenBy(s: System, c: Claimed, leaseMs: nat) {
    s.row.Some? && s.row.value.leaseToken == Some(c.token) && s.row.value.leaseExpiresAt == Some(c.lease) &&
    c.lease == s.now + leaseMs
  }

  lemma ClaimAnswers(s: System, w: WorkerId, t: Token, st: int, leaseMs: nat, heard: bool)
    requires Enabled(s, Claim(w, t, st, leaseMs, heard))
    ensures var s' := Apply(s, Claim(w, t, st, leaseMs, heard));
      s'.row.Some? && w in s'.workers &&
      if s'.workers[w].stage.Running? then TakenBy(s', s'.workers[w].stage.claim, leaseMs) else At(s', w, Looking)
  {
  }

  lemma OthersLeaveWorker(s: System, step: Step, w: WorkerId)
    requires w in s.workers && Mover(step) != Some(w)
    ensures w in Apply(s, step).workers && Apply(s, step).workers[w] == s.workers[w]
    ensures s.row.Some? ==> Apply(s, step).row.Some?
  {
    OthersStay(s, step, w);
    if s.row.Some? { RowStays(s, step); }
  }

  class RmqDeliveryService {
    const queue: string
    const body: string
    const operation: Operation
    const settings: Backoff.Settings
    const maxAttempts: nat
    const leaseMs: nat
    var delivery: System
    ghost var history: seq<Step>

    constructor (queue: string, body: string, operation: Operation, settings: Backoff.Settings, maxAttempts: nat,
            leaseMs: nat)
      requires settings.Valid() && 1 <= maxAttempts <= 10
      ensures Valid() && delivery == Origin()
    {
      this.queue, this.body, this.operation := queue, body, operation;
      this.settings, this.maxAttempts, this.leaseMs := settings, maxAttempts, leaseMs;
      delivery, history := Start(queue, body, operation), [];
    }

    ghost function Origin(): System {
      Start(queue, body, operation)
    }

    ghost predicate Valid()
      reads this
    {
      settings.Valid() && 1 <= maxAttempts <= 10 && delivery == RunFrom(Origin(), history)
    }

    method Take(step: Step)
      requires Valid()
      modifies this`delivery, this`history
      ensures Valid() && delivery == Apply(old(delivery), step) && history == old(history) + [step]
    {
      OneMoreStep(Origin(), history, step, 0);
      delivery, history := Apply(delivery, step), history + [step];
    }

    // Other workers, replays and the clock; they never move this worker.
    method Others(w: WorkerId)
      requires Valid() && w in delivery.workers
      modifies this`delivery, this`history
      ensures Valid() && w in delivery.workers && delivery.workers[w] == old(delivery).workers[w]
      ensures WorksOf(history, w) == old(WorksOf(history, w)) && (old(delivery).row.Some? ==> delivery.row.Some?)
    {
      var more: nat := *;
      while more > 0
        invariant Valid() && w in delivery.workers && delivery.workers[w] == old(delivery).workers[w]
        invariant WorksOf(history, w) == old(WorksOf(history, w)) && (old(delivery).row.Some? ==> delivery.row.Some?)
      {
        var step: Step := *;
        if Mover(step) != Some(w) {
          OthersLeaveWorker(delivery, step, w);
          OneMoreStep(Origin(), history, step, w);
          Take(step);
        }
        more := more - 1;
      }
    }

    // The last step recorded this outcome: it took effect, with the configured delay after a failure, exactly if
    // the claim still held the row.
    ghost predicate JustRecorded(claim: Claimed, outcome: Outcome)
      reads this
      requires settings.Valid()
    {
      history != [] &&
      var before := RunFrom(Origin(), history[..|history| - 1]);
      before.row.Some? && delivery.row.Some? &&
      if LeaseHeld(before, claim) then
        RecordedResult(before.row.value, delivery.row.value, outcome,
          before.now + Backoff.DeliveryDelay(settings, claim.attempts))
      else delivery.row == before.row
    }

    ghost predicate LastStep(step: Step)
      reads this
    {
      history != [] && history[|history| - 1] == step
    }

    method Admitting(w: WorkerId, statement: Statement) returns (admitted: bool)
      requires Valid() && At(delivery, w, Received)
      modifies this`delivery, this`history
      ensures Valid() && At(delivery, w, if admitted then Looking else Received) && (admitted ==> delivery.row.Some?)
      ensures (admitted <==> statement.Answered?) &&
        (statement != Failed ==> LastStep(Admit(w, maxAttempts, statement.Answered?)))
    {
      Others(w);
      if statement != Failed { Take(Admit(w, maxAttempts, statement.Answered?)); }
      admitted := statement.Answered?;
    }

    // One look at the row; None when the query failed.
    method Looks(w: WorkerId, failed: bool) returns (decision: Option<Decision>)
      requires Valid() && At(delivery, w, Looking) && delivery.row.Some?
      modifies this`delivery, this`history
      ensures Valid() && delivery.row.Some?
      ensures At(delivery, w, if decision.None? then Looking else StageAfter(decision.value))
      ensures (decision.None? <==> failed) && (!failed ==> exists st :: st <= delivery.now && LastStep(Read(w, st)))
    {
      Others(w);
      if failed { return None; }
      var st: int := *;
      st := if st <= delivery.now then st else delivery.now;
      decision := Some(Decide(delivery.row.value, st));
      Take(Read(w, st));
    }

    method Quarantines(w: WorkerId, statement: Statement) returns (saved: bool)
      requires Valid() && At(delivery, w, Quarantining) && delivery.row.Some?
      modifies this`delivery, this`history
      ensures Valid() && delivery.row.Some? && At(delivery, w, if saved then Finished else Looking)
      ensures if statement.Failed? then LastStep(Retry(w))
        else exists st :: st <= delivery.now && LastStep(Quarantine(w, st, statement.Answered?))
    {
      Others(w);
      var st: int := *;
      st := if st <= delivery.now then st else delivery.now;
      saved := statement.Answered? && Quarantinable(delivery.row.value, st);
      if statement.Failed? { Take(Retry(w)); } else { Take(Quarantine(w, st, statement.Answered?)); }
    }

    method Claims(w: WorkerId, statement: Statement) returns (claimed: Option<Claimed>)
      requires Valid() && At(delivery, w, Claiming) && delivery.row.Some?
      modifies this`delivery, this`history
      ensures Valid() && delivery.row.Some? &&
        At(delivery, w, if claimed.Some? then Running(claimed.value) else Looking)
      ensures claimed.Some? ==> TakenBy(delivery, claimed.value, leaseMs)
      ensures if statement.Failed? then LastStep(Retry(w))
        else exists st, t :: st <= delivery.now && LastStep(Claim(w, t, st, leaseMs, statement.Answered?))
    {
      Others(w);
      var st: int := *;
      st := if st <= delivery.now then st else delivery.now;
      FreshToken(delivery.tokens.Keys);
      var t :| t !in delivery.tokens;
      if statement.Failed? { Take(Retry(w)); return None; }
      ClaimAnswers(delivery, w, t, st, leaseMs, statement.Answered?);
      Take(Claim(w, t, st, leaseMs, statement.Answered?));
      claimed := if delivery.workers[w].stage.Running? then Some(delivery.workers[w].stage.claim) else None;
    }

    // The business work, long enough for anything to happen.
    method Works(w: WorkerId, claim: Claimed) returns (outcome: Outcome)
      requires Valid() && At(delivery, w, Running(claim)) && delivery.row.Some?
      modifies this`delivery, this`history
      ensures Valid() && delivery.row.Some? && At(delivery, w, Recording(claim, outcome))
      ensures WorksOf(history, w) == old(WorksOf(history, w)) + 1
    {
      Others(w);
      outcome := *;
      var committed: bool := *;
      OneMoreStep(Origin(), history, Work(w, committed || outcome == Succeeded, outcome), w);
      Take(Work(w, committed || outcome == Succeeded, outcome));
    }

    // The statement that records the outcome; false when it has to be run again.
    method Records(w: WorkerId, claim: Claimed, outcome: Outcome, statement: Statement) returns (recorded: bool)
      requires Valid() && At(delivery, w, Recording(claim, outcome)) && delivery.row.Some?
      modifies this`delivery, this`history
      ensures Valid() && delivery.row.Some?
      ensures At(delivery, w, StageAfterRecord(recorded, claim, outcome))
      ensures WorksOf(history, w) == old(WorksOf(history, w))
      ensures (recorded <==> statement.Answered?) && (statement != Failed ==> JustRecorded(claim, outcome))
    {
      Others(w);
      var waitMs := Backoff.DeliveryDelay(settings, claim.attempts);
      Backoff.DeliveryDelayBounds(settings, claim.attempts, claim.attempts);
      OneMoreStep(Origin(), history, Record(w, waitMs, statement.Answered?), w);
      if statement != Failed {
        ResultTakesEffect(queue, body, operation, history, w, outcome, waitMs, statement.Answered?);
        ghost var before := history;
        Take(Record(w, waitMs, statement.Answered?));
        assert history[..|history| - 1] == before;
      }
      recorded := statement.Answered?;
    }

    // The work under a claim, and the recording of its outcome until that is known to have been run. The
    // work is never run again just because recording it failed.
    method Attempt(w: WorkerId, claim: Claimed, patience: nat) returns (end: RoundEnd, left: nat)
      requires Valid() && At(delivery, w, Running(claim)) && delivery.row.Some?
      modifies this`delivery, this`history
      ensures Valid() && delivery.row.Some? && left <= patience && At(delivery, w, StageOf(end))
      ensures WorksOf(history, w) == old(WorksOf(history, w)) + 1
      ensures end == Settled ==> JustRecorded(claim, Succeeded)
      ensures end == Again ==> JustRecorded(claim, FailedTransient) || JustRecorded(claim, FailedPermanent)
    {
      left := patience;
      var outcome := Works(w, claim);
      var recorded := false;
      while left > 0 && !recorded
        invariant Valid() && delivery.row.Some? && left <= patience
        invariant At(delivery, w, StageAfterRecord(recorded, claim, outcome))
        invariant WorksOf(history, w) == old(WorksOf(history, w)) + 1 && (recorded ==> JustRecorded(claim, outcome))
        decreases left
      {
        left := left - 1;
        var statement: Statement := *;
        recorded := Records(w, claim, outcome, statement);
      }
      OneMoreStep(Origin(), history, Crash(w), w);
      if !recorded { Take(Crash(w)); }
      end := if !recorded then Aborted else if outcome == Succeeded then Settled else Again;
    }

    // One round of an admitted copy: look, then do what the row asks for.
    method Round(w: WorkerId, patience: nat) returns (end: RoundEnd, left: nat)
      requires Valid() && At(delivery, w, Looking) && delivery.row.Some?
      modifies this`delivery, this`history
      ensures Valid() && delivery.row.Some? && left <= patience && At(delivery, w, StageOf(end))
    {
      end, left := Again, patience;
      var failed: bool := *;
      var statement: Statement := *;
      var decision := Looks(w, failed);
      if decision == Some(Acknowledge) {
        end := Settled;
      } else if decision == Some(SaveQuarantine) {
        var saved := Quarantines(w, statement);
        end := if saved then Settled else Again;
      } else if decision == Some(TryClaim) {
        var claimed := Claims(w, statement);
        if claimed.Some? { end, left := Attempt(w, claimed.value, left); }
      }
    }

    // Handles one copy of the message, until it is acknowledged or the abort signal comes after `patience`
    // rounds. An acknowledged copy is safe.
    method Handle(w: WorkerId, patience: nat) returns (acked: bool)
      requires Valid() && At(delivery, w, Received)
      modifies this`delivery, this`history
      ensures Valid() && (acked <==> At(delivery, w, Acked))
      ensures acked ==> Safe(w)
    {
      var admitted, left, end := false, patience, Again;
      while left > 0 && end == Again
        invariant Valid() && (admitted ==> delivery.row.Some?) && (!admitted ==> end == Again)
        invariant At(delivery, w, if admitted then StageOf(end) else Received)
        decreases left
      {
        left := left - 1;
        var statement: Statement := *;
        if !admitted { admitted := Admitting(w, statement); }
        if admitted { end, left := Round(w, left); }
      }
      if end == Settled {
        acked := Acks(w);
      } else {
        Take(Crash(w));
        acked := false;
      }
    }

    // The ACK, unless the abort signal came first.
    method Acks(w: WorkerId) returns (acked: bool)
      requires Valid() && At(delivery, w, Finished)
      modifies this`delivery, this`history
      ensures Valid() && (acked <==> At(delivery, w, Acked)) && (acked ==> Safe(w))
    {
      Others(w);
      var aborted: bool := *;
      acked := !aborted;
      Take(if aborted then Crash(w) else Ack(w));
      if acked { AckedOnlyWhenSafe(queue, body, operation, history, w); }
    }

    // The work has committed, the row is quarantined with this body, or a replay took the quarantined
    // message up again after this worker had found it safe.
    ghost predicate Safe(w: WorkerId)
      reads this
    {
      delivery.commits >= 1 || Quarantined(delivery, body) || ReplayedSince(Origin(), history, w)
    }
  }

  /* ----- replaying a quarantined message ----- */

  datatype ReplayAnswer =
    | Published | NotFound | SourceMismatch | BodyMismatch
    | ConsumersRunning | NotQuarantined | ConsumerStarted | PublishFailed

  class QuarantineReplayService {
    const deliveries: RmqDeliveryService

    constructor (deliveries: RmqDeliveryService)
      ensures this.deliveries == deliveries
    {
      this.deliveries := deliveries;
    }

    // Reopens the budget of a quarantined row, once per replay id, and publishes the stored body again.
    method Replay(replayId: nat, copy: WorkerId) returns (answer: ReplayAnswer)
      requires deliveries.Valid() && copy !in deliveries.delivery.workers
      modifies deliveries`delivery, deliveries`history
      ensures deliveries.Valid() && answer != BodyMismatch
      ensures var row, now := old(deliveries.delivery).row, old(deliveries.delivery).now;
        deliveries.delivery.row ==
          if (answer.Published? || answer.PublishFailed? || answer.ConsumerStarted?) && row.Some? &&
            Replayable(row.value, replayId, now)
          then Some(ReplayedRow(row.value, replayId, now)) else row
      ensures answer == NotQuarantined ==>
        var row := old(deliveries.delivery).row;
        row.Some? && !Replayable(row.value, replayId, old(deliveries.delivery).now) &&
          row.value.replayId != Some(replayId)
      ensures answer == Published ==>
        deliveries.delivery.row.Some? && deliveries.delivery.row.value.replayId == Some(replayId) &&
        At(deliveries.delivery, copy, Received) && deliveries.delivery.workers[copy].body == deliveries.body
    {
      var record := deliveries.delivery.row;
      if record.None? { return NotFound; }
      if record.value.originalBody.None? { return SourceMismatch; }
      StoredBody();
      var id := InboundDeliveryId(deliveries.queue, record.value.originalBody.value);
      if id != deliveries.delivery.id { return BodyMismatch; }
      var consumers: nat := *;
      if consumers != 0 { return ConsumersRunning; }
      var changed := Replayable(record.value, replayId, deliveries.delivery.now);
      deliveries.Take(Step.Replay(replayId));
      if !changed && record.value.replayId != Some(replayId) { return NotQuarantined; }
      consumers := *;
      if consumers != 0 { return ConsumerStarted; }
      var confirmed: bool := *;
      if !confirmed { return PublishFailed; }
      deliveries.Take(Deliver(copy, record.value.originalBody.value));
      answer := Published;
    }

    lemma StoredBody()
      requires deliveries.Valid() && deliveries.delivery.row.Some? && deliveries.delivery.row.value.originalBody.Some?
      ensures deliveries.delivery.row.value.originalBody == Some(deliveries.body)
      ensures deliveries.delivery.queue == deliveries.queue
      ensures deliveries.delivery.id == InboundDeliveryId(deliveries.queue, deliveries.body)
    {
      StoredBodyIsOwn(deliveries.queue, deliveries.body, deliveries.operation, deliveries.history);
    }
  }
}
