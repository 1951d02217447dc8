/**
  What one recorded result, one admission and one replay mean for the message from then on: work that was
  recorded as done is never done again, a failure waits for its delay, a late result is ignored, and a replay
  takes effect once.
 */
module DeliveryOutcomes {
  import opened Options
  import opened Tokens
  import opened Delivery

  // The row still carries the claim's token, and the claim's lease has not run out.
  predicate LeaseHeld(s: System, c: Claimed) {
    s.row.Some? && s.row.value.leaseToken == Some(c.token) && c.lease > s.now
  }

  predicate Reports(s: System, w: WorkerId, outcome: Outcome) {
    w in s.workers && s.workers[w].stage.Recording? && s.workers[w].stage.outcome == outcome && s.row.Some?
  }

  lemma HeldRow(s: System, c: Claimed)
    requires RowInv(s) && KnownClaim(s, c) && LeaseHeld(s, c)
    ensures var r := s.row.value;
      r.leaseExpiresAt == Some(c.lease) && r.attempts == c.attempts && r.maxAttempts == c.maxAttempts &&
      !r.completed && !r.quarantined && !r.quarantineRequired
  {
    assert Leased(s, s.row.value, c.token);
  }

  // Apart from the columns of the result, a recorded result leaves the row as it was.
  predicate SameBudget(r: Row, r': Row) {
    r'.attempts == r.attempts && r'.maxAttempts == r.maxAttempts && r'.replayCount == r.replayCount &&
    r'.replayId == r.replayId && r'.originalBody == r.originalBody && r'.operation == r.operation
  }

  predicate RecordedSuccess(r: Row, r': Row) {
    SameBudget(r, r') && r'.completed && !r'.quarantined && !r'.quarantineRequired && r'.leaseToken.None? &&
    r'.leaseExpiresAt.None?
  }

  predicate RecordedFailure(r: Row, r': Row, outcome: Outcome, next: int) {
    SameBudget(r, r') && !r'.completed && !r'.quarantined && r'.leaseToken.None? && r'.leaseExpiresAt.None? &&
    r'.nextAttemptAt == next && (r'.quarantineRequired <==> outcome == FailedPermanent || r.attempts >= r.maxAttempts)
  }

  predicate RecordedResult(r: Row, r': Row, outcome: Outcome, next: int) {
    if outcome == Succeeded then RecordedSuccess(r, r') else RecordedFailure(r, r', outcome, next)
  }

  lemma ResultOnRow(s: System, w: WorkerId, outcome: Outcome, delay: nat, heard: bool)
    requires Inv(s) && Reports(s, w, outcome)
    ensures
      var s' := Apply(s, Record(w, delay, heard));
      if LeaseHeld(s, s.workers[w].stage.claim)
      then s'.row.Some? && RecordedResult(s.row.value, s'.row.value, outcome, s.now + delay)
      else s'.row == s.row
  {
    var c := s.workers[w].stage.claim;
    assert WorkerOk(s, s.workers[w]);
    if s.row.value.leaseToken == Some(c.token) { assert Leased(s, s.row.value, c.token); }
    if LeaseHeld(s, c) { HeldRow(s, c); }
  }

  // On every run a result takes effect exactly while its claim's token is on the row and its lease runs. A
  // success then completes the row; a failure frees it for later, or bars it; a late result changes nothing.
  lemma ResultTakesEffect(queue: string, body: string, operation: Operation, steps: seq<Step>, w: WorkerId,
          outcome: Outcome, delay: nat, heard: bool)
    requires Reports(Run(queue, body, operation, steps), w, outcome)
    ensures
      var s := Run(queue, body, operation, steps);
      var s' := Apply(s, Record(w, delay, heard));
      (heard ==> At(s', w, if outcome == Succeeded then Finished else Looking)) &&
      if LeaseHeld(s, s.workers[w].stage.claim)
      then s'.row.Some? && RecordedResult(s.row.value, s'.row.value, outcome, s.now + delay)
      else s'.row == s.row
  {
    Reachable(queue, body, operation, steps);
    ResultOnRow(Run(queue, body, operation, steps), w, outcome, delay, heard);
  }

  /* ----- done is done ----- */

  // Nothing that follows opens a completed row: no replay, and for a date of birth no new admission.
  predicate LeavesDone(operation: Operation, step: Step) {
    !step.Replay? && (operation == UserDateOfBirthSet ==> !step.Admit?)
  }

  predicate IsCompleted(s: System) {
    s.row.Some? && s.row.value.operation == s.operation && s.row.value.completed && !s.row.value.quarantined &&
    s.row.value.leaseToken.None?
  }

  lemma CompletedStep(s: System, step: Step)
    requires IsCompleted(s) && LeavesDone(s.operation, step)
    ensures IsCompleted(Apply(s, step)) && Apply(s, step).claims == s.claims
  {
    ConstantStep(s, step);
  }

  lemma {:induction false} StaysCompleted(s: System, more: seq<Step>)
    requires IsCompleted(s) && forall i | 0 <= i < |more| :: LeavesDone(s.operation, more[i])
    ensures IsCompleted(RunFrom(s, more)) && RunFrom(s, more).claims == s.claims
  {
    if more != [] {
      StaysCompleted(s, more[..|more| - 1]);
      Constants(s, more[..|more| - 1]);
      CompletedStep(RunFrom(s, more[..|more| - 1]), more[|more| - 1]);
    }
  }

  lemma LookAtCompleted(s: System, v: WorkerId, st: int)
    requires IsCompleted(s) && At(s, v, Looking) && st <= s.now
    ensures At(Apply(s, Read(v, st)), v, Finished)
  {
  }

  lemma CompletesNow(s: System, w: WorkerId, delay: nat, heard: bool)
    requires Inv(s) && Reports(s, w, Succeeded) && LeaseHeld(s, s.workers[w].stage.claim)
    ensures var s' := Apply(s, Record(w, delay, heard));
      IsCompleted(s') && s'.claims == s.claims && s'.operation == s.operation
  {
    ResultOnRow(s, w, Succeeded, delay, heard);
  }

  // The row is completed, and whoever looks at it is ready to acknowledge.
  ghost predicate IsSettled(s: System) {
    s.row.Some? && s.row.value.completed && !s.row.value.quarantined &&
    forall v, st | At(s, v, Looking) && st <= s.now :: At(Apply(s, Read(v, st)), v, Finished)
  }

  lemma CompletedIsSettled(s: System)
    requires IsCompleted(s)
    ensures IsSettled(s)
  {
    forall v, st | At(s, v, Looking) && st <= s.now ensures At(Apply(s, Read(v, st)), v, Finished) {
      LookAtCompleted(s, v, st);
    }
  }

  // So after a recorded success, whatever is redelivered, crashes or expires, the row stays completed, it is
  // never claimed or quarantined, and whoever looks at it is ready to acknowledge.
  lemma SuccessIsFinal(queue: string, body: string, operation: Operation, steps: seq<Step>, w: WorkerId, delay: nat,
          heard: bool, more: seq<Step>)
    requires var s := Run(queue, body, operation, steps);
      Reports(s, w, Succeeded) && LeaseHeld(s, s.workers[w].stage.claim)
    requires forall i | 0 <= i < |more| :: LeavesDone(operation, more[i])
    ensures
      var s := Run(queue, body, operation, steps);
      var end := RunFrom(Apply(s, Record(w, delay, heard)), more);
      IsSettled(end) && end.claims == s.claims
  {
    var s := Run(queue, body, operation, steps);
    Reachable(queue, body, operation, steps);
    Constants(Start(queue, body, operation), steps);
    CompletesNow(s, w, delay, heard);
    StaysCompleted(Apply(s, Record(w, delay, heard)), more);
    CompletedIsSettled(RunFrom(Apply(s, Record(w, delay, heard)), more));
  }

  /* ----- a failure waits ----- */

  predicate Resting(s: System, until: int) {
    s.row.Some? && s.row.value.nextAttemptAt == until && !s.row.value.completed && s.row.value.leaseToken.None?
  }

  lemma RestingStep(s: System, step: Step, until: int)
    requires Resting(s, until) && !step.Replay? && s.now < until
    ensures Resting(Apply(s, step), until) && Apply(s, step).claims == s.claims
  {
  }

  lemma {:induction false} StaysResting(s: System, more: seq<Step>, until: int)
    requires Resting(s, until) && RunFrom(s, more).now < until && forall i | 0 <= i < |more| :: !more[i].Replay?
    ensures Resting(RunFrom(s, more), until) && RunFrom(s, more).claims == s.claims
  {
    if more != [] {
      var before := RunFrom(s, more[..|more| - 1]);
      ClockForward(before, more[|more| - 1]);
      StaysResting(s, more[..|more| - 1], until);
      RestingStep(before, more[|more| - 1], until);
    }
  }

  lemma RestsNow(s: System, w: WorkerId, outcome: Outcome, delay: nat, heard: bool)
    requires Inv(s) && Reports(s, w, outcome) && outcome != Succeeded && LeaseHeld(s, s.workers[w].stage.claim)
    ensures var s' := Apply(s, Record(w, delay, heard)); Resting(s', s.now + delay) && s'.claims == s.claims
  {
    ResultOnRow(s, w, outcome, delay, heard);
  }

  // After a recorded failure nobody claims the row before the delay is over, whatever happens meanwhile.
  lemma FailureWaits(queue: string, body: string, operation: Operation, steps: seq<Step>, w: WorkerId,
          outcome: Outcome, delay: nat, heard: bool, more: seq<Step>)
    requires var s := Run(queue, body, operation, steps);
      Reports(s, w, outcome) && outcome != Succeeded && LeaseHeld(s, s.workers[w].stage.claim) &&
      RunFrom(Apply(s, Record(w, delay, heard)), more).now < s.now + delay
    requires forall i | 0 <= i < |more| :: !more[i].Replay?
    ensures
      var s := Run(queue, body, operation, steps);
      RunFrom(Apply(s, Record(w, delay, heard)), more).claims == s.claims
  {
    var s := Run(queue, body, operation, steps);
    Reachable(queue, body, operation, steps);
    RestsNow(s, w, outcome, delay, heard);
    StaysResting(Apply(s, Record(w, delay, heard)), more, s.now + delay);
  }

  /* ----- admissions ----- */

  predicate OpenRow(r: Row, operation: Operation, max: nat, now: int) {
    r.operation == operation && r.attempts == 0 && r.maxAttempts == max && r.nextAttemptAt == now && !r.completed &&
    !r.quarantined && !r.quarantineRequired && r.leaseToken.None? && r.leaseExpiresAt.None?
  }

  // The first admission makes a row that can be claimed at once; a redelivered date of birth that was set
  // before is worked on anew, with a full budget; any other row is left as it is.
  lemma AdmissionOpens(queue: string, body: string, operation: Operation, steps: seq<Step>, w: WorkerId, max: nat,
          heard: bool)
    requires At(Run(queue, body, operation, steps), w, Received) && 1 <= max <= 10
    ensures
      var s := Run(queue, body, operation, steps);
      var s' := Apply(s, Admit(w, max, heard));
      s'.row.Some? && At(s', w, if heard then Looking else Received) &&
      if s.row.None? then OpenRow(s'.row.value, operation, max, s.now) && s'.row.value.replayCount == 0
      else if operation == UserDateOfBirthSet && s.row.value.completed
      then OpenRow(s'.row.value, operation, max, s.now) && s'.row.value.replayCount == s.row.value.replayCount &&
        s'.row.value.replayId == s.row.value.replayId && s'.row.value.originalBody == s.row.value.originalBody
      else s'.row == s.row
  {
    Reachable(queue, body, operation, steps);
    Constants(Start(queue, body, operation), steps);
  }

  /* ----- replays ----- */

  // A replay takes effect exactly on a quarantined row, under another id than the last replay's.
  lemma ReplayExactly(queue: string, body: string, operation: Operation, steps: seq<Step>, replayId: nat)
    requires Run(queue, body, operation, steps).row.Some?
    ensures
      var s := Run(queue, body, operation, steps);
      var r := s.row.value;
      var s' := Apply(s, Replay(replayId));
      if r.quarantined && r.replayId != Some(replayId) then Reopened(s, s', replayId) else s' == s
  {
    Reachable(queue, body, operation, steps);
    if Enabled(Run(queue, body, operation, steps), Replay(replayId)) {
      RowReplayed(Run(queue, body, operation, steps), replayId);
    }
  }

  lemma ReplayStep(s: System, step: Step, replayId: nat)
    requires s.row.Some? && s.row.value.replayId == Some(replayId) && (step.Replay? ==> step.replayId == replayId)
    ensures var s' := Apply(s, step);
      s'.row.Some? && s'.row.value.replayId == Some(replayId) && s'.row.value.replayCount == s.row.value.replayCount
  {
  }

  // So one replay id reopens the message once, however often the tool is run with it.
  lemma {:induction false} ReplayOnce(s: System, more: seq<Step>, replayId: nat)
    requires s.row.Some? && s.row.value.replayId == Some(replayId)
    requires forall i | 0 <= i < |more| && more[i].Replay? :: more[i].replayId == replayId
    ensures var end := RunFrom(s, more);
      end.row.Some? && end.row.value.replayId == Some(replayId) &&
      end.row.value.replayCount == s.row.value.replayCount
  {
    if more != [] {
      ReplayOnce(s, more[..|more| - 1], replayId);
      ReplayStep(RunFrom(s, more[..|more| - 1]), more[|more| - 1], replayId);
    }
  }
}
