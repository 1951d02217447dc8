/**
  The achievements job: it applies an event to every matching achievement, each in a transaction of its own
  with its retries, goes on when one fails, and fails itself when any did. Anyone commits in between.
 */
module AchievementJobs {
  import opened Options
  import opened Accounts
  import opened Transactions
  import opened History
  import opened Unlocking
  import opened Locking
  import opened Database
  import opened Achievements
  import opened TransactionRetry

  // How the job fared with one achievement: it was skipped; its transaction ran, as this commit of the trace; it
  // threw there; or the database failed, and whether the transaction ran is not known.
  datatype StepEnd = Skipped | Ran(at: nat) | Threw(at: nat) | Broke(endings: seq<Ending>)

  predicate IsFailure(end: StepEnd) {
    end.Threw? || end.Broke?
  }

  predicate Placed(end: StepEnd) {
    end.Ran? || end.Threw?
  }

  // The transaction at this place of the trace is `op`, and whether it throws there.
  ghost predicate RunsAt(start: Store, trace: seq<Op>, op: Op, at: nat, throws: bool) {
    at < |trace| && trace[at] == op && (PlanOf(RunFrom(start, trace[..at]), op).response.Thrown? <==> throws)
  }

  ghost predicate Ended(start: Store, trace: seq<Op>, op: Op, end: StepEnd) {
    match end
    case Skipped => op.Aborted?
    case Ran(at) => !op.Aborted? && RunsAt(start, trace, op, at, false)
    case Threw(at) => !op.Aborted? && RunsAt(start, trace, op, at, true)
    case Broke(endings) => !op.Aborted? && Retried(endings) && !Last(endings).Answers?
  }

  predicate InOrder(steps: seq<StepEnd>) {
    forall i, j | 0 <= i < j < |steps| && Placed(steps[i]) && Placed(steps[j]) :: steps[i].at < steps[j].at
  }

  predicate Before(steps: seq<StepEnd>, n: nat) {
    forall i | 0 <= i < |steps| && Placed(steps[i]) :: steps[i].at < n
  }

  // The trace holds the job's transactions, in order, among others.
  ghost predicate Worked(start: Store, trace: seq<Op>, matching: seq<Definition>, event: ActionEvent,
          steps: seq<StepEnd>)
  {
    |steps| <= |matching| && InOrder(steps) && Before(steps, |trace|) &&
    forall i | 0 <= i < |steps| :: Ended(start, trace, JobOp(matching[i], event), steps[i])
  }

  // The achievements that failed, in order.
  function Failures(steps: seq<StepEnd>): seq<nat> {
    if steps == [] then []
    else
      var n := |steps| - 1;
      if IsFailure(steps[n]) then Failures(steps[..n]) + [n] else Failures(steps[..n])
  }

  lemma {:induction false} FailureListed(steps: seq<StepEnd>, i: nat)
    ensures i in Failures(steps) <==> i < |steps| && IsFailure(steps[i])
  {
    if steps != [] { FailureListed(steps[..|steps| - 1], i); }
  }

  lemma EndedStays(start: Store, trace: seq<Op>, longer: seq<Op>, op: Op, end: StepEnd)
    requires trace <= longer && Ended(start, trace, op, end)
    ensures Ended(start, longer, op, end)
  {
    if Placed(end) { assert longer[..end.at] == trace[..end.at]; }
  }

  lemma WorkedStays(start: Store, trace: seq<Op>, longer: seq<Op>, matching: seq<Definition>, event: ActionEvent,
          steps: seq<StepEnd>)
    requires trace <= longer && Worked(start, trace, matching, event, steps)
    ensures Worked(start, longer, matching, event, steps)
  {
    forall i | 0 <= i < |steps| ensures Ended(start, longer, JobOp(matching[i], event), steps[i]) {
      EndedStays(start, trace, longer, JobOp(matching[i], event), steps[i]);
    }
  }

  // A step taken from the end of the trace on.
  ghost predicate Stepped(start: Store, trace: seq<Op>, longer: seq<Op>, op: Op, end: StepEnd) {
    trace <= longer && Ended(start, longer, op, end) && (Placed(end) ==> |trace| <= end.at)
  }

  lemma ThisRan(op: Op, ran: Op)
    requires op.Achieve? && Request(ran) == Request(op)
    ensures ran == op
  {
  }

  // The step's transaction commits at the end of the trace.
  lemma TookStep(start: Store, trace: seq<Op>, longer: seq<Op>, op: Op, end: StepEnd)
    requires trace <= longer && !op.Aborted?
    requires match end
      case Skipped => false
      case Ran(at) => at == |longer| && !PlanOf(RunFrom(start, longer), op).response.Thrown?
      case Threw(at) => at == |longer| && PlanOf(RunFrom(start, longer), op).response.Thrown?
      case Broke(_) => Ended(start, longer, op, end)
    ensures Stepped(start, trace, longer + [op], op, end)
    ensures RunFrom(start, longer + [op]) == Apply(RunFrom(start, longer), op)
  {
    RunOneMore(start, longer, op);
    assert (longer + [op])[..|longer|] == longer;
  }

  lemma WorkedOneMore(start: Store, trace: seq<Op>, longer: seq<Op>, matching: seq<Definition>, event: ActionEvent,
          steps: seq<StepEnd>, end: StepEnd)
    requires Worked(start, trace, matching, event, steps) && |steps| < |matching|
    requires Stepped(start, trace, longer, JobOp(matching[|steps|], event), end)
    ensures Worked(start, longer, matching, event, steps + [end])
  {
    OrderedOneMore(steps, end, |trace|, |longer|);
    forall i | 0 <= i < |steps| + 1 ensures Ended(start, longer, JobOp(matching[i], event), (steps + [end])[i]) {
      if i < |steps| { EndedStays(start, trace, longer, JobOp(matching[i], event), steps[i]); }
    }
  }

  lemma OrderedOneMore(steps: seq<StepEnd>, end: StepEnd, m: nat, n: nat)
    requires InOrder(steps) && Before(steps, m) && m <= n && (Placed(end) ==> m <= end.at < n)
    ensures InOrder(steps + [end]) && Before(steps + [end], n)
  {
  }

  lemma FailuresOneMore(steps: seq<StepEnd>, end: StepEnd)
    ensures Failures(steps + [end]) == Failures(steps) + (if IsFailure(end) then [|steps|] else [])
  {
    assert (steps + [end])[..|steps|] == steps;
  }

  class AchievementsWorker {
    const db: LoyaltyDatabase
    const transactions: RetriedTransactions

    constructor (db: LoyaltyDatabase, transactions: RetriedTransactions)
      requires transactions.Wired() && transactions.db == db
      ensures this.db == db && this.transactions == transactions && Wired()
    {
      this.db, this.transactions := db, transactions;
    }

    ghost predicate Wired() {
      transactions.Wired() && transactions.db == db
    }

    // The job fails exactly if `failures` is not empty.
    method Process(matching: seq<Definition>, event: ActionEvent)
      returns (failures: seq<nat>, ghost trace: seq<Op>, ghost steps: seq<StepEnd>)
      requires Wired() && Attained(db.Contents())
      modifies db
      ensures db.Contents() == RunFrom(old(db.Contents()), trace)
      ensures |steps| == |matching| && Worked(old(db.Contents()), trace, matching, event, steps)
      ensures failures == Failures(steps)
    {
      ghost var start := db.Contents();
      failures, trace, steps := [], [], [];
      for i := 0 to |matching|
        invariant |steps| == i && Worked(start, trace, matching, event, steps) && failures == Failures(steps)
        invariant db.Contents() == RunFrom(start, trace)
      {
        ghost var earlier := trace;
        trace := transactions.AnyoneCommits(start, trace);
        WorkedStays(start, earlier, trace, matching, event, steps);
        earlier := trace;
        var failed;
        ghost var end;
        failed, end, trace := ProcessAchievement(matching[i], event, start, trace);
        WorkedOneMore(start, earlier, trace, matching, event, steps, end);
        FailuresOneMore(steps, end);
        steps := steps + [end];
        if failed { failures := failures + [i]; }
      }
    }

    method ProcessAchievement(d: Definition, event: ActionEvent, ghost start: Store, ghost trace: seq<Op>)
      returns (failed: bool, ghost end: StepEnd, ghost longer: seq<Op>)
      requires Wired() && Attained(start) && db.Contents() == RunFrom(start, trace)
      modifies db
      ensures db.Contents() == RunFrom(start, longer)
      ensures Stepped(start, trace, longer, JobOp(d, event), end) && (failed <==> IsFailure(end))
    {
      if d.criteria.None? { return false, Skipped, trace; }
      var increment := ProgressIncrement(d.criteria.value, event);
      if increment.None? { return false, Skipped, trace; }
      var a := Achievement(d.id, d.criteria.value.target, d.rewardPoints);
      failed, end, longer := Advance(Achieve(event.user, event.eventId, a, increment.value), start, trace);
    }

    method Advance(op: Op, ghost start: Store, ghost trace: seq<Op>)
      returns (failed: bool, ghost end: StepEnd, ghost longer: seq<Op>)
      requires Wired() && Attained(start) && db.Contents() == RunFrom(start, trace) && op.Achieve?
      modifies db
      ensures db.Contents() == RunFrom(start, longer)
      ensures Stepped(start, trace, longer, op, end) && (failed <==> IsFailure(end))
    {
      AttainedAlong(start, trace);
      var answer;
      ghost var before, ran, endings;
      answer, before, ran, endings := transactions.WithTransactionRetry(op);
      RunConcat(start, trace, before);
      longer, end := trace + before, Broke(endings);
      if ran.Some? {
        ThisRan(op, ran.value);
        if answer.Some? { end := if answer.value.Thrown? then Threw(|longer|) else Ran(|longer|); }
        TookStep(start, trace, longer, op, end);
        longer := longer + [op];
      }
      failed := answer.None? || answer.value.Thrown?;
    }
  }

  /* ----- what a job has delivered ----- */

  lemma {:induction false} DeliveredStays(c: Course, ops: seq<Op>, more: seq<Op>)
    ensures Delivered(c, ops) <= Delivered(c, ops + more)
  {
    if more == [] {
      assert ops + more == ops;
    } else {
      DeliveredStays(c, ops, more[..|more| - 1]);
      assert (ops + more)[..|ops + more| - 1] == ops + more[..|more| - 1];
    }
  }

  lemma StepDelivers(c: Course, before: seq<Op>, op: Op, after: seq<Op>)
    requires Ours(c, op) && !PlanOf(Run(before), op).response.Thrown?
    ensures op.eventId in Delivered(c, before + [op] + after)
  {
    assert (before + [op])[..|before|] == before;
    DeliveredStays(c, before + [op], after);
  }

  lemma SplitAt<T>(first: seq<T>, middle: seq<T>, last: seq<T>, at: nat)
    requires at < |middle|
    ensures first + middle + last == first + middle[..at] + [middle[at]] + (middle[at + 1..] + last)
  {
  }

  lemma RunDelivers(c: Course, before: seq<Op>, trace: seq<Op>, after: seq<Op>, op: Op, at: nat)
    requires Ours(c, op) && RunsAt(Run(before), trace, op, at, false)
    ensures op.eventId in Delivered(c, before + trace + after)
  {
    RunConcat(Empty, before, trace[..at]);
    StepDelivers(c, before + trace[..at], op, trace[at + 1..] + after);
    SplitAt(before, trace, after, at);
  }

  // Whatever committed before the job, between its transactions and after it: an achievement that it did not
  // list as failed counts the event. A job that fails is run again, and what it had delivered already does
  // not count twice.
  lemma JobDelivers(c: Course, before: seq<Op>, trace: seq<Op>, after: seq<Op>, matching: seq<Definition>,
          event: ActionEvent, steps: seq<StepEnd>, i: nat)
    requires |steps| == |matching| && Worked(Run(before), trace, matching, event, steps)
    requires i < |matching| && Ours(c, JobOp(matching[i], event)) && i !in Failures(steps)
    ensures event.eventId in Delivered(c, before + trace + after)
  {
    FailureListed(steps, i);
    RunDelivers(c, before, trace, after, JobOp(matching[i], event), steps[i].at);
  }
}
