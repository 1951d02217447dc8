/**
  The nightly jobs: the batch loop that all four share, run statement by statement while any transactions,
  of the same users too, commit between its queries and its transactions. No loop catches anything, so the
  first transaction that throws ends the job.
 */
module Jobs {
  import opened Options
  import opened Accounts
  import opened Transactions
  import opened History
  import opened Locking
  import opened Database
  import opened Scans
  import opened TransactionRetry

  // The database is where the trace of commitments leads, the trace visits going down, and nothing threw.
  ghost predicate Follows(scan: Scan, start: Store, trace: seq<Commitment>, s: Store) {
    Attained(start) && s == Play(scan, start, trace) && Descending(trace) && NothingThrew(scan, start, trace)
  }

  predicate NothingThrew(scan: Scan, start: Store, trace: seq<Commitment>) {
    forall i | 0 <= i < |trace| :: !ThrewAt(scan, start, trace, i)
  }

  lemma ThrewOneMore(scan: Scan, start: Store, trace: seq<Commitment>, c: Commitment)
    requires NothingThrew(scan, start, trace)
    ensures forall i | 0 <= i <= |trace| && ThrewAt(scan, start, trace + [c], i) :: i == |trace|
    ensures ThrewAt(scan, start, trace + [c], |trace|) <==> c.Visit? && Answer(scan, start, trace, c.user).Thrown?
  {
    var longer := trace + [c];
    assert longer[..|trace|] == trace;
    forall i | 0 <= i < |trace| ensures !ThrewAt(scan, start, longer, i) {
      assert longer[..i] == trace[..i] && longer[i] == trace[i];
      assert !ThrewAt(scan, start, trace, i);
    }
  }

  // The same visits and hits, with other commits at the end.
  ghost predicate OnlyOthersAfter(scan: Scan, start: Store, trace: seq<Commitment>, longer: seq<Commitment>) {
    trace <= longer && Visited(longer) == Visited(trace) && Hits(scan, start, longer) == Hits(scan, start, trace)
  }

  lemma FollowsOther(scan: Scan, start: Store, trace: seq<Commitment>, op: Op)
    requires Follows(scan, start, trace, Play(scan, start, trace))
    ensures Follows(scan, start, trace + [Other(op)], Apply(Play(scan, start, trace), op))
    ensures OnlyOthersAfter(scan, start, trace, trace + [Other(op)])
  {
    PlayOneMore(scan, start, trace, Other(op));
    VisitedOneMore(trace, Other(op));
    ThrewOneMore(scan, start, trace, Other(op));
  }

  function AsOthers(ops: seq<Op>): seq<Commitment> {
    seq(|ops|, i requires 0 <= i < |ops| => Other(ops[i]))
  }

  lemma {:induction false} FollowsOthers(scan: Scan, start: Store, trace: seq<Commitment>, ops: seq<Op>)
    requires Follows(scan, start, trace, Play(scan, start, trace))
    ensures Follows(scan, start, trace + AsOthers(ops), RunFrom(Play(scan, start, trace), ops))
    ensures OnlyOthersAfter(scan, start, trace, trace + AsOthers(ops))
  {
    if ops == [] {
      assert trace + AsOthers(ops) == trace;
    } else {
      var before := ops[..|ops| - 1];
      FollowsOthers(scan, start, trace, before);
      FollowsOther(scan, start, trace + AsOthers(before), ops[|ops| - 1]);
      assert trace + AsOthers(ops) == trace + AsOthers(before) + [Other(ops[|ops| - 1])];
    }
  }

  // A visit to a lower id goes on with the trace, unless it throws, and then ends it.
  lemma FollowsVisit(scan: Scan, start: Store, trace: seq<Commitment>, u: UserId)
    requires Follows(scan, start, trace, Play(scan, start, trace)) && forall v | v in Visited(trace) :: u < v
    ensures var longer := trace + [Visit(u)];
      Play(scan, start, longer) == Apply(Play(scan, start, trace), VisitOp(scan, u)) && Descending(longer) &&
      Visited(longer) == Visited(trace) + {u} &&
      (if Answer(scan, start, trace, u).Thrown? then StoppedByThrow(scan, start, longer, Some(u))
        else NothingThrew(scan, start, longer)) &&
      (forall i | 0 <= i < |longer| && ThrewAt(scan, start, longer, i) :: longer[i].user == u) &&
      Hits(scan, start, longer) == Hits(scan, start, trace) +
        (if Hit(scan, Answer(scan, start, trace, u)) then 1 else 0)
  {
    PlayOneMore(scan, start, trace, Visit(u));
    VisitedOneMore(trace, Visit(u));
    ThrewOneMore(scan, start, trace, Visit(u));
    forall i | 0 <= i < |trace| && trace[i].Visit? ensures u < trace[i].user { assert trace[i].user in Visited(trace); }
  }

  lemma VisitRuns(scan: Scan, u: UserId, ran: Op)
    requires Request(ran) == Request(VisitOp(scan, u))
    ensures ran == VisitOp(scan, u)
  {
  }

  // How one visit ends for the job: counted or not, or with an exception, from the transaction or from the
  // database.
  datatype VisitEnd = Counted | NotCounted | Threw | Broke

  // The scan goes on, or has stopped at this profile.
  ghost predicate Went(scan: Scan, start: Store, trace: seq<Commitment>, longer: seq<Commitment>, u: UserId,
          end: VisitEnd, s: Store)
  {
    trace <= longer && Attained(start) && s == Play(scan, start, longer) && Descending(longer) &&
    Visited(trace) <= Visited(longer) <= Visited(trace) + {u} &&
    (forall i | 0 <= i < |longer| && ThrewAt(scan, start, longer, i) :: longer[i].user == u) &&
    (end.Threw? ==> StoppedByThrow(scan, start, longer, Some(u))) &&
    (end.Counted? || end.NotCounted? ==> GoesOn(scan, start, trace, longer, u, end))
  }

  ghost predicate GoesOn(scan: Scan, start: Store, trace: seq<Commitment>, longer: seq<Commitment>, u: UserId,
          end: VisitEnd)
  {
    NothingThrew(scan, start, longer) && Visited(longer) == Visited(trace) + {u} &&
    Hits(scan, start, longer) == Hits(scan, start, trace) + (if end.Counted? then 1 else 0)
  }

  // What a job that ran along this trace has done. It completed exactly if the database did not fail and no
  // visit threw; one that completed counted its hits, and one that a throw ended stopped at that visit.
  ghost predicate Swept(scan: Scan, start: Store, trace: seq<Commitment>, total: nat, stopped: Option<UserId>,
          broken: bool)
  {
    ScanTrace(scan, start, trace, stopped) && (stopped.None? <==> !broken && NothingThrew(scan, start, trace)) &&
    (stopped.Some? && !broken ==> StoppedByThrow(scan, start, trace, stopped)) &&
    (stopped.None? ==> total == Hits(scan, start, trace))
  }

  class LoyaltyJobs {
    const db: LoyaltyDatabase
    const transactions: RetriedTransactions

    constructor (db: LoyaltyDatabase, transactions: RetriedTransactions)
      requires transactions.Wired() && transactions.db == db
      ensures this.db == db && this.transactions == transactions && Wired()
    {
      this.db, this.transactions := db, transactions;
    }

    ghost predicate Wired() {
      transactions.Wired() && transactions.db == db
    }

    // Whatever else commits in the meantime.
    method Meanwhile(scan: Scan, ghost start: Store, ghost trace: seq<Commitment>)
      returns (ghost longer: seq<Commitment>)
      requires Follows(scan, start, trace, db.Contents())
      modifies db
      ensures Follows(scan, start, longer, db.Contents()) && OnlyOthersAfter(scan, start, trace, longer)
    {
      longer := trace;
      var more: nat := *;
      while more > 0
        invariant Follows(scan, start, longer, db.Contents()) && OnlyOthersAfter(scan, start, trace, longer)
      {
        var op: Op := *;
        FollowsOther(scan, start, longer, op);
        db.Restore(Apply(db.Contents(), op));
        longer := longer + [Other(op)];
        more := more - 1;
      }
    }

    // One profile's transaction, with its retries.
    method Visit(scan: Scan, u: UserId, ghost start: Store, ghost trace: seq<Commitment>)
      returns (end: VisitEnd, ghost longer: seq<Commitment>)
      requires Wired() && Follows(scan, start, trace, db.Contents()) && forall v | v in Visited(trace) :: u < v
      modifies db
      ensures Went(scan, start, trace, longer, u, end, db.Contents())
    {
      PlayAttained(scan, start, trace);
      VisitUser(scan, u);
      var answer;
      ghost var before, ran, endings;
      answer, before, ran, endings := transactions.WithTransactionRetry(VisitOp(scan, u));
      longer := trace + AsOthers(before);
      FollowsOthers(scan, start, trace, before);
      if ran.Some? {
        VisitRuns(scan, u, ran.value);
        FollowsVisit(scan, start, longer, u);
        longer := longer + [Commitment.Visit(u)];
      }
      end := if answer.None? then Broke else if answer.value.Thrown? then Threw
        else if Hit(scan, answer.value) then Counted else NotCounted;
    }

    // The profiles of one batch, as its query saw them, up to the first that ends the job.
    method VisitBatch(scan: Scan, batch: seq<UserId>, last: Option<UserId>, seen: Store, ghost start: Store,
            ghost trace: seq<Commitment>)
      returns (hits: nat, k: nat, end: VisitEnd, ghost longer: seq<Commitment>)
      requires Wired() && Follows(scan, start, trace, db.Contents()) && Passed(trace, last)
      requires IsBatch(scan, seen, last, batch)
      requires batch != []
      modifies db
      ensures k <= |batch| && BatchDone(scan, start, trace, batch, seen, longer, k, end, db.Contents())
      ensures k == |batch| ==> Hits(scan, start, longer) == Hits(scan, start, trace) + hits
    {
      hits, k, longer, end := 0, 0, trace, NotCounted;
      while k < |batch|
        invariant k <= |batch| && BatchAt(scan, start, trace, batch, seen, longer, k, hits, db.Contents())
      {
        end, longer := VisitNext(scan, batch, last, seen, k, hits, start, trace, longer);
        if end.Threw? || end.Broke? { return; }
        if end.Counted? { hits := hits + 1; }
        k := k + 1;
      }
      BatchWhole(scan, start, trace, batch, seen, longer, db.Contents());
      end := NotCounted;
    }

    // The k-th profile of a batch; one that the query did not select is passed over.
    method VisitNext(scan: Scan, batch: seq<UserId>, last: Option<UserId>, seen: Store, k: nat, hits: nat,
            ghost start: Store, ghost trace: seq<Commitment>, ghost sofar: seq<Commitment>)
      returns (end: VisitEnd, ghost longer: seq<Commitment>)
      requires Wired() && Passed(trace, last) && IsBatch(scan, seen, last, batch) && k < |batch|
      requires BatchAt(scan, start, trace, batch, seen, sofar, k, hits, db.Contents())
      modifies db
      ensures if end.Threw? || end.Broke? then BatchDone(scan, start, trace, batch, seen, longer, k, end, db.Contents())
        else BatchAt(scan, start, trace, batch, seen, longer, k + 1,
          if end.Counted? then hits + 1 else hits, db.Contents())
    {
      ghost var s := db.Contents();
      longer := Meanwhile(scan, start, sofar);
      BatchOthers(scan, start, trace, batch, seen, sofar, k, hits, s, longer, db.Contents());
      s, end := db.Contents(), NotCounted;
      if Selected(scan, seen.profiles[batch[k]]) {
        ghost var earlier := longer;
        NextIsLower(scan, seen, last, batch, k, Visited(trace));
        end, longer := Visit(scan, batch[k], start, longer);
        if end.Threw? || end.Broke? {
          StoppedInBatch(scan, start, trace, batch, seen, earlier, longer, k, end, db.Contents());
        } else {
          BatchVisited(scan, start, trace, batch, seen, earlier, longer, k, hits, end, s, db.Contents());
        }
      } else {
        BatchPassedOver(scan, start, trace, batch, seen, longer, k, hits, db.Contents());
      }
    }

    // Batch after batch until a query finds nothing or a transaction throws. It ends, and no profile is
    // visited twice. The scan completes exactly if the database did not fail and no visited profile's
    // transaction threw; a profile that it got to and whose user no other transaction touched is visited
    // exactly if it was due when the scan began.
    method Sweep(scan: Scan) returns (total: nat, stopped: Option<UserId>, broken: bool, ghost trace: seq<Commitment>)
      requires Wired() && Attained(db.Contents())
      modifies db
      ensures db.Contents() == Play(scan, old(db.Contents()), trace)
      ensures Swept(scan, old(db.Contents()), trace, total, stopped, broken)
    {
      ghost var start := db.Contents();
      total, stopped, broken, trace := 0, None, false, [];
      var lastSeenId: Option<UserId> := None;
      while true
        invariant Follows(scan, start, trace, db.Contents()) && total == Hits(scan, start, trace)
        invariant Standing(scan, start, trace, lastSeenId) && stopped.None? && !broken
        decreases lastSeenId.None?, if lastSeenId.Some? then lastSeenId.value else 0
      {
        ghost var earlier := trace;
        trace := Meanwhile(scan, start, trace);
        StillStanding(scan, start, earlier, trace, lastSeenId);
        var seen := db.Contents();
        var batch := Query(scan, lastSeenId);
        if |batch| == 0 {
          CompleteTrace(scan, start, trace, lastSeenId, total);
          return;
        }
        var hits, k, end;
        ghost var before := trace;
        hits, k, end, trace := VisitBatch(scan, batch, lastSeenId, seen, start, trace);
        if k < |batch| {
          StoppedTrace(scan, start, before, lastSeenId, batch, k, trace, end, db.Contents());
          SweptUntil(scan, start, trace, total, batch[k], end);
          stopped, broken := Some(batch[k]), end.Broke?;
          return;
        }
        StandingAfter(scan, start, before, lastSeenId, batch, trace, db.Contents());
        assert Below(lastSeenId, batch[|batch| - 1]);
        lastSeenId := Some(batch[|batch| - 1]);
        total := total + hits;
      }
    }

    // SELECT ... WHERE id < last ... ORDER BY id DESC LIMIT 500.
    method Query(scan: Scan, last: Option<UserId>) returns (batch: seq<UserId>)
      ensures IsBatch(scan, db.Contents(), last, batch) && |batch| <= BATCH_SIZE
    {
      var listed := set u | u in db.profiles && Listed(scan, db.profiles[u]) && Below(last, u);
      batch := TakeDescending(listed, BATCH_SIZE);
      forall u | u in db.profiles && Listed(scan, db.profiles[u]) && Below(last, u) && ReachedBy(batch, u)
        ensures u in batch
      {
        assert u in listed;
      }
    }
  }

  // What a scan that has come down to `last` knows.
  ghost predicate Standing(scan: Scan, start: Store, trace: seq<Commitment>, last: Option<UserId>) {
    Covered(scan, start, trace, last) && OnlyDue(scan, start, trace) && Passed(trace, last)
  }

  // A batch was gone through up to its k-th profile, which ended the job unless the batch is through.
  ghost predicate BatchDone(scan: Scan, start: Store, trace: seq<Commitment>, batch: seq<UserId>, seen: Store,
          longer: seq<Commitment>, k: nat, end: VisitEnd, s: Store)
    requires k <= |batch| && batch != [] && forall i | 0 <= i < |batch| :: batch[i] in seen.profiles
  {
    trace <= longer && s == Play(scan, start, longer) && Descending(longer) &&
    VisitedUpTo(scan, seen, trace, batch, k, longer) &&
    (if k == |batch| then NothingThrew(scan, start, longer) else StoppedAt(scan, start, longer, batch[k], end))
  }

  ghost predicate StoppedAt(scan: Scan, start: Store, trace: seq<Commitment>, u: UserId, end: VisitEnd) {
    (end.Threw? || end.Broke?) && (forall v | v in Visited(trace) :: v >= u) &&
    (forall i | 0 <= i < |trace| && ThrewAt(scan, start, trace, i) :: trace[i].user == u) &&
    (end.Threw? ==> StoppedByThrow(scan, start, trace, Some(u)))
  }

  // The first k of a batch have been gone through, all without an exception.
  ghost predicate BatchAt(scan: Scan, start: Store, trace: seq<Commitment>, batch: seq<UserId>, seen: Store,
          longer: seq<Commitment>, k: nat, hits: nat, s: Store)
    requires k <= |batch| && forall i | 0 <= i < |batch| :: batch[i] in seen.profiles
  {
    Follows(scan, start, longer, s) && trace <= longer &&
    Visited(longer) == Visited(trace) + Chosen(scan, seen, batch[..k]) &&
    Hits(scan, start, longer) == Hits(scan, start, trace) + hits
  }

  lemma BatchOthers(scan: Scan, start: Store, trace: seq<Commitment>, batch: seq<UserId>, seen: Store,
          longer: seq<Commitment>, k: nat, hits: nat, s: Store, further: seq<Commitment>, s': Store)
    requires k <= |batch| && forall i | 0 <= i < |batch| :: batch[i] in seen.profiles
    requires BatchAt(scan, start, trace, batch, seen, longer, k, hits, s)
    requires Follows(scan, start, further, s') && OnlyOthersAfter(scan, start, longer, further)
    ensures BatchAt(scan, start, trace, batch, seen, further, k, hits, s')
  {
  }

  lemma BatchVisited(scan: Scan, start: Store, trace: seq<Commitment>, batch: seq<UserId>, seen: Store,
          earlier: seq<Commitment>, longer: seq<Commitment>, k: nat, hits: nat, end: VisitEnd, s: Store, s': Store)
    requires k < |batch| && (forall i | 0 <= i < |batch| :: batch[i] in seen.profiles)
    requires end.Counted? || end.NotCounted?
    requires BatchAt(scan, start, trace, batch, seen, earlier, k, hits, s)
    requires Selected(scan, seen.profiles[batch[k]]) && Went(scan, start, earlier, longer, batch[k], end, s')
    ensures BatchAt(scan, start, trace, batch, seen, longer, k + 1, if end.Counted? then hits + 1 else hits, s')
  {
    ChosenOneMore(scan, seen, batch, k);
  }

  lemma BatchPassedOver(scan: Scan, start: Store, trace: seq<Commitment>, batch: seq<UserId>, seen: Store,
          longer: seq<Commitment>, k: nat, hits: nat, s: Store)
    requires k < |batch| && (forall i | 0 <= i < |batch| :: batch[i] in seen.profiles)
    requires BatchAt(scan, start, trace, batch, seen, longer, k, hits, s) && !Selected(scan, seen.profiles[batch[k]])
    ensures BatchAt(scan, start, trace, batch, seen, longer, k + 1, hits, s)
  {
    ChosenOneMore(scan, seen, batch, k);
  }

  lemma BatchWhole(scan: Scan, start: Store, trace: seq<Commitment>, batch: seq<UserId>, seen: Store,
          longer: seq<Commitment>, s: Store)
    requires batch != [] && forall i | 0 <= i < |batch| :: batch[i] in seen.profiles
    requires Follows(scan, start, longer, s) && trace <= longer
    requires Visited(longer) == Visited(trace) + Chosen(scan, seen, batch[..|batch|])
    ensures BatchDone(scan, start, trace, batch, seen, longer, |batch|, NotCounted, s)
  {
    assert batch[..|batch|] == batch;
  }

  lemma StoppedInBatch(scan: Scan, start: Store, trace: seq<Commitment>, batch: seq<UserId>, seen: Store,
          earlier: seq<Commitment>, longer: seq<Commitment>, k: nat, end: VisitEnd, s: Store)
    requires trace <= earlier && k < |batch| && (forall i | 0 <= i < |batch| :: batch[i] in seen.profiles)
    requires (end.Threw? || end.Broke?)
    requires Visited(earlier) == Visited(trace) + Chosen(scan, seen, batch[..k])
    requires Selected(scan, seen.profiles[batch[k]])
    requires forall v | v in Visited(earlier) :: batch[k] < v
    requires Went(scan, start, earlier, longer, batch[k], end, s)
    ensures BatchDone(scan, start, trace, batch, seen, longer, k, end, s)
  {
    StoppedVisits(scan, seen, trace, batch, k, earlier, longer);
    StoppedHere(scan, start, earlier, longer, batch[k], end, s);
  }

  lemma StoppedVisits(scan: Scan, seen: Store, trace: seq<Commitment>, batch: seq<UserId>, k: nat,
          earlier: seq<Commitment>, longer: seq<Commitment>)
    requires k < |batch| && (forall i | 0 <= i < |batch| :: batch[i] in seen.profiles)
    requires Selected(scan, seen.profiles[batch[k]])
    requires Visited(earlier) == Visited(trace) + Chosen(scan, seen, batch[..k])
    requires Visited(earlier) <= Visited(longer) <= Visited(earlier) + {batch[k]}
    ensures VisitedUpTo(scan, seen, trace, batch, k, longer)
  {
    ChosenPrefix(scan, seen, batch, k);
  }

  lemma StoppedHere(scan: Scan, start: Store, earlier: seq<Commitment>, longer: seq<Commitment>, u: UserId,
          end: VisitEnd, s: Store)
    requires end.Threw? || end.Broke?
    requires Went(scan, start, earlier, longer, u, end, s) && forall v | v in Visited(earlier) :: u < v
    ensures StoppedAt(scan, start, longer, u, end)
  {
  }

  lemma ChosenPrefix(scan: Scan, s: Store, batch: seq<UserId>, k: nat)
    requires k < |batch| && (forall i | 0 <= i < |batch| :: batch[i] in s.profiles)
    requires Selected(scan, s.profiles[batch[k]])
    ensures Chosen(scan, s, batch[..k]) + {batch[k]} <= Chosen(scan, s, batch)
  {
    forall u | u in Chosen(scan, s, batch[..k]) ensures u in Chosen(scan, s, batch) {
      var i :| 0 <= i < k && batch[..k][i] == u;
      assert batch[i] == u;
    }
  }

  lemma StillStanding(scan: Scan, start: Store, trace: seq<Commitment>, longer: seq<Commitment>, last: Option<UserId>)
    requires Standing(scan, start, trace, last) && OnlyOthersAfter(scan, start, trace, longer)
    ensures Standing(scan, start, longer, last)
  {
    forall u | Undisturbed(scan, longer, u) ensures Undisturbed(scan, trace, u) {
      StillUndisturbed(scan, trace, longer, u);
    }
  }

  lemma StandingAfter(scan: Scan, start: Store, trace: seq<Commitment>, last: Option<UserId>, batch: seq<UserId>,
          longer: seq<Commitment>, s: Store)
    requires Attained(start) && Standing(scan, start, trace, last) && batch != []
    requires IsBatch(scan, Play(scan, start, trace), last, batch)
    requires BatchDone(scan, start, trace, batch, Play(scan, start, trace), longer, |batch|, NotCounted, s)
    ensures Standing(scan, start, longer, Some(batch[|batch| - 1])) && Follows(scan, start, longer, s)
  {
    CoveredByBatch(scan, start, trace, last, batch, |batch|, longer);
    OnlyDueByBatch(scan, start, trace, last, batch, |batch|, longer);
    PassedByBatch(scan, Play(scan, start, trace), trace, last, batch, |batch|, longer);
  }

  lemma CompleteTrace(scan: Scan, start: Store, trace: seq<Commitment>, last: Option<UserId>, total: nat)
    requires Standing(scan, start, trace, last) && Follows(scan, start, trace, Play(scan, start, trace))
    requires IsBatch(scan, Play(scan, start, trace), last, []) && total == Hits(scan, start, trace)
    ensures Swept(scan, start, trace, total, None, false)
  {
    forall u | Undisturbed(scan, trace, u) ensures u in Visited(trace) <==> Due(scan, start, u) {
      CoveredAtEnd(scan, start, trace, last, u);
    }
  }

  lemma StoppedTrace(scan: Scan, start: Store, trace: seq<Commitment>, last: Option<UserId>, batch: seq<UserId>, k: nat,
          longer: seq<Commitment>, end: VisitEnd, s: Store)
    requires Attained(start) && Standing(scan, start, trace, last) && batch != [] && k < |batch|
    requires IsBatch(scan, Play(scan, start, trace), last, batch)
    requires BatchDone(scan, start, trace, batch, Play(scan, start, trace), longer, k, end, s)
    ensures ScanTrace(scan, start, longer, Some(batch[k])) && StoppedAt(scan, start, longer, batch[k], end)
    ensures s == Play(scan, start, longer)
  {
    CoveredByBatch(scan, start, trace, last, batch, k, longer);
    OnlyDueByBatch(scan, start, trace, last, batch, k, longer);
  }

  lemma SweptUntil(scan: Scan, start: Store, trace: seq<Commitment>, total: nat, u: UserId, end: VisitEnd)
    requires ScanTrace(scan, start, trace, Some(u)) && StoppedAt(scan, start, trace, u, end)
    ensures Swept(scan, start, trace, total, Some(u), end.Broke?)
  {
  }

  lemma ChosenOneMore(scan: Scan, s: Store, batch: seq<UserId>, k: nat)
    requires k < |batch| && forall i | 0 <= i < |batch| :: batch[i] in s.profiles
    ensures Chosen(scan, s, batch[..k + 1]) ==
      Chosen(scan, s, batch[..k]) + (if Selected(scan, s.profiles[batch[k]]) then {batch[k]} else {})
  {
    var longer := batch[..k + 1];
    assert longer[k] == batch[k];
    forall u | u in Chosen(scan, s, batch[..k]) ensures u in Chosen(scan, s, longer) {
      var i :| 0 <= i < k && batch[..k][i] == u;
      assert longer[i] == u;
    }
    if Selected(scan, s.profiles[batch[k]]) { assert longer[k] in Chosen(scan, s, longer); }
  }

  lemma NextIsLower(scan: Scan, s: Store, last: Option<UserId>, batch: seq<UserId>, k: nat, visited: set<UserId>)
    requires IsBatch(scan, s, last, batch) && k < |batch| && forall v | v in visited :: !Below(last, v)
    ensures forall v | v in visited + Chosen(scan, s, batch[..k]) :: batch[k] < v
  {
    assert Below(last, batch[k]);
    forall v | v in Chosen(scan, s, batch[..k]) ensures batch[k] < v {
      var i :| 0 <= i < k && batch[..k][i] == v;
      assert v == batch[i];
    }
  }
}
