/**
  The batched scans of the nightly jobs. A scan walks the profiles by descending id, a batch at a time, and
  runs one transaction for each profile that a batch selected, while any other transactions commit in between.
 */
module Scans {
  import opened Options
  import opened Accounts
  import opened Transactions
  import opened Bookkeeping
  import opened History
  import opened Locking
  import opened YearTotals
  import opened Expiries
  import opened Promises
  import opened Answers

  const BATCH_SIZE := 500

  datatype Scan = Expiry(now: int) | AnnualReset | GoldReset(cutoffMonth: int) | BirthdayBonuses(cal: Calendar)

  // What the batch query returns.
  predicate Listed(scan: Scan, p: Profile) {
    match scan
    case Expiry(now) => ExpiryDue(p, now)
    case AnnualReset => p.yearPoints > 0 || p.yearVisits > 0
    case GoldReset(cutoff) => p.goldUpgradeUsedMonth.Some? && p.goldUpgradeUsedMonth.value < cutoff
    case BirthdayBonuses(_) => p.birthdayDate.Some?
  }

  // What the scan then opens a transaction for.
  predicate Selected(scan: Scan, p: Profile) {
    Listed(scan, p) && (scan.BirthdayBonuses? && p.birthdayDate.Some? ==> scan.cal.birthdayToday(p.birthdayDate.value))
  }

  predicate Due(scan: Scan, s: Store, u: UserId) {
    u in s.profiles && Selected(scan, s.profiles[u])
  }

  function VisitOp(scan: Scan, u: UserId): Op {
    match scan
    case Expiry(now) => Expire(u, now)
    case AnnualReset => ResetYear(u)
    case GoldReset(_) => ResetGold(u)
    case BirthdayBonuses(cal) => GrantBonus(u, cal)
  }

  // What the scan counts.
  predicate Hit(scan: Scan, r: Response) {
    match scan
    case AnnualReset => true
    case BirthdayBonuses(_) => r.Success?
    case _ => r.Done?
  }

  /* ----- what commits while a scan runs ----- */

  datatype Commitment = Visit(user: UserId) | Other(op: Op)

  function OpOf(scan: Scan, c: Commitment): Op {
    if c.Visit? then VisitOp(scan, c.user) else c.op
  }

  function Play(scan: Scan, s: Store, trace: seq<Commitment>): Store {
    if |trace| == 0 then s
    else Apply(Play(scan, s, trace[..|trace| - 1]), OpOf(scan, trace[|trace| - 1]))
  }

  function Visited(trace: seq<Commitment>): set<UserId> {
    set i | 0 <= i < |trace| && trace[i].Visit? :: trace[i].user
  }

  // Visits go down the ids, so none comes twice.
  predicate Descending(trace: seq<Commitment>) {
    forall i, j | 0 <= i < j < |trace| && trace[i].Visit? && trace[j].Visit? :: trace[j].user < trace[i].user
  }

  // No other transaction of this user commits meanwhile, and for the Gold quota no month ends.
  predicate Calm(scan: Scan, op: Op, u: UserId) {
    UserOf(op) != Some(u) && (scan.GoldReset? ==> !op.NextMonth?)
  }

  predicate Undisturbed(scan: Scan, trace: seq<Commitment>, u: UserId) {
    forall i | 0 <= i < |trace| && trace[i].Other? :: Calm(scan, trace[i].op, u)
  }

  // What a visit after `before` is answered.
  function Answer(scan: Scan, s: Store, before: seq<Commitment>, u: UserId): Response {
    PlanOf(Play(scan, s, before), VisitOp(scan, u)).response
  }

  // The transaction of this visit left with an exception.
  predicate ThrewAt(scan: Scan, s: Store, trace: seq<Commitment>, i: nat)
    requires i < |trace|
  {
    trace[i].Visit? && Answer(scan, s, trace[..i], trace[i].user).Thrown?
  }

  function Hits(scan: Scan, s: Store, trace: seq<Commitment>): nat {
    if |trace| == 0 then 0
    else
      var before := trace[..|trace| - 1];
      var c := trace[|trace| - 1];
      Hits(scan, s, before) + (if c.Visit? && Hit(scan, Answer(scan, s, before, c.user)) then 1 else 0)
  }

  lemma PlayOneMore(scan: Scan, s: Store, trace: seq<Commitment>, c: Commitment)
    ensures Play(scan, s, trace + [c]) == Apply(Play(scan, s, trace), OpOf(scan, c))
    ensures Hits(scan, s, trace + [c]) ==
      Hits(scan, s, trace) + (if c.Visit? && Hit(scan, Answer(scan, s, trace, c.user)) then 1 else 0)
  {
    assert (trace + [c])[..|trace|] == trace;
  }

  lemma VisitedOneMore(trace: seq<Commitment>, c: Commitment)
    ensures Visited(trace + [c]) == Visited(trace) + (if c.Visit? then {c.user} else {})
  {
    var longer := trace + [c];
    assert longer[|trace|] == c && longer[..|trace|] == trace;
    forall u | u in Visited(trace) ensures u in Visited(longer) {
      var i :| 0 <= i < |trace| && trace[i].Visit? && trace[i].user == u;
      assert longer[i] == trace[i];
    }
    if c.Visit? { assert longer[|trace|].user in Visited(longer); }
  }

  lemma {:induction false} PlayAttained(scan: Scan, s: Store, trace: seq<Commitment>)
    requires Attained(s)
    ensures Attained(Play(scan, s, trace))
  {
    if trace != [] {
      PlayAttained(scan, s, trace[..|trace| - 1]);
      AttainedNext(Play(scan, s, trace[..|trace| - 1]), OpOf(scan, trace[|trace| - 1]));
    }
  }

  /* ----- one user's account ----- */

  function RowsOf(ledger: seq<Entry>, u: UserId): seq<Entry> {
    if ledger == [] then []
    else
      var earlier := RowsOf(ledger[..|ledger| - 1], u);
      if ledger[|ledger| - 1].user == u then earlier + [ledger[|ledger| - 1]] else earlier
  }

  // The profile, the ledger rows and the grants of a user; for the Gold quota also the month.
  ghost predicate SameAccount(scan: Scan, s: Store, s': Store, u: UserId) {
    (u in s.profiles <==> u in s'.profiles) && ProfileOf(s, u) == ProfileOf(s', u) &&
    RowsOf(s.ledger, u) == RowsOf(s'.ledger, u) && (forall y :: (u, y) in s.grants <==> (u, y) in s'.grants) &&
    (scan.GoldReset? ==> s.month == s'.month)
  }

  lemma RowsAppended(ledger: seq<Entry>, e: Entry, u: UserId)
    ensures RowsOf(ledger + [e], u) == if e.user == u then RowsOf(ledger, u) + [e] else RowsOf(ledger, u)
  {
    assert (ledger + [e])[..|ledger|] == ledger;
  }

  lemma CommitSpares(scan: Scan, s: Store, c: Change, u: UserId)
    requires c.user != u && Posted(s, c)
    ensures SameAccount(scan, s, Commit(s, c), u)
  {
    if c.entry.Some? { RowsAppended(s.ledger, c.entry.value, u); }
  }

  lemma PlanSpares(scan: Scan, s: Store, p: Plan, u: UserId)
    requires p.change.Some? ==> p.change.value.user != u && Posted(s, p.change.value)
    ensures SameAccount(scan, s, Execute(s, p), u)
  {
    if p.change.Some? { CommitSpares(scan, s, p.change.value, u); }
  }

  lemma StepSpares(scan: Scan, s: Store, op: Op, u: UserId)
    requires Attained(s) && Calm(scan, op, u)
    ensures SameAccount(scan, s, Apply(s, op), u)
  {
    if !op.NextMonth? {
      if PlanOf(s, op).change.Some? { PlanPosted(s, op); }
      PlanSpares(scan, s, PlanOf(s, op), u);
    }
  }

  lemma VisitUser(scan: Scan, u: UserId)
    ensures UserOf(VisitOp(scan, u)) == Some(u) && !VisitOp(scan, u).NextMonth?
  {
  }

  // A user that is not visited and not disturbed keeps its account.
  lemma {:induction false} Spared(scan: Scan, s: Store, trace: seq<Commitment>, u: UserId)
    requires Attained(s) && Undisturbed(scan, trace, u) && u !in Visited(trace)
    ensures SameAccount(scan, s, Play(scan, s, trace), u)
  {
    if trace != [] {
      var before, c := trace[..|trace| - 1], trace[|trace| - 1];
      assert trace == before + [c];
      VisitedOneMore(before, c);
      Spared(scan, s, before, u);
      PlayAttained(scan, s, before);
      if c.Visit? { VisitUser(scan, c.user); }
      StepSpares(scan, Play(scan, s, before), OpOf(scan, c), u);
    }
  }

  lemma VisitPlan(scan: Scan, s: Store, s': Store, u: UserId)
    requires SameAccount(scan, s, s', u)
    ensures PlanOf(s, VisitOp(scan, u)) == PlanOf(s', VisitOp(scan, u))
  {
    match scan
    case Expiry(_) =>
    case AnnualReset =>
    case GoldReset(_) =>
    case BirthdayBonuses(_) =>
  }

  lemma CommitAlike(scan: Scan, s: Store, s': Store, c: Change)
    requires SameAccount(scan, s, s', c.user)
    ensures SameAccount(scan, Commit(s, c), Commit(s', c), c.user)
  {
    if c.entry.Some? {
      RowsAppended(s.ledger, c.entry.value, c.user);
      RowsAppended(s'.ledger, c.entry.value, c.user);
    }
  }

  // A visit does to an account what it would have done before the scan.
  lemma VisitReads(scan: Scan, s: Store, s': Store, u: UserId)
    requires SameAccount(scan, s, s', u)
    ensures SameAccount(scan, Apply(s, VisitOp(scan, u)), Apply(s', VisitOp(scan, u)), u)
  {
    VisitPlan(scan, s, s', u);
    VisitUser(scan, u);
    var plan := PlanOf(s, VisitOp(scan, u));
    if plan.change.Some? {
      PlanUser(s, VisitOp(scan, u));
      CommitAlike(scan, s, s', plan.change.value);
    }
  }

  lemma {:induction false} Outcome(scan: Scan, s: Store, trace: seq<Commitment>, u: UserId)
    requires Attained(s) && Undisturbed(scan, trace, u) && Descending(trace)
    ensures SameAccount(scan, if u in Visited(trace) then Apply(s, VisitOp(scan, u)) else s, Play(scan, s, trace), u)
  {
    if trace != [] && u in Visited(trace) {
      var before, c := trace[..|trace| - 1], trace[|trace| - 1];
      assert trace == before + [c];
      VisitedOneMore(before, c);
      PlayAttained(scan, s, before);
      if c == Visit(u) {
        assert u !in Visited(before);
        Spared(scan, s, before, u);
        VisitReads(scan, s, Play(scan, s, before), u);
      } else {
        Outcome(scan, s, before, u);
        if c.Visit? { VisitUser(scan, c.user); }
        StepSpares(scan, Play(scan, s, before), OpOf(scan, c), u);
      }
    } else {
      Spared(scan, s, trace, u);
    }
  }

  /* ----- the batch query ----- */

  predicate Below(last: Option<UserId>, u: UserId) {
    last.None? || u < last.value
  }

  // ORDER BY id DESC LIMIT: the highest ids first.
  method TakeDescending(ids: set<UserId>, limit: nat) returns (batch: seq<UserId>)
    requires limit > 0
    ensures forall i | 0 <= i < |batch| :: batch[i] in ids
    ensures forall i, j | 0 <= i < j < |batch| :: batch[j] < batch[i]
    ensures batch == [] ==> ids == {}
    ensures batch != [] ==> forall u | u in ids && u >= batch[|batch| - 1] :: u in batch
    ensures |batch| <= limit
  {
    batch := [];
    var rest := ids;
    while |batch| < limit && rest != {}
      invariant rest <= ids && |batch| <= limit
      invariant forall i | 0 <= i < |batch| :: batch[i] in ids && batch[i] !in rest
      invariant forall u | u in ids && u !in rest :: u in batch
      invariant forall i, u | 0 <= i < |batch| && u in rest :: u < batch[i]
      invariant forall i, j | 0 <= i < j < |batch| :: batch[j] < batch[i]
      invariant batch == [] ==> rest == ids
    {
      var highest := Highest(rest);
      batch := batch + [highest];
      rest := rest - {highest};
    }
  }

  method Highest(ids: set<UserId>) returns (highest: UserId)
    requires ids != {}
    ensures highest in ids && forall u | u in ids :: u <= highest
  {
    highest :| highest in ids;
    var rest := ids - {highest};
    while rest != {}
      invariant highest in ids && rest <= ids
      invariant forall u | u in ids && u !in rest :: u <= highest
    {
      var u :| u in rest;
      if u > highest { highest := u; }
      rest := rest - {u};
    }
  }

  /* ----- what a scan has covered ----- */

  // Everyone from `last` on that is undisturbed was visited exactly if due when the scan began.
  ghost predicate Covered(scan: Scan, start: Store, trace: seq<Commitment>, last: Option<UserId>) {
    forall u | Undisturbed(scan, trace, u) && !Below(last, u) :: u in Visited(trace) <==> Due(scan, start, u)
  }

  // Nobody undisturbed was visited without being due when the scan began.
  ghost predicate OnlyDue(scan: Scan, start: Store, trace: seq<Commitment>) {
    forall u | Undisturbed(scan, trace, u) && u in Visited(trace) :: Due(scan, start, u)
  }

  predicate Passed(trace: seq<Commitment>, last: Option<UserId>) {
    forall v | v in Visited(trace) :: !Below(last, v)
  }

  // What one batch query saw, at the end of `trace`.
  predicate IsBatch(scan: Scan, s: Store, last: Option<UserId>, batch: seq<UserId>) {
    (forall i | 0 <= i < |batch| :: batch[i] in s.profiles && Below(last, batch[i])) &&
    (forall i, j | 0 <= i < j < |batch| :: batch[j] < batch[i]) &&
    (forall u | u in s.profiles && Listed(scan, s.profiles[u]) && Below(last, u) && ReachedBy(batch, u) :: u in batch)
  }

  predicate ReachedBy(batch: seq<UserId>, u: UserId) {
    batch == [] || u >= batch[|batch| - 1]
  }

  function Chosen(scan: Scan, s: Store, batch: seq<UserId>): set<UserId>
    requires forall i | 0 <= i < |batch| :: batch[i] in s.profiles
  {
    set i | 0 <= i < |batch| && Selected(scan, s.profiles[batch[i]]) :: batch[i]
  }

  // Where the scan stands when it has dealt with the first k of a batch.
  function NextLast(batch: seq<UserId>, k: nat): Option<UserId>
    requires k <= |batch| && batch != []
  {
    if k < |batch| then Some(batch[k] + 1) else Some(batch[|batch| - 1])
  }

  lemma StillDue(scan: Scan, start: Store, trace: seq<Commitment>, u: UserId)
    requires Attained(start) && Undisturbed(scan, trace, u) && u !in Visited(trace)
    ensures Due(scan, Play(scan, start, trace), u) <==> Due(scan, start, u)
  {
    Spared(scan, start, trace, u);
  }

  lemma BatchDecides(scan: Scan, s: Store, last: Option<UserId>, batch: seq<UserId>, k: nat, u: UserId)
    requires IsBatch(scan, s, last, batch) && batch != [] && k <= |batch| && Below(last, u)
    requires !Below(NextLast(batch, k), u)
    ensures u in Chosen(scan, s, batch[..k]) <==> Due(scan, s, u)
  {
    if Due(scan, s, u) {
      var i :| 0 <= i < |batch| && batch[i] == u;
      assert batch[..k][i] == u;
    }
  }

  lemma ChosenInBatch(scan: Scan, s: Store, last: Option<UserId>, batch: seq<UserId>, k: nat, u: UserId)
    requires IsBatch(scan, s, last, batch) && k <= |batch| && u in Chosen(scan, s, batch[..k])
    ensures Below(last, u) && u >= batch[|batch| - 1] && Due(scan, s, u)
  {
    var i :| 0 <= i < k && batch[..k][i] == u && Selected(scan, s.profiles[batch[..k][i]]);
    assert batch[i] == u;
  }

  lemma CoveredUser(scan: Scan, start: Store, trace: seq<Commitment>, last: Option<UserId>, batch: seq<UserId>, k: nat,
          u: UserId)
    requires Attained(start) && Covered(scan, start, trace, last) && Passed(trace, last)
    requires IsBatch(scan, Play(scan, start, trace), last, batch) && batch != [] && k <= |batch|
    requires Undisturbed(scan, trace, u) && !Below(NextLast(batch, k), u)
    ensures u in Visited(trace) + Chosen(scan, Play(scan, start, trace), batch[..k]) <==> Due(scan, start, u)
  {
    var s := Play(scan, start, trace);
    if Below(last, u) {
      StillDue(scan, start, trace, u);
      BatchDecides(scan, s, last, batch, k, u);
    } else if u in Chosen(scan, s, batch[..k]) {
      ChosenInBatch(scan, s, last, batch, k, u);
    }
  }

  // After the first k of a batch, the visits from there on are the earlier ones and the chosen of those k.
  ghost predicate VisitedUpTo(scan: Scan, s: Store, trace: seq<Commitment>, batch: seq<UserId>, k: nat,
          longer: seq<Commitment>)
    requires k <= |batch| && batch != [] && forall i | 0 <= i < |batch| :: batch[i] in s.profiles
  {
    (forall u | !Below(NextLast(batch, k), u) ::
      u in Visited(longer) <==> u in Visited(trace) + Chosen(scan, s, batch[..k])) &&
    (forall u | u in Visited(longer) :: u in Visited(trace) + Chosen(scan, s, batch))
  }

  lemma CoveredByBatch(scan: Scan, start: Store, trace: seq<Commitment>, last: Option<UserId>, batch: seq<UserId>,
          k: nat, longer: seq<Commitment>)
    requires Attained(start) && Covered(scan, start, trace, last) && Passed(trace, last)
    requires IsBatch(scan, Play(scan, start, trace), last, batch) && batch != [] && trace <= longer && k <= |batch|
    requires VisitedUpTo(scan, Play(scan, start, trace), trace, batch, k, longer)
    ensures Covered(scan, start, longer, NextLast(batch, k))
  {
    var least := NextLast(batch, k);
    forall u | Undisturbed(scan, longer, u) && !Below(least, u) ensures u in Visited(longer) <==> Due(scan, start, u) {
      StillUndisturbed(scan, trace, longer, u);
      CoveredUser(scan, start, trace, last, batch, k, u);
    }
  }

  lemma OnlyDueByBatch(scan: Scan, start: Store, trace: seq<Commitment>, last: Option<UserId>, batch: seq<UserId>,
          k: nat, longer: seq<Commitment>)
    requires Attained(start) && OnlyDue(scan, start, trace) && Passed(trace, last)
    requires IsBatch(scan, Play(scan, start, trace), last, batch) && batch != [] && trace <= longer && k <= |batch|
    requires VisitedUpTo(scan, Play(scan, start, trace), trace, batch, k, longer)
    ensures OnlyDue(scan, start, longer)
  {
    var s := Play(scan, start, trace);
    assert batch[..|batch|] == batch;
    forall u | Undisturbed(scan, longer, u) && u in Visited(longer) ensures Due(scan, start, u) {
      StillUndisturbed(scan, trace, longer, u);
      if u !in Visited(trace) {
        ChosenInBatch(scan, s, last, batch, |batch|, u);
        StillDue(scan, start, trace, u);
      }
    }
  }

  lemma PassedByBatch(scan: Scan, s: Store, trace: seq<Commitment>, last: Option<UserId>, batch: seq<UserId>, k: nat,
          longer: seq<Commitment>)
    requires Passed(trace, last) && IsBatch(scan, s, last, batch) && batch != [] && k <= |batch|
    requires VisitedUpTo(scan, s, trace, batch, k, longer)
    ensures Passed(longer, Some(batch[|batch| - 1]))
  {
    assert Below(last, batch[|batch| - 1]) && batch[..|batch|] == batch;
    forall v | v in Visited(longer) ensures v >= batch[|batch| - 1] {
      if v !in Visited(trace) { ChosenInBatch(scan, s, last, batch, |batch|, v); }
    }
  }

  lemma StillUndisturbed(scan: Scan, trace: seq<Commitment>, longer: seq<Commitment>, u: UserId)
    requires trace <= longer && Undisturbed(scan, longer, u)
    ensures Undisturbed(scan, trace, u)
  {
    forall i | 0 <= i < |trace| ensures trace[i] == longer[i] {}
  }

  lemma CoveredAtEnd(scan: Scan, start: Store, trace: seq<Commitment>, last: Option<UserId>, u: UserId)
    requires Attained(start) && Covered(scan, start, trace, last) && Passed(trace, last)
    requires IsBatch(scan, Play(scan, start, trace), last, []) && Undisturbed(scan, trace, u)
    ensures u in Visited(trace) <==> Due(scan, start, u)
  {
    if Below(last, u) { StillDue(scan, start, trace, u); }
  }

  /* ----- what a scan achieves ----- */

  // A scan that stopped at a profile got to everyone above it.
  predicate GotTo(stopped: Option<UserId>, u: UserId) {
    stopped.None? || u > stopped.value
  }

  // A trace that a scan from s can leave behind, complete or stopped at a profile.
  ghost predicate ScanTrace(scan: Scan, s: Store, trace: seq<Commitment>, stopped: Option<UserId>) {
    Attained(s) && Descending(trace) && OnlyDue(scan, s, trace) &&
    (forall u | u in Visited(trace) :: GotTo(stopped, u) || stopped == Some(u)) &&
    (forall u | Undisturbed(scan, trace, u) && GotTo(stopped, u) :: u in Visited(trace) <==> Due(scan, s, u)) &&
    (forall i | 0 <= i < |trace| && ThrewAt(scan, s, trace, i) :: stopped == Some(trace[i].user))
  }

  function ExpiryRow(u: UserId, p: Profile): Entry {
    Entry(u, EXPIRE, -p.balance, 0, None, Unkeyed)
  }

  lemma ExpiryStep(s: Store, now: int, u: UserId)
    requires ProfileFits(ProfileOf(s, u)) && Due(Expiry(now), s, u)
    ensures var s' := Apply(s, Expire(u, now));
      ProfileOf(s', u) == ProfileOf(s, u).(balance := 0) && s'.ledger == s.ledger + [ExpiryRow(u, ProfileOf(s, u))]
  {
  }

  // An undisturbed profile that was due ends empty with exactly one new row, taking off exactly what it
  // had; any other undisturbed profile ends as it was.
  lemma ExpiryOutcome(now: int, s: Store, trace: seq<Commitment>, stopped: Option<UserId>, u: UserId)
    requires ScanTrace(Expiry(now), s, trace, stopped) && Undisturbed(Expiry(now), trace, u) && GotTo(stopped, u)
    ensures
      var p, p' := ProfileOf(s, u), ProfileOf(Play(Expiry(now), s, trace), u);
      var rows, rows' := RowsOf(s.ledger, u), RowsOf(Play(Expiry(now), s, trace).ledger, u);
      if p.balance > 0 && p.balanceExpiresAt.Some? && p.balanceExpiresAt.value <= now
      then p' == p.(balance := 0) && rows' == rows + [ExpiryRow(u, p)]
      else p' == p && rows' == rows
  {
    Outcome(Expiry(now), s, trace, u);
    if Due(Expiry(now), s, u) {
      AttainedFits(s, u);
      ExpiryStep(s, now, u);
      RowsAppended(s.ledger, ExpiryRow(u, ProfileOf(s, u)), u);
    }
  }

  lemma RenewedStep(now: int, s: Store, c: Commitment, u: UserId)
    requires ExpiresFrom(s, u, now + 1) && (c.Other? ==> SetsFrom(c.op, now + 1))
    ensures ExpiresFrom(Apply(s, OpOf(Expiry(now), c)), u, now + 1)
  {
    Expiries.ExpiryStep(s, OpOf(Expiry(now), c), u, now + 1);
  }

  lemma RenewedOneMore(now: int, s: Store, trace: seq<Commitment>, c: Commitment, u: UserId)
    requires ExpiresFrom(Play(Expiry(now), s, trace), u, now + 1) && (c.Other? ==> SetsFrom(c.op, now + 1))
    ensures ExpiresFrom(Play(Expiry(now), s, trace + [c]), u, now + 1)
  {
    PlayOneMore(Expiry(now), s, trace, c);
    RenewedStep(now, Play(Expiry(now), s, trace), c, u);
  }

  lemma StillRenewed(now: int, s: Store, trace: seq<Commitment>, u: UserId, i: nat, j: nat)
    requires i <= j <= |trace| && ExpiresFrom(Play(Expiry(now), s, trace[..i]), u, now + 1)
    requires forall k | i <= k < j && trace[k].Other? :: SetsFrom(trace[k].op, now + 1)
    ensures ExpiresFrom(Play(Expiry(now), s, trace[..j]), u, now + 1)
    decreases j
  {
    if i < j {
      StillRenewed(now, s, trace, u, i, j - 1);
      RenewedOneMore(now, s, trace[..j - 1], trace[j - 1], u);
      assert trace[..j] == trace[..j - 1] + [trace[j - 1]];
    }
  }

  // Whoever interferes: once a concurrent writer has moved a profile's expiry past the scan's clock, its
  // turn, whenever it comes, leaves everything as it is.
  lemma RenewedIsSpared(now: int, s: Store, trace: seq<Commitment>, i: nat, j: nat)
    requires i <= j < |trace| && trace[j].Visit?
    requires ExpiresFrom(Play(Expiry(now), s, trace[..i]), trace[j].user, now + 1)
    requires forall k | i <= k < j && trace[k].Other? :: SetsFrom(trace[k].op, now + 1)
    ensures Play(Expiry(now), s, trace[..j + 1]) == Play(Expiry(now), s, trace[..j])
  {
    StillRenewed(now, s, trace, trace[j].user, i, j);
    assert trace[..j + 1] == trace[..j] + [trace[j]];
    PlayOneMore(Expiry(now), s, trace[..j], trace[j]);
    NotYetDue(Play(Expiry(now), s, trace[..j]), trace[j].user, now + 1, now);
  }

  function BonusRow(u: UserId, p: Profile, cal: Calendar): Entry {
    Entry(u, EARN_BIRTHDAY, 100, p.balance + 100, None, Birthday(cal.year))
  }

  lemma BonusStep(s: Store, cal: Calendar, u: UserId)
    requires Due(BirthdayBonuses(cal), s, u) && !PlanOf(s, GrantBonus(u, cal)).response.Thrown?
    ensures
      var s' := Apply(s, GrantBonus(u, cal));
      (u, cal.year) in s'.grants && ProfileOf(s', u).balance ==
        ProfileOf(s, u).balance + (if (u, cal.year) in s.grants then 0 else 100) &&
      s'.ledger == if (u, cal.year) in s.grants then s.ledger else s.ledger + [BonusRow(u, ProfileOf(s, u), cal)]
  {
  }

  // Every undisturbed user whose birthday it is, and whom the scan got to, holds this year's grant; who had none
  // before has got 100 points and one row for it.
  lemma BonusOutcome(cal: Calendar, s: Store, trace: seq<Commitment>, stopped: Option<UserId>, u: UserId)
    requires ScanTrace(BirthdayBonuses(cal), s, trace, stopped) && Undisturbed(BirthdayBonuses(cal), trace, u)
    requires GotTo(stopped, u) && u in s.profiles
    requires s.profiles[u].birthdayDate.Some? && cal.birthdayToday(s.profiles[u].birthdayDate.value)
    ensures
      var s' := Play(BirthdayBonuses(cal), s, trace);
      var rows, rows' := RowsOf(s.ledger, u), RowsOf(s'.ledger, u);
      (u, cal.year) in s'.grants && ProfileOf(s', u).balance ==
        ProfileOf(s, u).balance + (if (u, cal.year) in s.grants then 0 else 100) &&
      rows' == if (u, cal.year) in s.grants then rows else rows + [BonusRow(u, ProfileOf(s, u), cal)]
  {
    Outcome(BirthdayBonuses(cal), s, trace, u);
    VisitedDidNotThrow(BirthdayBonuses(cal), s, trace, stopped, u);
    BonusStep(s, cal, u);
    RowsAppended(s.ledger, BonusRow(u, ProfileOf(s, u), cal), u);
  }

  // The visit of an undisturbed user is answered as it would have been before the scan.
  lemma VisitAnswer(scan: Scan, s: Store, trace: seq<Commitment>, i: nat)
    requires Attained(s) && Descending(trace) && i < |trace| && trace[i].Visit?
    requires Undisturbed(scan, trace, trace[i].user)
    ensures Answer(scan, s, trace[..i], trace[i].user) == PlanOf(s, VisitOp(scan, trace[i].user)).response
  {
    var u := trace[i].user;
    StillUndisturbed(scan, trace[..i], trace, u);
    assert u !in Visited(trace[..i]);
    Spared(scan, s, trace[..i], u);
    VisitPlan(scan, s, Play(scan, s, trace[..i]), u);
  }

  lemma VisitedDidNotThrow(scan: Scan, s: Store, trace: seq<Commitment>, stopped: Option<UserId>, u: UserId)
    requires ScanTrace(scan, s, trace, stopped) && Undisturbed(scan, trace, u) && u in Visited(trace)
    requires GotTo(stopped, u)
    ensures !PlanOf(s, VisitOp(scan, u)).response.Thrown?
  {
    var i :| 0 <= i < |trace| && trace[i] == Visit(u);
    VisitAnswer(scan, s, trace, i);
    assert !ThrewAt(scan, s, trace, i);
  }

  lemma ResetStep(s: Store, u: UserId)
    ensures ProfileOf(Apply(s, ResetYear(u)), u) ==
      if u in s.profiles then s.profiles[u].(yearPoints := 0, yearVisits := 0) else NewProfile
  {
  }

  // After the annual reset an undisturbed user has no visits or points of the year.
  lemma ResetOutcome(s: Store, trace: seq<Commitment>, stopped: Option<UserId>, u: UserId)
    requires ScanTrace(AnnualReset, s, trace, stopped) && Undisturbed(AnnualReset, trace, u) && GotTo(stopped, u)
    ensures ProfileOf(Play(AnnualReset, s, trace), u) == ProfileOf(s, u).(yearPoints := 0, yearVisits := 0)
  {
    Outcome(AnnualReset, s, trace, u);
    ResetStep(s, u);
    AttainedTotals(s, u);
  }

  lemma GoldStep(s: Store, u: UserId)
    ensures var used := ProfileOf(s, u).goldUpgradeUsedMonth;
      ProfileOf(Apply(s, ResetGold(u)), u).goldUpgradeUsedMonth ==
        if used.Some? && used.value < s.month then None else used
  {
  }

  // After the Gold reset no undisturbed user's quota is used up by a month before the cutoff.
  lemma GoldOutcome(cutoff: int, s: Store, trace: seq<Commitment>, stopped: Option<UserId>, u: UserId)
    requires ScanTrace(Scan.GoldReset(cutoff), s, trace, stopped) && Undisturbed(Scan.GoldReset(cutoff), trace, u)
    requires GotTo(stopped, u) && cutoff <= s.month
    ensures
      var used := ProfileOf(s, u).goldUpgradeUsedMonth;
      ProfileOf(Play(Scan.GoldReset(cutoff), s, trace), u).goldUpgradeUsedMonth ==
        if used.Some? && used.value < cutoff then None else used
  {
    Outcome(Scan.GoldReset(cutoff), s, trace, u);
    GoldStep(s, u);
  }

  // What the job counts are the visits that changed something; the annual reset counts them all.
  lemma HitsAreChanges(scan: Scan, s: Store, u: UserId)
    requires Attained(s)
    ensures
      var s' := Apply(s, VisitOp(scan, u));
      Hit(scan, PlanOf(s, VisitOp(scan, u)).response) <==>
        scan.AnnualReset? || ProfileOf(s', u) != ProfileOf(s, u)
  {
    OpeningChangesNothing(s, u);
  }

  /* ----- alone, a scan is one pass ----- */

  // Visits every profile below n that was due at the start, highest first, down to k.
  function OnePass(scan: Scan, s: Store, k: nat, n: nat): Store
    decreases n - k
  {
    if k >= n then s
    else
      var before := OnePass(scan, s, k + 1, n);
      if Due(scan, s, k) then Apply(before, VisitOp(scan, k)) else before
  }

  predicate OnlyVisits(trace: seq<Commitment>) {
    forall i | 0 <= i < |trace| :: trace[i].Visit?
  }

  // The lowest id comes last, and without it the rest are visited.
  lemma LowestIsLast(trace: seq<Commitment>, k: UserId)
    requires Descending(trace) && OnlyVisits(trace) && k in Visited(trace) && forall u | u in Visited(trace) :: k <= u
    ensures trace != [] && trace[|trace| - 1] == Visit(k)
    ensures Visited(trace[..|trace| - 1]) == Visited(trace) - {k}
  {
    var i :| 0 <= i < |trace| && trace[i] == Visit(k);
    assert trace[|trace| - 1].user in Visited(trace);
    var before := trace[..|trace| - 1];
    assert trace == before + [Visit(k)];
    VisitedOneMore(before, Visit(k));
  }

  lemma SomebodyVisited(trace: seq<Commitment>)
    requires OnlyVisits(trace) && trace != []
    ensures Visited(trace) != {}
  {
    assert trace[0].user in Visited(trace);
  }

  function DueBetween(scan: Scan, s: Store, k: nat, n: nat): set<UserId> {
    set u: nat | k <= u < n && Due(scan, s, u)
  }

  lemma DueFrom(scan: Scan, s: Store, k: nat, n: nat)
    requires k < n
    ensures DueBetween(scan, s, k, n) == DueBetween(scan, s, k + 1, n) + (if Due(scan, s, k) then {k} else {})
  {
  }

  lemma {:induction false} AloneIsOnePass(scan: Scan, s: Store, trace: seq<Commitment>, k: nat, n: nat)
    requires k <= n && Descending(trace) && OnlyVisits(trace) && Visited(trace) == DueBetween(scan, s, k, n)
    ensures Play(scan, s, trace) == OnePass(scan, s, k, n)
    decreases n - k
  {
    if trace != [] { SomebodyVisited(trace); }
    if k < n {
      DueFrom(scan, s, k, n);
      if Due(scan, s, k) {
        LowestIsLast(trace, k);
        AloneIsOnePass(scan, s, trace[..|trace| - 1], k + 1, n);
      } else {
        AloneIsOnePass(scan, s, trace, k + 1, n);
      }
    }
  }

  // With nobody else around, a batched scan that completes is one pass over all profiles.
  lemma ScanIsOnePass(scan: Scan, s: Store, trace: seq<Commitment>, n: nat)
    requires ScanTrace(scan, s, trace, None) && OnlyVisits(trace) && forall u | u in s.profiles :: u < n
    ensures Play(scan, s, trace) == OnePass(scan, s, 0, n)
  {
    forall u ensures Undisturbed(scan, trace, u) {}
    assert Visited(trace) == DueBetween(scan, s, 0, n);
    AloneIsOnePass(scan, s, trace, 0, n);
  }

  /* ----- an exception ends the scan ----- */

  // Nobody below the profile at which a scan stopped is visited.
  lemma StoppedSkipsTheRest(scan: Scan, s: Store, trace: seq<Commitment>, stopped: UserId, u: UserId)
    requires ScanTrace(scan, s, trace, Some(stopped)) && Undisturbed(scan, trace, u) && u < stopped
    ensures SameAccount(scan, s, Play(scan, s, trace), u)
  {
    Spared(scan, s, trace, u);
  }

  // One undisturbed profile that is due and whose transaction throws keeps the scan from completing, and
  // everyone below it from being visited.
  lemma PoisonedProfile(scan: Scan, s: Store, trace: seq<Commitment>, stopped: Option<UserId>, u: UserId)
    requires ScanTrace(scan, s, trace, stopped) && Undisturbed(scan, trace, u)
    requires Due(scan, s, u) && PlanOf(s, VisitOp(scan, u)).response.Thrown?
    ensures stopped.Some? && stopped.value >= u
  {
    if GotTo(stopped, u) { VisitedDidNotThrow(scan, s, trace, stopped, u); }
  }

  // The scan stopped because the transaction of its last visit threw.
  predicate StoppedByThrow(scan: Scan, s: Store, trace: seq<Commitment>, stopped: Option<UserId>) {
    stopped.Some? && trace != [] && trace[|trace| - 1] == Visit(stopped.value) && ThrewAt(scan, s, trace, |trace| - 1)
  }

  // Alone and with a database that works, a scan completes exactly if the transaction of no due profile
  // throws, which can be read off the tables before it begins.
  lemma CompletesExactly(scan: Scan, s: Store, trace: seq<Commitment>, stopped: Option<UserId>)
    requires ScanTrace(scan, s, trace, stopped) && OnlyVisits(trace)
    requires stopped.Some? ==> StoppedByThrow(scan, s, trace, stopped)
    ensures stopped.None? <==> forall u | Due(scan, s, u) :: !PlanOf(s, VisitOp(scan, u)).response.Thrown?
  {
    forall u ensures Undisturbed(scan, trace, u) {}
    if stopped.None? {
      forall u | Due(scan, s, u) ensures !PlanOf(s, VisitOp(scan, u)).response.Thrown? {
        VisitedDidNotThrow(scan, s, trace, stopped, u);
      }
    } else {
      VisitAnswer(scan, s, trace, |trace| - 1);
      assert stopped.value in Visited(trace);
    }
  }

  // Of the four scans only the birthday scan can throw: when the year's bonus is due and the lifetime, the
  // year's points or the year itself would leave its column.
  predicate BonusOverflows(s: Store, cal: Calendar, u: UserId) {
    (u, cal.year) !in s.grants &&
    (ProfileOf(s, u).lifetimePoints > INT32_MAX - BIRTHDAY_BONUS_POINTS ||
     ProfileOf(s, u).yearPoints > INT32_MAX - BIRTHDAY_BONUS_POINTS || !Int16(cal.year))
  }

  lemma VisitThrowsExactly(scan: Scan, s: Store, u: UserId)
    requires Attained(s) && Due(scan, s, u)
    ensures PlanOf(s, VisitOp(scan, u)).response.Thrown? <==> scan.BirthdayBonuses? && BonusOverflows(s, scan.cal, u)
  {
    AttainedFits(s, u);
    AttainedBalance(s, u);
    match scan
    case Expiry(_) =>
    case AnnualReset =>
    case GoldReset(_) =>
    case BirthdayBonuses(cal) => BonusThrows(s, cal, u);
  }

  lemma AttainedBalance(s: Store, u: UserId)
    requires Attained(s)
    ensures 0 <= ProfileOf(s, u).balance <= ProfileOf(s, u).lifetimePoints
  {
    AttainedInv(s);
    OpenNonNegative(OfUser(u), s, |s.ledger|);
  }

  lemma BonusThrows(s: Store, cal: Calendar, u: UserId)
    requires Due(BirthdayBonuses(cal), s, u) && ProfileFits(ProfileOf(s, u))
    requires 0 <= ProfileOf(s, u).balance <= ProfileOf(s, u).lifetimePoints
    ensures PlanOf(s, GrantBonus(u, cal)).response.Thrown? <==> BonusOverflows(s, cal, u)
  {
  }

  /* ----- such a profile can be reached ----- */

  function PoisonRun(birthday: int, quiet: Calendar): seq<Op> {
    [Adjust(9, INT32_MAX, quiet)] + [SetDateOfBirth(9, birthday, quiet)] + [SetDateOfBirth(5, birthday, quiet)]
  }

  lemma DatedStep(s: Store, u: UserId, birthday: int, quiet: Calendar)
    requires !quiet.birthdayToday(birthday)
    ensures var s' := Apply(s, SetDateOfBirth(u, birthday, quiet));
      s' == s.(profiles := s.profiles[u := ProfileOf(s, u).(birthdayDate := Some(birthday))])
  {
  }

  lemma RichStep(u: UserId, quiet: Calendar)
    ensures var s := Apply(Empty, Adjust(u, INT32_MAX, quiet));
      s.profiles.Keys == {u} && s.profiles[u].lifetimePoints == INT32_MAX && s.profiles[u].birthdayDate.None? &&
        s.grants == map[]
  {
  }

  lemma PoisonState(birthday: int, quiet: Calendar)
    requires !quiet.birthdayToday(birthday)
    ensures var s := Run(PoisonRun(birthday, quiet));
      9 in s.profiles && s.profiles[9].lifetimePoints == INT32_MAX && s.profiles[9].birthdayDate == Some(birthday) &&
      5 in s.profiles && s.profiles[5] == NewProfile.(birthdayDate := Some(birthday)) && s.grants == map[] &&
      s.profiles.Keys == {9, 5}
  {
    var first, second, third := Adjust(9, INT32_MAX, quiet), SetDateOfBirth(9, birthday, quiet),
      SetDateOfBirth(5, birthday, quiet);
    var s1 := Apply(Empty, first);
    assert [] + [first] == [first];
    RunOneMore(Empty, [], first);
    RunOneMore(Empty, [first], second);
    RunOneMore(Empty, [first] + [second], third);
    RichStep(9, quiet);
    DatedStep(s1, 9, birthday, quiet);
    DatedStep(Apply(s1, second), 5, birthday, quiet);
  }

  // An administrator's largest addition to user 9 is enough: on the birthday of users 9 and 5, alone and with
  // a working database, the scan stops at 9, and 5, whose bonus would have gone through, gets none.
  lemma PoisonedScan(birthday: int, quiet: Calendar, party: Calendar, trace: seq<Commitment>, stopped: Option<UserId>)
    requires !quiet.birthdayToday(birthday) && party.birthdayToday(birthday) && Int16(party.year)
    requires ScanTrace(BirthdayBonuses(party), Run(PoisonRun(birthday, quiet)), trace, stopped) && OnlyVisits(trace)
    requires stopped.Some? ==> StoppedByThrow(BirthdayBonuses(party), Run(PoisonRun(birthday, quiet)), trace, stopped)
    ensures var s := Run(PoisonRun(birthday, quiet));
      PlanOf(s, GrantBonus(5, party)).response == Success(100) && stopped == Some(9) &&
      (5, party.year) !in Play(BirthdayBonuses(party), s, trace).grants
  {
    var scan, s := BirthdayBonuses(party), Run(PoisonRun(birthday, quiet));
    PoisonState(birthday, quiet);
    forall u ensures Undisturbed(scan, trace, u) {}
    VisitThrowsExactly(scan, s, 9);
    PoisonedProfile(scan, s, trace, stopped, 9);
    VisitAnswer(scan, s, trace, |trace| - 1);
    StopIsDue(scan, s, trace, stopped);
    NewcomerServed(s, 5, party);
    StoppedSkipsTheRest(scan, s, trace, 9, 5);
  }

  lemma StopIsDue(scan: Scan, s: Store, trace: seq<Commitment>, stopped: Option<UserId>)
    requires ScanTrace(scan, s, trace, stopped) && OnlyVisits(trace) && StoppedByThrow(scan, s, trace, stopped)
    ensures Due(scan, s, stopped.value)
  {
    assert stopped.value in Visited(trace);
  }

  lemma NewcomerServed(s: Store, u: UserId, party: Calendar)
    requires Due(BirthdayBonuses(party), s, u) && (u, party.year) !in s.grants && Int16(party.year)
    requires var p := s.profiles[u]; p.balance == p.lifetimePoints == p.yearPoints == p.yearVisits == 0
    ensures PlanOf(s, GrantBonus(u, party)).response == Success(100)
  {
  }
}
