/**
  One publisher process working on the shared outbox while any number of others do. Between any two of
  its statements the others may take any steps; what the network and the database do is left open.
 */
module OutboxPublisher {
  import opened Options
  import opened Outbox
  import opened OutboxRetries
  import opened Tokens

  const BATCH_SIZE := 50

  ghost predicate Reaches(s: System, s': System) {
    exists steps :: RunFrom(s, steps) == s'
  }

  lemma ReachesOne(s: System, step: Step)
    ensures Reaches(s, Apply(s, step))
  {
    assert [step][..0] == [];
    assert RunFrom(s, [step]) == Apply(RunFrom(s, []), step);
  }

  lemma {:induction false} RunAppended(s: System, first: seq<Step>, second: seq<Step>)
    ensures RunFrom(RunFrom(s, first), second) == RunFrom(s, first + second)
  {
    if second == [] {
      assert first + second == first;
    } else {
      RunAppended(s, first, second[..|second| - 1]);
      assert (first + second)[..|first + second| - 1] == first + second[..|second| - 1];
    }
  }

  lemma ReachesOn(s: System, s': System, s'': System)
    requires Reaches(s, s') && Reaches(s', s'')
    ensures Reaches(s, s'')
  {
    var first :| RunFrom(s, first) == s';
    var second :| RunFrom(s', second) == s'';
    RunAppended(s, first, second);
  }

  lemma ReachesItself(s: System)
    ensures Reaches(s, s)
  {
    assert RunFrom(s, []) == s;
  }

  // A state that some run led to.
  ghost predicate Attained(s: System) {
    exists steps :: Run(steps) == s
  }

  lemma AttainedInv(s: System)
    requires Attained(s)
    ensures Inv(s)
  {
    var steps :| Run(steps) == s;
    Reachable(steps);
  }

  lemma AttainedRows(s: System)
    requires Attained(s)
    ensures Rows(s)
  {
    AttainedInv(s);
  }

  lemma AttainedSent(s: System)
    requires Attained(s)
    ensures Rows(s) && Sent(s)
  {
    AttainedInv(s);
  }

  lemma AttainedNext(s: System, step: Step)
    requires Attained(s)
    ensures Attained(Apply(s, step))
  {
    var steps :| Run(steps) == s;
    RunOneMore(steps, step);
  }

  class OutboxPublisherService {
    var publishing: bool
    var outbox: System

    constructor (outbox: System)
      ensures this.outbox == outbox && !publishing
    {
      this.outbox := outbox;
      publishing := false;
    }

    // One protocol step on the way from `start`.
    method Take(step: Step, ghost start: System)
      requires Attained(outbox) && Reaches(start, outbox)
      modifies this`outbox
      ensures outbox == Apply(old(outbox), step)
      ensures Attained(outbox) && Reaches(start, outbox) && old(outbox).flights.Keys <= outbox.flights.Keys
    {
      ReachesOne(outbox, step);
      ReachesOn(start, outbox, Apply(outbox, step));
      AttainedNext(outbox, step);
      FlightsStay(outbox, step);
      outbox := Apply(outbox, step);
    }

    // Whatever the other publishers and the clock do while this one waits; they leave its own claims to it.
    method Others(own: set<Token>, ghost start: System)
      requires Attained(outbox) && Reaches(start, outbox)
      modifies this`outbox
      ensures Attained(outbox) && Reaches(start, outbox) && old(outbox).flights.Keys <= outbox.flights.Keys
      ensures Ended(old(outbox)) <= Ended(outbox) && SameFlights(old(outbox), outbox, own)
    {
      ghost var before := outbox;
      var more: nat := *;
      while more > 0
        invariant Attained(outbox) && Reaches(start, outbox) && before.flights.Keys <= outbox.flights.Keys
        invariant Ended(before) <= Ended(outbox) && SameFlights(before, outbox, own)
      {
        var step: Step := *;
        if TokenOf(step).None? || TokenOf(step).value !in own {
          EndedStays(outbox, step);
          OwnFlightsStay(outbox, step, own);
          Take(step, start);
        }
        more := more - 1;
      }
    }

    method RecoverNext(e: EventId, st: int, ghost start: System)
      requires Attained(outbox) && Reaches(start, outbox) && st <= outbox.now && e in ExpiredIds(outbox, st)
      modifies this`outbox
      ensures Attained(outbox) && Reaches(start, outbox) && outbox.now == old(outbox).now
      ensures ExpiredIds(outbox, st) == ExpiredIds(old(outbox), st) - {e}
    {
      RecoveryTakesEffect(outbox, e, st);
      Take(Recover(e, st), start);
    }

    // UPDATE ... WHERE id IN (SELECT ... ORDER BY created_at, id LIMIT 50 FOR UPDATE SKIP LOCKED): the oldest expired
    // claims not locked by another statement are given back.
    method RecoverExpiredClaims(st: int, locked: set<EventId>, ghost start: System)
      returns (ghost recovered: set<EventId>)
      requires Attained(outbox) && Reaches(start, outbox) && st <= outbox.now
      modifies this`outbox
      ensures Attained(outbox) && Reaches(start, outbox)
      ensures RecoveredOldest(ExpiredIds(old(outbox), st), ExpiredIds(outbox, st), locked, recovered)
    {
      recovered := {};
      ghost var expired := ExpiredIds(outbox, st);
      var todo := (set e | e in outbox.rows && Recoverable(outbox.rows[e], st)) - locked;
      RecoverableIds(outbox, st);
      ghost var left := expired;
      var count := 0;
      while count < BATCH_SIZE && todo != {}
        invariant Attained(outbox) && Reaches(start, outbox) && st <= outbox.now && count == |recovered| <= BATCH_SIZE
        invariant left == ExpiredIds(outbox, st) && Recovering(expired, left, locked, recovered, todo)
      {
        var e := Oldest(todo);
        RecoveringGrows(expired, left, locked, recovered, todo, e);
        RecoverNext(e, st, start);
        left, todo, recovered := left - {e}, todo - {e}, recovered + {e};
        count := count + 1;
      }
      RecoveringDone(expired, left, locked, recovered, todo);
    }

    // The cleanup of exhausted pending rows finds none that this code wrote.
    method FailExhaustedPending() returns (exhausted: set<EventId>)
      requires Attained(outbox)
      ensures exhausted == {}
    {
      AttainedRows(outbox);
      exhausted := set e | e in outbox.rows && Exhausted(outbox.rows[e]);
    }

    method ClaimOne(e: EventId, leaseMs: nat, st: int, ghost start: System) returns (t: Token)
      requires Attained(outbox) && Reaches(start, outbox) && st <= outbox.now
      requires e in ClaimableIds(outbox, st)
      modifies this`outbox
      ensures Attained(outbox) && Reaches(start, outbox) && outbox.now == old(outbox).now
      ensures Ended(old(outbox)) <= Ended(outbox)
      ensures ClaimedNow(old(outbox), outbox, e, t, st, leaseMs)
    {
      FreshToken(outbox.flights.Keys);
      t :| t !in outbox.flights;
      ClaimTakesEffect(outbox, e, t, st, leaseMs);
      EndedStays(outbox, Claim(e, t, st, leaseMs));
      Take(Claim(e, t, st, leaseMs), start);
    }

    method ClaimNext(e: EventId, leaseMs: nat, st: int, ghost claims: seq<Token>, ghost events: seq<EventId>,
            ghost first: System, ghost start: System)
      returns (t: Token)
      requires Attained(outbox) && Reaches(start, outbox) && st <= outbox.now && e in ClaimableIds(outbox, st)
      requires Wave(first, outbox, outbox.now + leaseMs, claims, events) && Younger(events, {e})
      modifies this`outbox
      ensures Attained(outbox) && Reaches(start, outbox) && outbox.now == old(outbox).now
      ensures ClaimableIds(outbox, st) == ClaimableIds(old(outbox), st) - {e} && Ended(old(outbox)) <= Ended(outbox)
      ensures Wave(first, outbox, outbox.now + leaseMs, claims + [t], events + [e])
    {
      ghost var before := outbox;
      t := ClaimOne(e, leaseMs, st, start);
      WaveGrows(first, before, outbox, claims, events, e, t, st, leaseMs);
    }

    // The oldest waiting rows not locked by another claim, at most `limit` of them, oldest first, each leased to
    // a token of its own. Every other unlocked row that is still waiting is younger, and fewer than `limit` come
    // back only when there is none.
    method ClaimEvents(limit: nat, leaseMs: nat, st: int, locked: set<EventId>, ghost start: System)
      returns (claims: seq<Token>, ghost events: seq<EventId>)
      requires Attained(outbox) && Reaches(start, outbox) && st <= outbox.now
      modifies this`outbox
      ensures Attained(outbox) && Reaches(start, outbox)
      ensures |claims| <= limit && Wave(old(outbox), outbox, outbox.now + leaseMs, claims, events)
      ensures ClaimedOldest(WaitingIds(old(outbox), st), WaitingIds(outbox, st) - locked, limit, events)
      ensures Ended(old(outbox)) <= Ended(outbox) && (claims == [] ==> outbox == old(outbox))
    {
      ClaimableAreWaiting(outbox, st);
      claims, events := [], [];
      var todo := ClaimableIds(outbox, st) - locked;
      ghost var first, waiting := outbox, ClaimableIds(outbox, st);
      ghost var left := waiting;
      while |claims| < limit && todo != {}
        invariant Attained(outbox) && Reaches(start, outbox) && st <= outbox.now && outbox.now == first.now
        invariant |claims| <= limit && Wave(first, outbox, first.now + leaseMs, claims, events)
        invariant left == ClaimableIds(outbox, st) && Claiming(waiting, left, locked, events, todo)
        invariant Ended(first) <= Ended(outbox) && (claims == [] ==> outbox == first)
      {
        var e := Oldest(todo);
        ClaimingGrows(waiting, left, locked, events, todo, e);
        var t := ClaimNext(e, leaseMs, st, claims, events, first, start);
        left, todo := left - {e}, todo - {e};
        claims, events := claims + [t], events + [e];
      }
      ClaimableAreWaiting(outbox, st);
      ClaimingDone(waiting, left, locked, events, todo, limit);
    }

    // Emits one claimed event and records the result. Whether the payload went out, whether the broker confirmed it
    // and whether the database failed is not for the publisher to say.
    method ProcessEvent(t: Token, sent: bool, confirmed: bool, lost: bool, own: set<Token>, ghost start: System)
      returns (recorded: bool, success: bool)
      requires Attained(outbox) && Reaches(start, outbox) && t in own && JustClaimed(outbox, t)
      modifies this`outbox
      ensures Attained(outbox) && Reaches(start, outbox) && old(outbox).flights.Keys <= outbox.flights.Keys
      ensures Ended(old(outbox)) <= Ended(outbox) && SameFlights(old(outbox), outbox, own - {t})
      ensures success == (sent && confirmed) && (recorded && success ==> CompletedBy(outbox, t))
      ensures t in outbox.flights && outbox.flights[t] ==
        old(outbox).flights[t].(emitted := sent, phase := if lost then Lost else Settled)
    {
      Others(own, start);
      if sent {
        CanSend(outbox, t);
        Advance(t, Emit(t), own, start);
      }
      success := sent && confirmed;
      CanResolve(outbox, t, success);
      Advance(t, Resolve(t, success), own, start);
      ghost var seen;
      recorded, seen := RecordResult(t, success, lost, own, start);
    }

    // A step of this publisher on one of its claims.
    method Advance(t: Token, step: Step, own: set<Token>, ghost start: System)
      requires Attained(outbox) && Reaches(start, outbox) && t in outbox.flights && TokenOf(step) == Some(t)
      requires Enabled(outbox, step)
      modifies this`outbox
      ensures Attained(outbox) && Reaches(start, outbox) && old(outbox).flights.Keys <= outbox.flights.Keys
      ensures Ended(old(outbox)) <= Ended(outbox) && SameFlights(old(outbox), outbox, own - {t})
      ensures t in outbox.flights && outbox.flights[t] == FlightAfter(old(outbox).flights[t], step)
      ensures outbox == Apply(old(outbox), step)
    {
      EndedStays(outbox, step);
      OwnFlightsStay(outbox, step, own - {t});
      FlightMoves(outbox, step, t);
      Take(step, start);
    }

    // The statement that records the result, unless the database fails, which leaves the claim to expire. It is
    // recorded exactly if the row is still held, and a recorded success completes the row.
    method RecordResult(t: Token, success: bool, lost: bool, own: set<Token>, ghost start: System)
      returns (recorded: bool, ghost seen: System)
      requires Attained(outbox) && Reaches(start, outbox) && t in own && t in outbox.flights
      requires outbox.flights[t].phase == (if success then Confirmed else Refused)
      modifies this`outbox
      ensures Attained(outbox) && Reaches(start, outbox) && old(outbox).flights.Keys <= outbox.flights.Keys
      ensures Ended(old(outbox)) <= Ended(outbox) && SameFlights(old(outbox), outbox, own - {t})
      ensures t in outbox.flights &&
        outbox.flights[t] == old(outbox).flights[t].(phase := if lost then Lost else Settled)
      ensures t in seen.flights && outbox == Apply(seen, if lost then Lose(t) else Settle(t))
      ensures (recorded <==> !lost && Settles(seen, t)) && (recorded && success ==> CompletedBy(outbox, t))
    {
      Others(own, start);
      seen, recorded := outbox, false;
      CanEnd(outbox, t);
      if lost {
        Advance(t, Lose(t), own, start);
      } else {
        recorded := Holds(outbox, t) && Owned(outbox.rows[outbox.flights[t].event], t, outbox.now);
        RecordedExactly(outbox, t);
        if recorded && success { SettleCompletes(outbox, t); }
        Advance(t, Settle(t), own, start);
      }
    }

    // The scheduled pass: nothing at all while an earlier pass still runs. Otherwise it first gives back expired
    // claims, and then makes waves of at most `concurrency` claims, fifty claims in all. Every claim it makes comes to
    // an end, and when there were fewer than fifty, its last look found no waiting row but locked ones.
    method PublishPendingEvents(concurrency: nat, leaseMs: nat) returns (claimed: nat, ghost pass: Pass)
      requires 1 <= concurrency <= BATCH_SIZE && Attained(outbox)
      modifies this
      ensures Attained(outbox) && Reaches(old(outbox), outbox)
      ensures claimed <= 50 && publishing == old(publishing)
      ensures if old(publishing) then claimed == 0 && outbox == old(outbox)
        else Passed(old(outbox), outbox, claimed, pass)
    {
      ReachesItself(outbox);
      claimed, pass := 0, Pass(outbox, {}, {}, {}, outbox, {});
      if publishing { return; }
      publishing := true;
      ghost var start := outbox;
      var busy: set<EventId> := *;
      ghost var recovered := RecoverExpiredClaims(outbox.now, busy, start);
      ghost var first := outbox;
      ReachesItself(first);
      ghost var taken, look, locked;
      claimed, taken, look, locked := PublishWaves(concurrency, leaseMs, first);
      ReachesOn(start, first, outbox);
      StartKeys(start, first);
      pass := Pass(first, busy, recovered, taken, look, locked);
      publishing := false;
    }

    method PublishWaves(concurrency: nat, leaseMs: nat, ghost start: System)
      returns (claimed: nat, ghost taken: set<Token>, ghost look: System, ghost locked: set<EventId>)
      requires 1 <= concurrency <= BATCH_SIZE && Attained(outbox) && start == outbox
      modifies this`outbox
      ensures Attained(outbox) && Reaches(start, outbox) && claimed <= BATCH_SIZE
      ensures BroughtToEnd(start, outbox, claimed, taken)
      ensures claimed < BATCH_SIZE ==> Drained(start, look, locked) && Reaches(look, outbox)
    {
      ReachesItself(outbox);
      claimed, taken, look, locked := 0, {}, outbox, {};
      Others({}, start);
      var _ := FailExhaustedPending();
      while claimed < BATCH_SIZE
        invariant Attained(outbox) && Reaches(start, outbox) && claimed <= BATCH_SIZE
        invariant BroughtToEnd(start, outbox, claimed, taken) && start.flights.Keys <= outbox.flights.Keys
      {
        var more;
        ghost var wave;
        ghost var before := outbox;
        var limit := if concurrency < BATCH_SIZE - claimed then concurrency else BATCH_SIZE - claimed;
        more, wave, look, locked := PublishWave(limit, leaseMs, start);
        ClaimsMore(start, before, outbox, claimed, taken, more, wave);
        if more == 0 { break; }
        claimed, taken := claimed + more, taken + wave;
      }
    }

    // One wave: the claims, and then each of them to its end, while the others go on.
    method PublishWave(limit: nat, leaseMs: nat, ghost start: System)
      returns (claimed: nat, ghost taken: set<Token>, ghost look: System, ghost locked: set<EventId>)
      requires Attained(outbox) && Reaches(start, outbox) && limit >= 1
      modifies this`outbox
      ensures Attained(outbox) && Reaches(start, outbox) && old(outbox).flights.Keys <= outbox.flights.Keys
      ensures BroughtToEnd(old(outbox), outbox, claimed, taken) && claimed <= limit
      ensures Ended(old(outbox)) <= Ended(outbox)
      ensures claimed == 0 ==> Drained(start, look, locked) && Reaches(look, outbox)
    {
      Others({}, start);
      var unavailable: set<EventId> := *;
      look, locked := outbox, unavailable;
      ReachesItself(look);
      claimed, taken := ClaimAndProcess(limit, leaseMs, unavailable, start);
    }

    method ClaimAndProcess(limit: nat, leaseMs: nat, locked: set<EventId>, ghost start: System)
      returns (claimed: nat, ghost taken: set<Token>)
      requires Attained(outbox) && Reaches(start, outbox) && limit >= 1
      modifies this`outbox
      ensures Attained(outbox) && Reaches(start, outbox) && old(outbox).flights.Keys <= outbox.flights.Keys
      ensures BroughtToEnd(old(outbox), outbox, claimed, taken) && claimed <= limit
      ensures Ended(old(outbox)) <= Ended(outbox)
      ensures claimed == 0 ==> outbox == old(outbox) && WaitingIds(outbox, outbox.now) - locked == {}
    {
      ghost var before := outbox;
      var claims, _ := ClaimEvents(limit, leaseMs, outbox.now, locked, start);
      claimed, taken := |claims|, TokensOf(claims);
      DistinctTokens(claims);
      ProcessClaims(claims, start);
    }

    method ProcessClaims(claims: seq<Token>, ghost start: System)
      requires Attained(outbox) && Reaches(start, outbox)
      requires (forall k | 0 <= k < |claims| :: JustClaimed(outbox, claims[k])) && Distinct(claims)
      modifies this`outbox
      ensures Attained(outbox) && Reaches(start, outbox) && old(outbox).flights.Keys <= outbox.flights.Keys
      ensures Ended(old(outbox)) + TokensOf(claims) <= Ended(outbox) && (claims == [] ==> outbox == old(outbox))
    {
      ghost var before := outbox;
      for i := 0 to |claims|
        invariant Attained(outbox) && Reaches(start, outbox) && before.flights.Keys <= outbox.flights.Keys
        invariant Ended(before) + TokensOf(claims[..i]) <= Ended(outbox) && (i == 0 ==> outbox == before)
        invariant forall k | i <= k < |claims| :: JustClaimed(outbox, claims[k])
      {
        var sent, confirmed, lost: bool := *, *, *;
        var _, _ := ProcessEvent(claims[i], sent, confirmed, lost, TokensOf(claims), start);
        assert TokensOf(claims[..i + 1]) == TokensOf(claims[..i]) + {claims[i]};
      }
      assert claims[..|claims|] == claims;
    }
  }

  predicate JustClaimed(s: System, t: Token) {
    t in s.flights && s.flights[t].phase == Sending && !s.flights[t].emitted
  }

  predicate Distinct(claims: seq<Token>) {
    forall i, j | 0 <= i < j < |claims| :: claims[i] != claims[j]
  }

  // The claim that a publisher's step is about.
  function TokenOf(step: Step): Option<Token> {
    match step
    case Emit(t) => Some(t)
    case Resolve(t, _) => Some(t)
    case Settle(t) => Some(t)
    case Lose(t) => Some(t)
    case _ => None
  }

  function FlightAfter(f: Flight, step: Step): Flight {
    match step
    case Emit(_) => f.(emitted := true)
    case Resolve(_, success) => f.(phase := if success then Confirmed else Refused)
    case Settle(_) => f.(phase := Settled)
    case Lose(_) => f.(phase := Lost)
    case _ => f
  }

  lemma FlightMoves(s: System, step: Step, t: Token)
    requires Enabled(s, step) && TokenOf(step) == Some(t)
    ensures var s' := Apply(s, step);
      t in s.flights && t in s'.flights && s'.flights[t] == FlightAfter(s.flights[t], step)
  {
  }

  predicate SameFlights(s: System, s': System, own: set<Token>) {
    forall t | t in own && t in s.flights :: t in s'.flights && s'.flights[t] == s.flights[t]
  }

  lemma OwnFlightsStay(s: System, step: Step, own: set<Token>)
    requires TokenOf(step).None? || TokenOf(step).value !in own
    ensures SameFlights(s, Apply(s, step), own)
  {
  }

  lemma CanSend(s: System, t: Token)
    requires Attained(s) && JustClaimed(s, t)
    ensures Enabled(s, Emit(t))
  {
    AttainedRows(s);
  }

  lemma CanResolve(s: System, t: Token, success: bool)
    requires Attained(s) && t in s.flights && s.flights[t].phase == Sending && (success ==> s.flights[t].emitted)
    ensures Enabled(s, Resolve(t, success))
  {
    AttainedRows(s);
  }

  lemma CanEnd(s: System, t: Token)
    requires Attained(s) && t in s.flights && (s.flights[t].phase == Confirmed || s.flights[t].phase == Refused)
    ensures Enabled(s, Lose(t)) && Enabled(s, Settle(t))
  {
    AttainedRows(s);
  }

  lemma RecordedExactly(s: System, t: Token)
    requires Attained(s) && t in s.flights && (s.flights[t].phase == Confirmed || s.flights[t].phase == Refused)
    ensures Holds(s, t) && Owned(s.rows[s.flights[t].event], t, s.now) <==> Settles(s, t)
  {
    AttainedInv(s);
    if Holds(s, t) { HeldClaim(s, t); }
  }

  // The claims that are no longer being sent.
  function Ended(s: System): set<Token> {
    set t | t in s.flights && s.flights[t].phase != Sending
  }

  lemma EndedStays(s: System, step: Step)
    requires Attained(s)
    ensures Ended(s) <= Ended(Apply(s, step))
  {
    AttainedRows(s);
    if step.Settle? && Enabled(s, step) { SettledEnds(s, step.token); }
  }

  lemma SettledEnds(s: System, t: Token)
    requires t in s.flights && s.rows.Keys == s.changes.Keys
    ensures Ended(s) <= Ended(SettleClaim(s, t))
  {
  }

  function TokensOf(claims: seq<Token>): set<Token> {
    set t | t in claims
  }

  lemma {:induction false} DistinctTokens(claims: seq<Token>)
    requires Distinct(claims)
    ensures |TokensOf(claims)| == |claims|
  {
    if claims != [] {
      var last := claims[|claims| - 1];
      DistinctTokens(claims[..|claims| - 1]);
      assert TokensOf(claims) == TokensOf(claims[..|claims| - 1]) + {last};
    }
  }

  // As many claims as counted, made since `s`, and all of them ended.
  ghost predicate BroughtToEnd(s: System, s': System, claimed: nat, taken: set<Token>) {
    |taken| == claimed && taken !! s.flights.Keys && taken <= Ended(s')
  }

  // What a pass did: the expired claims it gave back, the claims it made and its last look for waiting rows.
  datatype Pass = Pass(first: System, busy: set<EventId>, recovered: set<EventId>, taken: set<Token>, look: System,
    locked: set<EventId>)

  ghost predicate Passed(s: System, s': System, claimed: nat, pass: Pass) {
    Reaches(s, pass.first) && Reaches(pass.first, s') && pass.first.flights.Keys >= s.flights.Keys &&
    RecoveredOldest(ExpiredIds(s, s.now), ExpiredIds(pass.first, s.now), pass.busy, pass.recovered) &&
    BroughtToEnd(pass.first, s', claimed, pass.taken) &&
    (claimed < 50 ==> Drained(pass.first, pass.look, pass.locked) && Reaches(pass.look, s'))
  }

  lemma ClaimsMore(s: System, before: System, after: System, claimed: nat, taken: set<Token>, more: nat,
          wave: set<Token>)
    requires BroughtToEnd(s, before, claimed, taken) && BroughtToEnd(before, after, more, wave)
    requires s.flights.Keys <= before.flights.Keys && Ended(before) <= Ended(after)
    ensures BroughtToEnd(s, after, claimed + more, taken + wave) && (more == 0 ==> taken + wave == taken)
  {
    assert Ended(before) <= before.flights.Keys;
    assert taken !! wave;
  }

  // A look at the outbox that found no waiting row but locked ones.
  ghost predicate Drained(start: System, look: System, locked: set<EventId>) {
    Reaches(start, look) && WaitingIds(look, look.now) - locked == {}
  }

  lemma {:induction false} KeysGrow(s: System, steps: seq<Step>)
    ensures s.flights.Keys <= RunFrom(s, steps).flights.Keys
  {
    if steps != [] {
      KeysGrow(s, steps[..|steps| - 1]);
      FlightsStay(RunFrom(s, steps[..|steps| - 1]), steps[|steps| - 1]);
    }
  }

  lemma StartKeys(s: System, s': System)
    requires Reaches(s, s')
    ensures s.flights.Keys <= s'.flights.Keys
  {
    var steps :| RunFrom(s, steps) == s';
    KeysGrow(s, steps);
  }

  lemma FlightsStay(s: System, step: Step)
    ensures s.flights.Keys <= Apply(s, step).flights.Keys
  {
  }

  function ExpiredIds(s: System, st: int): set<EventId> {
    set e | e in s.rows && LeaseExpired(s.rows[e], st)
  }

  lemma RecoverableIds(s: System, st: int)
    requires Attained(s)
    ensures (set e | e in s.rows && Recoverable(s.rows[e], st)) == ExpiredIds(s, st)
  {
    AttainedRows(s);
  }

  // The recovered are the oldest of the expired, and `todo` the rest of them.
  predicate Recovering(expired: set<EventId>, left: set<EventId>, locked: set<EventId>, recovered: set<EventId>,
          todo: set<EventId>)
  {
    recovered <= expired - locked && left == expired - recovered && todo == left - locked &&
    forall d, e | d in recovered && e in todo :: d < e
  }

  lemma RecoveringGrows(expired: set<EventId>, left: set<EventId>, locked: set<EventId>, recovered: set<EventId>,
          todo: set<EventId>, e: EventId)
    requires Recovering(expired, left, locked, recovered, todo) && e in todo && forall d | d in todo :: e <= d
    ensures e !in recovered && Recovering(expired, left - {e}, locked, recovered + {e}, todo - {e})
  {
  }

  // At most a batch of the expired claims, and every other one that is not locked is younger.
  predicate RecoveredOldest(expired: set<EventId>, left: set<EventId>, locked: set<EventId>, recovered: set<EventId>) {
    |recovered| <= BATCH_SIZE && recovered <= expired - locked && left == expired - recovered &&
    (forall d, e | d in recovered && e in left - locked :: d < e) &&
    (|recovered| < BATCH_SIZE ==> left - locked == {})
  }

  lemma RecoveringDone(expired: set<EventId>, left: set<EventId>, locked: set<EventId>, recovered: set<EventId>,
          todo: set<EventId>)
    requires Recovering(expired, left, locked, recovered, todo) && |recovered| <= BATCH_SIZE
    requires |recovered| == BATCH_SIZE || todo == {}
    ensures RecoveredOldest(expired, left, locked, recovered)
  {
  }

  lemma RecoveryTakesEffect(s: System, e: EventId, st: int)
    requires Attained(s) && e in ExpiredIds(s, st) && st <= s.now
    ensures var s' := Apply(s, Recover(e, st));
      s'.now == s.now && ExpiredIds(s', st) == ExpiredIds(s, st) - {e}
  {
    AttainedRows(s);
    var s' := Apply(s, Recover(e, st));
    assert OnlyRow(s, s', e) && s'.rows[e].status != PROCESSING;
  }

  // The event was claimed under a token never used before, and nothing else happened.
  ghost predicate ClaimedNow(s: System, s': System, e: EventId, t: Token, st: int, leaseMs: nat) {
    t !in s.flights && JustClaimed(s', t) && s'.flights[t].event == e && s'.flights[t].lease == s.now + leaseMs &&
    ClaimableIds(s', st) == ClaimableIds(s, st) - {e} &&
    forall u | u in s.flights :: u in s'.flights && s'.flights[u] == s.flights[u]
  }

  lemma ClaimTakesEffect(s: System, e: EventId, t: Token, st: int, leaseMs: nat)
    requires Attained(s) && e in ClaimableIds(s, st) && t !in s.flights && st <= s.now
    ensures var s' := Apply(s, Claim(e, t, st, leaseMs)); s'.now == s.now && ClaimedNow(s, s', e, t, st, leaseMs)
  {
    AttainedRows(s);
  }

  // Claims made since `s`, each under a token of its own, their events in order of age.
  ghost predicate Wave(s: System, s': System, expiry: int, claims: seq<Token>, events: seq<EventId>) {
    |claims| == |events| && s.flights.Keys <= s'.flights.Keys &&
    (forall i | 0 <= i < |claims| :: claims[i] in s'.flights && claims[i] !in s.flights &&
      s'.flights[claims[i]].event == events[i] && s'.flights[claims[i]].lease == expiry &&
      JustClaimed(s', claims[i])) &&
    (forall i, j | 0 <= i < j < |events| :: events[i] < events[j] && claims[i] != claims[j])
  }

  predicate Younger(events: seq<EventId>, ids: set<EventId>) {
    forall i, e | 0 <= i < |events| && e in ids :: events[i] < e
  }

  // What is left to claim, all younger than what has been claimed.
  predicate Claiming(waiting: set<EventId>, left: set<EventId>, locked: set<EventId>, events: seq<EventId>,
          todo: set<EventId>)
  {
    left <= waiting && todo == left - locked && Younger(events, todo) &&
    forall i | 0 <= i < |events| :: events[i] in waiting
  }

  lemma ClaimingGrows(waiting: set<EventId>, left: set<EventId>, locked: set<EventId>, events: seq<EventId>,
          todo: set<EventId>, e: EventId)
    requires Claiming(waiting, left, locked, events, todo) && e in todo && forall d | d in todo :: e <= d
    ensures Claiming(waiting, left - {e}, locked, events + [e], todo - {e}) && Younger(events, {e})
  {
  }

  // Only waiting events, and those still left are younger; all were taken unless the limit was reached.
  predicate ClaimedOldest(waiting: set<EventId>, left: set<EventId>, limit: nat, events: seq<EventId>) {
    (forall i | 0 <= i < |events| :: events[i] in waiting) && Younger(events, left) && (|events| < limit ==> left == {})
  }

  lemma ClaimingDone(waiting: set<EventId>, left: set<EventId>, locked: set<EventId>, events: seq<EventId>,
          todo: set<EventId>, limit: nat)
    requires Claiming(waiting, left, locked, events, todo) && (|events| < limit ==> todo == {})
    ensures ClaimedOldest(waiting, left - locked, limit, events)
  {
  }

  lemma WaveGrows(s: System, before: System, after: System, claims: seq<Token>, events: seq<EventId>, e: EventId,
          t: Token, st: int, leaseMs: nat)
    requires Wave(s, before, before.now + leaseMs, claims, events) && ClaimedNow(before, after, e, t, st, leaseMs)
    requires Younger(events, {e})
    ensures Wave(s, after, before.now + leaseMs, claims + [t], events + [e])
  {
    assert e in {e};
  }

  function ClaimableIds(s: System, st: int): set<EventId> {
    set e | e in s.rows && Claimable(s.rows[e], st)
  }

  function WaitingIds(s: System, st: int): set<EventId> {
    set e | e in s.rows && Waiting(s.rows[e], st)
  }

  lemma ClaimableAreWaiting(s: System, st: int)
    requires Attained(s)
    ensures ClaimableIds(s, st) == WaitingIds(s, st)
  {
    AttainedRows(s);
    forall e | e in s.rows { WaitingIsClaimable(s, e, st); }
  }

  ghost predicate CompletedBy(s: System, t: Token) {
    t in s.flights && s.flights[t].emitted &&
    var e := s.flights[t].event;
    e in s.rows && s.rows[e].status == COMPLETED && e in s.completions && s.completions[e].token == t
  }

  lemma SettleCompletes(s: System, t: Token)
    requires Attained(s) && t in s.flights && s.flights[t].phase == Confirmed && Holds(s, t)
    requires Owned(s.rows[s.flights[t].event], t, s.now)
    ensures CompletedBy(Apply(s, Settle(t)), t)
  {
    AttainedSent(s);
  }

  // Ids are numbered in order of creation.
  method Oldest(ids: set<EventId>) returns (oldest: EventId)
    requires ids != {}
    ensures oldest in ids && forall d | d in ids :: oldest <= d
  {
    oldest :| oldest in ids;
    var rest := ids - {oldest};
    while rest != {}
      invariant oldest in ids && rest <= ids
      invariant forall d | d in ids && d !in rest :: oldest <= d
    {
      var e :| e in rest;
      if e < oldest { oldest := e; }
      rest := rest - {e};
    }
  }
}
