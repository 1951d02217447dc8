/**
  A TicketPurchased message from the broker to the ledger: the delivery protocol with the purchase
  transaction as its business work, beside every other transaction on the same tables.
 */
module PurchaseDelivery {
  import opened Options
  import opened Accounts
  import opened Transactions
  import opened History
  import opened Promises
  import opened Registers
  import opened Unlocking
  import opened YearTotals
  import Delivery

  // `effects` counts the transactions carrying the event's key that changed the accounts.
  datatype Joint = Joint(transport: Delivery.System, store: Store, effects: nat)

  // `cal` and `missed` are the readings of the purchase when the step is the end of the work.
  datatype Step =
    | Transport(step: Delivery.Step, cal: Calendar, missed: bool)
    | Elsewhere(op: Op)

  function Begin(queue: string, body: string): Joint {
    Joint(Delivery.Start(queue, body, Delivery.TicketPurchased), Empty, 0)
  }

  // The work is the purchase; it counts as committed only when the purchase did not throw.
  function OpOf(j: Joint, msg: TicketPurchase, step: Step): Op {
    match step
    case Transport(Work(_, committed, _), cal, missed) => if committed then BuyTicket(msg, cal, missed) else Aborted
    case Transport(_, _, _) => Aborted
    case Elsewhere(op) => op
  }

  predicate Possible(j: Joint, msg: TicketPurchase, step: Step) {
    step.Transport? ==>
      Delivery.Enabled(j.transport, step.step) &&
      (step.step.Work? && step.step.committed ==> !PlanOf(j.store, OpOf(j, msg, step)).response.Thrown?)
  }

  ghost function Apply(j: Joint, msg: TicketPurchase, step: Step): Joint {
    if !Possible(j, msg, step) then j
    else
      var op := OpOf(j, msg, step);
      var store := History.Apply(j.store, op);
      Joint(if step.Transport? then Delivery.Apply(j.transport, step.step) else j.transport,
            store,
            if CarriedKey(op) == Some(msg.eventId) && !SameAccounts(j.store, store) then j.effects + 1 else j.effects)
  }

  ghost function RunFrom(j: Joint, msg: TicketPurchase, steps: seq<Step>): Joint {
    if steps == [] then j else Apply(RunFrom(j, msg, steps[..|steps| - 1]), msg, steps[|steps| - 1])
  }

  /* ----- both halves are runs of their own ----- */

  ghost function TransportOf(j: Joint, msg: TicketPurchase, steps: seq<Step>): seq<Delivery.Step> {
    if steps == [] then []
    else
      var before, step := steps[..|steps| - 1], steps[|steps| - 1];
      var earlier := TransportOf(j, msg, before);
      if step.Transport? && Possible(RunFrom(j, msg, before), msg, step) then earlier + [step.step] else earlier
  }

  ghost function OpsOf(j: Joint, msg: TicketPurchase, steps: seq<Step>): seq<Op> {
    if steps == [] then []
    else
      var before, step := steps[..|steps| - 1], steps[|steps| - 1];
      var earlier, now := OpsOf(j, msg, before), RunFrom(j, msg, before);
      if Possible(now, msg, step) then earlier + [OpOf(now, msg, step)] else earlier
  }

  lemma TransportOneMore(queue: string, body: string, steps: seq<Delivery.Step>, step: Delivery.Step)
    ensures Delivery.Run(queue, body, Delivery.TicketPurchased, steps + [step]) ==
      Delivery.Apply(Delivery.Run(queue, body, Delivery.TicketPurchased, steps), step)
  {
    assert (steps + [step])[..|steps|] == steps;
  }

  lemma {:induction false} Halves(queue: string, body: string, msg: TicketPurchase, steps: seq<Step>)
    ensures var j := Begin(queue, body);
      RunFrom(j, msg, steps).transport ==
        Delivery.Run(queue, body, Delivery.TicketPurchased, TransportOf(j, msg, steps)) &&
      RunFrom(j, msg, steps).store == Run(OpsOf(j, msg, steps))
  {
    if steps != [] {
      var before, step := steps[..|steps| - 1], steps[|steps| - 1];
      var j := Begin(queue, body);
      Halves(queue, body, msg, before);
      RunOneMore(Empty, OpsOf(j, msg, before), OpOf(RunFrom(j, msg, before), msg, step));
      if step.Transport? { TransportOneMore(queue, body, TransportOf(j, msg, before), step.step); }
    }
  }

  /* ----- one effect, recorded under the event's key ----- */

  ghost predicate Inv(j: Joint, msg: TicketPurchase) {
    j.effects == (if msg.eventId in j.store.processed then 1 else 0) &&
    (j.transport.commits >= 1 ==> msg.eventId in j.store.processed)
  }

  // A transaction that does not carry the key leaves it alone, and one without effect adds no key.
  lemma KeyOnlyByCarrier(s: Store, op: Op, k: Key)
    requires CarriedKey(op) != Some(k)
    ensures k in History.Apply(s, op).processed <==> k in s.processed
  {
    if !op.NextMonth? && PlanOf(s, op).change.Some? { PlanWrites(s, op); }
  }

  // What the effect counter does is what happens to the key.
  lemma EffectIsKey(s: Store, op: Op, k: Key)
    requires CarriedKey(op) == Some(k)
    ensures !SameAccounts(s, History.Apply(s, op)) <==> k !in s.processed && k in History.Apply(s, op).processed
    ensures k in s.processed ==> k in History.Apply(s, op).processed
  {
    if k in s.processed { TakenKeyHasNoEffect(s, op); }
    else if !SameAccounts(s, History.Apply(s, op)) { EffectTakesKey(s, op); }
  }

  // A purchase that does not throw leaves its key behind.
  lemma PurchaseKey(s: Store, msg: TicketPurchase, cal: Calendar, missed: bool)
    requires !PlanOf(s, BuyTicket(msg, cal, missed)).response.Thrown?
    ensures msg.eventId in History.Apply(s, BuyTicket(msg, cal, missed)).processed
  {
  }

  lemma CommitsByWork(s: Delivery.System, step: Delivery.Step)
    ensures Delivery.Apply(s, step).commits ==
      s.commits + (if Delivery.Enabled(s, step) && step.Work? && step.committed then 1 else 0)
  {
  }

  lemma InvKept(j: Joint, msg: TicketPurchase, step: Step)
    requires Inv(j, msg)
    ensures Inv(Apply(j, msg, step), msg)
  {
    if Possible(j, msg, step) {
      var op := OpOf(j, msg, step);
      if CarriedKey(op) == Some(msg.eventId) { EffectIsKey(j.store, op, msg.eventId); }
      else { KeyOnlyByCarrier(j.store, op, msg.eventId); }
      if step.Transport? {
        CommitsByWork(j.transport, step.step);
        if step.step.Work? && step.step.committed { PurchaseKey(j.store, msg, step.cal, step.missed); }
      }
    }
  }

  lemma {:induction false} InvAlong(j: Joint, msg: TicketPurchase, steps: seq<Step>)
    requires Inv(j, msg)
    ensures Inv(RunFrom(j, msg, steps), msg)
  {
    if steps != [] {
      InvAlong(j, msg, steps[..|steps| - 1]);
      InvKept(RunFrom(j, msg, steps[..|steps| - 1]), msg, steps[|steps| - 1]);
    }
  }

  /* ----- the promises ----- */

  // Over every run, with any workers, duplicates, crashes, replays and other writers: transactions carrying
  // the event's key take effect at most once, and an acknowledged copy means that one has, or that the row
  // is quarantined with its bytes, or that a replay took those up again after the worker had found them safe.
  lemma PurchaseDeliveredOnce(queue: string, body: string, msg: TicketPurchase, steps: seq<Step>, w: Delivery.WorkerId)
    ensures RunFrom(Begin(queue, body), msg, steps).effects <= 1
    ensures var j := RunFrom(Begin(queue, body), msg, steps);
      Delivery.At(j.transport, w, Delivery.Acked) ==>
        j.effects == 1 || Delivery.Quarantined(j.transport, body) ||
        Delivery.ReplayedSince(Begin(queue, body).transport, TransportOf(Begin(queue, body), msg, steps), w)
  {
    InvAlong(Begin(queue, body), msg, steps);
    Halves(queue, body, msg, steps);
    var transport := TransportOf(Begin(queue, body), msg, steps);
    if Delivery.At(RunFrom(Begin(queue, body), msg, steps).transport, w, Delivery.Acked) {
      Delivery.AckedOnlyWhenSafe(queue, body, Delivery.TicketPurchased, transport, w);
    }
  }

  /* ----- when nothing else uses the event's key ----- */

  // Only this message's purchases carry the key.
  predicate Private(msg: TicketPurchase, step: Step) {
    step.Elsewhere? ==> CarriedKey(step.op) != Some(msg.eventId)
  }

  // The purchases of the event that counted as a visit.
  function Visits(ops: seq<Op>, k: Key): nat {
    if |ops| == 0 then 0
    else
      var before, op := ops[..|ops| - 1], ops[|ops| - 1];
      Visits(before, k) + (if op.BuyTicket? && op.msg.eventId == k && Buys(Run(before), op, op.msg.user) then 1 else 0)
  }

  lemma VisitsOneMore(ops: seq<Op>, op: Op, k: Key)
    ensures Visits(ops + [op], k) ==
      Visits(ops, k) + (if op.BuyTicket? && op.msg.eventId == k && Buys(Run(ops), op, op.msg.user) then 1 else 0)
  {
    assert (ops + [op])[..|ops|] == ops;
  }

  lemma StepKey(j: Joint, msg: TicketPurchase, step: Step)
    requires Private(msg, step)
    ensures var op := OpOf(j, msg, step);
      if op.BuyTicket? && op.msg.eventId == msg.eventId then
        msg.eventId in j.store.processed ==> msg.eventId in History.Apply(j.store, op).processed
      else msg.eventId in History.Apply(j.store, op).processed <==> msg.eventId in j.store.processed
  {
    var op := OpOf(j, msg, step);
    if op.BuyTicket? && op.msg.eventId == msg.eventId { EffectIsKey(j.store, op, msg.eventId); }
    else { KeyOnlyByCarrier(j.store, op, msg.eventId); }
  }

  // Then the key is there exactly if one visit was counted.
  lemma {:induction false} VisitsAreKey(queue: string, body: string, msg: TicketPurchase, steps: seq<Step>)
    requires forall i | 0 <= i < |steps| :: Private(msg, steps[i])
    ensures var j := Begin(queue, body);
      Visits(OpsOf(j, msg, steps), msg.eventId) ==
        (if msg.eventId in RunFrom(j, msg, steps).store.processed then 1 else 0)
  {
    if steps != [] {
      var before, step := steps[..|steps| - 1], steps[|steps| - 1];
      var j := Begin(queue, body);
      VisitsAreKey(queue, body, msg, before);
      Halves(queue, body, msg, before);
      StepKey(RunFrom(j, msg, before), msg, step);
      VisitsOneMore(OpsOf(j, msg, before), OpOf(RunFrom(j, msg, before), msg, step), msg.eventId);
    }
  }

  // A purchase that committed at least once has counted exactly one visit, one that never did has counted
  // none, and at most one ledger row was ever written for it.
  lemma OneVisitOneRow(queue: string, body: string, msg: TicketPurchase, steps: seq<Step>)
    requires forall i | 0 <= i < |steps| :: Private(msg, steps[i])
    ensures var j := RunFrom(Begin(queue, body), msg, steps);
      Visits(OpsOf(Begin(queue, body), msg, steps), msg.eventId) == (if j.transport.commits >= 1 then 1 else 0) &&
      forall p, q | 0 <= p < |j.store.ledger| && 0 <= q < |j.store.ledger| &&
        j.store.ledger[p].cause == Purchase(msg.eventId) && j.store.ledger[q].cause == Purchase(msg.eventId) :: p == q
  {
    VisitsAreKey(queue, body, msg, steps);
    KeyNeedsCommit(queue, body, msg, steps);
    InvAlong(Begin(queue, body), msg, steps);
    Halves(queue, body, msg, steps);
    OneRowPerCause(OpsOf(Begin(queue, body), msg, steps), msg.eventId);
  }

  lemma {:induction false} KeyNeedsCommit(queue: string, body: string, msg: TicketPurchase, steps: seq<Step>)
    requires forall i | 0 <= i < |steps| :: Private(msg, steps[i])
    ensures var j := RunFrom(Begin(queue, body), msg, steps);
      msg.eventId in j.store.processed ==> j.transport.commits >= 1
  {
    if steps != [] {
      var before, step := steps[..|steps| - 1], steps[|steps| - 1];
      var j := RunFrom(Begin(queue, body), msg, before);
      KeyNeedsCommit(queue, body, msg, before);
      StepKey(j, msg, step);
      if step.Transport? { CommitsByWork(j.transport, step.step); }
    }
  }

  lemma OneRowPerCause(ops: seq<Op>, k: Key)
    ensures var ledger := Run(ops).ledger;
      forall p, q | 0 <= p < |ledger| && 0 <= q < |ledger| && ledger[p].cause == Purchase(k) &&
        ledger[q].cause == Purchase(k) :: p == q
  {
    Reachable(ops);
    var s := Run(ops);
    forall p, q | 0 <= p < q < |s.ledger| && s.ledger[p].cause == Purchase(k) ensures s.ledger[q].cause != Purchase(k) {
      assert KeyOf(s.ledger[p].cause).Some?;
    }
  }
}
