/**
  What a whole run does to one achievement of one user, whatever the order, the duplicates and the failures
  of the deliveries.
 */
module Unlocking {
  import opened Options
  import opened Accounts
  import opened Transactions
  import opened Bookkeeping
  import opened Registers
  import opened History
  import opened Promises
  import opened Locking

  /* ----- adding up increments ----- */

  ghost function Sum(increments: map<Key, nat>, events: set<Key>): nat
    requires events <= increments.Keys
  {
    if events == {} then 0
    else
      var e :| e in events;
      increments[e] + Sum(increments, events - {e})
  }

  lemma {:induction false} SumWith(increments: map<Key, nat>, events: set<Key>, e: Key)
    requires events <= increments.Keys && e in increments && e !in events
    ensures Sum(increments, events + {e}) == Sum(increments, events) + increments[e]
  {
    var all := events + {e};
    var f :| f in all && Sum(increments, all) == increments[f] + Sum(increments, all - {f});
    if f == e {
      assert all - {f} == events;
    } else {
      assert all - {f} == (events - {f}) + {e};
      SumWith(increments, events - {f}, e);
      assert (events - {f}) + {f} == events;
      SumWith(increments, events - {f}, f);
    }
  }

  /* ----- keys ----- */

  // Event id and achievement id can be read back from the key, since achievement ids have one length.
  lemma KeyNamesBoth(e: Key, a: Uuid, f: Key, b: Uuid)
    ensures AchievementKey(e, a) == AchievementKey(f, b) <==> e == f && a == b
  {
    var k, l := AchievementKey(e, a), AchievementKey(f, b);
    assert k[..|k| - 37] == e && k[|k| - 36..] == a;
    assert l[..|l| - 37] == f && l[|l| - 36..] == b;
  }

  /* ----- fair runs ----- */

  // The events of a user with the step each makes towards the achievement.
  datatype Course = Course(user: UserId, achievement: Achievement, increments: map<Key, nat>)

  // Deliveries carry the fixed target, reward and increments, an event belongs to one user, and point
  // commands and purchases do not borrow the events' keys.
  ghost predicate Fair(c: Course, op: Op) {
    if op.Achieve? then
      op.achievement.id == c.achievement.id ==>
        (op.user == c.user <==> op.eventId in c.increments) && (op.user == c.user ==> Ours(c, op))
    else forall e | e in c.increments :: CarriedKey(op) != Some(AchievementKey(e, c.achievement.id))
  }

  predicate Ours(c: Course, op: Op) {
    op.Achieve? && op.user == c.user && op.achievement == c.achievement && op.eventId in c.increments &&
    op.incrementBy == c.increments[op.eventId]
  }

  ghost predicate FairRun(c: Course, ops: seq<Op>) {
    forall i | 0 <= i < |ops| :: Fair(c, ops[i])
  }

  // The distinct events delivered without an exception.
  function Delivered(c: Course, ops: seq<Op>): (events: set<Key>)
    ensures events <= c.increments.Keys
  {
    if |ops| == 0 then {}
    else
      var before, op := ops[..|ops| - 1], ops[|ops| - 1];
      if Ours(c, op) && !PlanOf(Run(before), op).response.Thrown? then Delivered(c, before) + {op.eventId}
        else Delivered(c, before)
  }

  /* ----- the invariant ----- */

  predicate KeysMatch(c: Course, s: Store, delivered: set<Key>) {
    forall e | e in c.increments :: AchievementKey(e, c.achievement.id) in s.processed <==> e in delivered
  }

  ghost predicate RowMatches(c: Course, s: Store, delivered: set<Key>)
    requires delivered <= c.increments.Keys
  {
    var key := (c.user, c.achievement.id);
    if key !in s.progress then delivered == {}
    else
      var row := s.progress[key];
      row.target == c.achievement.target &&
      if row.unlocked then row.target <= row.current <= Sum(c.increments, delivered)
      else row.current == Sum(c.increments, delivered) < row.target
  }

  predicate Unlocked(c: Course, s: Store) {
    (c.user, c.achievement.id) in s.progress && s.progress[(c.user, c.achievement.id)].unlocked
  }

  function CurrentOf(c: Course, s: Store): int {
    if (c.user, c.achievement.id) in s.progress then s.progress[(c.user, c.achievement.id)].current else 0
  }

  predicate IsRewardOf(c: Course, e: Entry) {
    IsReward(e, c.user, c.achievement.id)
  }

  ghost predicate RewardMatches(c: Course, s: Store) {
    (forall i | 0 <= i < |s.ledger| && IsRewardOf(c, s.ledger[i]) ::
      s.ledger[i].points == c.achievement.rewardPoints > 0) &&
    (Unlocked(c, s) && c.achievement.rewardPoints > 0 ==> exists i | 0 <= i < |s.ledger| :: IsRewardOf(c, s.ledger[i]))
  }

  ghost predicate OnCourse(c: Course, s: Store, delivered: set<Key>)
    requires delivered <= c.increments.Keys
  {
    KeysMatch(c, s, delivered) && RowMatches(c, s, delivered) && RewardMatches(c, s)
  }

  /* ----- steps that are not deliveries of ours ----- */

  // What a plan writes of keys, progress and rewards is what its transaction is about.
  predicate WritesOwn(op: Op, change: Change) {
    (change.key.Some? ==> CarriedKey(op) == Some(change.key.value.0)) &&
    (change.progress.Some? ==> op.Achieve? && change.progress.value.0 == op.achievement.id) &&
    (change.entry.Some? && change.entry.value.cause.Unlock? ==>
      op.Achieve? && change.entry.value.cause.achievement == op.achievement.id)
  }

  lemma KeyedWrites(s: Store, op: Op)
    requires CarriedKey(op).Some? && PlanOf(s, op).change.Some?
    ensures WritesOwn(op, PlanOf(s, op).change.value)
  {
  }

  lemma UnkeyedWrites(s: Store, op: Op)
    requires CarriedKey(op).None? && PlanOf(s, op).change.Some?
    ensures WritesOwn(op, PlanOf(s, op).change.value)
  {
  }

  lemma PlanWrites(s: Store, op: Op)
    requires PlanOf(s, op).change.Some?
    ensures WritesOwn(op, PlanOf(s, op).change.value)
  {
    if CarriedKey(op).Some? { KeyedWrites(s, op); } else { UnkeyedWrites(s, op); }
  }

  // The same keys, row and rewards.
  ghost predicate SameCourse(c: Course, s: Store, s': Store) {
    var key := (c.user, c.achievement.id);
    (forall e | e in c.increments ::
      AchievementKey(e, c.achievement.id) in s.processed <==> AchievementKey(e, c.achievement.id) in s'.processed) &&
    (key in s.progress <==> key in s'.progress) && (key in s.progress ==> s.progress[key] == s'.progress[key]) &&
    s.ledger <= s'.ledger && (forall i | |s.ledger| <= i < |s'.ledger| :: !IsRewardOf(c, s'.ledger[i]))
  }

  lemma CourseKept(c: Course, s: Store, s': Store, delivered: set<Key>)
    requires delivered <= c.increments.Keys && OnCourse(c, s, delivered) && SameCourse(c, s, s')
    ensures OnCourse(c, s', delivered)
  {
    forall i | 0 <= i < |s.ledger| ensures s'.ledger[i] == s.ledger[i] {}
    if Unlocked(c, s) && c.achievement.rewardPoints > 0 {
      var i :| 0 <= i < |s.ledger| && IsRewardOf(c, s.ledger[i]);
      assert IsRewardOf(c, s'.ledger[i]);
    }
  }

  lemma ElsewhereKeeps(c: Course, s: Store, change: Change)
    requires change.key.Some? ==>
      forall e | e in c.increments :: change.key.value.0 != AchievementKey(e, c.achievement.id)
    requires change.progress.Some? ==> (change.user, change.progress.value.0) != (c.user, c.achievement.id)
    requires change.entry.Some? ==> !IsRewardOf(c, change.entry.value)
    ensures SameCourse(c, s, Commit(s, change))
  {
  }

  lemma OtherStep(c: Course, s: Store, op: Op)
    requires Attained(s) && Fair(c, op) && !Ours(c, op)
    ensures SameCourse(c, s, Apply(s, op))
  {
    if !op.NextMonth? && PlanOf(s, op).change.Some? {
      PlanWrites(s, op);
      PlanPosted(s, op);
      OtherKey(c, op);
      ElsewhereKeeps(c, s, PlanOf(s, op).change.value);
    }
  }

  lemma OtherKey(c: Course, op: Op)
    requires Fair(c, op) && !Ours(c, op)
    ensures forall e | e in c.increments :: CarriedKey(op) != Some(AchievementKey(e, c.achievement.id))
    ensures op.Achieve? ==> op.user != c.user || op.achievement.id != c.achievement.id
  {
    if op.Achieve? {
      forall e | e in c.increments { KeyNamesBoth(op.eventId, op.achievement.id, e, c.achievement.id); }
    }
  }

  /* ----- our deliveries ----- */

  lemma OwnKey(c: Course, s: Store, s': Store, delivered: set<Key>, e: Key)
    requires KeysMatch(c, s, delivered) && e in c.increments
    requires s'.processed.Keys == s.processed.Keys + {AchievementKey(e, c.achievement.id)}
    ensures KeysMatch(c, s', delivered + {e})
  {
    forall f | f in c.increments { KeyNamesBoth(f, c.achievement.id, e, c.achievement.id); }
  }

  // The row and the ledger after a step from a locked row.
  lemma StepTaken(c: Course, s: Store, delivered: set<Key>, e: Key, before: int)
    requires delivered <= c.increments.Keys && RowMatches(c, s, delivered) && RewardMatches(c, s)
    requires c.achievement.target >= 1
    requires e in c.increments && e !in delivered && !Unlocked(c, s)
    requires before == CurrentOf(c, s)
    ensures
      var s' := Commit(s, UnlockChange(c.user, ProfileOf(s, c.user), c.achievement, e, before + c.increments[e]));
      RowMatches(c, s', delivered + {e}) && RewardMatches(c, s')
  {
    SumWith(c.increments, delivered, e);
    RewardTaken(c, s, e, before + c.increments[e]);
  }

  lemma RewardTaken(c: Course, s: Store, e: Key, current: int)
    requires RewardMatches(c, s) && !Unlocked(c, s)
    ensures RewardMatches(c, Commit(s, UnlockChange(c.user, ProfileOf(s, c.user), c.achievement, e, current)))
  {
    var change := UnlockChange(c.user, ProfileOf(s, c.user), c.achievement, e, current);
    var s' := Commit(s, change);
    if change.entry.Some? { assert IsRewardOf(c, s'.ledger[|s.ledger|]); }
  }

  lemma OwnStep(c: Course, s: Store, op: Op, delivered: set<Key>)
    requires Ours(c, op) && c.achievement.target >= 1 && delivered <= c.increments.Keys && OnCourse(c, s, delivered)
    requires !PlanOf(s, op).response.Thrown?
    ensures OnCourse(c, Apply(s, op), delivered + {op.eventId})
  {
    if op.eventId in delivered {
      assert delivered + {op.eventId} == delivered;
      Repeated(c, s, op, delivered);
    } else if Unlocked(c, s) {
      AfterUnlock(c, s, op, delivered);
    } else {
      var before := CurrentOf(c, s);
      Advanced(c, s, op, before);
      StepTaken(c, s, delivered, op.eventId, before);
      OwnKey(c, s, Apply(s, op), delivered, op.eventId);
    }
  }

  lemma Repeated(c: Course, s: Store, op: Op, delivered: set<Key>)
    requires Ours(c, op) && delivered <= c.increments.Keys && OnCourse(c, s, delivered) && op.eventId in delivered
    ensures OnCourse(c, Apply(s, op), delivered)
  {
    CourseKept(c, s, Apply(s, op), delivered);
  }

  lemma AfterUnlock(c: Course, s: Store, op: Op, delivered: set<Key>)
    requires Ours(c, op) && delivered <= c.increments.Keys && OnCourse(c, s, delivered) && op.eventId !in delivered
    requires Unlocked(c, s)
    ensures OnCourse(c, Apply(s, op), delivered + {op.eventId})
  {
    OwnKey(c, s, Apply(s, op), delivered, op.eventId);
    SumWith(c.increments, delivered, op.eventId);
  }

  lemma Advanced(c: Course, s: Store, op: Op, before: int)
    requires Ours(c, op) && AchievementKey(op.eventId, c.achievement.id) !in s.processed && !Unlocked(c, s)
    requires before == CurrentOf(c, s)
    requires !PlanOf(s, op).response.Thrown?
    ensures Apply(s, op) == Commit(s,
      UnlockChange(c.user, ProfileOf(s, c.user), c.achievement, op.eventId, before + c.increments[op.eventId]))
  {
  }

  lemma OwnThrows(c: Course, s: Store, op: Op)
    requires PlanOf(s, op).response.Thrown? && Ours(c, op)
    ensures Apply(s, op) == s
  {
  }

  lemma {:induction false} OnCourseAlong(c: Course, ops: seq<Op>)
    requires FairRun(c, ops) && c.achievement.target >= 1
    ensures OnCourse(c, Run(ops), Delivered(c, ops))
  {
    if ops != [] {
      var before, op := ops[..|ops| - 1], ops[|ops| - 1];
      OnCourseAlong(c, before);
      if !Ours(c, op) {
        AttainedRun(before);
        OtherStep(c, Run(before), op);
        CourseKept(c, Run(before), Run(ops), Delivered(c, before));
      } else if PlanOf(Run(before), op).response.Thrown? {
        OwnThrows(c, Run(before), op);
      } else {
        OwnStep(c, Run(before), op, Delivered(c, before));
      }
    }
  }

  /* ----- the promises ----- */

  // The achievement is unlocked exactly when the increments of the distinct delivered events reach the target.
  lemma UnlockedBySum(c: Course, ops: seq<Op>)
    requires FairRun(c, ops) && c.achievement.target >= 1
    ensures Unlocked(c, Run(ops)) <==> Sum(c.increments, Delivered(c, ops)) >= c.achievement.target
  {
    OnCourseAlong(c, ops);
  }

  // So neither the order nor the number of the deliveries matters, nor what else happened.
  lemma OrderIrrelevant(c: Course, ops: seq<Op>, others: seq<Op>)
    requires FairRun(c, ops) && FairRun(c, others) && c.achievement.target >= 1
    requires Delivered(c, ops) == Delivered(c, others)
    ensures Unlocked(c, Run(ops)) <==> Unlocked(c, Run(others))
  {
    UnlockedBySum(c, ops);
    UnlockedBySum(c, others);
  }

  // The reward is credited exactly once if the achievement is unlocked and has one, and otherwise never.
  lemma RewardedOnce(c: Course, ops: seq<Op>)
    requires FairRun(c, ops) && c.achievement.target >= 1
    ensures
      var ledger := Run(ops).ledger;
      (Unlocked(c, Run(ops)) && c.achievement.rewardPoints > 0 <==>
        exists i | 0 <= i < |ledger| :: IsRewardOf(c, ledger[i])) &&
      (forall i, j | 0 <= i < |ledger| && 0 <= j < |ledger| && IsRewardOf(c, ledger[i]) &&
        IsRewardOf(c, ledger[j]) :: i == j) &&
      (forall i | 0 <= i < |ledger| && IsRewardOf(c, ledger[i]) :: ledger[i].points == c.achievement.rewardPoints)
  {
    OnCourseAlong(c, ops);
    Reachable(ops);
    var s := Run(ops);
    forall i | 0 <= i < |s.ledger| && IsRewardOf(c, s.ledger[i]) ensures Unlocked(c, s) { assert Rewarded(s, i); }
  }

  // Even when administrators edit targets between deliveries, a row is unlocked exactly at its target.
  lemma UnlockedAtTarget(ops: seq<Op>, u: UserId, a: Uuid)
    requires (u, a) in Run(ops).progress
    ensures var row := Run(ops).progress[(u, a)]; row.unlocked <==> row.current >= row.target
  {
    Reachable(ops);
  }
}
