/**
  What it takes to unlock an achievement, in terms of the events themselves: how many there were, or what their
  values add up to.
 */
module AchievementGoals {
  import opened Options
  import opened Accounts
  import opened Transactions
  import opened History
  import opened Unlocking
  import opened Achievements

  // The increments of the course are what these events are worth under the criteria.
  ghost predicate OwnIncrements(c: Course, criteria: Criteria, events: map<Key, ActionEvent>) {
    forall e | e in c.increments :: e in events && ProgressIncrement(criteria, events[e]) == Some(c.increments[e])
  }

  lemma {:induction false} SumOfOnes(increments: map<Key, nat>, events: set<Key>)
    requires events <= increments.Keys && forall e | e in increments :: increments[e] == 1
    ensures Sum(increments, events) == |events|
  {
    if events != {} {
      var e :| e in events;
      SumOfOnes(increments, events - {e});
      SumWith(increments, events - {e}, e);
      assert events - {e} + {e} == events;
    }
  }

  // A counting achievement is unlocked exactly when as many distinct events were delivered as it asks for,
  // whatever their metadata.
  lemma CountingUnlocks(c: Course, criteria: Criteria, events: map<Key, ActionEvent>, ops: seq<Op>)
    requires criteria.operator != SUM && OwnIncrements(c, criteria, events)
    requires FairRun(c, ops) && c.achievement.target >= 1
    ensures Unlocked(c, Run(ops)) <==> |Delivered(c, ops)| >= c.achievement.target
  {
    SumOfOnes(c.increments, Delivered(c, ops));
    UnlockedBySum(c, ops);
  }

  // The values of the events, each rounded to the nearest integer.
  ghost predicate Rounded(criteria: Criteria, events: map<Key, ActionEvent>, points: map<Key, nat>) {
    forall e | e in points :: e in events && RoundedValue(criteria, events[e], points[e])
  }

  ghost predicate RoundedValue(criteria: Criteria, event: ActionEvent, n: int) {
    exists value :: Measures(criteria, event, value) && value > 0.0 && Nearest(value, n)
  }

  lemma OneNearest(criteria: Criteria, event: ActionEvent, m: int, n: int)
    requires RoundedValue(criteria, event, m) && RoundedValue(criteria, event, n)
    ensures m == n
  {
    var v: real :| Measures(criteria, event, v) && v > 0.0 && Nearest(v, m);
    var w: real :| Measures(criteria, event, w) && w > 0.0 && Nearest(w, n);
    assert v == w;
  }

  lemma StepIsRounded(criteria: Criteria, event: ActionEvent, n: int)
    requires criteria.operator == SUM && ProgressIncrement(criteria, event) == Some(n)
    ensures RoundedValue(criteria, event, n)
  {
    var value :| Measures(criteria, event, value) && value > 0.0 && Nearest(value, n);
  }

  // A summing achievement is unlocked exactly when the rounded values of the distinct delivered events add up to
  // its target.
  lemma SummingUnlocks(c: Course, criteria: Criteria, events: map<Key, ActionEvent>, points: map<Key, nat>,
          ops: seq<Op>)
    requires criteria.operator == SUM && OwnIncrements(c, criteria, events)
    requires Rounded(criteria, events, points) && points.Keys == c.increments.Keys
    requires FairRun(c, ops) && c.achievement.target >= 1
    ensures Unlocked(c, Run(ops)) <==> Sum(points, Delivered(c, ops)) >= c.achievement.target
  {
    forall e | e in points ensures points[e] == c.increments[e] {
      StepIsRounded(criteria, events[e], c.increments[e]);
      OneNearest(criteria, events[e], points[e], c.increments[e]);
    }
    assert points == c.increments;
    UnlockedBySum(c, ops);
  }
}
