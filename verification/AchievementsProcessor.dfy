/**
  AchievementsProcessor: what an event means for an achievement, and the transaction that applies it.
 */
module Achievements {
  import opened Options
  import opened Accounts
  import opened Transactions
  import opened History
  import opened Unlocking
  import opened Database

  datatype Operator = GTE | SUM

  datatype Criteria = Criteria(operator: Operator, target: int, valueField: Option<string>)

  // The numbers of an event's metadata; a missing field reads as zero.
  datatype ActionEvent = ActionEvent(eventId: Key, user: UserId, metadata: map<string, real>)

  // `criteria` is None when the stored criteria do not parse.
  datatype Definition = Definition(id: Uuid, criteria: Option<Criteria>, rewardPoints: int)

  const DEFAULT_SUM_VALUE_FIELD := "amount"

  function Round(value: real): int {
    (value + 0.5).Floor
  }

  // The value of an event for a summing achievement: the named field, or "amount"; zero when it is missing.
  predicate Measures(criteria: Criteria, event: ActionEvent, value: real) {
    var name := match criteria.valueField case Some(field) => field case None => "amount";
    (name in event.metadata ==> value == event.metadata[name]) && (name !in event.metadata ==> value == 0.0)
  }

  // n is the nearest integer, and the larger one half way between two.
  predicate Nearest(value: real, n: int) {
    n as real - 0.5 <= value < n as real + 0.5
  }

  // The step an event makes towards an achievement: one, whatever its metadata, for a counting achievement, and
  // for a summing one the nearest integer to its value, or None when that is not positive.
  function ProgressIncrement(criteria: Criteria, event: ActionEvent): (r: Option<int>)
    ensures criteria.operator != SUM ==> r == Some(1)
    ensures criteria.operator == SUM ==>
      exists value :: Measures(criteria, event, value) && (r.None? <==> value <= 0.0) &&
        (r.Some? ==> r.value >= 0 && Nearest(value, r.value))
  {
    if criteria.operator != SUM then Some(1)
    else
      var valueField := if criteria.valueField.Some? then criteria.valueField.value else DEFAULT_SUM_VALUE_FIELD;
      var value := if valueField in event.metadata then event.metadata[valueField] else 0.0;
      assert Measures(criteria, event, value);
      if value <= 0.0 then None else Some(Round(value))
  }

  // What a job runs for one achievement; unparsable criteria and events that make no step are skipped.
  function JobOp(d: Definition, event: ActionEvent): Op {
    if d.criteria.None? then Aborted
    else
      var increment := ProgressIncrement(d.criteria.value, event);
      if increment.None? then Aborted
      else Achieve(event.user, event.eventId, Achievement(d.id, d.criteria.value.target, d.rewardPoints),
        increment.value)
  }

  // The account after the step, with the reward when it unlocks.
  function AccountAfter(p: Profile, a: Achievement, current: int): Profile {
    if current < a.target || a.rewardPoints <= 0 then p
    else p.(balance := p.balance + a.rewardPoints, lifetimePoints := p.lifetimePoints + a.rewardPoints)
  }

  function RewardEntry(u: UserId, p: Profile, a: Achievement): Entry {
    Entry(u, EARN_ACHIEVEMENT, a.rewardPoints, p.balance + a.rewardPoints, None, Unlock(a.id))
  }

  predicate StepFits(u: UserId, p: Profile, a: Achievement, current: int) {
    ProgressFits(Progress(current, a.target, false)) && ProfileFits(AccountAfter(p, a, current)) &&
    (current >= a.target && a.rewardPoints > 0 ==> EntryFits(RewardEntry(u, p, a)))
  }

  lemma CommitsProgress(s: Store, s': Store, u: UserId, a: Achievement, eventId: Key, current: int)
    requires s' == s.(profiles := s'.profiles, ledger := s'.ledger, processed := s'.processed, progress := s'.progress)
    requires s'.profiles == s.profiles[u := AccountAfter(ProfileOf(s, u), a, current)]
    requires s'.ledger == s.ledger +
      (if current >= a.target && a.rewardPoints > 0 then [RewardEntry(u, ProfileOf(s, u), a)] else [])
    requires s'.processed == s.processed[AchievementKey(eventId, a.id) := EventKey]
    requires s'.progress == s.progress[(u, a.id) := Progress(current, a.target, current >= a.target)]
    ensures s' == Commit(s, UnlockChange(u, ProfileOf(s, u), a, eventId, current))
  {
  }

  class AchievementsProcessor {
    const db: LoyaltyDatabase

    constructor (db: LoyaltyDatabase)
      ensures this.db == db
    {
      this.db := db;
    }

    // Key, progress, unlock, reward and ledger row.
    method Advance(u: UserId, eventId: Key, a: Achievement, incrementBy: int) returns (response: Response)
      requires ProfileFits(ProfileOf(db.Contents(), u))
      modifies db
      ensures var plan := Transactions.ProcessAchievement(old(db.Contents()), u, eventId, a, incrementBy);
        db.Contents() == Execute(old(db.Contents()), plan) && response == plan.response
    {
      var begun := db.Contents();
      var uniqueProcessId := AchievementKey(eventId, a.id);
      var _ := db.LockLoyaltyProfile(u, true);
      if uniqueProcessId in db.processed {
        if db.processed[uniqueProcessId].CommandKey? {
          db.Restore(begun);
          return Thrown(KeyTaken);
        }
        return Done;
      }
      db.processed := db.processed[uniqueProcessId := EventKey];
      if (u, a.id) in db.progress && db.progress[(u, a.id)].unlocked { return Done; }
      var current := if (u, a.id) in db.progress then db.progress[(u, a.id)].current + incrementBy else incrementBy;
      response := Progressed(u, eventId, a, current, begun);
    }

    method Progressed(u: UserId, eventId: Key, a: Achievement, current: int, begun: Store) returns (response: Response)
      requires ProfileFits(ProfileOf(begun, u))
      requires var key := AchievementKey(eventId, a.id);
        key !in begun.processed && u in db.profiles && db.profiles[u] == ProfileOf(begun, u) &&
        db.Contents() == begun.(profiles := begun.profiles[u := ProfileOf(begun, u)],
          processed := begun.processed[key := EventKey])
      modifies db
      ensures var plan := Write(Done, UnlockChange(u, ProfileOf(begun, u), a, eventId, current));
        db.Contents() == Execute(begun, plan) && response == plan.response
    {
      var ok := SaveStep(u, a, current);
      if !ok {
        db.Restore(begun);
        return Thrown(OutOfRange);
      }
      CommitsProgress(begun, db.Contents(), u, a, eventId, current);
      response := Done;
    }

    method SaveStep(u: UserId, a: Achievement, current: int) returns (ok: bool)
      requires u in db.profiles && ProfileFits(db.profiles[u])
      modifies db`profiles, db`ledger, db`progress
      ensures
        var p := old(db.profiles)[u];
        var rewarded := current >= a.target && a.rewardPoints > 0;
        (ok <==> StepFits(u, p, a, current)) &&
        (ok ==> db.profiles == old(db.profiles)[u := AccountAfter(p, a, current)]) &&
        (ok ==> db.ledger == old(db.ledger) + (if rewarded then [RewardEntry(u, p, a)] else [])) &&
        (ok ==> db.progress == old(db.progress)[(u, a.id) := Progress(current, a.target, current >= a.target)])
    {
      var row := Progress(current, a.target, false);
      ok := ProgressFits(row);
      db.progress := db.progress[(u, a.id) := row];
      assert db.profiles == db.profiles[u := db.profiles[u]];
      if row.current >= row.target {
        db.progress := db.progress[(u, a.id) := row.(unlocked := true)];
        if a.rewardPoints > 0 {
          var rewarded := Reward(u, a);
          ok := ok && rewarded;
        }
      }
      assert db.progress == old(db.progress)[(u, a.id) := Progress(current, a.target, current >= a.target)];
    }

    method Reward(u: UserId, a: Achievement) returns (ok: bool)
      requires u in db.profiles
      modifies db`profiles, db`ledger
      ensures
        var p := old(db.profiles)[u];
        var updated := p.(balance := p.balance + a.rewardPoints, lifetimePoints := p.lifetimePoints + a.rewardPoints);
        (ok <==> ProfileFits(updated) && EntryFits(RewardEntry(u, p, a))) &&
        (ok ==> db.profiles == old(db.profiles)[u := updated] && db.ledger == old(db.ledger) + [RewardEntry(u, p, a)])
    {
      var p := db.profiles[u];
      var updated := p.(balance := p.balance + a.rewardPoints, lifetimePoints := p.lifetimePoints + a.rewardPoints);
      ok := db.Post(u, updated, Entry(u, EARN_ACHIEVEMENT, a.rewardPoints, updated.balance, None, Unlock(a.id)));
    }
  }
}
