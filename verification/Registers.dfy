/**
  The registers kept beside the books: idempotency keys, tier upgrades, Gold reservations, birthday grants
  and achievement progress. Each has the condition a Change must meet and the invariant it then keeps.
 */
module Registers {
  import opened Options
  import opened Accounts
  import opened Transactions

  /* ----- integer columns ----- */

  // Every stored number fits its column.
  ghost predicate Columns(s: Store) {
    (forall u :: ProfileFits(ProfileOf(s, u))) && (forall i | 0 <= i < |s.ledger| :: EntryFits(s.ledger[i])) &&
    (forall key | key in s.progress :: ProgressFits(s.progress[key]))
  }

  lemma ColumnsKept(s: Store, c: Change)
    requires Columns(s) && Fits(c)
    ensures Columns(Commit(s, c))
  {
    forall u ensures ProfileFits(ProfileOf(Commit(s, c), u)) { assert ProfileFits(ProfileOf(s, u)); }
  }

  /* ----- idempotency keys ----- */

  function KeyOf(cause: Cause): Option<Key> {
    if cause.Command? || cause.Purchase? then Some(cause.key) else None
  }

  // The stored result of a command is the row it wrote.
  predicate Describes(p: Processed, e: Entry) {
    p.CommandKey? && p.user == e.user && e.order == Some(p.order) && p.balanceAfter == e.balanceAfter && p.amount > 0 &&
    match p.operation
    case DEDUCT => e.kind == BURN_DISCOUNT && e.points == -p.amount
    case REFUNDING => e.kind == REFUND && e.points == p.amount
  }

  predicate Justified(p: Processed, e: Entry) {
    (e.cause.Command? ==> Describes(p, e)) && (e.cause.Purchase? ==> p.EventKey?)
  }

  // A new key is unused; a keyed row brings its key along, and a command's key brings its row.
  predicate Keyed(s: Store, c: Change) {
    (c.key.Some? ==> c.key.value.0 !in s.processed) &&
    (c.entry.Some? && KeyOf(c.entry.value.cause).Some? ==>
      c.key.Some? && c.key.value.0 == KeyOf(c.entry.value.cause).value && Justified(c.key.value.1, c.entry.value)) &&
    (c.key.Some? && c.key.value.1.CommandKey? ==>
      c.entry.Some? && c.entry.value.cause == Command(c.key.value.0))
  }

  ghost predicate Keys(s: Store) {
    (forall i | 0 <= i < |s.ledger| && KeyOf(s.ledger[i].cause).Some? :: KeyRecorded(s, i)) &&
    (forall i, j | 0 <= i < j < |s.ledger| && KeyOf(s.ledger[i].cause).Some? ::
      KeyOf(s.ledger[i].cause) != KeyOf(s.ledger[j].cause)) &&
    (forall k | k in s.processed && s.processed[k].CommandKey? :: HasRow(s, k))
  }

  predicate KeyRecorded(s: Store, i: nat)
    requires i < |s.ledger| && KeyOf(s.ledger[i].cause).Some?
  {
    var k := KeyOf(s.ledger[i].cause).value;
    k in s.processed && Justified(s.processed[k], s.ledger[i])
  }

  ghost predicate HasRow(s: Store, k: Key) {
    exists i | 0 <= i < |s.ledger| :: s.ledger[i].cause == Command(k)
  }

  lemma KeysKept(s: Store, c: Change)
    requires Keys(s) && Keyed(s, c)
    ensures Keys(Commit(s, c))
  {
    var s' := Commit(s, c);
    forall i | 0 <= i < |s'.ledger| && KeyOf(s'.ledger[i].cause).Some? ensures KeyRecorded(s', i) {
      if i < |s.ledger| { assert KeyRecorded(s, i); }
    }
    forall i, j | 0 <= i < j < |s'.ledger| && KeyOf(s'.ledger[i].cause).Some?
      ensures KeyOf(s'.ledger[i].cause) != KeyOf(s'.ledger[j].cause)
    {
      assert KeyRecorded(s, i);
    }
    forall k | k in s'.processed && s'.processed[k].CommandKey? ensures HasRow(s', k) {
      CommandRow(s, c, k);
    }
  }

  lemma CommandRow(s: Store, c: Change, k: Key)
    requires Keys(s) && Keyed(s, c) && k in ProcessedAfter(s, c) && ProcessedAfter(s, c)[k].CommandKey?
    ensures HasRow(Commit(s, c), k)
  {
    var s' := Commit(s, c);
    if k in s.processed {
      assert HasRow(s, k);
      var i :| 0 <= i < |s.ledger| && s.ledger[i].cause == Command(k);
      assert s'.ledger[i].cause == Command(k);
    } else {
      assert s'.ledger[|s.ledger|].cause == Command(k);
    }
  }

  /* ----- tiers ----- */

  // The tier rises or stays, covers the year's visits and points, and every rise is announced.
  predicate Tiered(s: Store, c: Change) {
    var p := ProfileOf(s, c.user);
    Rank(p.tier) <= Rank(c.profile.tier) &&
      Rank(CalculateTier(c.profile.yearVisits, c.profile.yearPoints)) <= Rank(c.profile.tier) &&
    c.upgrade == UpgradeEvent(c.user, p.tier, c.profile.tier)
  }

  // The tier the announcements for a user lead to.
  function AnnouncedTier(outbox: seq<TierUpgraded>, u: UserId): Tier {
    if outbox == [] then BRONZE
    else if outbox[|outbox| - 1].user == u then outbox[|outbox| - 1].newTier
    else AnnouncedTier(outbox[..|outbox| - 1], u)
  }

  // Each announcement starts from the tier the earlier ones led to and rises above it.
  predicate RisingChain(outbox: seq<TierUpgraded>) {
    outbox == [] ||
    (var e := outbox[|outbox| - 1];
     var earlier := outbox[..|outbox| - 1];
     e.oldTier == AnnouncedTier(earlier, e.user) && Rank(e.oldTier) < Rank(e.newTier) && RisingChain(earlier))
  }

  function Announcements(outbox: seq<TierUpgraded>, u: UserId): nat {
    if outbox == [] then 0
    else Announcements(outbox[..|outbox| - 1], u) + (if outbox[|outbox| - 1].user == u then 1 else 0)
  }

  lemma {:induction false} AtMostRank(outbox: seq<TierUpgraded>, u: UserId)
    requires RisingChain(outbox)
    ensures Announcements(outbox, u) <= Rank(AnnouncedTier(outbox, u))
  {
    if outbox != [] { AtMostRank(outbox[..|outbox| - 1], u); }
  }

  ghost predicate Tiers(s: Store) {
    RisingChain(s.outbox) &&
    forall u :: ProfileOf(s, u).tier == AnnouncedTier(s.outbox, u) &&
      Rank(CalculateTier(ProfileOf(s, u).yearVisits, ProfileOf(s, u).yearPoints)) <= Rank(ProfileOf(s, u).tier)
  }

  lemma Announced(outbox: seq<TierUpgraded>, e: TierUpgraded, u: UserId)
    ensures AnnouncedTier(outbox + [e], u) == if e.user == u then e.newTier else AnnouncedTier(outbox, u)
  {
    assert (outbox + [e])[..|outbox|] == outbox;
  }

  lemma TiersKept(s: Store, c: Change)
    requires Tiers(s) && Tiered(s, c)
    ensures Tiers(Commit(s, c))
  {
    if c.upgrade.Some? {
      assert (s.outbox + [c.upgrade.value])[..|s.outbox|] == s.outbox;
      forall u { Announced(s.outbox, c.upgrade.value, u); }
    }
  }

  /* ----- the Gold quota ----- */

  // A use reserves the current month when nothing does; a rollback releases its own reservation and
  // clears the mirror only of that month; a reset clears a mirror of an earlier month.
  ghost predicate Reserved(s: Store, c: Change) {
    var used, after := ProfileOf(s, c.user).goldUpgradeUsedMonth, c.profile.goldUpgradeUsedMonth;
    if c.reservation.None? then after == used || (used.Some? && used.value < s.month && after.None?)
    else
      var (o, r) := c.reservation.value;
      if (c.user, o) !in s.reservations then
        r == Reservation(s.month, false) && !Occupied(s, c.user, s.month) && after == Some(s.month)
      else
        !s.reservations[(c.user, o)].released && r == s.reservations[(c.user, o)].(released := true) &&
        after == (if used == Some(r.month) then None else used)
  }

  // At most one active reservation per month; none lies in the future; the mirror names an active one,
  // and names the current month's whenever there is one.
  ghost predicate Quota(s: Store) {
    (forall u, o, q | (u, o) in s.reservations && (u, q) in s.reservations && !s.reservations[(u, o)].released &&
      !s.reservations[(u, q)].released && s.reservations[(u, o)].month == s.reservations[(u, q)].month :: o == q) &&
    (forall u, o | (u, o) in s.reservations :: s.reservations[(u, o)].month <= s.month)
  }

  ghost predicate Mirror(s: Store) {
    (forall u | ProfileOf(s, u).goldUpgradeUsedMonth.Some? ::
      Occupied(s, u, ProfileOf(s, u).goldUpgradeUsedMonth.value)) &&
    (forall u, o | Occupies(s, u, s.month, o) :: ProfileOf(s, u).goldUpgradeUsedMonth == Some(s.month))
  }

  lemma QuotaKept(s: Store, c: Change)
    requires Quota(s) && Reserved(s, c)
    ensures Quota(Commit(s, c))
  {
    if c.reservation.Some? && (c.user, c.reservation.value.0) !in s.reservations {
      forall o | (c.user, o) in s.reservations && !s.reservations[(c.user, o)].released
        ensures s.reservations[(c.user, o)].month != s.month
      {
        assert !Occupies(s, c.user, s.month, o);
      }
    }
  }

  lemma MirrorKept(s: Store, c: Change)
    requires Quota(s) && Mirror(s) && Reserved(s, c)
    ensures Mirror(Commit(s, c))
  {
    var s' := Commit(s, c);
    forall u | ProfileOf(s', u).goldUpgradeUsedMonth.Some?
      ensures Occupied(s', u, ProfileOf(s', u).goldUpgradeUsedMonth.value)
    {
      MirrorNamesActive(s, c, u);
    }
    forall u, o | Occupies(s', u, s'.month, o) ensures ProfileOf(s', u).goldUpgradeUsedMonth == Some(s'.month) {
      ActiveIsMirrored(s, c, u, o);
    }
  }

  lemma ActiveOrder(s: Store, u: UserId, month: int) returns (o: OrderId)
    requires Occupied(s, u, month)
    ensures Occupies(s, u, month, o)
  {
    var key :| key in s.reservations && key.0 == u && Occupies(s, u, month, key.1);
    o := key.1;
  }

  lemma MirrorNamesActive(s: Store, c: Change, u: UserId)
    requires Quota(s) && Mirror(s) && Reserved(s, c) && ProfileOf(Commit(s, c), u).goldUpgradeUsedMonth.Some?
    ensures Occupied(Commit(s, c), u, ProfileOf(Commit(s, c), u).goldUpgradeUsedMonth.value)
  {
    var s' := Commit(s, c);
    var month := ProfileOf(s', u).goldUpgradeUsedMonth.value;
    if ProfileOf(s, u).goldUpgradeUsedMonth == Some(month) {
      var o := ActiveOrder(s, u, month);
      if c.reservation.Some? && u == c.user && o == c.reservation.value.0 {
      } else {
        assert Occupies(s', u, month, o);
      }
    } else {
      assert Occupies(s', u, month, c.reservation.value.0);
    }
  }

  lemma ActiveIsMirrored(s: Store, c: Change, u: UserId, o: OrderId)
    requires Quota(s) && Mirror(s) && Reserved(s, c) && Occupies(Commit(s, c), u, s.month, o)
    ensures ProfileOf(Commit(s, c), u).goldUpgradeUsedMonth == Some(s.month)
  {
    if c.reservation.Some? && u == c.user && o == c.reservation.value.0 && (u, o) !in s.reservations {
    } else {
      assert Occupies(s, u, s.month, o);
    }
  }

  /* ----- birthday grants ----- */

  predicate IsBonus(e: Entry, u: UserId, year: int) {
    e.user == u && e.kind == EARN_BIRTHDAY && e.cause == Birthday(year)
  }

  predicate Granted(s: Store, c: Change) {
    if c.grant.Some? then
      (c.user, c.grant.value) !in s.grants && c.entry.Some? && IsBonus(c.entry.value, c.user, c.grant.value)
    else c.entry.Some? ==> c.entry.value.kind != EARN_BIRTHDAY
  }

  // Grants and bonus rows name each other.
  ghost predicate Grants(s: Store) {
    (forall u, y | (u, y) in s.grants :: s.grants[(u, y)] < |s.ledger| && IsBonus(s.ledger[s.grants[(u, y)]], u, y)) &&
    (forall i | 0 <= i < |s.ledger| && s.ledger[i].kind == EARN_BIRTHDAY :: BonusGranted(s, i))
  }

  predicate BonusGranted(s: Store, i: nat)
    requires i < |s.ledger|
  {
    var e := s.ledger[i];
    e.cause.Birthday? && (e.user, e.cause.year) in s.grants && s.grants[(e.user, e.cause.year)] == i
  }

  lemma GrantsKept(s: Store, c: Change)
    requires Grants(s) && Granted(s, c)
    ensures Grants(Commit(s, c))
  {
    var s' := Commit(s, c);
    forall i | 0 <= i < |s'.ledger| && s'.ledger[i].kind == EARN_BIRTHDAY ensures BonusGranted(s', i) {
      if i < |s.ledger| { assert BonusGranted(s, i); }
    }
  }

  /* ----- achievements ----- */

  predicate IsReward(e: Entry, u: UserId, a: Uuid) {
    e.user == u && e.cause == Unlock(a)
  }

  // Only a locked row moves, it is unlocked exactly at its target, and a reward comes with the unlocking.
  predicate Progressed(s: Store, c: Change) {
    (c.progress.Some? ==> Advances(s, c.user, c.progress.value.0, c.progress.value.1)) &&
    (c.entry.Some? ==>
      (c.entry.value.kind == EARN_ACHIEVEMENT <==> c.entry.value.cause.Unlock?) &&
      (c.entry.value.cause.Unlock? ==> Unlocking(c)))
  }

  predicate Unlocking(c: Change)
    requires c.entry.Some? && c.entry.value.cause.Unlock?
  {
    c.entry.value.user == c.user && c.progress.Some? && c.progress.value.0 == c.entry.value.cause.achievement &&
    c.progress.value.1.unlocked
  }

  predicate Advances(s: Store, u: UserId, a: Uuid, p: Progress) {
    ((u, a) in s.progress ==> !s.progress[(u, a)].unlocked) && (p.unlocked <==> p.current >= p.target)
  }

  ghost predicate Unlocks(s: Store) {
    (forall u, a | (u, a) in s.progress ::
      s.progress[(u, a)].unlocked <==> s.progress[(u, a)].current >= s.progress[(u, a)].target) &&
    (forall i | 0 <= i < |s.ledger| && s.ledger[i].cause.Unlock? :: Rewarded(s, i)) &&
    (forall i, j | 0 <= i < j < |s.ledger| && s.ledger[i].cause.Unlock? && s.ledger[i].user == s.ledger[j].user ::
      s.ledger[i].cause != s.ledger[j].cause)
  }

  predicate Rewarded(s: Store, i: nat)
    requires i < |s.ledger| && s.ledger[i].cause.Unlock?
  {
    var key := (s.ledger[i].user, s.ledger[i].cause.achievement);
    key in s.progress && s.progress[key].unlocked
  }

  lemma UnlocksKept(s: Store, c: Change)
    requires Unlocks(s) && Progressed(s, c)
    ensures Unlocks(Commit(s, c))
  {
    var s' := Commit(s, c);
    forall i | 0 <= i < |s'.ledger| && s'.ledger[i].cause.Unlock? ensures Rewarded(s', i) {
      if i < |s.ledger| { assert Rewarded(s, i); }
    }
    forall i, j | 0 <= i < j < |s'.ledger| && s'.ledger[i].cause.Unlock? && s'.ledger[i].user == s'.ledger[j].user
      ensures s'.ledger[i].cause != s'.ledger[j].cause
    {
      assert Rewarded(s, i);
    }
  }
}
