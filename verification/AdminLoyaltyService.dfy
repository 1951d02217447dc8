/**
  AdminLoyaltyService: adjustments and VIP grants by an administrator.
 */
module AdminLoyalty {
  import opened Options
  import opened Accounts
  import opened Transactions
  import opened Database

  class AdminLoyaltyService {
    const db: LoyaltyDatabase

    constructor (db: LoyaltyDatabase)
      ensures this.db == db
    {
      this.db := db;
    }

    method ModifyPointsGrpc(u: UserId, points: int, cal: Calendar) returns (response: Response)
      modifies db
      ensures var plan := ModifyPoints(old(db.Contents()), u, points, cal);
        db.Contents() == Execute(old(db.Contents()), plan) && response == plan.response
    {
      if points == 0 { return Thrown(ZeroPoints); }
      var begun := db.Contents();
      var _ := db.LockLoyaltyProfile(u, true);
      var profile := db.profiles[u];
      if profile.balance + points < 0 {
        db.Restore(begun);
        return Thrown(InsufficientPoints);
      }
      var increment := if points > 0 then points else 0;
      var newTier := ResolveNewTier(profile.tier, profile.yearVisits, profile.yearPoints + increment);
      var updated := profile.(balance := profile.balance + points, lifetimePoints := profile.lifetimePoints + increment,
                              yearPoints := profile.yearPoints + increment, tier := newTier);
      if points > 0 { updated := updated.(balanceExpiresAt := Some(cal.inAYear)); }
      response := Adjust(u, profile, updated, if points > 0 then ADMIN_ADDITION else ADMIN_DEDUCTION, points, begun);
      if response.Done? { response := Success(updated.balance); }
    }

    method GrantVipStatusGrpc(u: UserId) returns (response: Response)
      modifies db
      ensures var plan := GrantVipStatus(old(db.Contents()), u);
        db.Contents() == Execute(old(db.Contents()), plan) && response == plan.response
      ensures response.Done? ==> u in db.profiles && db.profiles[u].tier == GOLD
    {
      var begun := db.Contents();
      var _ := db.LockLoyaltyProfile(u, true);
      var profile := db.profiles[u];
      if profile.tier == GOLD {
        db.Restore(begun);
        return Thrown(AlreadyVip);
      }
      response := Adjust(u, profile, profile.(tier := GOLD), ADMIN_ADDITION, 0, begun);
    }

    // The update, the ledger row and, when the tier changed, its event: the end of both transactions.
    method Adjust(u: UserId, profile: Profile, updated: Profile, kind: Kind, points: int, begun: Store)
      returns (response: Response)
      requires db.Contents() == begun.(profiles := begun.profiles[u := profile])
      modifies db
      ensures var c := Adjustment(u, profile, updated, kind, points);
        if Fits(c) then db.Contents() == Commit(begun, c) && response == Done
        else db.Contents() == begun && response == Thrown(OutOfRange)
    {
      var ok := db.Post(u, updated, Entry(u, kind, points, updated.balance, None, Unkeyed));
      assert ok ==> db.profiles == begun.profiles[u := updated];
      if !ok {
        db.Restore(begun);
        return Thrown(OutOfRange);
      }
      db.AnnounceUpgrade(u, profile.tier, updated.tier);
      CommitsAdjustment(begun, db.Contents(), Adjustment(u, profile, updated, kind, points));
      response := Done;
    }
  }

  function Adjustment(u: UserId, profile: Profile, updated: Profile, kind: Kind, points: int): Change {
    Only(u, updated).(entry := Some(Entry(u, kind, points, updated.balance, None, Unkeyed)),
                      upgrade := UpgradeEvent(u, profile.tier, updated.tier))
  }

  lemma CommitsAdjustment(s: Store, s': Store, c: Change)
    requires c == Only(c.user, c.profile).(entry := c.entry, upgrade := c.upgrade) && c.entry.Some?
    requires s'.profiles == s.profiles[c.user := c.profile] && s'.ledger == s.ledger + [c.entry.value]
    requires s'.outbox == Appended(s.outbox, c.upgrade)
    requires s' == s.(profiles := s'.profiles, ledger := s'.ledger, outbox := s'.outbox)
    ensures s' == Commit(s, c)
  {
  }
}
