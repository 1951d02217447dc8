/**
  The tables as the services change them, statement by statement, inside one transaction at a time. While
  a transaction holds its user's profile, other users' transactions may commit between its statements.
 */
module Database {
  import opened Options
  import opened Accounts
  import opened Transactions
  import opened Registers
  import opened History
  import opened Locking

  // The transaction `op`, run from s with the others' commits in between, ends in s' with this answer: it
  // took effect all at once, after the others.
  ghost predicate Serialised(s: Store, others: seq<Op>, s': Store, op: Op, response: Response) {
    UserOf(op).Some? && OtherUsers(others, UserOf(op).value) &&
    s' == Apply(RunFrom(s, others), op) && response == PlanOf(RunFrom(s, others), op).response
  }

  lemma SerialisedAlone(s: Store, s': Store, op: Op, response: Response)
    requires UserOf(op).Some? && s' == Apply(s, op) && response == PlanOf(s, op).response
    ensures Serialised(s, [], s', op, response)
  {
    assert RunFrom(s, []) == s;
  }

  lemma SerialisedLater(s: Store, first: seq<Op>, second: seq<Op>, s': Store, op: Op, response: Response)
    requires UserOf(op).Some? && OtherUsers(first, UserOf(op).value)
    requires Serialised(RunFrom(s, first), second, s', op, response)
    ensures Serialised(s, first + second, s', op, response)
  {
    RunConcat(s, first, second);
  }

  predicate OpenLink(checkout: map<nat, Option<nat>>, debit: nat) {
    debit in checkout && checkout[debit].None?
  }

  function Appended<T>(log: seq<T>, row: Option<T>): seq<T> {
    if row.None? then log else log + [row.value]
  }

  class LoyaltyDatabase {
    var profiles: map<UserId, Profile>
    var ledger: seq<Entry>
    var processed: map<Key, Processed>
    var checkout: map<nat, Option<nat>>
    var grants: map<(UserId, int), nat>
    var reservations: map<(UserId, OrderId), Reservation>
    var outbox: seq<TierUpgraded>
    var progress: map<(UserId, Uuid), Progress>
    var month: int

    constructor ()
      ensures Contents() == Empty
    {
      profiles, ledger, processed, checkout, grants := map[], [], map[], map[], map[];
      reservations, outbox, progress, month := map[], [], map[], 0;
    }

    function Contents(): Store
      reads this
    {
      Store(profiles, ledger, processed, checkout, grants, reservations, outbox, progress, month)
    }

    method Restore(saved: Store)
      modifies this
      ensures Contents() == saved
    {
      profiles, ledger, processed, checkout, grants := saved.profiles, saved.ledger, saved.processed, saved.checkout,
        saved.grants;
      reservations, outbox, progress, month := saved.reservations, saved.outbox, saved.progress, saved.month;
    }

    // Any transactions of other users, one after the other.
    method OthersCommit(u: UserId) returns (ghost others: seq<Op>)
      requires Attained(Contents())
      modifies this
      ensures Attained(Contents()) && OtherUsers(others, u) && Contents() == RunFrom(old(Contents()), others)
    {
      others := [];
      var more: nat := *;
      while more > 0
        invariant Attained(Contents()) && OtherUsers(others, u) && Contents() == RunFrom(old(Contents()), others)
      {
        var op: Op := *;
        if UserOf(op) != Some(u) && !op.NextMonth? {
          var s := Contents();
          AttainedNext(s, op);
          RunOneMore(old(Contents()), others, op);
          Restore(Apply(s, op));
          others := others + [op];
        }
        more := more - 1;
      }
    }

    // INSERT ... ON CONFLICT DO NOTHING, when asked to, then SELECT ... FOR UPDATE.
    method LockLoyaltyProfile(u: UserId, createIfMissing: bool) returns (found: bool)
      modifies this`profiles
      ensures profiles == if createIfMissing then old(profiles)[u := ProfileOf(old(Contents()), u)] else old(profiles)
      ensures found <==> u in profiles
    {
      if createIfMissing && u !in profiles { profiles := profiles[u := NewProfile]; }
      found := u in profiles;
      assert createIfMissing ==> profiles == old(profiles)[u := ProfileOf(old(Contents()), u)];
    }

    // The user's row under the lock. A row that the lock inserted stays private until the commit.
    method LockedRow(u: UserId) returns (row: Profile)
      ensures row == ProfileOf(Contents(), u)
    {
      row := if u in profiles then profiles[u] else NewProfile;
    }

    // UPDATE ... WHERE debit_id = ... AND refund_id IS NULL: how many rows it changed.
    method LinkRefund(debit: nat, refund: nat) returns (count: nat)
      modifies this`checkout
      ensures if OpenLink(old(checkout), debit) then count == 1 && checkout == old(checkout)[debit := Some(refund)]
        else count == 0 && checkout == old(checkout)
    {
      if !OpenLink(checkout, debit) { return 0; }
      checkout := checkout[debit := Some(refund)];
      count := 1;
    }

    // The insert of a grant; false is a violation of its unique key.
    method CreateGrant(u: UserId, year: int, transaction: nat) returns (unique: bool)
      modifies this`grants
      ensures unique <==> (u, year) !in old(grants)
      ensures grants == if unique then old(grants)[(u, year) := transaction] else old(grants)
    {
      unique := (u, year) !in grants;
      if unique { grants := grants[(u, year) := transaction]; }
    }

    method UpdateProfile(u: UserId, p: Profile) returns (ok: bool)
      modifies this`profiles
      ensures ok <==> ProfileFits(p)
      ensures profiles == if ok then old(profiles)[u := p] else old(profiles)
    {
      ok := ProfileFits(p);
      if ok { profiles := profiles[u := p]; }
    }

    method CreateTransaction(e: Entry) returns (ok: bool, id: nat)
      modifies this`ledger
      ensures ok <==> EntryFits(e)
      ensures id == |old(ledger)| && ledger == if ok then old(ledger) + [e] else old(ledger)
    {
      ok, id := EntryFits(e), |ledger|;
      if ok { ledger := ledger + [e]; }
    }

    // An account update with its ledger row; when one of them fails the caller rolls back.
    method Post(u: UserId, p: Profile, e: Entry) returns (ok: bool)
      modifies this`profiles, this`ledger
      ensures ok <==> ProfileFits(p) && EntryFits(e)
      ensures ok ==> profiles == old(profiles)[u := p] && ledger == old(ledger) + [e]
    {
      ok := UpdateProfile(u, p);
      if !ok { return; }
      var created, _ := CreateTransaction(e);
      ok := created;
    }

    // The outbox event of a changed tier.
    method AnnounceUpgrade(u: UserId, before: Tier, after: Tier)
      modifies this`outbox
      ensures outbox == Appended(old(outbox), UpgradeEvent(u, before, after))
    {
      if after != before { outbox := outbox + [TierUpgraded(u, before, after)]; }
    }

    // The insert of a key with its result; the answer stored before when another user was faster.
    method ClaimPointCommand(cmd: PointCommand, balanceAfter: int) returns (answer: Option<Response>)
      modifies this`processed
      ensures !Int32(balanceAfter) ==> answer == Some(Thrown(OutOfRange))
      ensures Int32(balanceAfter) ==> answer == ReplayPointCommand(old(processed), cmd)
      ensures processed == if answer.Some? then old(processed) else old(processed)[cmd.key := KeyRow(cmd, balanceAfter)]
    {
      if !Int32(balanceAfter) { return Some(Thrown(OutOfRange)); }
      if cmd.key !in processed {
        processed := processed[cmd.key := KeyRow(cmd, balanceAfter)];
        return None;
      }
      answer := ReplayPointCommand(processed, cmd);
    }
  }
}
