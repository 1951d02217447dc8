/**
  The tables of the points economy and what one committed transaction writes to them.

  Every transaction locks one user's profile and writes at most one row of each table, so its effect is a
  Change of that user, applied by Commit. Ledger rows are numbered in the order they are written.
 */
module Accounts {
  import opened Options

  type UserId = nat
  type OrderId = nat
  type Key = string
  type Uuid = s: string | |s| == 36 witness seq(36, _ => '0')

  datatype Tier = BRONZE | SILVER | GOLD

  function Rank(t: Tier): nat {
    match t case BRONZE => 0 case SILVER => 1 case GOLD => 2
  }

  // `birthdayDate` is a day number, `goldUpgradeUsedMonth` counts months.
  datatype Profile = Profile(
    tier: Tier,
    balance: int,
    lifetimePoints: int,
    yearPoints: int,
    yearVisits: int,
    balanceExpiresAt: Option<int>,
    birthdayDate: Option<int>,
    goldUpgradeUsedMonth: Option<int>
  )

  const NewProfile := Profile(BRONZE, 0, 0, 0, 0, None, None, None)

  datatype Kind =
    | EARN_TICKET | EARN_SPECIAL | EARN_BIRTHDAY | EARN_ACHIEVEMENT
    | BURN_DISCOUNT | REFUND | EXPIRE | ADMIN_ADDITION | ADMIN_DEDUCTION

  // Why a ledger row was written. The table does not store this; it only records history.
  datatype Cause =
    | Command(key: Key)
    | Purchase(key: Key)
    | Unlock(achievement: Uuid)
    | Birthday(year: int)
    | Unkeyed

  datatype Entry = Entry(user: UserId, kind: Kind, points: int, balanceAfter: int, order: Option<OrderId>, cause: Cause)

  datatype PointOperation = DEDUCT | REFUNDING

  // A row of processed_events: the marker of an event, or the stored result of a point command.
  datatype Processed =
    | EventKey
    | CommandKey(operation: PointOperation, user: UserId, order: OrderId, amount: int, balanceAfter: int)

  datatype Reservation = Reservation(month: int, released: bool)

  datatype TierUpgraded = TierUpgraded(user: UserId, oldTier: Tier, newTier: Tier)

  datatype Progress = Progress(current: int, target: int, unlocked: bool)

  // `month` is the current UTC month, which only moves forward.
  datatype Store = Store(
    profiles: map<UserId, Profile>,
    ledger: seq<Entry>,
    processed: map<Key, Processed>,
    checkout: map<nat, Option<nat>>,
    grants: map<(UserId, int), nat>,
    reservations: map<(UserId, OrderId), Reservation>,
    outbox: seq<TierUpgraded>,
    progress: map<(UserId, Uuid), Progress>,
    month: int
  )

  const Empty := Store(map[], [], map[], map[], map[], map[], [], map[], 0)

  function ProfileOf(s: Store, u: UserId): Profile {
    if u in s.profiles then s.profiles[u] else NewProfile
  }

  // A checkout link opens with a debit and closes with its refund.
  datatype Link = NoLink | OpenDebit | CloseDebit(debit: nat)

  datatype Change = Change(
    user: UserId,
    profile: Profile,
    entry: Option<Entry>,
    key: Option<(Key, Processed)>,
    link: Link,
    grant: Option<int>,
    reservation: Option<(OrderId, Reservation)>,
    upgrade: Option<TierUpgraded>,
    progress: Option<(Uuid, Progress)>
  )

  function Only(u: UserId, p: Profile): Change {
    Change(u, p, None, None, NoLink, None, None, None, None)
  }

  function Commit(s: Store, c: Change): Store {
    Store(
      s.profiles[c.user := c.profile],
      LedgerAfter(s, c),
      ProcessedAfter(s, c),
      CheckoutAfter(s, c),
      if c.grant.None? then s.grants else s.grants[(c.user, c.grant.value) := |s.ledger|],
      if c.reservation.None? then s.reservations
        else s.reservations[(c.user, c.reservation.value.0) := c.reservation.value.1],
      if c.upgrade.None? then s.outbox else s.outbox + [c.upgrade.value],
      if c.progress.None? then s.progress else s.progress[(c.user, c.progress.value.0) := c.progress.value.1],
      s.month
    )
  }

  function LedgerAfter(s: Store, c: Change): seq<Entry> {
    if c.entry.None? then s.ledger else s.ledger + [c.entry.value]
  }

  function ProcessedAfter(s: Store, c: Change): map<Key, Processed> {
    if c.key.None? then s.processed else s.processed[c.key.value.0 := c.key.value.1]
  }

  function CheckoutAfter(s: Store, c: Change): map<nat, Option<nat>> {
    match c.link
    case NoLink => s.checkout
    case OpenDebit => s.checkout[|s.ledger| := None]
    case CloseDebit(d) => s.checkout[d := Some(|s.ledger|)]
  }

  /* ----- integer columns ----- */

  predicate Int32(n: int) {
    -0x8000_0000 <= n < 0x8000_0000
  }

  predicate Int16(n: int) {
    -0x8000 <= n < 0x8000
  }

  predicate ProfileFits(p: Profile) {
    Int32(p.balance) && Int32(p.lifetimePoints) && Int32(p.yearPoints) && Int32(p.yearVisits)
  }

  predicate EntryFits(e: Entry) {
    Int32(e.points) && Int32(e.balanceAfter)
  }

  predicate ProgressFits(p: Progress) {
    Int32(p.current) && Int32(p.target)
  }

  // A write outside a column's range aborts the whole transaction.
  predicate Fits(c: Change) {
    ProfileFits(c.profile) && (c.entry.Some? ==> EntryFits(c.entry.value)) &&
      (c.grant.Some? ==> Int16(c.grant.value)) &&
    (c.progress.Some? ==> ProgressFits(c.progress.value.1))
  }
}
