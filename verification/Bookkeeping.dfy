/**
  The books: a user's balance and lifetime points against that user's ledger rows, and the debits still
  open against the checkout links.
 */
module Bookkeeping {
  import opened Options
  import opened Accounts

  // Debits and refunds are counted for a user or for one order of a user.
  datatype Scope = OfUser(user: UserId) | OfOrder(user: UserId, order: OrderId)

  predicate InScope(scope: Scope, e: Entry) {
    e.user == scope.user && (scope.OfOrder? ==> e.order == Some(scope.order))
  }

  datatype Account = BalanceOf(user: UserId) | LifetimeOf(user: UserId) | Burned(scope: Scope) | Refunded(scope: Scope)

  // Points that count for life: every gain but a refund.
  function Lasting(e: Entry): int {
    if e.points > 0 && e.kind != REFUND then e.points else 0
  }

  function Amount(a: Account, e: Entry): int {
    match a
    case BalanceOf(u) => if e.user == u then e.points else 0
    case LifetimeOf(u) => if e.user == u then Lasting(e) else 0
    case Burned(scope) => if InScope(scope, e) && e.kind == BURN_DISCOUNT then -e.points else 0
    case Refunded(scope) => if InScope(scope, e) && e.kind == REFUND then e.points else 0
  }

  function Total(a: Account, ledger: seq<Entry>): int {
    if ledger == [] then 0 else Total(a, ledger[..|ledger| - 1]) + Amount(a, ledger[|ledger| - 1])
  }

  lemma TotalAppended(a: Account, ledger: seq<Entry>, e: Entry)
    ensures Total(a, ledger + [e]) == Total(a, ledger) + Amount(a, e)
  {
    assert (ledger + [e])[..|ledger|] == ledger;
  }

  lemma TotalAfter(s: Store, c: Change, a: Account)
    ensures Total(a, LedgerAfter(s, c)) == Total(a, s.ledger) + (if c.entry.Some? then Amount(a, c.entry.value) else 0)
  {
    if c.entry.Some? { TotalAppended(a, s.ledger, c.entry.value); }
  }

  // The part of the debits among the first n rows whose refund has not come.
  function Open(scope: Scope, ledger: seq<Entry>, checkout: map<nat, Option<nat>>, n: nat): int
    requires n <= |ledger|
  {
    if n == 0 then 0 else
      Open(scope, ledger, checkout, n - 1)
      + (if n - 1 in checkout && checkout[n - 1].None? then Amount(Burned(scope), ledger[n - 1]) else 0)
  }

  /* ----- balance and lifetime ----- */

  ghost predicate BalanceBooks(s: Store) {
    forall u :: ProfileOf(s, u).balance == Total(BalanceOf(u), s.ledger) && ProfileOf(s, u).balance >= 0
  }

  ghost predicate LifetimeBooks(s: Store) {
    forall u :: ProfileOf(s, u).lifetimePoints == Total(LifetimeOf(u), s.ledger)
  }

  ghost predicate RunningBalances(s: Store) {
    forall i | 0 <= i < |s.ledger| :: Running(s.ledger, i)
  }

  predicate Running(ledger: seq<Entry>, i: nat)
    requires i < |ledger|
  {
    ledger[i].balanceAfter == Total(BalanceOf(ledger[i].user), ledger[..i + 1])
  }

  // A ledger row moves the profile's balance by its points and its lifetime by its lasting part.
  predicate Posted(s: Store, c: Change) {
    var p := ProfileOf(s, c.user);
    c.profile.balance >= 0 &&
    if c.entry.None? then c.profile.balance == p.balance && c.profile.lifetimePoints == p.lifetimePoints
    else
      var e := c.entry.value;
      e.user == c.user && e.balanceAfter == c.profile.balance && c.profile.balance == p.balance + e.points &&
      c.profile.lifetimePoints == p.lifetimePoints + Lasting(e)
  }

  lemma BalanceAfter(s: Store, c: Change, u: UserId)
    requires ProfileOf(s, u).balance == Total(BalanceOf(u), s.ledger) && ProfileOf(s, u).balance >= 0 && Posted(s, c)
    ensures ProfileOf(Commit(s, c), u).balance == Total(BalanceOf(u), LedgerAfter(s, c)) >= 0
  {
    TotalAfter(s, c, BalanceOf(u));
  }

  lemma BalanceKept(s: Store, c: Change)
    requires BalanceBooks(s) && Posted(s, c)
    ensures BalanceBooks(Commit(s, c))
  {
    forall u { BalanceAfter(s, c, u); }
  }

  lemma LifetimeAfter(s: Store, c: Change, u: UserId)
    requires ProfileOf(s, u).lifetimePoints == Total(LifetimeOf(u), s.ledger) && Posted(s, c)
    ensures ProfileOf(Commit(s, c), u).lifetimePoints == Total(LifetimeOf(u), LedgerAfter(s, c))
  {
    TotalAfter(s, c, LifetimeOf(u));
  }

  lemma LifetimeKept(s: Store, c: Change)
    requires LifetimeBooks(s) && Posted(s, c)
    ensures LifetimeBooks(Commit(s, c))
  {
    forall u { LifetimeAfter(s, c, u); }
  }

  lemma RunningStays(ledger: seq<Entry>, e: Entry, i: nat)
    requires i < |ledger| && Running(ledger, i)
    ensures Running(ledger + [e], i)
  {
    assert (ledger + [e])[..i + 1] == ledger[..i + 1];
  }

  lemma RunningLast(ledger: seq<Entry>, e: Entry)
    requires e.balanceAfter == Total(BalanceOf(e.user), ledger) + e.points
    ensures Running(ledger + [e], |ledger|)
  {
    TotalAppended(BalanceOf(e.user), ledger, e);
    assert (ledger + [e])[..|ledger| + 1] == ledger + [e];
  }

  lemma RunningKept(s: Store, c: Change)
    requires BalanceBooks(s) && RunningBalances(s) && Posted(s, c)
    ensures RunningBalances(Commit(s, c))
  {
    if c.entry.Some? {
      RunningLast(s.ledger, c.entry.value);
      forall i | 0 <= i < |s.ledger| ensures Running(LedgerAfter(s, c), i) {
        RunningStays(s.ledger, c.entry.value, i);
      }
    }
  }

  /* ----- debits and refunds ----- */

  predicate Links(s: Store) {
    (forall d | d in s.checkout :: d < |s.ledger| && s.ledger[d].kind == BURN_DISCOUNT && s.ledger[d].points < 0 &&
      s.ledger[d].order.Some?) &&
    (forall i | 0 <= i < |s.ledger| && s.ledger[i].kind == BURN_DISCOUNT :: i in s.checkout)
  }

  predicate Compensates(debit: Entry, refund: Entry) {
    refund.kind == REFUND && refund.user == debit.user && refund.order == debit.order && refund.points == -debit.points
  }

  // A link opens with a debit row and closes with the one refund row of that user and order.
  predicate Linked(s: Store, c: Change) {
    match c.link
    case NoLink => c.entry.Some? ==> c.entry.value.kind != BURN_DISCOUNT && c.entry.value.kind != REFUND
    case OpenDebit =>
      c.entry.Some? && c.entry.value.kind == BURN_DISCOUNT && c.entry.value.points < 0 && c.entry.value.order.Some?
    case CloseDebit(d) =>
      c.entry.Some? && d in s.checkout && s.checkout[d].None? && d < |s.ledger| &&
        Compensates(s.ledger[d], c.entry.value) &&
      forall i | 0 <= i < |s.ledger| && s.ledger[i].kind == REFUND ::
        !(s.ledger[i].user == c.entry.value.user && s.ledger[i].order == c.entry.value.order)
  }

  lemma LinksKept(s: Store, c: Change)
    requires Links(s) && Linked(s, c)
    ensures Links(Commit(s, c))
  {
  }

  // Each closed link names a later refund row that compensates its debit, and no other link names it.
  ghost predicate Closed(s: Store) {
    (forall d | d in s.checkout && s.checkout[d].Some? ::
      d < s.checkout[d].value < |s.ledger| && Compensates(s.ledger[d], s.ledger[s.checkout[d].value])) &&
    (forall d, f | d in s.checkout && f in s.checkout && s.checkout[d].Some? &&
      s.checkout[d] == s.checkout[f] :: d == f)
  }

  // Each refund row closes a link, and no user and order has two.
  ghost predicate Refunds(s: Store) {
    (forall r | 0 <= r < |s.ledger| && s.ledger[r].kind == REFUND :: RefundOfLink(s, r)) &&
    (forall q, r | 0 <= q < |s.ledger| && 0 <= r < |s.ledger| && s.ledger[q].kind == REFUND &&
      s.ledger[r].kind == REFUND &&
      s.ledger[q].user == s.ledger[r].user && s.ledger[q].order == s.ledger[r].order :: q == r)
  }

  ghost predicate RefundOfLink(s: Store, r: nat) {
    exists d :: d in s.checkout && s.checkout[d] == Some(r)
  }

  lemma ClosedByRefund(s: Store, c: Change)
    requires Links(s) && Closed(s) && Linked(s, c) && c.link.CloseDebit?
    ensures Closed(Commit(s, c))
  {
  }

  lemma ClosedKept(s: Store, c: Change)
    requires Links(s) && Closed(s) && Linked(s, c)
    ensures Closed(Commit(s, c))
  {
    if c.link.CloseDebit? { ClosedByRefund(s, c); }
  }

  lemma RefundsKept(s: Store, c: Change)
    requires Links(s) && Refunds(s) && Linked(s, c)
    ensures Refunds(Commit(s, c))
  {
    var s' := Commit(s, c);
    forall r | 0 <= r < |s'.ledger| && s'.ledger[r].kind == REFUND ensures RefundOfLink(s', r) {
      if r < |s.ledger| {
        assert RefundOfLink(s, r);
        var d :| d in s.checkout && s.checkout[d] == Some(r);
        assert s'.checkout[d] == Some(r);
      } else {
        assert s'.checkout[c.link.debit] == Some(r);
      }
    }
  }

  /* ----- what is still open ----- */

  lemma {:induction false} OpenAppended(scope: Scope, ledger: seq<Entry>, e: Entry, checkout: map<nat, Option<nat>>,
          n: nat)
    requires n <= |ledger|
    ensures Open(scope, ledger + [e], checkout, n) == Open(scope, ledger, checkout, n)
  {
    if n > 0 { OpenAppended(scope, ledger, e, checkout, n - 1); }
  }

  lemma {:induction false} OpenAfter(scope: Scope, ledger: seq<Entry>, checkout: map<nat, Option<nat>>, d: nat,
          v: Option<nat>, n: nat)
    requires n <= |ledger| && d >= n
    ensures Open(scope, ledger, checkout[d := v], n) == Open(scope, ledger, checkout, n)
  {
    if n > 0 { OpenAfter(scope, ledger, checkout, d, v, n - 1); }
  }

  lemma {:induction false} OpenClosed(scope: Scope, ledger: seq<Entry>, checkout: map<nat, Option<nat>>, d: nat, r: nat,
          n: nat)
    requires d < n <= |ledger| && d in checkout && checkout[d].None?
    ensures Open(scope, ledger, checkout[d := Some(r)], n) ==
      Open(scope, ledger, checkout, n) - Amount(Burned(scope), ledger[d])
    decreases n
  {
    if d == n - 1 { OpenAfter(scope, ledger, checkout, d, Some(r), n - 1); }
    else { OpenClosed(scope, ledger, checkout, d, r, n - 1); }
  }

  // How one transaction moves the open debits: a debit adds its points, a refund takes them off.
  lemma OpenMoved(s: Store, c: Change, scope: Scope)
    requires Links(s) && Linked(s, c)
    ensures
      var e := c.entry;
      Open(scope, LedgerAfter(s, c), CheckoutAfter(s, c), |LedgerAfter(s, c)|)
        == Open(scope, s.ledger, s.checkout, |s.ledger|)
           + (if e.Some? then Amount(Burned(scope), e.value) - Amount(Refunded(scope), e.value) else 0)
  {
    if c.entry.Some? {
      var e, n := c.entry.value, |s.ledger|;
      match c.link
      case NoLink => OpenAppended(scope, s.ledger, e, s.checkout, n);
      case OpenDebit =>
        OpenAfter(scope, s.ledger, s.checkout, n, None, n);
        OpenAppended(scope, s.ledger, e, s.checkout[n := None], n);
      case CloseDebit(d) =>
        OpenClosed(scope, s.ledger, s.checkout, d, n, n);
        OpenAppended(scope, s.ledger, e, s.checkout[d := Some(n)], n);
    }
  }

  ghost predicate OpenBooks(s: Store) {
    forall scope :: Total(Burned(scope), s.ledger) ==
      Open(scope, s.ledger, s.checkout, |s.ledger|) + Total(Refunded(scope), s.ledger)
  }

  lemma OpenBooksKept(s: Store, c: Change)
    requires Links(s) && OpenBooks(s) && Linked(s, c)
    ensures OpenBooks(Commit(s, c))
  {
    var s' := Commit(s, c);
    forall scope ensures Total(Burned(scope), s'.ledger) ==
      Open(scope, s'.ledger, s'.checkout, |s'.ledger|) + Total(Refunded(scope), s'.ledger)
    {
      OpenMoved(s, c, scope);
      TotalAfter(s, c, Burned(scope));
      TotalAfter(s, c, Refunded(scope));
    }
  }

  // Spending and refunding never take the balance above the lifetime: what is refunded was spent before.
  ghost predicate Covered(s: Store) {
    forall u ::
      ProfileOf(s, u).balance + Open(OfUser(u), s.ledger, s.checkout, |s.ledger|) <= ProfileOf(s, u).lifetimePoints
  }

  lemma CoveredKept(s: Store, c: Change)
    requires Links(s) && Covered(s) && Posted(s, c) && Linked(s, c)
    ensures Covered(Commit(s, c))
  {
    var s' := Commit(s, c);
    forall u
      ensures ProfileOf(s', u).balance + Open(OfUser(u), s'.ledger, s'.checkout, |s'.ledger|) <=
        ProfileOf(s', u).lifetimePoints
    {
      OpenMoved(s, c, OfUser(u));
    }
  }

  lemma {:induction false} OpenNonNegative(scope: Scope, s: Store, n: nat)
    requires Links(s) && n <= |s.ledger|
    ensures Open(scope, s.ledger, s.checkout, n) >= 0
  {
    if n > 0 { OpenNonNegative(scope, s, n - 1); }
  }
}
