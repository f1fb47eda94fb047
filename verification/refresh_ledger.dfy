/** Where each refresh token is, apart from the processes that move it: on disk, being
    spent by the lock holder, received but not stored. */
module RefreshLedger {
  import opened Wrappers
  import opened RemoteStore
  import opened RemoteSession

  type Place = (Origin, string)

  datatype Ledger = Ledger(
    stored: map<Key, string>,
    spending: Option<(Key, string)>,
    pending: map<nat, Place>,
    sent: multiset<Request>,
    excused: set<Place>)

  function At(k: Key, token: string): Place {
    (k.origin, token)
  }

  ghost predicate SentOnce(l: Ledger) {
    forall o: Origin, token: string :: (o, token) !in l.excused ==> l.sent[Refresh(o, token)] <= 1
  }

  /** A stored token that has been sent is being spent by the process holding the lock. */
  predicate SentIsSpending(l: Ledger) {
    forall k | k in l.stored ::
      At(k, l.stored[k]) !in l.excused && l.sent[Refresh(k.origin, l.stored[k])] > 0 ==>
        l.spending == Some((k, l.stored[k]))
  }

  predicate StoredOnce(l: Ledger) {
    forall k, k' | k in l.stored && k' in l.stored && k != k' && k.origin == k'.origin ::
      l.stored[k] == l.stored[k'] ==> l.stored[k] == "" || At(k, l.stored[k]) in l.excused
  }

  predicate Unused(l: Ledger, place: Place) {
    && l.sent[Refresh(place.0, place.1)] == 0
    && (forall k | k in l.stored :: At(k, l.stored[k]) != place)
  }

  /** A received token not stored yet is nowhere else and has not been sent. */
  predicate PendingUnused(l: Ledger) {
    && (forall p | p in l.pending :: l.pending[p].1 != "" && (l.pending[p] in l.excused || Unused(l, l.pending[p])))
    && (forall p, q | p in l.pending && q in l.pending && p != q ::
          l.pending[p] != l.pending[q] || l.pending[p] in l.excused)
  }

  ghost predicate Balanced(l: Ledger) {
    SentOnce(l) && SentIsSpending(l) && StoredOnce(l) && PendingUnused(l)
  }

  ghost predicate SameSends(l: Ledger, m: Ledger) {
    forall o: Origin, token: string :: m.sent[Refresh(o, token)] == l.sent[Refresh(o, token)]
  }

  predicate FewerPending(l: Ledger, m: Ledger) {
    forall p | p in m.pending :: p in l.pending && m.pending[p] == l.pending[p]
  }

  /** Nothing sent, stored or received; what stopped being spent is excused. */
  lemma Quiet(l: Ledger, m: Ledger)
    requires Balanced(l)
    requires m.stored == l.stored && l.excused <= m.excused && SameSends(l, m) && FewerPending(l, m)
    requires l.spending.Some? ==>
               m.spending == l.spending || At(l.spending.value.0, l.spending.value.1) in m.excused
    ensures Balanced(m)
  {
  }

  lemma Send(l: Ledger, m: Ledger, k: Key)
    requires Balanced(l)
    requires k in l.stored && l.stored[k] != "" && l.spending.None?
    requires m == l.(spending := Some((k, l.stored[k])), sent := l.sent + multiset{Refresh(k.origin, l.stored[k])})
    ensures Balanced(m)
  {
    assert At(k, l.stored[k]) !in l.excused ==> l.sent[Refresh(k.origin, l.stored[k])] == 0;
  }

  lemma Receive(l: Ledger, m: Ledger, p: nat, place: Place)
    requires Balanced(l)
    requires m.stored == l.stored && l.excused <= m.excused && SameSends(l, m) && m.spending == l.spending
    requires m.pending == l.pending[p := place] && place.1 != ""
    requires place in m.excused || (Unused(l, place) && forall q | q in l.pending && q != p :: l.pending[q] != place)
    ensures Balanced(m)
  {
  }

  lemma Remove(l: Ledger, m: Ledger, k: Key)
    requires Balanced(l)
    requires m.stored.Keys <= l.stored.Keys - {k} && forall k' | k' in m.stored :: m.stored[k'] == l.stored[k']
    requires m.excused == l.excused && SameSends(l, m) && m.pending == l.pending
    requires l.spending.Some? ==> l.spending.value.0 == k
    ensures Balanced(m)
  {
  }

  /** A pending token takes its place on disk; the one being spent there is gone. */
  lemma Store(l: Ledger, m: Ledger, p: nat, k: Key)
    requires Balanced(l)
    requires p in l.pending && l.pending[p].0 == k.origin
    requires m.stored == l.stored[k := l.pending[p].1] && m.pending == l.pending - {p}
    requires m.excused == l.excused && SameSends(l, m)
    requires l.spending.Some? ==> l.spending.value.0 == k
    ensures Balanced(m)
  {
  }
}
