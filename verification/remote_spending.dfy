/** Every step of RemoteSystem is a move of RefreshLedger: a refresh token is sent once. */
module RemoteSpending {
  import opened Wrappers
  import opened RemoteStore
  import opened RemoteSession
  import opened RemoteSystem
  import opened RefreshLedger
  import opened RemoteSafety

  function HolderSpending(s: System): Option<(Key, string)> {
    if s.lock.Some? && s.lock.value in s.procs then Spending(s.procs[s.lock.value]) else None
  }

  function Stored(disk: State): map<Key, string> {
    map k | k in disk.credentials :: disk.credentials[k].token.refresh
  }

  function Received(procs: map<Pid, Pc>): map<Pid, Place> {
    map p | p in procs && Pending(procs[p]).Some? :: Pending(procs[p]).value
  }

  function View(s: System): Ledger {
    Ledger(Stored(s.disk), HolderSpending(s), Received(s.procs), s.sent, s.excused)
  }

  ghost predicate SpendOk(s: System) {
    Balanced(View(s))
  }

  lemma OnlyRenewingRefreshes(pc: Pc, input: Input, r: Request)
    requires r in Emits(pc, input) && r.Refresh?
    ensures pc.Renewing? && Advance(pc, input).RefreshSent?
  {
  }

  /** Only a received answer makes a token pending. */
  lemma PendingComesFromAnswer(pc: Pc, input: Input)
    requires Pending(Advance(pc, input)).Some?
    ensures Pending(pc) == Pending(Advance(pc, input))
            || (Issues(pc, input).Some?
                && Pending(Advance(pc, input)) == Some((Issues(pc, input).value.0, Issues(pc, input).value.1.refresh))
                && Pending(Advance(pc, input)).value.1 != ""
                && Pending(pc).None?
                && Writes(pc, input).None?
                && Spending(Advance(pc, input)) == Spending(pc)
                && Emits(pc, input) == [])
  {
  }

  /** Spending ends only with a save. */
  lemma SpendingEndsWithSave(pc: Pc, input: Input)
    requires Spending(pc).Some? && Writes(pc, input).None?
    ensures Spending(Advance(pc, input)) == Spending(pc) || SaveLost(input)
  {
  }

  lemma ReceivedUpdate(procs: map<Pid, Pc>, p: Pid, pc: Pc)
    ensures Received(procs[p := pc]) ==
            if Pending(pc).Some? then Received(procs)[p := Pending(pc).value] else Received(procs) - {p}
  {
  }

  lemma HolderUpdate(s: System, t: System, p: Pid, pc: Pc)
    requires LockOk(s) && p in s.procs && (Locks(pc) <==> Locks(s.procs[p]))
    requires t.lock == s.lock && t.procs == s.procs[p := pc]
    ensures HolderSpending(t) == if Locks(s.procs[p]) then Spending(pc) else HolderSpending(s)
  {
  }

  lemma LocksKept(pc: Pc, input: Input)
    ensures Locks(Advance(pc, input)) <==> Locks(pc)
  {
  }

  /** Stated over the ledger, what a step of one process does. */
  ghost predicate LedgerStep(l: Ledger, m: Ledger, s: System, p: Pid, input: Input)
    requires p in s.procs
  {
    var pc := s.procs[p];
    var next := Advance(pc, input);
    && m.stored == Stored(DiskAfter(s.disk, pc, input))
    && m.spending == (if Locks(pc) then Spending(next) else l.spending)
    && m.pending == (if Pending(next).Some? then l.pending[p := Pending(next).value] else l.pending - {p})
    && m.sent == l.sent + multiset(Emits(pc, input))
    && m.excused == l.excused + Excuses(s, pc, input)
  }

  lemma StepView(s: System, p: Pid, input: Input)
    requires LockOk(s) && p in s.procs
    ensures LedgerStep(View(s), View(AfterStep(s, p, input)), s, p, input)
  {
    LocksKept(s.procs[p], input);
    HolderUpdate(s, AfterStep(s, p, input), p, Advance(s.procs[p], input));
    ReceivedUpdate(s.procs, p, Advance(s.procs[p], input));
  }

  /** A refresh request leaves while its token is on disk and nothing is being spent. */
  lemma RefreshSendSpends(s: System, p: Pid, input: Input)
    requires Base(s) && SpendOk(s) && p in s.procs
    requires s.procs[p].Renewing? && Advance(s.procs[p], input).RefreshSent?
    ensures SpendOk(AfterStep(s, p, input))
  {
    StepView(s, p, input);
    var c := s.procs[p].call;
    assert HeldOk(s.procs[p], s.disk);
    var m := View(AfterStep(s, p, input));
    assert Emits(s.procs[p], input) == [Refresh(c.key.origin, c.credential.token.refresh)];
    assert m.pending == View(s).pending;
    Send(View(s), m, c.key);
  }

  lemma ReceivedSpends(s: System, p: Pid, input: Input)
    requires Base(s) && Isolated(s) && SpendOk(s) && p in s.procs
    requires Pending(Advance(s.procs[p], input)).Some? && Pending(s.procs[p]).None?
    ensures SpendOk(AfterStep(s, p, input))
  {
    StepView(s, p, input);
    PendingComesFromAnswer(s.procs[p], input);
    var l, m := View(s), View(AfterStep(s, p, input));
    var place := Pending(Advance(s.procs[p], input)).value;
    if place !in s.issuedRefresh {
      FreshIsUnused(s, place);
    }
    assert m.sent == l.sent;
    Receive(l, m, p, place);
  }

  /** A token no server has issued yet is nowhere. */
  lemma FreshIsUnused(s: System, place: Place)
    requires Isolated(s) && place !in s.issuedRefresh
    ensures Unused(View(s), place)
    ensures forall q | q in View(s).pending :: View(s).pending[q] != place
  {
    var r := Refresh(place.0, place.1);
    assert r in s.sent ==> RequestIssued(r, s.issuedAccess, s.issuedRefresh);
    forall q | q in s.procs && Pending(s.procs[q]).Some?
      ensures Pending(s.procs[q]).value != place
    {
      assert CarriesIssued(s.procs[q], s.issuedAccess, s.issuedRefresh);
    }
  }

  lemma SavingIsQuiet(s: System, pc: Pc, input: Input)
    requires Writes(pc, input).Some?
    ensures Emits(pc, input) == [] && Excuses(s, pc, input) == {}
    ensures Pending(Advance(pc, input)).None? && Spending(Advance(pc, input)).None?
  {
  }

  /** The ledger after a save that replaced the file with `memory`. */
  lemma SavedView(s: System, p: Pid, input: Input, memory: State)
    requires Base(s) && p in s.procs && Writes(s.procs[p], input) == Some(memory)
    ensures View(AfterStep(s, p, input)) ==
            View(s).(stored := Stored(memory), spending := None, pending := View(s).pending - {p})
  {
    StepView(s, p, input);
    SavingIsQuiet(s, s.procs[p], input);
  }

  lemma StoredUpdate(before: State, after: State, k: Key, c: Credential)
    requires after.credentials == before.credentials[k := c]
    ensures Stored(after) == Stored(before)[k := c.token.refresh]
  {
  }

  ghost predicate Saves(l: Ledger, m: Ledger, p: Pid, pc: Pc, disk: State, memory: State) {
    && Balanced(l) && HeldOk(pc, disk)
    && l.stored == Stored(disk) && l.spending == Spending(pc)
    && (if Pending(pc).Some? then p in l.pending && l.pending[p] == Pending(pc).value else p !in l.pending)
    && m == l.(stored := Stored(memory), spending := None, pending := l.pending - {p})
  }

  lemma ForgetBalances(l: Ledger, m: Ledger, p: Pid, pc: Pc, disk: State)
    requires pc.Forgetting? && Saves(l, m, p, pc, disk, pc.call.memory)
    ensures Balanced(m)
  {
    Remove(l, m, pc.call.key);
  }

  lemma RotateBalances(l: Ledger, m: Ledger, p: Pid, pc: Pc, disk: State)
    requires pc.Rotating? && Saves(l, m, p, pc, disk, pc.call.memory)
    ensures Balanced(m)
  {
    StoredUpdate(disk, pc.call.memory, pc.call.key, pc.call.credential);
    Store(l, m, p, pc.call.key);
  }

  lemma LoginBalances(l: Ledger, m: Ledger, p: Pid, pc: Pc, disk: State)
    requires pc.Storing? && Saves(l, m, p, pc, disk, pc.memory)
    ensures Balanced(m)
  {
    StoredUpdate(disk, pc.memory, LoginKey(pc.login), Credential(pc.login.base, pc.userId, pc.token));
    Store(l, m, p, LoginKey(pc.login));
  }

  lemma SavedSpends(s: System, p: Pid, input: Input)
    requires Base(s) && SpendOk(s) && p in s.procs && Writes(s.procs[p], input).Some?
    ensures SpendOk(AfterStep(s, p, input))
  {
    var pc := s.procs[p];
    SavedView(s, p, input, Writes(pc, input).value);
    var l, m := View(s), View(AfterStep(s, p, input));
    if pc.Forgetting? {
      ForgetBalances(l, m, p, pc, s.disk);
    } else if pc.Rotating? {
      RotateBalances(l, m, p, pc, s.disk);
    } else {
      LoginBalances(l, m, p, pc, s.disk);
    }
  }

  lemma OtherSendsNoRefresh(pc: Pc, input: Input)
    requires !(pc.Renewing? && Advance(pc, input).RefreshSent?)
    ensures forall r | r in Emits(pc, input) :: !r.Refresh?
  {
    forall r | r in Emits(pc, input)
      ensures !r.Refresh?
    {
      if r.Refresh? {
        OnlyRenewingRefreshes(pc, input, r);
      }
    }
  }

  lemma NoRefreshAdded(sent: multiset<Request>, more: seq<Request>, o: Origin, token: string)
    requires forall r | r in more :: !r.Refresh?
    ensures (sent + multiset(more))[Refresh(o, token)] == sent[Refresh(o, token)]
  {
    assert Refresh(o, token) !in more;
  }

  lemma OtherStepSpends(s: System, p: Pid, input: Input)
    requires Base(s) && SpendOk(s) && p in s.procs && Writes(s.procs[p], input).None?
    requires !(s.procs[p].Renewing? && Advance(s.procs[p], input).RefreshSent?)
    requires Pending(Advance(s.procs[p], input)).Some? ==> Pending(s.procs[p]).Some?
    ensures SpendOk(AfterStep(s, p, input))
  {
    StepView(s, p, input);
    var pc := s.procs[p];
    var l, m := View(s), View(AfterStep(s, p, input));
    assert m.stored == l.stored && l.excused <= m.excused;
    assert SameSends(l, m) by {
      OtherSendsNoRefresh(pc, input);
      forall o: Origin, token: string
        ensures m.sent[Refresh(o, token)] == l.sent[Refresh(o, token)]
      {
        NoRefreshAdded(l.sent, Emits(pc, input), o, token);
      }
    }
    assert FewerPending(l, m) by {
      if Pending(Advance(pc, input)).Some? {
        PendingComesFromAnswer(pc, input);
      }
    }
    assert l.spending.Some? ==> m.spending == l.spending || At(l.spending.value.0, l.spending.value.1) in m.excused by {
      if Spending(pc).Some? {
        SpendingEndsWithSave(pc, input);
      }
    }
    Quiet(l, m);
  }

  lemma OpenedMovesNothing(s: System, p: Pid)
    requires Enabled(s, Open(p))
    ensures Pending(Opened(s, p)).Some? ==> Pending(Opened(s, p)) == Pending(s.procs[p])
    ensures Spending(Opened(s, p)).None?
  {
  }

  lemma OpenSpends(s: System, p: Pid)
    requires LockOk(s) && SpendOk(s) && Enabled(s, Open(p))
    ensures SpendOk(Next(s, Open(p)))
  {
    OpenedMovesNothing(s, p);
    ReceivedUpdate(s.procs, p, Opened(s, p));
    Quiet(View(s), View(Next(s, Open(p))));
  }

  lemma OnlyHolderSpends(pc: Pc)
    requires Spending(pc).Some?
    ensures Locks(pc) && !Ended(pc)
  {
  }

  lemma LeaveSpends(s: System, a: Action)
    requires LockOk(s) && SpendOk(s) && Enabled(s, a) && (a.Exit? || a.Crash?)
    ensures SpendOk(Next(s, a))
  {
    var l, m := View(s), View(Next(s, a));
    if Spending(s.procs[a.p]).Some? {
      OnlyHolderSpends(s.procs[a.p]);
    }
    assert m.stored == l.stored && FewerPending(l, m);
    Quiet(l, m);
  }

  lemma ArriveSpends(s: System, a: Action)
    requires LockOk(s) && SpendOk(s) && Enabled(s, a) && (a.Launch? || a.OpenFails?)
    ensures SpendOk(Next(s, a))
  {
    var l, m := View(s), View(Next(s, a));
    assert m.stored == l.stored && FewerPending(l, m);
    assert m.spending == l.spending;
    Quiet(l, m);
  }

  lemma SpendKept(s: System, a: Action)
    requires Base(s) && Isolated(s) && SpendOk(s) && Enabled(s, a)
    ensures SpendOk(Next(s, a))
  {
    if a.Open? {
      OpenSpends(s, a.p);
    } else if a.Exit? || a.Crash? {
      LeaveSpends(s, a);
    } else if !a.Step? {
      ArriveSpends(s, a);
    } else {
      var pc := s.procs[a.p];
      if pc.Renewing? && Advance(pc, a.input).RefreshSent? {
        RefreshSendSpends(s, a.p, a.input);
      } else if Pending(Advance(pc, a.input)).Some? && Pending(pc).None? {
        ReceivedSpends(s, a.p, a.input);
      } else if Writes(pc, a.input).None? {
        OtherStepSpends(s, a.p, a.input);
      } else {
        SavedSpends(s, a.p, a.input);
      }
    }
  }
}
