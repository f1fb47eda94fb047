/** What every step of RemoteSystem keeps about the lock, the memory of its holder and
    where tokens may go. */
module RemoteSafety {
  import opened Wrappers
  import opened RemoteStore
  import opened RemoteSession
  import opened RemoteSystem

  // ---------- the lock, and what its holder has in memory ----------

  ghost predicate LockOk(s: System) {
    && (forall p | p in s.procs && Locks(s.procs[p]) :: s.lock == Some(p))
    && (s.lock.Some? ==> s.lock.value in s.procs && Locks(s.procs[s.lock.value]))
  }

  ghost predicate Loaded(c: Call, disk: State) {
    c.memory == disk && c.key in disk.credentials && c.credential == disk.credentials[c.key]
  }

  ghost predicate Gone(outcome: Outcome) {
    outcome in {HttpError(401), LoginRequired, RefreshUnusable, LoggedOut}
  }

  ghost predicate HeldOk(pc: Pc, disk: State) {
    match pc
    case Entered(c) => Loaded(c, disk)
    case Renewing(c) => Loaded(c, disk)
    case RefreshSent(c) => Loaded(c, disk) && c.credential.token.refresh != ""
    case Calling(c) => Loaded(c, disk)
    case CallSent(c) => Loaded(c, disk)
    case Forgetting(c, spent, after) =>
      && c.key in disk.credentials
      && c.memory.servers == disk.servers
      && c.memory.credentials.Keys <= disk.credentials.Keys - {c.key}
      && (forall k | k in c.memory.credentials :: c.memory.credentials[k] == disk.credentials[k])
      && (spent.Some? ==> disk.credentials[c.key].token.refresh == spent.value)
      && !after.Served?
    case Rotating(c, replaced) =>
      && c.key in disk.credentials
      && disk.credentials[c.key].token.refresh == replaced
      && c.credential == disk.credentials[c.key].(token := c.credential.token)
      && c.credential.token.refresh != ""
      && c.memory == disk.(credentials := disk.credentials[c.key := c.credential])
    case Returned(c, outcome) =>
      && (outcome.Served? ==> Loaded(c, disk))
      && (Gone(outcome) ==> c.key !in disk.credentials)
    case Storing(l, userId, token, memory) =>
      && token.refresh != ""
      && LoginKey(l) !in disk.credentials
      && Resolve(l.sel, disk) == Ok(l.base)
      && memory.servers == Bind(disk, l.sel, l.base).servers
      && memory.credentials == disk.credentials[LoginKey(l) := Credential(l.base, userId, token)]
    case _ => true
  }

  ghost predicate HolderOk(s: System) {
    s.lock.Some? && s.lock.value in s.procs ==> HeldOk(s.procs[s.lock.value], s.disk)
  }

  ghost predicate ApprovedOk(s: System) {
    forall p | p in s.procs && s.procs[p].Approved? :: s.procs[p].token.refresh != ""
  }

  /** Credentials sit under their own origin and stay reachable by a selection. */
  ghost predicate KeysOk(disk: State) {
    && (forall k | k in disk.credentials :: disk.credentials[k].url == k.origin)
    && (forall k | k in disk.credentials ::
          ProfileName(k.profile) && (k.profile == "default" || Registered(disk, k.profile) == Some(k.origin)))
  }

  ghost predicate Base(s: System) {
    LockOk(s) && HolderOk(s) && KeysOk(s.disk) && ApprovedOk(s)
  }

  lemma ForgetHeld(c: Call, disk: State, spent: Option<string>, after: Outcome)
    requires c.key in disk.credentials && c.memory.servers == disk.servers && !after.Served?
    requires forall k | k in c.memory.credentials ::
               k in disk.credentials && c.memory.credentials[k] == disk.credentials[k]
    requires spent.Some? ==> disk.credentials[c.key].token.refresh == spent.value
    ensures HeldOk(Forget(c, spent, after), disk)
  {
  }

  lemma RotateHeld(c: Call, disk: State, next: Token)
    requires Loaded(c, disk) && KeysOk(disk) && next.refresh != ""
    ensures HeldOk(Rotate(c, next), disk)
  {
  }

  /** Steps that leave the file alone. */
  lemma QuietStepHeld(pc: Pc, disk: State, input: Input)
    requires Locks(pc) && HeldOk(pc, disk) && KeysOk(disk) && Writes(pc, input).None?
    ensures Locks(Advance(pc, input)) && HeldOk(Advance(pc, input), disk)
  {
    var next := Advance(pc, input);
    if next.Forgetting? && !pc.Forgetting? {
      var c := if pc.Returned? && pc.call.goal.Logout? && pc.call.goal.all then Wipe(pc.call) else pc.call;
      assert next == Forget(c, next.spent, next.after);
      ForgetHeld(c, disk, next.spent, next.after);
    } else if pc.RefreshSent? && next.Rotating? {
      RotateHeld(pc.call, disk, input.reply.body.token.value);
    }
  }

  lemma SavingStepHeld(pc: Pc, disk: State, input: Input)
    requires Locks(pc) && HeldOk(pc, disk) && KeysOk(disk) && Writes(pc, input).Some?
    ensures Locks(Advance(pc, input)) && HeldOk(Advance(pc, input), Writes(pc, input).value)
    ensures KeysOk(Writes(pc, input).value)
  {
    match pc
    case Forgetting(c, _, _) =>
    case Rotating(c, _) =>
    case Storing(l, userId, token, memory) =>
      StoredKeysOk(l, disk, memory, userId, token);
  }

  lemma StepHeld(pc: Pc, disk: State, input: Input)
    requires Locks(pc) && HeldOk(pc, disk) && KeysOk(disk)
    ensures Locks(Advance(pc, input))
    ensures HeldOk(Advance(pc, input), DiskAfter(disk, pc, input))
    ensures KeysOk(DiskAfter(disk, pc, input))
  {
    if Writes(pc, input).Some? {
      SavingStepHeld(pc, disk, input);
    } else {
      QuietStepHeld(pc, disk, input);
    }
  }

  lemma StoredKeysOk(l: LoginRun, disk: State, memory: State, userId: string, token: Token)
    requires HeldOk(Storing(l, userId, token, memory), disk) && KeysOk(disk)
    ensures KeysOk(memory)
  {
  }

  lemma UnlockedWritesNothing(pc: Pc, input: Input)
    requires !Locks(pc)
    ensures !Locks(Advance(pc, input)) && Writes(pc, input).None?
    ensures Advance(pc, input).Approved? && !pc.Approved? ==> Advance(pc, input).token.refresh != ""
  {
  }

  lemma OpenedHeld(s: System, p: Pid)
    requires Enabled(s, Open(p)) && KeysOk(s.disk) && ApprovedOk(s)
    ensures Locks(Opened(s, p)) ==> HeldOk(Opened(s, p), s.disk)
    ensures !Opened(s, p).Approved?
  {
  }

  lemma StepBase(s: System, p: Pid, input: Input)
    requires Base(s) && p in s.procs
    ensures Base(AfterStep(s, p, input))
  {
    if Locks(s.procs[p]) {
      StepHeld(s.procs[p], s.disk, input);
    } else {
      UnlockedWritesNothing(s.procs[p], input);
    }
  }

  lemma OpenBase(s: System, p: Pid)
    requires Base(s) && Enabled(s, Open(p))
    ensures Base(Next(s, Open(p)))
  {
    OpenedHeld(s, p);
  }

  lemma BaseKept(s: System, a: Action)
    requires Base(s) && Enabled(s, a)
    ensures Base(Next(s, a))
  {
    match a
    case Step(p, input) => StepBase(s, p, input);
    case Open(p) => OpenBase(s, p);
    case _ =>
  }

  // ---------- bearers go only to their issuer ----------

  /** What a process carries was issued by the origin it talks to. */
  ghost predicate CarriesIssued(pc: Pc, access: set<(Origin, string)>, refresh: set<(Origin, string)>) {
    match pc
    case Approved(l, _, token) => (l.base, token.access) in access && (l.base, token.refresh) in refresh
    case Storing(l, _, token, _) => (l.base, token.access) in access && (l.base, token.refresh) in refresh
    case Disowning(l, token, _) => (l.base, token.access) in access
    case Rotating(c, _) =>
      (c.key.origin, c.credential.token.access) in access && (c.key.origin, c.credential.token.refresh) in refresh
    case Unrotated(c) => (c.key.origin, c.credential.token.access) in access
    case _ => true
  }

  ghost predicate DiskIssued(disk: State, access: set<(Origin, string)>, refresh: set<(Origin, string)>) {
    forall k | k in disk.credentials ::
      (k.origin, disk.credentials[k].token.access) in access && (k.origin, disk.credentials[k].token.refresh) in refresh
  }

  ghost predicate RequestIssued(r: Request, access: set<(Origin, string)>, refresh: set<(Origin, string)>) {
    match r
    case Refresh(origin, token) => (origin, token) in refresh
    case Target(origin, _, token) => (origin, token) in access
    case Revoke(origin, token) => (origin, token) in access
    case _ => true
  }

  ghost predicate Isolated(s: System) {
    && DiskIssued(s.disk, s.issuedAccess, s.issuedRefresh)
    && (forall p | p in s.procs :: CarriesIssued(s.procs[p], s.issuedAccess, s.issuedRefresh))
    && (forall r | r in s.sent :: RequestIssued(r, s.issuedAccess, s.issuedRefresh))
  }

  lemma WrittenIssued(pc: Pc, input: Input, disk: State, access: set<(Origin, string)>, refresh: set<(Origin, string)>)
    requires Locks(pc) && HeldOk(pc, disk) && DiskIssued(disk, access, refresh) && CarriesIssued(pc, access, refresh)
    ensures DiskIssued(DiskAfter(disk, pc, input), access, refresh)
  {
  }

  lemma AdvanceIssued(pc: Pc, input: Input, access: set<(Origin, string)>, refresh: set<(Origin, string)>)
    requires CarriesIssued(pc, access, refresh)
    requires Issues(pc, input).Some? ==>
               var (origin, token) := Issues(pc, input).value;
               (origin, token.access) in access && (origin, token.refresh) in refresh
    ensures CarriesIssued(Advance(pc, input), access, refresh)
  {
  }

  lemma SentIssued(s: System, p: Pid, input: Input)
    requires Base(s) && Isolated(s) && p in s.procs
    ensures var t := AfterStep(s, p, input); forall r | r in t.sent :: RequestIssued(r, t.issuedAccess, t.issuedRefresh)
  {
    var t := AfterStep(s, p, input);
    forall r | r in t.sent
      ensures RequestIssued(r, t.issuedAccess, t.issuedRefresh)
    {
      if r !in s.sent {
        EmitsIssued(s, p, input, r);
      }
    }
  }

  lemma StepIsolated(s: System, p: Pid, input: Input)
    requires Base(s) && Isolated(s) && p in s.procs
    ensures Isolated(AfterStep(s, p, input))
  {
    var pc, t := s.procs[p], AfterStep(s, p, input);
    assert CarriesIssued(pc, t.issuedAccess, t.issuedRefresh);
    AdvanceIssued(pc, input, t.issuedAccess, t.issuedRefresh);
    if Locks(pc) {
      WrittenIssued(pc, input, s.disk, t.issuedAccess, t.issuedRefresh);
    }
    SentIssued(s, p, input);
  }

  lemma EmitsIssued(s: System, p: Pid, input: Input, r: Request)
    requires Base(s) && Isolated(s) && p in s.procs && r in Emits(s.procs[p], input)
    ensures RequestIssued(r, s.issuedAccess, s.issuedRefresh)
  {
    var pc := s.procs[p];
    assert CarriesIssued(pc, s.issuedAccess, s.issuedRefresh);
    if Locks(pc) {
      assert HeldOk(pc, s.disk);
    }
  }

  lemma IsolatedKept(s: System, a: Action)
    requires Base(s) && Isolated(s) && Enabled(s, a)
    ensures Isolated(Next(s, a))
  {
    match a
    case Step(p, input) => StepIsolated(s, p, input);
    case Open(p) =>
      assert CarriesIssued(s.procs[p], s.issuedAccess, s.issuedRefresh);
      assert CarriesIssued(Opened(s, p), s.issuedAccess, s.issuedRefresh);
    case _ =>
  }
}
