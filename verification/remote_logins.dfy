/** Logins: what may appear in the file, what may change there, and where every
    approved session ends. */
module RemoteLogins {
  import opened RemoteStore
  import opened RemoteSession
  import opened RemoteSystem
  import opened RemoteSafety

  /** The login's own revocation has gone out. */
  predicate Disowned(s: System, a: (Pid, Key, Token)) {
    a in s.disowned && Revoke(a.1.origin, a.2.access) in s.sent
  }

  /** Stored or disowned by its own login, still carried by it, or lost in its crash. */
  predicate AccountedFor(s: System, a: (Pid, Key, Token)) {
    || a in s.kept
    || Disowned(s, a)
    || a in s.abandoned
    || (a.0 in s.procs && a in Carried(a.0, s.procs[a.0]))
  }

  predicate AllAccountedFor(s: System) {
    forall a | a in s.approved :: AccountedFor(s, a)
  }

  /** Per key, logins stored minus credentials removed is what the file holds. */
  ghost predicate Counted(s: System) {
    forall k: Key :: s.logins[k] == s.removals[k] + (if k in s.disk.credentials then 1 else 0)
  }

  lemma CarriedMovesOn(pc: Pc, input: Input, p: Pid, a: (Pid, Key, Token))
    requires a in Carried(p, pc)
    ensures || a in Carried(p, Advance(pc, input))
            || (pc.Storing? && Writes(pc, input).Some?)
            || (pc.Disowning? && Emits(pc, input) == [Revoke(a.1.origin, a.2.access)])
  {
  }

  lemma StepAccounts(s: System, p: Pid, input: Input, x: (Pid, Key, Token))
    requires p in s.procs && x in s.approved && AccountedFor(s, x)
    ensures AccountedFor(AfterStep(s, p, input), x)
  {
    if x in Carried(p, s.procs[p]) {
      CarriedMovesOn(s.procs[p], input, p, x);
    }
  }

  lemma OutsideAccounts(s: System, a: Action, x: (Pid, Key, Token))
    requires Enabled(s, a) && !a.Step? && AccountedFor(s, x)
    ensures AccountedFor(Next(s, a), x)
  {
  }

  lemma AccountsKept(s: System, a: Action)
    requires AllAccountedFor(s) && Enabled(s, a)
    ensures AllAccountedFor(Next(s, a))
  {
    var t := Next(s, a);
    forall x | x in t.approved
      ensures AccountedFor(t, x)
    {
      if x in s.approved {
        if a.Step? {
          StepAccounts(s, a.p, a.input, x);
        } else {
          OutsideAccounts(s, a, x);
        }
      }
    }
  }

  datatype Change =
    | Fewer                       // keys removed, the others untouched
    | Rotated(k: Key, token: Token) // one key, only its token
    | Added(k: Key, c: Credential)  // one key that was free

  ghost predicate Changes(before: map<Key, Credential>, after: map<Key, Credential>, change: Change) {
    match change
    case Fewer => after.Keys <= before.Keys && forall k | k in after :: after[k] == before[k]
    case Rotated(k, token) => k in before && after == before[k := before[k].(token := token)]
    case Added(k, c) => k !in before && after == before[k := c]
  }

  /** A login never overwrites a credential, and nobody rewrites another profile. */
  lemma StepWrites(s: System, p: Pid, input: Input) returns (change: Change)
    requires Base(s) && p in s.procs
    ensures Changes(s.disk.credentials, AfterStep(s, p, input).disk.credentials, change)
    ensures change.Added? <==> s.procs[p].Storing? && Writes(s.procs[p], input).Some?
    ensures change.Added? ==> change.k == LoginKey(s.procs[p].login)
  {
    var pc := s.procs[p];
    if Writes(pc, input).Some? {
      assert HeldOk(pc, s.disk);
    }
    change := match pc
      case Rotating(c, _) =>
        if Writes(pc, input).Some? then Rotated(c.key, c.credential.token) else Fewer
      case Storing(l, userId, token, _) =>
        if Writes(pc, input).Some? then Added(LoginKey(l), Credential(l.base, userId, token)) else Fewer
      case _ => Fewer;
  }

  lemma CountsKept(s: System, a: Action)
    requires Base(s) && Counted(s) && Enabled(s, a)
    ensures Counted(Next(s, a))
  {
    if a.Step? {
      var change := StepWrites(s, a.p, a.input);
    }
  }

  lemma WriteKeepsBinding(pc: Pc, disk: State, input: Input, profile: string)
    requires HeldOk(pc, disk) && Writes(pc, input).Some? && profile in disk.servers
    ensures var next := Writes(pc, input).value;
            profile in next.servers && next.servers[profile] == disk.servers[profile]
  {
  }

  /** A bound profile stays bound to its origin. */
  lemma BindingsKept(s: System, a: Action, profile: string)
    requires Base(s) && Enabled(s, a) && profile in s.disk.servers
    ensures profile in Next(s, a).disk.servers && Next(s, a).disk.servers[profile] == s.disk.servers[profile]
  {
    if a.Step? && Writes(s.procs[a.p], a.input).Some? {
      assert Locks(s.procs[a.p]);
      assert HeldOk(s.procs[a.p], s.disk);
      WriteKeepsBinding(s.procs[a.p], s.disk, a.input, profile);
    }
  }

  // ---------- the history is what happened ----------

  /** An approval is recorded when it arrives. */
  lemma ApprovalIsRecorded(s: System, p: Pid, input: Input)
    requires p in s.procs && s.procs[p].PollSent? && Advance(s.procs[p], input).Approved?
    ensures (p, LoginKey(s.procs[p].login), Advance(s.procs[p], input).token) in AfterStep(s, p, input).approved
    ensures s.approved <= AfterStep(s, p, input).approved
  {
  }

  /** A stored session is recorded when the file is replaced, and at no other time. */
  lemma StoringIsRecorded(s: System, p: Pid, input: Input)
    requires p in s.procs
    ensures var pc, t := s.procs[p], AfterStep(s, p, input);
            if pc.Storing? && Writes(pc, input).Some?
            then t.logins == s.logins + multiset{LoginKey(pc.login)} && (p, LoginKey(pc.login), pc.token) in t.kept
            else t.logins == s.logins && t.kept == s.kept
  {
  }
}
