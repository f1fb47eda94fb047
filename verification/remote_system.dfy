/** Any number of administrator processes sharing one locked credential file, against
    servers that may answer anything. A run is a list of actions in any order; what
    holds of every run is proved in RemoteSafety. */
module RemoteSystem {
  import opened Wrappers
  import opened RemoteStore
  import opened RemoteSession

  type Pid = nat

  datatype System = System(
    disk: State,
    lock: Option<Pid>,
    procs: map<Pid, Pc>,
    // history
    sent: multiset<Request>,
    issuedAccess: set<(Origin, string)>,
    issuedRefresh: set<(Origin, string)>,
    excused: set<(Origin, string)>,
    kept: set<(Pid, Key, Token)>,
    disowned: set<(Pid, Key, Token)>,
    approved: set<(Pid, Key, Token)>,
    abandoned: set<(Pid, Key, Token)>,
    logins: multiset<Key>,
    removals: multiset<Key>)

  datatype Action =
    | Launch(p: Pid, command: Command)
    | Open(p: Pid)
    | OpenFails(p: Pid)
    | Step(p: Pid, input: Input)
    | Exit(p: Pid)
    | Crash(p: Pid)

  /** The refresh token a process has sent and not yet replaced or removed on disk. */
  function Spending(pc: Pc): Option<(Key, string)> {
    match pc
    case RefreshSent(c) => Some((c.key, c.credential.token.refresh))
    case Forgetting(c, spent, _) => if spent.Some? then Some((c.key, spent.value)) else None
    case Rotating(c, replaced) => Some((c.key, replaced))
    case _ => None
  }

  /** The refresh token a process has received and not yet stored. */
  function Pending(pc: Pc): Option<(Origin, string)> {
    match pc
    case Rotating(c, _) => Some((c.key.origin, c.credential.token.refresh))
    case Approved(l, _, token) => Some((l.base, token.refresh))
    case Storing(l, _, token, _) => Some((l.base, token.refresh))
    case _ => None
  }

  function Spent(pc: Pc): set<(Origin, string)> {
    if Spending(pc).Some? then {(Spending(pc).value.0.origin, Spending(pc).value.1)} else {}
  }

  /** The approved session a login has neither stored nor disowned yet. */
  function Carried(p: Pid, pc: Pc): set<(Pid, Key, Token)> {
    match pc
    case Approved(l, _, token) => {(p, LoginKey(l), token)}
    case Storing(l, _, token, _) => {(p, LoginKey(l), token)}
    case Disowning(l, token, _) => {(p, LoginKey(l), token)}
    case _ => {}
  }

  predicate Enabled(s: System, a: Action) {
    match a
    case Launch(p, _) => p !in s.procs
    case Open(p) => p in s.procs && s.lock.None? && (s.procs[p].Opening? || s.procs[p].Approved?)
    case OpenFails(p) => p in s.procs && (s.procs[p].Opening? || s.procs[p].Approved?)
    case Step(p, _) => p in s.procs
    case Exit(p) => p in s.procs && Ended(s.procs[p])
    case Crash(p) => p in s.procs
  }

  function Unlock(s: System, p: Pid): Option<Pid> {
    if s.lock == Some(p) then None else s.lock
  }

  function Opened(s: System, p: Pid): Pc
    requires p in s.procs && (s.procs[p].Opening? || s.procs[p].Approved?)
  {
    match s.procs[p]
    case Opening(command) =>
      if command.Session? then OpenSession(command, s.disk) else OpenLogin(command.sel, s.disk)
    case Approved(_, _, _) => Reopen(s.procs[p], s.disk)
  }

  /** The save did not replace the file. */
  predicate SaveLost(input: Input) {
    input.Saved? && input.outcome.NotReplaced?
  }

  /** A server handed out a refresh token it had handed out before. */
  predicate Reissued(s: System, pc: Pc, input: Input) {
    Issues(pc, input).Some?
    && (Issues(pc, input).value.0, Issues(pc, input).value.1.refresh) in s.issuedRefresh
  }

  /** What the step makes excusable: the token being spent when its save is lost, and
      a refresh token issued twice. */
  function Excuses(s: System, pc: Pc, input: Input): set<(Origin, string)> {
    (if SaveLost(input) then Spent(pc) else {})
    + (if Reissued(s, pc, input) then {(Issues(pc, input).value.0, Issues(pc, input).value.1.refresh)} else {})
  }

  function AfterStep(s: System, p: Pid, input: Input): System
    requires p in s.procs
  {
    var pc := s.procs[p];
    var disk := DiskAfter(s.disk, pc, input);
    var issued := Issues(pc, input);
    s.(procs := s.procs[p := Advance(pc, input)],
       sent := s.sent + multiset(Emits(pc, input)),
       disk := disk,
       issuedAccess := s.issuedAccess + (if issued.Some? then {(issued.value.0, issued.value.1.access)} else {}),
       issuedRefresh := s.issuedRefresh + (if issued.Some? then {(issued.value.0, issued.value.1.refresh)} else {}),
       excused := s.excused + Excuses(s, pc, input),
       kept := s.kept + (if pc.Storing? && Writes(pc, input).Some? then Carried(p, pc) else {}),
       disowned := s.disowned + (if pc.Disowning? && Emits(pc, input) != [] then Carried(p, pc) else {}),
       approved := s.approved + (if pc.PollSent? then Carried(p, Advance(pc, input)) else {}),
       logins := s.logins
         + (if pc.Storing? && Writes(pc, input).Some? then multiset{LoginKey(pc.login)} else multiset{}),
       removals := s.removals + multiset(s.disk.credentials.Keys - disk.credentials.Keys))
  }

  function Next(s: System, a: Action): System
    requires Enabled(s, a)
  {
    match a
    case Launch(p, command) =>
      s.(procs := s.procs[p := Opening(command)])
    case Open(p) =>
      var pc := Opened(s, p);
      s.(procs := s.procs[p := pc], lock := if Locks(pc) then Some(p) else None)
    case OpenFails(p) =>
      var pc := s.procs[p];
      s.(procs := s.procs[p := if pc.Approved? then Disowning(pc.login, pc.token, false) else Failed])
    case Step(p, input) =>
      AfterStep(s, p, input)
    case Exit(p) =>
      s.(procs := s.procs - {p}, lock := Unlock(s, p))
    case Crash(p) =>
      s.(procs := s.procs - {p}, lock := Unlock(s, p), excused := s.excused + Spent(s.procs[p]),
         abandoned := s.abandoned + Carried(p, s.procs[p]))
  }

  /** A file as earlier runs leave it: every credential under its own origin, reachable
      by some selection, no refresh token stored twice. */
  predicate WellKept(st: State) {
    && (forall k | k in st.credentials :: st.credentials[k].url == k.origin)
    && (forall k | k in st.credentials ::
          ProfileName(k.profile) && (k.profile == "default" || Registered(st, k.profile) == Some(k.origin)))
    && (forall k, k' | k in st.credentials && k' in st.credentials && k != k' && k.origin == k'.origin ::
          st.credentials[k].token.refresh == "" || st.credentials[k].token.refresh != st.credentials[k'].token.refresh)
  }

  predicate Init(s: System) {
    && WellKept(s.disk)
    && s.lock.None?
    && s.procs == map[]
    && s.sent == multiset{}
    && s.issuedAccess == (set k | k in s.disk.credentials :: (k.origin, s.disk.credentials[k].token.access))
    && s.issuedRefresh == (set k | k in s.disk.credentials :: (k.origin, s.disk.credentials[k].token.refresh))
    && s.excused == {}
    && s.kept == {}
    && s.disowned == {}
    && s.approved == {}
    && s.abandoned == {}
    && s.logins == multiset(s.disk.credentials.Keys)
    && s.removals == multiset{}
  }

  predicate Feasible(s: System, run: seq<Action>)
    decreases run
  {
    run == [] || (Enabled(s, run[0]) && Feasible(Next(s, run[0]), run[1..]))
  }

  function After(s: System, run: seq<Action>): System
    requires Feasible(s, run)
    decreases run
  {
    if run == [] then s else After(Next(s, run[0]), run[1..])
  }
}
