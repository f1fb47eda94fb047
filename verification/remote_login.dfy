/** `runRemoteLogin` of cmd/warmblyctl/remote_auth.go as the method it is: look at the
    file, ask for a code, wait for the approval without the lock, look again and store.
    A ghost control point follows every effect, so a login is one walk of the machine in
    RemoteSession, and each of its moves is a step of the shared system. */
module RemoteLogin {
  import opened Wrappers
  import opened RemoteStore
  import opened RemoteSession
  import opened RemoteSystem
  import opened RemoteClient

  /** An effect of a login: an input of the machine, or a try for the lock. */
  datatype Move = Act(input: Input) | Look(disk: State) | NoLook

  function MoveOn(pc: Pc, m: Move): Pc {
    match m
    case Act(input) => Advance(pc, input)
    case Look(disk) =>
      if pc.Approved? then Reopen(pc, disk)
      else if pc.Opening? && pc.command.Login? then OpenLogin(pc.command.sel, disk)
      else pc
    case NoLook =>
      if pc.Approved? then Disowning(pc.login, pc.token, false)
      else if pc.Opening? then Failed
      else pc
  }

  function Says(pc: Pc, m: Move): seq<Request> {
    if m.Act? then Emits(pc, m.input) else []
  }

  function Leaves(pc: Pc, m: Move): seq<State> {
    if m.Act? && Writes(pc, m.input).Some? then [Writes(pc, m.input).value] else []
  }

  /** Any machine driven by moves; the walks below do not look inside its steps. */
  datatype Machine = Machine(next: (Pc, Move) -> Pc, says: (Pc, Move) -> seq<Request>, leaves: (Pc, Move) -> seq<State>)

  const LOGIN := Machine(MoveOn, Says, Leaves)

  function Before(moves: seq<Move>): seq<Move>
    requires moves != []
  {
    moves[..|moves| - 1]
  }

  function Walk(x: Machine, pc: Pc, moves: seq<Move>): Pc {
    if moves == [] then pc else x.next(Walk(x, pc, Before(moves)), moves[|moves| - 1])
  }

  function Said(x: Machine, pc: Pc, moves: seq<Move>): seq<Request> {
    if moves == [] then []
    else Said(x, pc, Before(moves)) + x.says(Walk(x, pc, Before(moves)), moves[|moves| - 1])
  }

  function Left(x: Machine, pc: Pc, moves: seq<Move>): seq<State> {
    if moves == [] then []
    else Left(x, pc, Before(moves)) + x.leaves(Walk(x, pc, Before(moves)), moves[|moves| - 1])
  }

  lemma OneMove(x: Machine, pc: Pc, moves: seq<Move>, m: Move)
    ensures Walk(x, pc, moves + [m]) == x.next(Walk(x, pc, moves), m)
    ensures Said(x, pc, moves + [m]) == Said(x, pc, moves) + x.says(Walk(x, pc, moves), m)
    ensures Left(x, pc, moves + [m]) == Left(x, pc, moves) + x.leaves(Walk(x, pc, moves), m)
  {
    assert Before(moves + [m]) == moves;
  }

  /** The machine of a login. The trigger keeps walks folded: steps are looked up one at a time. */
  ghost predicate IsLoginMachine(x: Machine) {
    forall q, m {:trigger MoveOn(q, m)} ::
      x.next(q, m) == MoveOn(q, m) && x.says(q, m) == Says(q, m) && x.leaves(q, m) == Leaves(q, m)
  }

  lemma LoginIsLoginMachine()
    ensures IsLoginMachine(LOGIN)
  {
  }

  datatype LoginError =
    | StoreUnavailable
    | NotSelected(error: SelectionError)
    | AlreadyLoggedIn
    | RequestFailed
    | InvalidResponse
    | ContractMismatch
    | DeviceExpired
    | DeviceDenied
    | TokenInvalid
    | ProfileChanged
    | StorageFailed

  type Verdict = Result<Approval, LoginError>

  /** The shared file. Other processes may have replaced it whenever the lock is taken. */
  class Shared {
    var content: State
    var held: bool
    var written: seq<State>

    constructor (content: State)
      ensures this.content == content && !held && written == []
    {
      this.content, held, written := content, false, [];
    }

    method Open() returns (loaded: Option<State>)
      requires !held
      modifies this`content, this`held
      ensures held == loaded.Some?
      ensures loaded.Some? ==> content == loaded.value
    {
      content := *;
      held := *;
      loaded := if held then Some(content) else None;
    }

    method Save(state: State) returns (outcome: SaveOutcome)
      requires held
      modifies this`content, this`written
      ensures content == if outcome.NotReplaced? then old(content) else state
      ensures written == old(written) + (if outcome.NotReplaced? then [] else [state])
    {
      outcome := *;
      if !outcome.NotReplaced? {
        content := state;
        written := written + [state];
      }
    }

    method Close()
      modifies this`held
      ensures !held
    {
      held := false;
    }
  }

  /** `Retry-After` of a 429, when it is a whole number of seconds up to an hour; else 0. */
  method RetryAfter() returns (seconds: int)
    ensures 0 <= seconds <= 3600
  {
    seconds :| 0 <= seconds <= 3600;
  }

  method Pause(now: int, seconds: int) returns (cancelled: bool, later: int)
    ensures later >= now + seconds
  {
    cancelled := *;
    later :| later >= now + seconds;
  }

  /** The wait before the next poll: what a 429 asked for, if that is above the grant's own
      interval. A later, smaller Retry-After shortens it again. */
  method NextInterval(interval: int, least: int, busy: bool) returns (next: int, retry: int)
    ensures 0 <= retry <= 3600 && next == if busy && retry > least then retry else interval
  {
    next, retry := interval, 0;
    if busy {
      retry := RetryAfter();
      if retry > least {
        next := retry;
      }
    }
  }

  /** What that many waits of at least `interval` add up to. */
  function Product(polls: nat, interval: int): int {
    if polls == 0 then 0 else Product(polls - 1, interval) + interval
  }

  lemma {:induction false} ProductIs(polls: nat, interval: int)
    ensures Product(polls, interval) == polls * interval
  {
    if polls == 0 {
    } else {
      ProductIs(polls - 1, interval);
      assert polls * interval == (polls - 1) * interval + interval;
    }
  }

  lemma {:induction false} ProductAtLeast(polls: nat, interval: int, least: int)
    requires least <= interval
    ensures Product(polls, least) <= Product(polls, interval)
  {
    if polls == 0 {
    } else {
      ProductAtLeast(polls - 1, interval, least);
    }
  }

  /** Approval lifetimes are at most 300 seconds and intervals at least 5. */
  lemma AtMostSixty(polls: nat, interval: int, expiresIn: int)
    requires 5 <= interval && expiresIn <= 300 && Product(polls, interval) <= expiresIn
    ensures polls <= 60
  {
    ProductAtLeast(polls, interval, 5);
    ProductIs(polls, 5);
  }

  function Stored(disk: State, l: LoginRun, userId: string, token: Token): State {
    var bound := Bind(disk, l.sel, l.base);
    bound.(credentials := bound.credentials[LoginKey(l) := Credential(l.base, userId, token)])
  }

  /** The second look found the profile still free and still bound to the same origin. */
  predicate StillFree(disk: State, l: LoginRun) {
    Resolve(l.sel, disk) == Ok(l.base) && LoginKey(l) !in disk.credentials
  }

  class Login {
    const sel: Selection
    const file: Shared
    const wire: Wire

    // The walk of the machine so far.
    ghost const machine: Machine
    ghost const start: Pc
    ghost var moves: seq<Move>
    ghost var pc: Pc

    constructor (sel: Selection, file: Shared, wire: Wire)
      requires wire.sent == [] && file.written == []
      ensures this.sel == sel && this.file == file && this.wire == wire
      ensures IsLogin() && pc == start && OnTrack()
    {
      this.sel, this.file, this.wire := sel, file, wire;
      moves := [];
      machine, start, pc := LOGIN, Opening(Command.Login(sel)), Opening(Command.Login(sel));
    }

    ghost predicate IsLogin() {
      start == Opening(Command.Login(sel)) && IsLoginMachine(machine)
    }

    lemma Known(m: Move)
      requires IsLogin()
      ensures machine.next(pc, m) == MoveOn(pc, m) && machine.says(pc, m) == Says(pc, m)
              && machine.leaves(pc, m) == Leaves(pc, m)
    {
    }

    /** The effects so far are those of the machine. */
    ghost predicate OnTrack()
      reads this, wire, file
    {
      && pc == Walk(machine, start, moves)
      && wire.sent == Said(machine, start, moves)
      && file.written == Left(machine, start, moves)
    }

    /** Records one move once its effects are done. */
    ghost method Record(m: Move)
      requires pc == Walk(machine, start, moves)
      requires wire.sent == Said(machine, start, moves) + machine.says(pc, m)
      requires file.written == Left(machine, start, moves) + machine.leaves(pc, m)
      modifies this`moves, this`pc
      ensures OnTrack() && pc == machine.next(old(pc), m)
    {
      OneMove(machine, start, moves, m);
      moves := moves + [m];
      pc := machine.next(pc, m);
    }

    method Ask(r: Request) returns (reply: Reply)
      requires IsLogin() && OnTrack() && Emits(pc, Go) == [r] && Writes(pc, Go).None?
      modifies this`moves, this`pc, wire
      ensures OnTrack() && pc == Advance(old(pc), Go)
      ensures wire.sent == old(wire.sent) + [r]
      ensures wire.polls == old(wire.polls) + (if r.Poll? then 1 else 0)
    {
      Known(Act(Go));
      reply := wire.Send(r);
      Record(Act(Go));
    }

    method Hear(reply: Reply) returns (now: int)
      requires IsLogin() && OnTrack() && Emits(pc, Answer(reply, 0)) == [] && (pc.CodeSent? || pc.PollSent?)
      modifies this`moves, this`pc
      ensures OnTrack() && pc == Advance(old(pc), Answer(reply, now))
    {
      now := Now();
      Known(Act(Answer(reply, now)));
      Record(Act(Answer(reply, now)));
    }

    /** The first look; the lock is given back before anybody is asked. */
    method FirstLook() returns (r: Result<Origin, LoginError>)
      requires IsLogin() && OnTrack() && pc == start && !file.held
      modifies this`moves, this`pc, file`content, file`held
      ensures OnTrack() && !file.held
      ensures if r.Ok? then pc == Asking(LoginRun(sel, r.value)) else pc == Failed
    {
      var loaded := file.Open();
      if loaded.None? {
        Known(NoLook);
        Record(NoLook);
        return Err(StoreUnavailable);
      }
      Known(Look(loaded.value));
      Record(Look(loaded.value));
      file.Close();
      var resolved := Resolve(sel, loaded.value);
      if resolved.Err? {
        return Err(NotSelected(resolved.error));
      }
      if Key(resolved.value, Profile(sel)) in loaded.value.credentials {
        return Err(AlreadyLoggedIn);
      }
      return Ok(resolved.value);
    }

    method AskForCode(ghost l: LoginRun, base: Origin) returns (r: Result<Grant, LoginError>)
      requires IsLogin() && OnTrack() && pc == Asking(l) && l.base == base
      modifies this`moves, this`pc, wire
      ensures OnTrack()
      ensures if r.Ok? then pc == Waiting(l, r.value.secret) && ValidGrant(r.value, base) else pc == Failed
      ensures wire.polls == old(wire.polls)
    {
      var reply := Ask(AskCode(base));
      var now := Hear(reply);
      if !reply.Success? {
        return Err(RequestFailed);
      }
      if reply.body.grant.None? {
        return Err(InvalidResponse);
      }
      return if ValidGrant(reply.body.grant.value, base) then Ok(reply.body.grant.value) else Err(ContractMismatch);
    }

    /** What a poll's reply means; None is to ask again. */
    function Judge(reply: Reply, now: int): Option<Verdict> {
      if !reply.Success? then
        if Status(reply) == 429 then None else Some(Err(RequestFailed))
      else if reply.body.approval.None? then Some(Err(InvalidResponse))
      else
        var a := reply.body.approval.value;
        if a.status == "pending" then None
        else if a.status == "denied" then Some(Err(DeviceDenied))
        else if a.status != "approved" then Some(Err(InvalidResponse))
        else if a.userIsUuid && Usable(a.token, now) then Some(Ok(a))
        else Some(Err(TokenInvalid))
    }

    /** One poll and what its reply means; None is to ask again. */
    method PollOnce(ghost l: LoginRun, base: Origin, secret: string, sent: int)
        returns (verdict: Option<Verdict>, busy: bool, answered: int)
      requires IsLogin() && OnTrack() && pc == Waiting(l, secret) && l.base == base
      modifies this`moves, this`pc, wire
      ensures OnTrack() && wire.polls == old(wire.polls) + 1 && answered >= sent
      ensures match verdict
              case None => pc == Waiting(l, secret)
              case Some(Ok(a)) => pc == Approved(l, a.userId, a.token)
              case Some(Err(_)) => pc == Failed
    {
      var reply := Ask(Poll(base, secret));
      var now := Hear(reply);
      verdict, busy := Judge(reply, now), Status(reply) == 429;
      answered :| answered >= sent;
    }

    method GiveUp(ghost l: LoginRun, ghost secret: string) returns (r: Verdict)
      requires IsLogin() && OnTrack() && pc == Waiting(l, secret)
      modifies this`moves, this`pc
      ensures OnTrack() && pc == Failed && r.Err?
    {
      Known(Act(Expired));
      Record(Act(Expired));
      // The timer may win the race with the deadline; then the request fails unsent.
      var noticed: bool := *;
      return Err(if noticed then DeviceExpired else RequestFailed);
    }

    /** Waits at least the interval before each poll, longer when told to, and gives up at
        the deadline; it makes at most lifetime over interval polls. */
    method AwaitApproval(ghost l: LoginRun, base: Origin, g: Grant) returns (r: Verdict, ghost polls: nat)
      requires IsLogin() && OnTrack() && pc == Waiting(l, g.secret) && l.base == base && 0 < g.interval
               && 0 < g.expiresIn
      modifies this`moves, this`pc, wire
      ensures OnTrack()
      ensures if r.Ok? then pc == Approved(l, r.value.userId, r.value.token) else pc == Failed
      ensures wire.polls == old(wire.polls) + polls
      ensures Product(polls, g.interval) <= g.expiresIn
    {
      polls := 0;
      ghost var least := 0;
      var now := Now();
      ghost var began := now;
      var interval, deadline := g.interval, now + g.expiresIn;
      while true
        invariant OnTrack() && pc == Waiting(l, g.secret)
        invariant wire.polls == old(wire.polls) + polls
        invariant interval >= g.interval
        invariant least == Product(polls, g.interval) && began + least <= now && least <= g.expiresIn
        decreases if now > deadline then 0 else deadline - now + 1
      {
        var cancelled;
        cancelled, now := Pause(now, interval);
        if cancelled || now > deadline {
          r := GiveUp(l, g.secret);
          return;
        }
        var verdict, busy, answered := PollOnce(l, base, g.secret, now);
        now := answered;
        polls, least := polls + 1, least + g.interval;
        if verdict.Some? {
          return verdict.value, polls;
        }
        var retry;
        interval, retry := NextInterval(interval, g.interval, busy);
      }
    }

    /** A proper grant allows sixty polls. */
    method AwaitAnswer(ghost l: LoginRun, base: Origin, g: Grant) returns (r: Verdict)
      requires IsLogin() && OnTrack() && pc == Waiting(l, g.secret) && l.base == base && ValidGrant(g, base)
      modifies this`moves, this`pc, wire
      ensures OnTrack() && wire.polls <= old(wire.polls) + 60
      ensures if r.Ok? then pc == Approved(l, r.value.userId, r.value.token) else pc == Failed
    {
      ghost var polls;
      r, polls := AwaitApproval(l, base, g);
      AtMostSixty(polls, g.interval, g.expiresIn);
    }

    /** The second look, with the lock held; None is stored. */
    method Keep(ghost l: LoginRun, base: Origin, userId: string, token: Token, state: State)
        returns (error: Option<LoginError>)
      requires IsLogin() && OnTrack() && pc == Approved(l, userId, token) && l == LoginRun(sel, base)
      requires file.held && file.content == state
      modifies this`moves, this`pc, file`content, file`written
      ensures OnTrack() && pc == if error.None? then LoginEnded(l, token, true) else Disowning(l, token, true)
      ensures if file.written == old(file.written) then error.Some? && file.content == state
              else
                && StillFree(state, l) && error in {None, Some(StorageFailed)}
                && file.content == Stored(state, l, userId, token) && file.written == old(file.written) + [file.content]
    {
      Known(Look(state));
      Record(Look(state));
      var resolved := Resolve(sel, state);
      if resolved.Err? || resolved.value != base {
        return Some(ProfileChanged);
      }
      if Key(base, Profile(sel)) in state.credentials {
        return Some(AlreadyLoggedIn);
      }
      error := SaveSession(l, base, userId, token, state);
    }

    /** The second look found the profile free. */
    method SaveSession(ghost l: LoginRun, base: Origin, userId: string, token: Token, state: State)
        returns (error: Option<LoginError>)
      requires IsLogin() && OnTrack() && l == LoginRun(sel, base) && file.held && file.content == state
      requires pc == Storing(l, userId, token, Stored(state, l, userId, token))
      modifies this`moves, this`pc, file`content, file`written
      ensures OnTrack() && pc == if error.None? then LoginEnded(l, token, true) else Disowning(l, token, true)
      ensures error in {None, Some(StorageFailed)}
      ensures if file.written == old(file.written) then error.Some? && file.content == state
              else file.content == Stored(state, l, userId, token) && file.written == old(file.written) + [file.content]
    {
      var next := state.(credentials := state.credentials[Key(base, Profile(sel)) := Credential(base, userId, token)]);
      if sel.server != "" {
        next := next.(servers := next.servers[Profile(sel) := base]);
      }
      assert next == Stored(state, l, userId, token);
      var outcome := file.Save(next);
      Known(Act(Saved(outcome)));
      Record(Act(Saved(outcome)));
      return if outcome.Replaced? then None else Some(StorageFailed);
    }

    method Disown(ghost l: LoginRun, base: Origin, token: Token, ghost locked: bool)
      requires IsLogin() && OnTrack() && pc == Disowning(l, token, locked) && l.base == base
      modifies this`moves, this`pc, wire
      ensures OnTrack() && pc == LoginEnded(l, token, locked)
      ensures wire.polls == old(wire.polls)
      ensures wire.sent == old(wire.sent) + [Revoke(base, token.access)]
    {
      var _ := Ask(Revoke(base, token.access));
    }

    method LookFails(ghost l: LoginRun, ghost userId: string, ghost token: Token)
      requires IsLogin() && OnTrack() && pc == Approved(l, userId, token)
      modifies this`moves, this`pc
      ensures OnTrack() && pc == Disowning(l, token, false)
    {
      Known(NoLook);
      Record(NoLook);
    }

    /** Whatever is not stored is revoked. */
    method StoreSession(ghost l: LoginRun, base: Origin, userId: string, token: Token)
        returns (r: Option<LoginError>, ghost seen: Option<State>)
      requires IsLogin() && OnTrack() && pc == Approved(l, userId, token) && l == LoginRun(sel, base) && !file.held
      modifies this`moves, this`pc, wire, file
      ensures OnTrack() && !file.held && pc.LoginEnded? && pc.login == l
      ensures r.None? ==>
                && seen.Some? && StillFree(seen.value, l)
                && file.content == Stored(seen.value, l, userId, token) && file.written != old(file.written)
                && wire.sent == old(wire.sent)
      ensures wire.polls == old(wire.polls)
      ensures r.Some? ==> wire.sent == old(wire.sent) + [Revoke(base, token.access)]
      ensures file.written == old(file.written)
              || (seen.Some? && StillFree(seen.value, l)
                 && file.written == old(file.written) + [Stored(seen.value, l, userId, token)])
    {
      var loaded := file.Open();
      seen := loaded;
      if loaded.None? {
        LookFails(l, userId, token);
        Disown(l, base, token, false);
        return Some(StoreUnavailable), seen;
      }
      r := Keep(l, base, userId, token, loaded.value);
      if r.Some? {
        Disown(l, base, token, true);
      }
      file.Close();
    }

    /** One login. Nothing is written before an approval with a usable token; an approved
        session is in the file when the login succeeds, and revoked when it does not. */
    method Run() returns (r: Option<LoginError>, ghost approval: Option<Approval>, ghost seen: Option<State>)
      requires IsLogin() && OnTrack() && pc == start && !file.held
      modifies this`moves, this`pc, wire, file
      ensures OnTrack() && Ended(pc) && !file.held
      ensures wire.polls <= old(wire.polls) + 60
      ensures approval.None? ==> r.Some? && file.written == old(file.written)
      ensures approval.Some? && r.Some? ==>
                && pc.LoginEnded? && wire.sent != []
                && wire.sent[|wire.sent| - 1] == Revoke(pc.login.base, approval.value.token.access)
      ensures r.None? ==>
                && pc.LoginEnded? && approval.Some? && seen.Some? && StillFree(seen.value, pc.login)
                && file.content == Stored(seen.value, pc.login, approval.value.userId, approval.value.token)
    {
      approval, seen := None, None;
      var base := FirstLook();
      if base.Err? {
        return Some(base.error), approval, seen;
      }
      ghost var l := LoginRun(sel, base.value);
      var grant := AskForCode(l, base.value);
      if grant.Err? {
        return Some(grant.error), approval, seen;
      }
      var verdict := AwaitAnswer(l, base.value, grant.value);
      if verdict.Err? {
        return Some(verdict.error), approval, seen;
      }
      approval := Some(verdict.value);
      r, seen := StoreSession(l, base.value, verdict.value.userId, verdict.value.token);
    }
  }

  // ---------- a login is a process of the shared system ----------

  function ActionOf(p: Pid, m: Move): Action {
    match m
    case Act(input) => Step(p, input)
    case Look(_) => Open(p)
    case NoLook => OpenFails(p)
  }

  /** The lock is tried only before asking and after the approval; a look sees the file. */
  predicate Possible(s: System, p: Pid, m: Move) {
    && p in s.procs
    && (!m.Act? ==> s.procs[p].Approved? || (s.procs[p].Opening? && s.procs[p].command.Login?))
    && (m.Look? ==> s.lock.None? && m.disk == s.disk)
  }

  /** Only the process moves, and this is what it says and leaves on disk. */
  ghost predicate Moved(s: System, t: System, p: Pid, m: Move)
    requires p in s.procs
  {
    var pc := s.procs[p];
    && t.procs == s.procs[p := MoveOn(pc, m)]
    && t.sent == s.sent + multiset(Says(pc, m))
    && t.disk == (if Leaves(pc, m) == [] then s.disk else Leaves(pc, m)[0])
  }

  lemma ActIsStep(s: System, p: Pid, input: Input)
    requires p in s.procs
    ensures Moved(s, AfterStep(s, p, input), p, Act(input))
  {
  }

  lemma LookIsOpen(s: System, p: Pid)
    requires Possible(s, p, Look(s.disk))
    ensures Moved(s, Next(s, Open(p)), p, Look(s.disk))
    ensures Next(s, Open(p)).lock == if Locks(MoveOn(s.procs[p], Look(s.disk))) then Some(p) else None
  {
  }

  lemma NoLookIsOpenFails(s: System, p: Pid)
    requires Possible(s, p, NoLook)
    ensures Moved(s, Next(s, OpenFails(p)), p, NoLook) && Next(s, OpenFails(p)).lock == s.lock
  {
  }

  /** Each move of a login is the same step of its process, whatever the others did. */
  lemma LoginMoveIsSystemStep(s: System, p: Pid, m: Move)
    requires Possible(s, p, m)
    ensures Enabled(s, ActionOf(p, m)) && Moved(s, Next(s, ActionOf(p, m)), p, m)
  {
    match m
    case Act(input) => ActIsStep(s, p, input);
    case Look(_) => LookIsOpen(s, p);
    case NoLook => NoLookIsOpenFails(s, p);
  }

  // ---------- a login that succeeds ----------

  ghost predicate Reached(x: Machine, start: Pc, moves: seq<Move>, pc: Pc, said: seq<Request>, left: seq<State>) {
    Walk(x, start, moves) == pc && Said(x, start, moves) == said && Left(x, start, moves) == left
  }

  /** A device grant, field by field. */
  predicate GoodGrant(g: Grant, base: Origin) {
    && g.instance == Some(base) && g.path == "/device" && 1 <= g.expiresIn <= 300 && 5 <= g.interval <= 60
    && |g.secret| == 43
    && (forall i | 0 <= i < 43 ::
          || 'a' <= g.secret[i] <= 'z' || 'A' <= g.secret[i] <= 'Z' || '0' <= g.secret[i] <= '9'
          || g.secret[i] == '_' || g.secret[i] == '-')
    && |g.userCode| == 9 && g.userCode[4] == '-'
    && forall i | 0 <= i < 9 && i != 4 :: 'A' <= g.userCode[i] <= 'Z' || '0' <= g.userCode[i] <= '9'
  }

  /** The approval is not there yet, or the server is busy. */
  predicate NotYet(reply: Reply) {
    || reply == Refused(429)
    || (reply.Success? && reply.body.approval.Some? && reply.body.approval.value.status == "pending")
  }

  function Granted(g: Grant): Reply {
    Success(Body(None, Some(g), None))
  }

  function ApprovedBy(userId: string, token: Token): Reply {
    Success(Body(None, None, Some(Approval("approved", userId, true, token))))
  }

  function Starting(first: State, g: Grant, t: int): seq<Move> {
    [Look(first), Act(Go), Act(Answer(Granted(g), t))]
  }

  function Polling(replies: seq<Reply>, t: int): seq<Move> {
    if replies == [] then []
    else Polling(replies[..|replies| - 1], t) + [Act(Go), Act(Answer(replies[|replies| - 1], t))]
  }

  function Finishing(reply: Reply, t: int, second: State): seq<Move> {
    [Act(Go), Act(Answer(reply, t)), Look(second), Act(Saved(Replaced))]
  }

  function PollsSent(l: LoginRun, secret: string, n: nat): seq<Request> {
    if n == 0 then [] else PollsSent(l, secret, n - 1) + [Poll(l.base, secret)]
  }

  /** One move, with what it says and leaves given. */
  ghost predicate Leads(x: Machine, pc: Pc, m: Move, to: Pc, said: seq<Request>, left: seq<State>) {
    x.next(pc, m) == to && x.says(pc, m) == said && x.leaves(pc, m) == left
  }

  lemma Known(x: Machine, pc: Pc, m: Move)
    requires IsLoginMachine(x)
    ensures Leads(x, pc, m, MoveOn(pc, m), Says(pc, m), Leaves(pc, m))
  {
  }

  lemma GoOn(x: Machine, start: Pc, moves: seq<Move>, pc: Pc, said: seq<Request>, left: seq<State>,
             m: Move, to: Pc, more: seq<Request>, kept: seq<State>)
    requires Reached(x, start, moves, pc, said, left) && Leads(x, pc, m, to, more, kept)
    ensures Reached(x, start, moves + [m], to, said + more, left + kept)
  {
    OneMove(x, start, moves, m);
  }

  lemma GoOnTwice(x: Machine, start: Pc, moves: seq<Move>, pc: Pc, said: seq<Request>, left: seq<State>,
                  a: Move, mid: Pc, b: Move, to: Pc, more: seq<Request>, kept: seq<State>)
    requires Reached(x, start, moves, pc, said, left)
    requires Leads(x, pc, a, mid, more, []) && Leads(x, mid, b, to, [], kept)
    ensures Reached(x, start, moves + [a, b], to, said + more, left + kept)
  {
    GoOn(x, start, moves, pc, said, left, a, mid, more, []);
    GoOn(x, start, moves + [a], mid, said + more, left + [], b, to, [], kept);
    assert moves + [a] + [b] == moves + [a, b];
    assert said + more + [] == said + more && left + [] == left;
  }

  lemma CodeArrives(x: Machine, sel: Selection, base: Origin, first: State, g: Grant, t: int)
    requires IsLoginMachine(x) && GoodGrant(g, base)
    requires Resolve(sel, first) == Ok(base) && Key(base, Profile(sel)) !in first.credentials
    ensures Reached(x, Opening(Command.Login(sel)), Starting(first, g, t), Waiting(LoginRun(sel, base), g.secret),
                    [AskCode(base)], [])
  {
    var start, l := Opening(Command.Login(sel)), LoginRun(sel, base);
    Known(x, start, Look(first));
    Known(x, Asking(l), Act(Go));
    Known(x, CodeSent(l), Act(Answer(Granted(g), t)));
    GoOn(x, start, [], start, [], [], Look(first), Asking(l), [], []);
    assert [] + [Look(first)] == [Look(first)];
    GoOnTwice(x, start, [Look(first)], Asking(l), [], [], Act(Go), CodeSent(l), Act(Answer(Granted(g), t)),
              Waiting(l, g.secret), [AskCode(base)], []);
    assert [Look(first)] + [Act(Go), Act(Answer(Granted(g), t))] == Starting(first, g, t);
    assert [] + [AskCode(base)] == [AskCode(base)];
  }

  lemma PolledTooEarly(x: Machine, start: Pc, moves: seq<Move>, l: LoginRun, secret: string, said: seq<Request>,
                       reply: Reply, t: int)
    requires IsLoginMachine(x) && NotYet(reply) && Reached(x, start, moves, Waiting(l, secret), said, [])
    ensures Reached(x, start, moves + [Act(Go), Act(Answer(reply, t))], Waiting(l, secret),
                    said + [Poll(l.base, secret)], [])
  {
    Known(x, Waiting(l, secret), Act(Go));
    Known(x, PollSent(l, secret), Act(Answer(reply, t)));
    GoOnTwice(x, start, moves, Waiting(l, secret), said, [], Act(Go), PollSent(l, secret), Act(Answer(reply, t)),
              Waiting(l, secret), [Poll(l.base, secret)], []);
  }

  lemma OnePollMore(moves: seq<Move>, replies: seq<Reply>, t: int)
    requires replies != []
    ensures moves + Polling(replies, t) ==
            moves + Polling(replies[..|replies| - 1], t) + [Act(Go), Act(Answer(replies[|replies| - 1], t))]
  {
  }

  /** Every reply that is not yet an answer is followed by another poll. */
  lemma {:induction false} AsksAgain(x: Machine, start: Pc, moves: seq<Move>, l: LoginRun, secret: string,
                                     said: seq<Request>, replies: seq<Reply>, t: int)
    requires IsLoginMachine(x) && Reached(x, start, moves, Waiting(l, secret), said, [])
    requires forall r | r in replies :: NotYet(r)
    ensures Reached(x, start, moves + Polling(replies, t), Waiting(l, secret),
                    said + PollsSent(l, secret, |replies|), [])
    decreases |replies|
  {
    if replies == [] {
      assert moves + [] == moves && said + [] == said;
    } else {
      var earlier, last := replies[..|replies| - 1], replies[|replies| - 1];
      assert last in replies && forall r | r in earlier :: r in replies;
      var so := said + PollsSent(l, secret, |earlier|);
      AsksAgain(x, start, moves, l, secret, said, earlier, t);
      PolledTooEarly(x, start, moves + Polling(earlier, t), l, secret, so, last, t);
      OnePollMore(moves, replies, t);
      assert so + [Poll(l.base, secret)] == said + PollsSent(l, secret, |replies|);
    }
  }

  lemma ApprovalArrives(x: Machine, start: Pc, moves: seq<Move>, l: LoginRun, secret: string, said: seq<Request>,
                        userId: string, token: Token, t: int)
    requires IsLoginMachine(x) && Reached(x, start, moves, Waiting(l, secret), said, []) && Usable(token, t)
    ensures Reached(x, start, moves + [Act(Go), Act(Answer(ApprovedBy(userId, token), t))],
                    Approved(l, userId, token), said + [Poll(l.base, secret)], [])
  {
    var reply := ApprovedBy(userId, token);
    Known(x, Waiting(l, secret), Act(Go));
    Known(x, PollSent(l, secret), Act(Answer(reply, t)));
    GoOnTwice(x, start, moves, Waiting(l, secret), said, [], Act(Go), PollSent(l, secret), Act(Answer(reply, t)),
              Approved(l, userId, token), [Poll(l.base, secret)], []);
  }

  lemma SecondLook(x: Machine, l: LoginRun, userId: string, token: Token, second: State)
    requires IsLoginMachine(x)
    requires Resolve(l.sel, second) == Ok(l.base) && LoginKey(l) !in second.credentials
    ensures var stored := Stored(second, l, userId, token);
            && Leads(x, Approved(l, userId, token), Look(second), Storing(l, userId, token, stored), [], [])
            && Leads(x, Storing(l, userId, token, stored), Act(Saved(Replaced)),
                     LoginEnded(l, token, true), [], [stored])
  {
    Known(x, Approved(l, userId, token), Look(second));
    Known(x, Storing(l, userId, token, Stored(second, l, userId, token)), Act(Saved(Replaced)));
  }

  lemma ApprovalIsStored(x: Machine, start: Pc, moves: seq<Move>, l: LoginRun, secret: string, said: seq<Request>,
                         userId: string, token: Token, t: int, second: State)
    requires IsLoginMachine(x) && Reached(x, start, moves, Waiting(l, secret), said, []) && Usable(token, t)
    requires Resolve(l.sel, second) == Ok(l.base) && LoginKey(l) !in second.credentials
    ensures Reached(x, start, moves + Finishing(ApprovedBy(userId, token), t, second), LoginEnded(l, token, true),
                    said + [Poll(l.base, secret)], [Stored(second, l, userId, token)])
  {
    var reply, stored := ApprovedBy(userId, token), Stored(second, l, userId, token);
    var asked, so := moves + [Act(Go), Act(Answer(reply, t))], said + [Poll(l.base, secret)];
    ApprovalArrives(x, start, moves, l, secret, said, userId, token, t);
    SecondLook(x, l, userId, token, second);
    GoOnTwice(x, start, asked, Approved(l, userId, token), so, [], Look(second), Storing(l, userId, token, stored),
              Act(Saved(Replaced)), LoginEnded(l, token, true), [], [stored]);
    assert asked + [Look(second), Act(Saved(Replaced))] == moves + Finishing(reply, t, second);
    assert so + [] == so && [] + [stored] == [stored];
  }

  /** A free profile, a proper grant, any number of polls too early, and a timely approval with
      a usable token: the session is stored under its own key, and the profile is bound to it. */
  lemma TimelyApprovalIsStored(x: Machine, sel: Selection, base: Origin, first: State, g: Grant, replies: seq<Reply>,
                               userId: string, token: Token, t: int, second: State)
    requires IsLoginMachine(x)
    requires Resolve(sel, first) == Ok(base) && Key(base, Profile(sel)) !in first.credentials
    requires Resolve(sel, second) == Ok(base) && Key(base, Profile(sel)) !in second.credentials
    requires GoodGrant(g, base) && (forall r | r in replies :: NotYet(r)) && Usable(token, t)
    ensures var l := LoginRun(sel, base);
            var moves := Starting(first, g, t) + Polling(replies, t) + Finishing(ApprovedBy(userId, token), t, second);
            Reached(x, Opening(Command.Login(sel)), moves, LoginEnded(l, token, true),
                    [AskCode(base)] + PollsSent(l, g.secret, |replies|) + [Poll(base, g.secret)],
                    [Stored(second, l, userId, token)])
    ensures Stored(second, LoginRun(sel, base), userId, token).credentials ==
            second.credentials[Key(base, Profile(sel)) := Credential(base, userId, token)]
    ensures Stored(second, LoginRun(sel, base), userId, token).servers ==
            if sel.server == "" then second.servers else second.servers[sel.server := base]
  {
    var start, l := Opening(Command.Login(sel)), LoginRun(sel, base);
    CodeArrives(x, sel, base, first, g, t);
    AsksAgain(x, start, Starting(first, g, t), l, g.secret, [AskCode(base)], replies, t);
    ApprovalIsStored(x, start, Starting(first, g, t) + Polling(replies, t), l, g.secret,
                     [AskCode(base)] + PollsSent(l, g.secret, |replies|), userId, token, t, second);
  }

  // ---------- a login that fails ----------

  /** A grant is accepted exactly when every field is as agreed. */
  lemma GoodGrantIsValid(g: Grant, base: Origin)
    ensures GoodGrant(g, base) <==> ValidGrant(g, base)
  {
    if ValidGrant(g, base) {
      assert g.userCode[4] == '-';
    }
    if GoodGrant(g, base) {
      forall i | 0 <= i < 9
        ensures if i == 4 then g.userCode[i] == '-' else CodeChar(g.userCode[i])
      {
      }
    }
  }

  /** An improper grant, and any answer to a poll but a proper approval, end the login. */
  lemma OtherRepliesEndTheLogin(l: LoginRun, secret: string, reply: Reply, t: int)
    ensures !(reply.Success? && reply.body.grant.Some? && GoodGrant(reply.body.grant.value, l.base)) ==>
              MoveOn(CodeSent(l), Act(Answer(reply, t))) == Failed
    ensures !NotYet(reply)
            && !(reply.Success? && reply.body.approval.Some? && reply.body.approval.value.status == "approved"
                 && reply.body.approval.value.userIsUuid && Usable(reply.body.approval.value.token, t)) ==>
              MoveOn(PollSent(l, secret), Act(Answer(reply, t))) == Failed
  {
    if reply.Success? && reply.body.grant.Some? {
      GoodGrantIsValid(reply.body.grant.value, l.base);
    }
  }
}
