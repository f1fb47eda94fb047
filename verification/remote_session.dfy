/** One administrator process as a state machine over its requests, replies, clock
    readings and saves: `do`, `refresh` and `forget` of
    cmd/warmblyctl/remote_client.go, login and logout of
    cmd/warmblyctl/remote_auth.go. The machine is the code between two effects;
    RemoteClient proves the step-by-step methods follow it, RemoteSystem runs any
    number of copies against one credential file. */
module RemoteSession {
  import opened Wrappers
  import opened RemoteStore

  datatype Method = Get | Write

  datatype Request =
    | Refresh(origin: Origin, refresh: string)
    | Target(origin: Origin, kind: Method, access: string)
    | Revoke(origin: Origin, bearer: string)
    | AskCode(origin: Origin)
    | Poll(origin: Origin, secret: string)

  /** A success body is what each decoder would make of it. */
  datatype Body = Body(token: Option<Token>, grant: Option<Grant>, approval: Option<Approval>)

  datatype Grant = Grant(instance: Option<Origin>, secret: string, userCode: string, path: string,
                         expiresIn: int, interval: int)

  datatype Approval = Approval(status: string, userId: string, userIsUuid: bool, token: Token)

  datatype Reply = Lost | Refused(status: nat) | Success(body: Body)

  datatype Outcome =
    | Served(body: Body)
    | HttpError(status: nat)
    | TransportError
    | LoginRequired
    | RefreshUnusable
    | StorageError
    | LoggedOut

  datatype Goal = OneRequest | Logout(all: bool)

  datatype Call = Call(key: Key, credential: Credential, memory: State, kind: Method, refreshed: bool, goal: Goal)

  datatype LoginRun = LoginRun(sel: Selection, base: Origin)

  datatype Command = Session(sel: Selection, kind: Method, goal: Goal, localOnly: bool) | Login(sel: Selection)

  datatype Pc =
    // Sessions hold the lock from Entered to the end.
    | Opening(command: Command)
    | Entered(call: Call)
    | Renewing(call: Call)
    | RefreshSent(call: Call)
    | Forgetting(call: Call, spent: Option<string>, after: Outcome)
    | Rotating(call: Call, replaced: string)
    | Unrotated(call: Call)
    | Calling(call: Call)
    | CallSent(call: Call)
    | Returned(call: Call, outcome: Outcome)
    // A login holds the lock only once it stores an approved session.
    | Asking(login: LoginRun)
    | CodeSent(login: LoginRun)
    | Waiting(login: LoginRun, secret: string)
    | PollSent(login: LoginRun, secret: string)
    | Approved(login: LoginRun, userId: string, token: Token)
    | Storing(login: LoginRun, userId: string, token: Token, memory: State)
    | Disowning(login: LoginRun, token: Token, locked: bool)
    | LoginEnded(login: LoginRun, token: Token, locked: bool)
    | Failed

  datatype Input = Clock(now: int) | Answer(reply: Reply, now: int) | Saved(outcome: SaveOutcome) | Go | Expired

  function Status(r: Reply): nat {
    if r.Refused? then r.status else 0
  }

  function Failure(r: Reply): Outcome {
    if r.Refused? then HttpError(r.status) else TransportError
  }

  function LoginKey(l: LoginRun): Key {
    Key(l.base, Profile(l.sel))
  }

  /** Deletes the credential from memory and blanks the token; the save is pending. */
  function Forget(c: Call, spent: Option<string>, after: Outcome): Pc {
    Forgetting(c.(memory := c.memory.(credentials := c.memory.credentials - {c.key}),
                  credential := c.credential.(token := NO_TOKEN)),
               spent, after)
  }

  /** Logout everywhere drops each session of the same user on the same backend. */
  function Wipe(c: Call): Call {
    var gone := set k | k in c.memory.credentials
                        && c.memory.credentials[k].url == c.key.origin
                        && c.memory.credentials[k].userId == c.credential.userId;
    c.(memory := c.memory.(credentials := c.memory.credentials - gone))
  }

  function Rotate(c: Call, next: Token): Pc {
    var cred := c.credential.(token := next);
    Rotating(c.(credential := cred, memory := c.memory.(credentials := c.memory.credentials[c.key := cred])),
             c.credential.token.refresh)
  }

  predicate CodeChar(c: char) {
    'A' <= c <= 'Z' || '0' <= c <= '9'
  }

  predicate ValidGrant(g: Grant, base: Origin) {
    && g.instance == Some(base)
    && |g.secret| == 43
    && (forall i | 0 <= i < |g.secret| :: Alphanumeric(g.secret[i]) || g.secret[i] in "_-")
    && |g.userCode| == 9
    && (forall i | 0 <= i < 9 :: if i == 4 then g.userCode[i] == '-' else CodeChar(g.userCode[i]))
    && g.path == "/device"
    && 1 <= g.expiresIn <= 300
    && 5 <= g.interval <= 60
  }

  predicate ValidApproval(a: Approval, now: int) {
    a.status == "approved" && a.userIsUuid && Usable(a.token, now)
  }

  /** The next control point. Inputs a control point does not wait for are ignored. */
  function Advance(pc: Pc, input: Input): Pc {
    match pc
    case Entered(c) =>
      if !input.Clock? then pc
      else if c.credential.token.access == "" || c.credential.token.accessExpires <= input.now + 30 then
        Renewing(c.(refreshed := true))
      else
        Calling(c)
    case Renewing(c) =>
      if !input.Clock? then pc
      else if c.credential.token.refresh == "" || c.credential.token.refreshExpires <= input.now then
        Forget(c, None, LoginRequired)
      else
        RefreshSent(c)
    case RefreshSent(c) =>
      if !input.Answer? then pc
      else if !input.reply.Success? then
        Forget(c, Some(c.credential.token.refresh), Failure(input.reply))
      else if input.reply.body.token.None? || !Usable(input.reply.body.token.value, input.now) then
        Forget(c, Some(c.credential.token.refresh), RefreshUnusable)
      else
        Rotate(c, input.reply.body.token.value)
    case Forgetting(c, _, after) =>
      if !input.Saved? then pc
      else Returned(c, if input.outcome.Replaced? then after else StorageError)
    case Rotating(c, _) =>
      if !input.Saved? then pc
      else if input.outcome.Replaced? then Calling(c)
      else Unrotated(c)
    case Unrotated(c) =>
      if input.Go? then Returned(c, StorageError) else pc
    case Calling(c) =>
      if input.Go? then CallSent(c) else pc
    case CallSent(c) =>
      if !input.Answer? then pc
      else if input.reply.Success? then Returned(c, Served(input.reply.body))
      else if Status(input.reply) != 401 then Returned(c, Failure(input.reply))
      else if c.kind == Write || c.refreshed then Forget(c, None, HttpError(401))
      else Renewing(c.(refreshed := true))
    case Returned(c, outcome) =>
      if input.Go? && c.goal.Logout? && outcome.Served? then
        Forget(if c.goal.all then Wipe(c) else c, None, LoggedOut)
      else pc
    case Asking(l) =>
      if input.Go? then CodeSent(l) else pc
    case CodeSent(l) =>
      if !input.Answer? then pc
      else if input.reply.Success? && input.reply.body.grant.Some?
              && ValidGrant(input.reply.body.grant.value, l.base) then
        Waiting(l, input.reply.body.grant.value.secret)
      else Failed
    case Waiting(l, secret) =>
      if input.Expired? then Failed
      else if input.Go? then PollSent(l, secret)
      else pc
    case PollSent(l, secret) =>
      if !input.Answer? then pc
      else if !input.reply.Success? then
        if Status(input.reply) == 429 then Waiting(l, secret) else Failed
      else if input.reply.body.approval.None? then Failed
      else if input.reply.body.approval.value.status == "pending" then Waiting(l, secret)
      else if ValidApproval(input.reply.body.approval.value, input.now) then
        Approved(l, input.reply.body.approval.value.userId, input.reply.body.approval.value.token)
      else Failed
    case Storing(l, _, token, _) =>
      if !input.Saved? then pc
      else if input.outcome.Replaced? then LoginEnded(l, token, true)
      else Disowning(l, token, true)
    case Disowning(l, token, locked) =>
      if input.Go? then LoginEnded(l, token, locked) else pc
    case Opening(_) => pc
    case Approved(_, _, _) => pc
    case LoginEnded(_, _, _) => pc
    case Failed => pc
  }

  /** What the step puts on the wire. */
  function Emits(pc: Pc, input: Input): seq<Request> {
    match pc
    case Renewing(c) =>
      if Advance(pc, input).RefreshSent? then [Refresh(c.key.origin, c.credential.token.refresh)] else []
    case Unrotated(c) =>
      if input.Go? then [Revoke(c.key.origin, c.credential.token.access)] else []
    case Calling(c) =>
      if input.Go? then [Target(c.key.origin, c.kind, c.credential.token.access)] else []
    case Asking(l) =>
      if input.Go? then [AskCode(l.base)] else []
    case Waiting(l, secret) =>
      if input.Go? then [Poll(l.base, secret)] else []
    case Disowning(l, token, _) =>
      if input.Go? then [Revoke(l.base, token.access)] else []
    case _ => []
  }

  /** What the step writes to the credential file, if it replaces it. */
  function Writes(pc: Pc, input: Input): Option<State> {
    if !input.Saved? || input.outcome.NotReplaced? then None
    else
      match pc
      case Forgetting(c, _, _) => Some(c.memory)
      case Rotating(c, _) => Some(c.memory)
      case Storing(_, _, _, memory) => Some(memory)
      case _ => None
  }

  /** The credential file after the step. */
  function DiskAfter(disk: State, pc: Pc, input: Input): State {
    if Writes(pc, input).Some? then Writes(pc, input).value else disk
  }

  /** The tokens a reply hands out, with the origin that issued them. */
  function Issues(pc: Pc, input: Input): Option<(Origin, Token)> {
    if !input.Answer? || !input.reply.Success? then None
    else
      match pc
      case RefreshSent(c) =>
        if input.reply.body.token.Some? then Some((c.key.origin, input.reply.body.token.value)) else None
      case PollSent(l, _) =>
        if input.reply.body.approval.Some? then Some((l.base, input.reply.body.approval.value.token)) else None
      case _ => None
  }

  predicate Locks(pc: Pc) {
    match pc
    case Entered(_) => true
    case Renewing(_) => true
    case RefreshSent(_) => true
    case Forgetting(_, _, _) => true
    case Rotating(_, _) => true
    case Unrotated(_) => true
    case Calling(_) => true
    case CallSent(_) => true
    case Returned(_, _) => true
    case Storing(_, _, _, _) => true
    case Disowning(_, _, locked) => locked
    case LoginEnded(_, _, locked) => locked
    case _ => false
  }

  predicate Ended(pc: Pc) {
    || pc.Failed?
    || pc.LoginEnded?
    || (pc.Returned? && !(pc.call.goal.Logout? && pc.outcome.Served?))
  }

  /** A session command once the lock is held and the file is loaded. */
  function OpenSession(command: Command, disk: State): Pc
    requires command.Session?
  {
    match Resolve(command.sel, disk)
    case Err(_) => Failed
    case Ok(base) =>
      var key := Key(base, Profile(command.sel));
      if key !in disk.credentials || disk.credentials[key].url != base then Failed
      else
        var c := Call(key, disk.credentials[key], disk, command.kind, false, command.goal);
        if command.localOnly then Forget(c, None, LoggedOut) else Entered(c)
  }

  /** The first look of a login: lock, load, compare, unlock. */
  function OpenLogin(sel: Selection, disk: State): Pc {
    match Resolve(sel, disk)
    case Err(_) => Failed
    case Ok(base) =>
      if Key(base, Profile(sel)) in disk.credentials then Failed else Asking(LoginRun(sel, base))
  }

  /** The second look, after approval: lock, load, compare, prepare the save. */
  function Reopen(pc: Pc, disk: State): Pc
    requires pc.Approved?
  {
    var l := pc.login;
    var r := Resolve(l.sel, disk);
    if r.Err? || r.value != l.base || LoginKey(l) in disk.credentials then
      Disowning(l, pc.token, true)
    else
      var bound := Bind(disk, l.sel, l.base);
      var cred := Credential(l.base, pc.userId, pc.token);
      Storing(l, pc.userId, pc.token, bound.(credentials := bound.credentials[LoginKey(l) := cred]))
  }

  // ---------- one call of do, against every server ----------

  /** The machine driven by a list of inputs. */
  function Follow(pc: Pc, inputs: seq<Input>): Pc
    decreases inputs
  {
    if inputs == [] then pc else Follow(Advance(pc, inputs[0]), inputs[1..])
  }

  function Sends(pc: Pc, inputs: seq<Input>): seq<Request>
    decreases inputs
  {
    if inputs == [] then [] else Emits(pc, inputs[0]) + Sends(Advance(pc, inputs[0]), inputs[1..])
  }

  function Refreshes(sent: seq<Request>): nat {
    if sent == [] then 0 else (if sent[0].Refresh? then 1 else 0) + Refreshes(sent[1..])
  }

  function Targets(sent: seq<Request>): nat {
    if sent == [] then 0 else (if sent[0].Target? then 1 else 0) + Targets(sent[1..])
  }

  /** Control points of one `do`, from entry to return. */
  predicate InDo(pc: Pc) {
    || pc.Entered? || pc.Renewing? || pc.RefreshSent? || pc.Rotating? || pc.Unrotated? || pc.Calling? || pc.CallSent?
    || pc.Forgetting? || (pc.Returned? && !(pc.call.goal.Logout? && pc.outcome.Served?))
  }

  /** Refresh requests a `do` may still send. */
  function RefreshesLeft(pc: Pc): nat {
    if pc.Entered? || pc.Renewing? then 1
    else if (pc.Calling? || pc.CallSent?) && !pc.call.refreshed && pc.call.kind == Get then 1
    else 0
  }

  /** Requests to its target a `do` may still send. */
  function TargetsLeft(pc: Pc): nat {
    match pc
    case Entered(c) => if c.kind == Get then 2 else 1
    case Renewing(_) => 1
    case RefreshSent(_) => 1
    case Rotating(_, _) => 1
    case Calling(c) => if c.kind == Get && !c.refreshed then 2 else 1
    case CallSent(c) => if c.kind == Get && !c.refreshed then 1 else 0
    case _ => 0
  }

  /** Refreshing again is possible only before the call has refreshed. */
  predicate RefreshedOnce(pc: Pc) {
    pc.Renewing? || pc.RefreshSent? || pc.Rotating? ==> pc.call.refreshed
  }

  /** Each step pays for what it sends. */
  lemma StepPays(pc: Pc, input: Input)
    requires InDo(pc) && RefreshedOnce(pc)
    ensures var next := Advance(pc, input);
            if InDo(next)
            then && RefreshedOnce(next)
                 && Refreshes(Emits(pc, input)) + RefreshesLeft(next) <= RefreshesLeft(pc)
                 && Targets(Emits(pc, input)) + TargetsLeft(next) <= TargetsLeft(pc)
            else Closing(next) && Emits(pc, input) == []
  {
    match pc
    case Entered(_) =>
    case Renewing(_) =>
    case RefreshSent(_) =>
    case Forgetting(_, _, _) =>
    case Rotating(_, _) =>
    case Unrotated(_) =>
    case Calling(_) =>
    case CallSent(_) =>
    case Returned(_, _) =>
  }

  lemma {:induction false} DoIsBounded(pc: Pc, inputs: seq<Input>)
    requires InDo(pc) && RefreshedOnce(pc)
    ensures Refreshes(Sends(pc, inputs)) <= RefreshesLeft(pc)
    ensures Targets(Sends(pc, inputs)) <= TargetsLeft(pc)
    decreases inputs
  {
    if inputs == [] {
    } else {
      var next := Advance(pc, inputs[0]);
      StepPays(pc, inputs[0]);
      if InDo(next) {
        DoIsBounded(next, inputs[1..]);
      } else {
        ReturnedIsQuiet(next, inputs[1..]);
      }
      CountsConcat(Emits(pc, inputs[0]), Sends(next, inputs[1..]));
    }
  }

  lemma CountsConcat(a: seq<Request>, b: seq<Request>)
    ensures Refreshes(a + b) == Refreshes(a) + Refreshes(b)
    ensures Targets(a + b) == Targets(a) + Targets(b)
  {
    if a == [] {
      assert a + b == b;
    } else {
      assert (a + b)[1..] == a[1..] + b;
      CountsConcat(a[1..], b);
    }
  }

  /** A served logout goes on to forget, which sends nothing. */
  predicate Closing(pc: Pc) {
    pc.Returned? || pc.Forgetting?
  }

  lemma {:induction false} ReturnedIsQuiet(pc: Pc, inputs: seq<Input>)
    requires Closing(pc)
    ensures Sends(pc, inputs) == []
    decreases inputs
  {
    if inputs == [] {
    } else {
      ReturnedIsQuiet(Advance(pc, inputs[0]), inputs[1..]);
    }
  }

  /** For every server: at most one refresh, a write target at most once, a read
      target at most twice. */
  lemma DoSendsBounded(c: Call, inputs: seq<Input>)
    ensures Refreshes(Sends(Entered(c), inputs)) <= 1
    ensures Targets(Sends(Entered(c), inputs)) <= if c.kind == Get then 2 else 1
  {
    DoIsBounded(Entered(c), inputs);
  }

  /** The call has ended, or is about to, in something else than a 401. */
  predicate NotRejected(pc: Pc) {
    (pc.Forgetting? && pc.after != HttpError(401)) || (pc.Returned? && pc.outcome != HttpError(401))
  }

  lemma {:induction false} NeverRejected(pc: Pc, inputs: seq<Input>)
    requires NotRejected(pc)
    ensures NotRejected(Follow(pc, inputs))
    decreases inputs
  {
    if inputs == [] {
    } else {
      NeverRejected(Advance(pc, inputs[0]), inputs[1..]);
    }
  }

  /** A step of a read towards a 401 pays exactly for the refresh it sends. */
  lemma StepPaysExactly(pc: Pc, input: Input)
    requires InDo(pc) && RefreshedOnce(pc) && pc.call.kind == Get
    requires !NotRejected(pc) && !NotRejected(Advance(pc, input)) && (pc.Entered? ==> !pc.call.refreshed)
    ensures var next := Advance(pc, input);
            && InDo(next) && RefreshedOnce(next) && next.call.kind == Get && (next.Entered? ==> !next.call.refreshed)
            && Refreshes(Emits(pc, input)) + RefreshesLeft(next) == RefreshesLeft(pc)
  {
    match pc
    case Entered(_) =>
    case Renewing(_) =>
    case RefreshSent(_) =>
    case Forgetting(_, _, _) =>
    case Rotating(_, _) =>
    case Unrotated(_) =>
    case Calling(_) =>
    case CallSent(_) =>
    case Returned(_, _) =>
  }

  lemma {:induction false} RejectionPays(pc: Pc, inputs: seq<Input>)
    requires InDo(pc) && RefreshedOnce(pc) && pc.call.kind == Get && !NotRejected(pc)
    requires pc.Entered? ==> !pc.call.refreshed
    requires Follow(pc, inputs).Returned? && Follow(pc, inputs).outcome == HttpError(401)
    ensures Refreshes(Sends(pc, inputs)) == RefreshesLeft(pc)
    decreases inputs
  {
    if inputs == [] {
    } else {
      var next := Advance(pc, inputs[0]);
      if NotRejected(next) {
        NeverRejected(next, inputs[1..]);
        assert false;
      } else {
        StepPaysExactly(pc, inputs[0]);
        RejectionPays(next, inputs[1..]);
        CountsConcat(Emits(pc, inputs[0]), Sends(next, inputs[1..]));
      }
    }
  }

  /** For every server: a read is given up as rejected only after one refresh. */
  lemma ReadIsNotGivenUpEarly(c: Call, inputs: seq<Input>)
    requires c.kind == Get && !c.refreshed
    requires Follow(Entered(c), inputs).Returned? && Follow(Entered(c), inputs).outcome == HttpError(401)
    ensures Refreshes(Sends(Entered(c), inputs)) == 1
  {
    RejectionPays(Entered(c), inputs);
  }
}
