/** What one `do` answers, branch by branch: which requests go out, what the caller gets and
    what the credential file holds, said of whole lists of inputs. */
module RemoteOutcomes {
  import opened Wrappers
  import opened RemoteStore
  import opened RemoteSession
  import opened RemoteClient

  /** The inputs lead from `pc` to `to`, sending `sent` and leaving the file `file`. */
  ghost predicate Goes(pc: Pc, disk: State, inputs: seq<Input>, sent: seq<Request>, to: Pc, file: State) {
    Follow(pc, inputs) == to && Sends(pc, inputs) == sent && FileAfter(pc, inputs, disk) == file
  }

  lemma {:induction false} GoesOn(a: Pc, d: State, x: seq<Input>, s: seq<Request>, b: Pc, e: State,
                                  y: seq<Input>, t: seq<Request>, c: Pc, f: State)
    requires Goes(a, d, x, s, b, e) && Goes(b, e, y, t, c, f)
    ensures Goes(a, d, x + y, s + t, c, f)
    decreases |x|
  {
    if x == [] {
      assert x + y == y && s + t == t;
    } else {
      assert (x + y)[0] == x[0] && (x + y)[1..] == x[1..] + y;
      var next := Advance(a, x[0]);
      GoesOn(next, DiskAfter(d, a, x[0]), x[1..], Sends(next, x[1..]), b, e, y, t, c, f);
      assert Emits(a, x[0]) + (Sends(next, x[1..]) + t) == s + t;
    }
  }

  lemma OneInput(pc: Pc, disk: State, input: Input)
    ensures Goes(pc, disk, [input], Emits(pc, input), Advance(pc, input), DiskAfter(disk, pc, input))
  {
    assert [input][1..] == [];
    assert Emits(pc, input) + [] == Emits(pc, input);
  }

  lemma TwoInputs(pc: Pc, disk: State, a: Input, b: Input)
    ensures var mid := Advance(pc, a);
            Goes(pc, disk, [a, b], Emits(pc, a) + Emits(mid, b), Advance(mid, b),
                 DiskAfter(DiskAfter(disk, pc, a), mid, b))
  {
    var mid, e := Advance(pc, a), DiskAfter(disk, pc, a);
    OneInput(pc, disk, a);
    OneInput(mid, e, b);
    GoesOn(pc, disk, [a], Emits(pc, a), mid, e, [b], Emits(mid, b), Advance(mid, b), DiskAfter(e, mid, b));
    assert [a] + [b] == [a, b];
  }

  // ---------- the pieces of a call ----------

  /** The credential is gone from memory, and its token from the client. */
  function Emptied(c: Call): Call {
    c.(memory := Without(c.memory, c.key), credential := c.credential.(token := NO_TOKEN))
  }

  function Without(st: State, key: Key): State {
    st.(credentials := st.credentials - {key})
  }

  function WithToken(c: Call, next: Token): Call {
    var cred := c.credential.(token := next);
    c.(credential := cred, memory := c.memory.(credentials := c.memory.credentials[c.key := cred]))
  }

  /** An access token good for more than thirty seconds. */
  predicate Good(t: Token, now: int) {
    t.access != "" && t.accessExpires > now + 30
  }

  predicate Live(t: Token, now: int) {
    t.refresh != "" && t.refreshExpires > now
  }

  lemma NotDue(c: Call, disk: State, now: int)
    requires Good(c.credential.token, now)
    ensures Goes(Entered(c), disk, [Clock(now)], [], Calling(c), disk)
  {
    OneInput(Entered(c), disk, Clock(now));
  }

  lemma Due(c: Call, disk: State, now: int)
    requires !Good(c.credential.token, now)
    ensures Goes(Entered(c), disk, [Clock(now)], [], Renewing(c.(refreshed := true)), disk)
  {
    OneInput(Entered(c), disk, Clock(now));
  }

  function Asked(c: Call): seq<Request> {
    [Target(c.key.origin, c.kind, c.credential.token.access)]
  }

  lemma Served(c: Call, disk: State, body: Body, t: int)
    ensures Goes(Calling(c), disk, [Go, Answer(Success(body), t)], Asked(c), Returned(c, Outcome.Served(body)), disk)
  {
    TwoInputs(Calling(c), disk, Go, Answer(Success(body), t));
  }

  lemma OtherStatus(c: Call, disk: State, status: nat, t: int)
    requires status != 401
    ensures Goes(Calling(c), disk, [Go, Answer(Refused(status), t)], Asked(c), Returned(c, HttpError(status)), disk)
  {
    TwoInputs(Calling(c), disk, Go, Answer(Refused(status), t));
  }

  lemma ReplyLost(c: Call, disk: State, t: int)
    ensures Goes(Calling(c), disk, [Go, Answer(Lost, t)], Asked(c), Returned(c, TransportError), disk)
  {
    TwoInputs(Calling(c), disk, Go, Answer(Lost, t));
  }

  /** A read that has not refreshed yet goes on to refresh. */
  lemma ReadRejected(c: Call, disk: State, t: int)
    requires c.kind == Get && !c.refreshed
    ensures Goes(Calling(c), disk, [Go, Answer(Refused(401), t)], Asked(c), Renewing(c.(refreshed := true)), disk)
  {
    TwoInputs(Calling(c), disk, Go, Answer(Refused(401), t));
  }

  function Forgotten(o: SaveOutcome, outcome: Outcome): Outcome {
    if o.Replaced? then outcome else StorageError
  }

  function FileForgotten(disk: State, c: Call, o: SaveOutcome): State {
    if o.NotReplaced? then disk else Without(c.memory, c.key)
  }

  /** A write, or a call that has refreshed, gives the session up. */
  lemma Rejected(c: Call, disk: State, t: int, o: SaveOutcome)
    requires c.kind == Write || c.refreshed
    ensures Goes(Calling(c), disk, [Go, Answer(Refused(401), t), Saved(o)], Asked(c),
                 Returned(Emptied(c), Forgotten(o, HttpError(401))), FileForgotten(disk, c, o))
  {
    var mid := Advance(CallSent(c), Answer(Refused(401), t));
    TwoInputs(Calling(c), disk, Go, Answer(Refused(401), t));
    OneInput(mid, disk, Saved(o));
    GoesOn(Calling(c), disk, [Go, Answer(Refused(401), t)], Asked(c), mid, disk,
           [Saved(o)], [], Advance(mid, Saved(o)), DiskAfter(disk, mid, Saved(o)));
    assert [Go, Answer(Refused(401), t)] + [Saved(o)] == [Go, Answer(Refused(401), t), Saved(o)];
  }

  lemma RefreshExpired(c: Call, disk: State, now: int, o: SaveOutcome)
    requires !Live(c.credential.token, now)
    ensures Goes(Renewing(c), disk, [Clock(now), Saved(o)], [],
                 Returned(Emptied(c), Forgotten(o, LoginRequired)), FileForgotten(disk, c, o))
  {
    TwoInputs(Renewing(c), disk, Clock(now), Saved(o));
  }

  function Renewed(c: Call): seq<Request> {
    [Request.Refresh(c.key.origin, c.credential.token.refresh)]
  }

  /** What is left of a refresh that did not bring a usable token. */
  function RefreshFailure(reply: Reply): Outcome {
    match reply
    case Lost => TransportError
    case Refused(status) => HttpError(status)
    case Success(_) => RefreshUnusable
  }

  /** Both tokens are there, on one line each, and neither has ended by `t`. */
  predicate Lasting(next: Token, t: int) {
    && next.access != "" && next.refresh != ""
    && (forall c | c in next.access :: c != '\r' && c != '\n')
    && (forall c | c in next.refresh :: c != '\r' && c != '\n')
    && t < next.accessExpires && t < next.refreshExpires
  }

  lemma LastingIsUsable(next: Token, t: int)
    ensures Lasting(next, t) <==> Usable(next, t)
  {
    assert forall c :: c in next.access + next.refresh <==> c in next.access || c in next.refresh;
  }

  /** The reply carries a token that lasts. */
  predicate Brings(reply: Reply, next: Token, t: int) {
    reply.Success? && reply.body.token == Some(next) && Lasting(next, t)
  }

  predicate BringsNothing(reply: Reply, t: int) {
    reply.Success? && reply.body.token.Some? ==> !Lasting(reply.body.token.value, t)
  }

  lemma ReplyForgets(c: Call, reply: Reply, t: int)
    requires BringsNothing(reply, t)
    ensures Advance(RefreshSent(c), Answer(reply, t)) ==
            Forgetting(Emptied(c), Some(c.credential.token.refresh), RefreshFailure(reply))
  {
    if reply.Success? && reply.body.token.Some? {
      LastingIsUsable(reply.body.token.value, t);
    }
  }

  lemma RefreshFails(c: Call, disk: State, now: int, reply: Reply, t: int, o: SaveOutcome)
    requires Live(c.credential.token, now) && BringsNothing(reply, t)
    ensures Goes(Renewing(c), disk, [Clock(now), Answer(reply, t), Saved(o)], Renewed(c),
                 Returned(Emptied(c), Forgotten(o, RefreshFailure(reply))), FileForgotten(disk, c, o))
  {
    ReplyForgets(c, reply, t);
    OneInput(Renewing(c), disk, Clock(now));
    TwoInputs(RefreshSent(c), disk, Answer(reply, t), Saved(o));
    GoesOn(Renewing(c), disk, [Clock(now)], Renewed(c), RefreshSent(c), disk, [Answer(reply, t), Saved(o)], [],
           Returned(Emptied(c), Forgotten(o, RefreshFailure(reply))), FileForgotten(disk, c, o));
    assert [Clock(now)] + [Answer(reply, t), Saved(o)] == [Clock(now), Answer(reply, t), Saved(o)];
  }

  lemma RefreshWorks(c: Call, disk: State, now: int, reply: Reply, next: Token, t: int)
    requires Live(c.credential.token, now) && Brings(reply, next, t)
    ensures Goes(Renewing(c), disk, [Clock(now), Answer(reply, t), Saved(Replaced)], Renewed(c),
                 Calling(WithToken(c, next)), WithToken(c, next).memory)
  {
    LastingIsUsable(next, t);
    var mid := Advance(RefreshSent(c), Answer(reply, t));
    TwoInputs(Renewing(c), disk, Clock(now), Answer(reply, t));
    OneInput(mid, disk, Saved(Replaced));
    GoesOn(Renewing(c), disk, [Clock(now), Answer(reply, t)], Renewed(c), mid, disk,
           [Saved(Replaced)], [], Advance(mid, Saved(Replaced)), DiskAfter(disk, mid, Saved(Replaced)));
    assert [Clock(now), Answer(reply, t)] + [Saved(Replaced)] == [Clock(now), Answer(reply, t), Saved(Replaced)];
  }

  /** A rotated token that could not be saved is revoked. */
  lemma RotationUnsaved(c: Call, disk: State, now: int, reply: Reply, next: Token, t: int, o: SaveOutcome)
    requires Live(c.credential.token, now) && Brings(reply, next, t) && !o.Replaced?
    ensures Goes(Renewing(c), disk, [Clock(now), Answer(reply, t)] + [Saved(o), Go],
                 Renewed(c) + [Revoke(c.key.origin, next.access)], Returned(WithToken(c, next), StorageError),
                 if o.NotReplaced? then disk else WithToken(c, next).memory)
  {
    LastingIsUsable(next, t);
    var mid := Advance(RefreshSent(c), Answer(reply, t));
    TwoInputs(Renewing(c), disk, Clock(now), Answer(reply, t));
    TwoInputs(mid, disk, Saved(o), Go);
    GoesOn(Renewing(c), disk, [Clock(now), Answer(reply, t)], Renewed(c), mid, disk,
           [Saved(o), Go], [Revoke(c.key.origin, next.access)], Returned(WithToken(c, next), StorageError),
           if o.NotReplaced? then disk else WithToken(c, next).memory);
  }

  // ---------- whole calls ----------

  /** How a call with a good token may end at its first reply. */
  lemma FirstReply(c: Call, disk: State, now: int, reply: Reply, t: int)
    requires Good(c.credential.token, now) && Status(reply) != 401
    ensures Goes(Entered(c), disk, [Clock(now)] + [Go, Answer(reply, t)], Asked(c),
                 Returned(c, if reply.Success? then Outcome.Served(reply.body) else RefreshFailure(reply)), disk)
  {
    NotDue(c, disk, now);
    match reply
    case Lost => ReplyLost(c, disk, t);
    case Refused(status) => OtherStatus(c, disk, status, t);
    case Success(body) => Served(c, disk, body, t);
    GoesOn(Entered(c), disk, [Clock(now)], [], Calling(c), disk, [Go, Answer(reply, t)], Asked(c),
           Returned(c, if reply.Success? then Outcome.Served(reply.body) else RefreshFailure(reply)), disk);
    assert [] + Asked(c) == Asked(c);
  }

  /** A rejected write is never repeated. */
  lemma WriteRejected(c: Call, disk: State, now: int, t: int, o: SaveOutcome)
    requires Good(c.credential.token, now) && c.kind == Write
    ensures Goes(Entered(c), disk, [Clock(now)] + [Go, Answer(Refused(401), t), Saved(o)], Asked(c),
                 Returned(Emptied(c), Forgotten(o, HttpError(401))), FileForgotten(disk, c, o))
  {
    NotDue(c, disk, now);
    Rejected(c, disk, t, o);
    GoesOn(Entered(c), disk, [Clock(now)], [], Calling(c), disk, [Go, Answer(Refused(401), t), Saved(o)], Asked(c),
           Returned(Emptied(c), Forgotten(o, HttpError(401))), FileForgotten(disk, c, o));
    assert [] + Asked(c) == Asked(c);
  }

  /** The inputs of a read up to the point where it refreshes. */
  function UpToRejection(now: int, t: int): seq<Input> {
    [Clock(now)] + [Go, Answer(Refused(401), t)]
  }

  lemma ReadRefreshes(c: Call, disk: State, now: int, t: int)
    requires Good(c.credential.token, now) && c.kind == Get && !c.refreshed
    ensures Goes(Entered(c), disk, UpToRejection(now, t), Asked(c), Renewing(c.(refreshed := true)), disk)
  {
    NotDue(c, disk, now);
    ReadRejected(c, disk, t);
    GoesOn(Entered(c), disk, [Clock(now)], [], Calling(c), disk, [Go, Answer(Refused(401), t)], Asked(c),
           Renewing(c.(refreshed := true)), disk);
    assert [] + Asked(c) == Asked(c);
  }

  /** How a refresh, wherever it is due, may end without a token. */
  datatype Dead = NoToken | Fruitless(reply: Reply, t: int)

  function DeadInputs(d: Dead, now: int, o: SaveOutcome): seq<Input> {
    if d.NoToken? then [Clock(now), Saved(o)] else [Clock(now), Answer(d.reply, d.t), Saved(o)]
  }

  predicate Dies(d: Dead, c: Call, now: int) {
    match d
    case NoToken => !Live(c.credential.token, now)
    case Fruitless(reply, t) =>
      Live(c.credential.token, now) && BringsNothing(reply, t)
  }

  lemma RefreshDies(c: Call, disk: State, d: Dead, now: int, o: SaveOutcome)
    requires Dies(d, c, now)
    ensures Goes(Renewing(c), disk, DeadInputs(d, now, o), if d.NoToken? then [] else Renewed(c),
                 Returned(Emptied(c), Forgotten(o, if d.NoToken? then LoginRequired else RefreshFailure(d.reply))),
                 FileForgotten(disk, c, o))
  {
    match d
    case NoToken => RefreshExpired(c, disk, now, o);
    case Fruitless(reply, t) => RefreshFails(c, disk, now, reply, t, o);
  }

  /** A call that must renew and cannot: no target request, and the session is forgotten. */
  lemma DueAndDead(c: Call, disk: State, now: int, d: Dead, now': int, o: SaveOutcome)
    requires !Good(c.credential.token, now) && Dies(d, c, now')
    ensures Goes(Entered(c), disk, [Clock(now)] + DeadInputs(d, now', o), if d.NoToken? then [] else Renewed(c),
                 Returned(Emptied(c.(refreshed := true)),
                          Forgotten(o, if d.NoToken? then LoginRequired else RefreshFailure(d.reply))),
                 FileForgotten(disk, c, o))
  {
    var e := c.(refreshed := true);
    var sent := if d.NoToken? then [] else Renewed(c);
    Due(c, disk, now);
    RefreshDies(e, disk, d, now', o);
    GoesOn(Entered(c), disk, [Clock(now)], [], Renewing(e), disk, DeadInputs(d, now', o), sent,
           Returned(Emptied(e), Forgotten(o, if d.NoToken? then LoginRequired else RefreshFailure(d.reply))),
           FileForgotten(disk, c, o));
    assert [] + sent == sent;
  }

  /** A rejected read whose refresh brings nothing. */
  lemma RejectedAndDead(c: Call, disk: State, now: int, t: int, d: Dead, now': int, o: SaveOutcome)
    requires Good(c.credential.token, now) && c.kind == Get && !c.refreshed && Dies(d, c, now')
    ensures Goes(Entered(c), disk, UpToRejection(now, t) + DeadInputs(d, now', o),
                 Asked(c) + (if d.NoToken? then [] else Renewed(c)),
                 Returned(Emptied(c.(refreshed := true)),
                          Forgotten(o, if d.NoToken? then LoginRequired else RefreshFailure(d.reply))),
                 FileForgotten(disk, c, o))
  {
    var e := c.(refreshed := true);
    ReadRefreshes(c, disk, now, t);
    RefreshDies(e, disk, d, now', o);
    GoesOn(Entered(c), disk, UpToRejection(now, t), Asked(c), Renewing(e), disk,
           DeadInputs(d, now', o), if d.NoToken? then [] else Renewed(c),
           Returned(Emptied(e), Forgotten(o, if d.NoToken? then LoginRequired else RefreshFailure(d.reply))),
           FileForgotten(disk, c, o));
  }

  /** The refresh that worked, and the inputs of it. */
  function Renewal(now: int, reply: Reply, t: int): seq<Input> {
    [Clock(now), Answer(reply, t), Saved(Replaced)]
  }

  /** After a refresh that worked: the target is asked with the new access token, and a 401
      is final. */
  datatype End = Ended(reply: Reply, t: int) | Refusal(t: int, o: SaveOutcome)

  function EndInputs(e: End): seq<Input> {
    match e
    case Ended(reply, t) => [Go, Answer(reply, t)]
    case Refusal(t, o) => [Go, Answer(Refused(401), t), Saved(o)]
  }

  function EndPc(c: Call, e: End): Pc {
    match e
    case Ended(reply, _) =>
      Returned(c, if reply.Success? then Outcome.Served(reply.body) else RefreshFailure(reply))
    case Refusal(_, o) => Returned(Emptied(c), Forgotten(o, HttpError(401)))
  }

  function EndFile(c: Call, e: End): State {
    match e
    case Ended(_, _) => c.memory
    case Refusal(_, o) => FileForgotten(c.memory, c, o)
  }

  predicate Proper(e: End) {
    e.Ended? ==> Status(e.reply) != 401
  }

  lemma LastReply(c: Call, e: End)
    requires c.refreshed && Proper(e)
    ensures Goes(Calling(c), c.memory, EndInputs(e), Asked(c), EndPc(c, e), EndFile(c, e))
  {
    match e
    case Ended(Lost, t) => ReplyLost(c, c.memory, t);
    case Ended(Refused(status), t) => OtherStatus(c, c.memory, status, t);
    case Ended(Success(body), t) => Served(c, c.memory, body, t);
    case Refusal(t, o) => Rejected(c, c.memory, t, o);
  }

  lemma RenewedCall(c: Call, disk: State, now: int, reply: Reply, next: Token, t: int, e: End)
    requires c.refreshed && Live(c.credential.token, now) && Brings(reply, next, t) && Proper(e)
    ensures var d := WithToken(c, next);
            Goes(Renewing(c), disk, Renewal(now, reply, t) + EndInputs(e), Renewed(c) + Asked(d),
                 EndPc(d, e), EndFile(d, e))
  {
    var d := WithToken(c, next);
    RefreshWorks(c, disk, now, reply, next, t);
    LastReply(d, e);
    GoesOn(Renewing(c), disk, Renewal(now, reply, t), Renewed(c), Calling(d), d.memory,
           EndInputs(e), Asked(d), EndPc(d, e), EndFile(d, e));
  }

  /** A call whose access token is missing or about to end: refresh, then the target, once. */
  lemma DueAndRenewed(c: Call, disk: State, now: int, now': int, reply: Reply, next: Token, t: int, e: End)
    requires !Good(c.credential.token, now) && Live(c.credential.token, now') && Brings(reply, next, t) && Proper(e)
    ensures var d := WithToken(c.(refreshed := true), next);
            Goes(Entered(c), disk, [Clock(now)] + (Renewal(now', reply, t) + EndInputs(e)), Renewed(c) + Asked(d),
                 EndPc(d, e), EndFile(d, e))
  {
    var r := c.(refreshed := true);
    var d := WithToken(r, next);
    Due(c, disk, now);
    RenewedCall(r, disk, now', reply, next, t, e);
    GoesOn(Entered(c), disk, [Clock(now)], [], Renewing(r), disk,
           Renewal(now', reply, t) + EndInputs(e), Renewed(c) + Asked(d), EndPc(d, e), EndFile(d, e));
    assert [] + (Renewed(c) + Asked(d)) == Renewed(c) + Asked(d);
  }

  /** A rejected read refreshes and asks again with the new access token; what it then gets
      is what the caller gets. */
  lemma ReadIsRetried(c: Call, disk: State, now: int, t: int, now': int, reply: Reply, next: Token, t': int, e: End)
    requires Good(c.credential.token, now) && c.kind == Get && !c.refreshed
    requires Live(c.credential.token, now') && Brings(reply, next, t') && Proper(e)
    ensures var d := WithToken(c.(refreshed := true), next);
            Goes(Entered(c), disk, UpToRejection(now, t) + (Renewal(now', reply, t') + EndInputs(e)),
                 Asked(c) + (Renewed(c) + Asked(d)), EndPc(d, e), EndFile(d, e))
  {
    var r := c.(refreshed := true);
    var d := WithToken(r, next);
    ReadRefreshes(c, disk, now, t);
    RenewedCall(r, disk, now', reply, next, t', e);
    GoesOn(Entered(c), disk, UpToRejection(now, t), Asked(c), Renewing(r), disk,
           Renewal(now', reply, t') + EndInputs(e), Renewed(c) + Asked(d), EndPc(d, e), EndFile(d, e));
  }

  // ---------- logout ----------

  /** The credentials a logout keeps. */
  function Kept(c: Call, all: bool): map<Key, Credential> {
    map k | k in c.memory.credentials && k != c.key
            && !(all && c.memory.credentials[k].url == c.key.origin
                 && c.memory.credentials[k].userId == c.credential.userId) ::
      c.memory.credentials[k]
  }

  /** A logout the server has served goes on to forget: the session is off the file, and with
      it the user's others on that backend if all were asked for. */
  lemma ServedLogout(c: Call, disk: State, body: Body, all: bool, o: SaveOutcome) returns (end: Call)
    requires c.goal == Logout(all)
    ensures var file := if o.NotReplaced? then disk else c.memory.(credentials := Kept(c, all));
            Goes(Returned(c, Outcome.Served(body)), disk, [Go, Saved(o)], [],
                 Returned(end, Forgotten(o, LoggedOut)), file)
  {
    var pc := Returned(c, Outcome.Served(body));
    TwoInputs(pc, disk, Go, Saved(o));
    end := Advance(pc, Go).call;
    assert end.memory.credentials == Kept(c, all);
  }

  // ---------- how a command begins ----------

  /** A session command goes on exactly when its selection resolves and a credential of that
      origin is stored; `--local-only` goes straight to forgetting. */
  lemma SessionOpens(sel: Selection, kind: Method, goal: Goal, localOnly: bool, disk: State, base: Origin)
    requires Resolve(sel, disk) == Ok(base)
    ensures var key := Key(base, Profile(sel));
            var pc := OpenSession(Session(sel, kind, goal, localOnly), disk);
            if key !in disk.credentials || disk.credentials[key].url != base then pc == Failed
            else
              var c := Call(key, disk.credentials[key], disk, kind, false, goal);
              pc == if localOnly then Forgetting(Emptied(c), None, LoggedOut) else Entered(c)
  {
  }

  /** A login goes on exactly when its profile resolves and has no session. */
  lemma LoginOpens(sel: Selection, disk: State)
    ensures OpenLogin(sel, disk) ==
            if Resolve(sel, disk).Ok? && Key(Resolve(sel, disk).value, Profile(sel)) !in disk.credentials
            then Asking(LoginRun(sel, Resolve(sel, disk).value))
            else Failed
  {
  }

  /** No selection, no session. */
  lemma UnresolvedFails(sel: Selection, kind: Method, goal: Goal, localOnly: bool, disk: State)
    requires Resolve(sel, disk).Err?
    ensures OpenSession(Session(sel, kind, goal, localOnly), disk) == Failed
  {
  }
}
