/** `do`, `refresh` and `forget` as the methods they are: they update the client's
    credential, the store's memory and its file in place. A ghost control point follows
    every effect, so one call of `Do` is one run of the machine in RemoteSession. */
module RemoteClient {
  import opened Wrappers
  import opened RemoteStore
  import opened RemoteSession

  class Store {
    var state: State
    var file: State

    constructor (loaded: State)
      ensures state == file == loaded
    {
      state, file := loaded, loaded;
    }

    /** May fail before or after the replacement; only Replaced is success. */
    method Save() returns (outcome: SaveOutcome)
      modifies this`file
      ensures file == if outcome.NotReplaced? then old(file) else state
    {
      outcome := *;
      if !outcome.NotReplaced? {
        file := state;
      }
    }
  }

  /** The servers: any reply to any request. Polls are counted as they go out. */
  class Wire {
    var sent: seq<Request>
    var polls: nat

    constructor ()
      ensures sent == [] && polls == 0
    {
      sent, polls := [], 0;
    }

    method Send(r: Request) returns (reply: Reply)
      modifies this
      ensures sent == old(sent) + [r]
      ensures polls == old(polls) + (if r.Poll? then 1 else 0)
    {
      sent := sent + [r];
      if r.Poll? {
        polls := polls + 1;
      }
      reply := *;
    }
  }

  method Now() returns (now: int) {
    now := *;
  }

  /** What the file holds after the inputs. */
  function FileAfter(pc: Pc, inputs: seq<Input>, file: State): State
    decreases inputs
  {
    if inputs == [] then file
    else
      FileAfter(Advance(pc, inputs[0]), inputs[1..], DiskAfter(file, pc, inputs[0]))
  }

  lemma {:induction false} FollowThen(pc: Pc, inputs: seq<Input>, input: Input)
    ensures Follow(pc, inputs + [input]) == Advance(Follow(pc, inputs), input)
    decreases inputs
  {
    var more := inputs + [input];
    if inputs == [] {
      assert more == [input] && more[1..] == [];
    } else {
      assert more[0] == inputs[0] && more[1..] == inputs[1..] + [input];
      FollowThen(Advance(pc, inputs[0]), inputs[1..], input);
    }
  }

  lemma {:induction false} SendsThen(pc: Pc, inputs: seq<Input>, input: Input)
    ensures Sends(pc, inputs + [input]) == Sends(pc, inputs) + Emits(Follow(pc, inputs), input)
    decreases inputs
  {
    var more := inputs + [input];
    if inputs == [] {
      assert more == [input] && more[1..] == [];
    } else {
      assert more[0] == inputs[0] && more[1..] == inputs[1..] + [input];
      SendsThen(Advance(pc, inputs[0]), inputs[1..], input);
    }
  }

  lemma {:induction false} FileThen(pc: Pc, inputs: seq<Input>, input: Input, file: State)
    ensures FileAfter(pc, inputs + [input], file) == DiskAfter(FileAfter(pc, inputs, file), Follow(pc, inputs), input)
    decreases inputs
  {
    var more := inputs + [input];
    if inputs == [] {
      assert more == [input] && more[1..] == [];
    } else {
      assert more[0] == inputs[0] && more[1..] == inputs[1..] + [input];
      FileThen(Advance(pc, inputs[0]), inputs[1..], input, DiskAfter(file, pc, inputs[0]));
    }
  }

  /** The last reply of the target decides what the caller gets; without one, a refresh had
      to come first and failed. */
  predicate Answers(r: Outcome, last: Option<Reply>) {
    match last
    case None => !r.Served? && !r.LoggedOut?
    case Some(Success(body)) => r == Served(body)
    case Some(Refused(status)) => r == HttpError(status) || (status == 401 && r == StorageError)
    case Some(Lost) => r == TransportError
  }

  class Client {
    const key: Key
    const store: Store
    const wire: Wire
    var credential: Credential

    // The run of the machine so far.
    ghost var start: Pc
    ghost var startFile: State
    ghost var before: seq<Request>
    ghost var inputs: seq<Input>
    ghost var pc: Pc

    constructor (key: Key, store: Store, wire: Wire, kind: Method, goal: Goal)
      requires key in store.state.credentials
      ensures this.key == key && this.store == store && this.wire == wire
      ensures credential == store.state.credentials[key]
      ensures pc == Entered(Call(key, credential, store.state, kind, false, goal))
      ensures OnTrack()
    {
      this.key, this.store, this.wire := key, store, wire;
      credential := store.state.credentials[key];
      start := Entered(Call(key, store.state.credentials[key], store.state, kind, false, goal));
      startFile := store.file;
      before := wire.sent;
      inputs := [];
      pc := Entered(Call(key, store.state.credentials[key], store.state, kind, false, goal));
    }

    /** A session that is only to be forgotten here. */
    constructor Local(key: Key, store: Store, wire: Wire, kind: Method, goal: Goal)
      requires key in store.state.credentials
      ensures this.key == key && this.store == store && this.wire == wire
      ensures credential == store.state.credentials[key]
      ensures pc == RemoteSession.Forget(Call(key, credential, store.state, kind, false, goal), None, LoggedOut)
      ensures OnTrack()
    {
      var c := Call(key, store.state.credentials[key], store.state, kind, false, goal);
      this.key, this.store, this.wire := key, store, wire;
      credential := store.state.credentials[key];
      start := RemoteSession.Forget(c, None, LoggedOut);
      startFile := store.file;
      before := wire.sent;
      inputs := [];
      pc := RemoteSession.Forget(c, None, LoggedOut);
    }

    /** The fields are what the machine says they are. */
    ghost predicate Holds(c: Call)
      reads this, store
    {
      c.key == key && c.credential == credential && c.memory == store.state
    }

    /** The other profiles, which memory and file always agree on. */
    function Others(): map<Key, Credential>
      reads this, store
    {
      store.file.credentials - {key}
    }

    ghost predicate Synced()
      reads this, store
    {
      store.state.servers == store.file.servers && store.state.credentials - {key} == Others()
    }

    /** A refresh ended in an error; unless storing failed, the session is off the disk. */
    ghost predicate GaveUp(error: Outcome)
      reads this, store
    {
      && pc.Returned? && Holds(pc.call) && pc.outcome == error && pc.call.refreshed
      && !error.Served? && !error.LoggedOut?
      && (error != StorageError ==> key !in store.file.credentials)
    }

    /** The effects so far are those of the machine. */
    ghost predicate OnTrack()
      reads this, store, wire
    {
      && pc == Follow(start, inputs)
      && wire.sent == before + Sends(start, inputs)
      && store.file == FileAfter(start, inputs, startFile)
    }

    /** Records one input once its effects are done. */
    ghost method Observe(input: Input)
      requires pc == Follow(start, inputs)
      requires wire.sent == before + Sends(start, inputs) + Emits(pc, input)
      requires store.file == DiskAfter(FileAfter(start, inputs, startFile), pc, input)
      modifies this`inputs, this`pc
      ensures OnTrack() && pc == Advance(old(pc), input) && inputs == old(inputs) + [input]
    {
      FollowThen(start, inputs, input);
      SendsThen(start, inputs, input);
      FileThen(start, inputs, input, startFile);
      inputs := inputs + [input];
      pc := Advance(pc, input);
    }

    /** A clock reading or a reply: no effect of its own. */
    ghost method Hear(input: Input)
      requires OnTrack() && Emits(pc, input) == [] && Writes(pc, input).None?
      modifies this`inputs, this`pc
      ensures OnTrack() && pc == Advance(old(pc), input)
    {
      Observe(input);
    }

    /** Sends the request the machine sends on `input`. */
    method Ask(r: Request, ghost input: Input) returns (reply: Reply)
      requires OnTrack() && Emits(pc, input) == [r] && Writes(pc, input).None?
      modifies this`inputs, this`pc, wire
      ensures OnTrack() && pc == Advance(old(pc), input)
    {
      reply := wire.Send(r);
      Observe(input);
    }

    /** Saves the memory; the machine is at a pending save of the same state. */
    method Persist() returns (ok: bool, ghost outcome: SaveOutcome)
      requires OnTrack() && Emits(pc, Saved(Replaced)) == Emits(pc, Saved(NotReplaced)) ==
               Emits(pc, Saved(ReplacedUnsynced)) == []
      requires Writes(pc, Saved(Replaced)) == Writes(pc, Saved(ReplacedUnsynced)) == Some(store.state)
      modifies this`inputs, this`pc, store`file
      ensures OnTrack() && ok == outcome.Replaced? && pc == Advance(old(pc), Saved(outcome))
      ensures store.file == if outcome.NotReplaced? then old(store.file) else store.state
    {
      var o := store.Save();
      Observe(Saved(o));
      return o.Replaced?, o;
    }

    /** Deletes the session from memory and file; the machine has decided to forget `c`. */
    method Forget(ghost c: Call, ghost spent: Option<string>, after: Outcome) returns (r: Outcome)
      requires OnTrack() && Holds(c) && pc == RemoteSession.Forget(c, spent, after)
      modifies this`credential, this`inputs, this`pc, store
      ensures OnTrack()
      ensures pc.Returned? && Holds(pc.call) && pc.outcome == r && r in {after, StorageError}
      ensures pc.call.refreshed == c.refreshed
      ensures store.state == old(store.state).(credentials := old(store.state).credentials - {key})
      ensures store.file in {old(store.file), store.state} && (r != StorageError ==> store.file == store.state)
    {
      store.state := store.state.(credentials := store.state.credentials - {key});
      credential := credential.(token := NO_TOKEN);
      var ok, outcome := Persist();
      return if ok then after else StorageError;
    }

    /** The machine has just accepted the rotated token. */
    method KeepRotated(next: Token, ghost c: Call) returns (ok: bool)
      requires OnTrack() && Synced() && Holds(c) && pc == Rotate(c, next)
      modifies this`credential, this`inputs, this`pc, store, wire
      ensures OnTrack()
      ensures credential == old(credential).(token := next)
      ensures ok ==> pc == Calling(c.(credential := credential, memory := store.state)) && store.file == store.state
      ensures !ok ==> pc == Returned(c.(credential := credential, memory := store.state), StorageError)
      ensures Synced() && Others() == old(Others())
    {
      credential := credential.(token := next);
      store.state := store.state.(credentials := store.state.credentials[key := credential]);
      ghost var outcome;
      ok, outcome := Persist();
      if !ok {
        var _ := Ask(Revoke(key.origin, next.access), Go);
      }
    }

    /** What follows the reply to a refresh request, just heard. */
    method Refreshed(reply: Reply, now: int, ghost c: Call) returns (failed: Option<Outcome>)
      requires OnTrack() && Synced() && Holds(c) && pc == Advance(RefreshSent(c), Answer(reply, now))
      requires c.refreshed
      modifies this`credential, this`inputs, this`pc, store, wire
      ensures OnTrack()
      ensures failed.None? ==> pc == Calling(c.(credential := credential, memory := store.state))
      ensures failed.None? ==> credential.userId == old(credential.userId)
      ensures failed.Some? ==> GaveUp(failed.value)
      ensures Synced() && Others() == old(Others())
    {
      ghost var spent := Some(credential.token.refresh);
      if !reply.Success? {
        // The rotation may have happened even though its response was lost.
        var r := Forget(c, spent, Failure(reply));
        return Some(r);
      }
      if reply.body.token.None? || !Usable(reply.body.token.value, now) {
        var r := Forget(c, spent, RefreshUnusable);
        return Some(r);
      }
      var ok := KeepRotated(reply.body.token.value, c);
      return if ok then None else Some(StorageError);
    }

    /** None is success; otherwise the error `do` returns. */
    method Refresh(ghost c: Call) returns (failed: Option<Outcome>)
      requires OnTrack() && Synced() && Holds(c) && pc == Renewing(c) && c.refreshed
      modifies this`credential, this`inputs, this`pc, store, wire
      ensures OnTrack()
      ensures failed.None? ==> pc == Calling(c.(credential := credential, memory := store.state))
      ensures failed.None? ==> credential.userId == old(credential.userId)
      ensures failed.Some? ==> GaveUp(failed.value)
      ensures Synced() && Others() == old(Others())
    {
      var token := credential.token;
      var now := Now();
      if token.refresh == "" || token.refreshExpires <= now {
        Hear(Clock(now));
        var r := Forget(c, None, LoginRequired);
        return Some(r);
      }
      var reply := Ask(Request.Refresh(key.origin, token.refresh), Clock(now));
      now := Now();
      Hear(Answer(reply, now));
      failed := Refreshed(reply, now, c);
    }

    /** One request to the target. */
    method CallTarget(kind: Method, ghost c: Call) returns (reply: Reply, ghost now: int)
      requires OnTrack() && Holds(c) && pc == Calling(c) && c.kind == kind
      modifies this`inputs, this`pc, wire
      ensures OnTrack() && pc == Advance(CallSent(c), Answer(reply, now))
    {
      reply := Ask(Target(key.origin, kind, credential.token.access), Go);
      var n := Now();
      now := n;
      Hear(Answer(reply, now));
    }

    /** An access token within thirty seconds of its end, by the clock read here, is
        renewed first; otherwise nothing is sent. */
    method RenewIfDue(ghost c: Call) returns (refreshed: bool, failed: Option<Outcome>, ghost at: int)
      requires OnTrack() && Synced() && Holds(c) && pc == Entered(c) && !c.refreshed
      modifies this`credential, this`inputs, this`pc, store, wire
      ensures OnTrack()
      ensures refreshed <==> old(credential.token.access) == "" || old(credential.token.accessExpires) <= at + 30
      ensures !refreshed ==> failed.None? && credential == old(credential) && wire.sent == old(wire.sent)
      ensures failed.None? ==>
                && pc == Calling(c.(credential := credential, memory := store.state, refreshed := refreshed))
                && credential.userId == old(credential.userId)
      ensures failed.Some? ==> GaveUp(failed.value)
      ensures Synced() && Others() == old(Others())
    {
      var now := Now();
      at := now;
      refreshed := credential.token.access == "" || credential.token.accessExpires <= now + 30;
      Hear(Clock(now));
      failed := None;
      if refreshed {
        failed := Refresh(c.(refreshed := true));
      }
    }

    /** The second and last try of a read. */
    method Retry(kind: Method, ghost c: Call) returns (r: Outcome, ghost last: Option<Reply>)
      requires OnTrack() && Synced() && Holds(c) && pc == Renewing(c) && c.refreshed && c.kind == kind
      modifies this`credential, this`inputs, this`pc, store, wire
      ensures OnTrack() && pc.Returned? && pc.outcome == r && Holds(pc.call) && !r.LoggedOut?
      ensures r.Served? ==> pc.call.goal == c.goal && credential.userId == old(credential.userId)
      ensures r == HttpError(401) || r == LoginRequired || r == RefreshUnusable ==> key !in store.file.credentials
      ensures Answers(r, last) && pc.call.refreshed
      ensures Synced() && Others() == old(Others())
    {
      last := None;
      var failed := Refresh(c);
      if failed.Some? {
        return failed.value, last;
      }
      ghost var d := pc.call;
      var reply;
      ghost var heard;
      reply, heard := CallTarget(kind, d);
      last := Some(reply);
      if Status(reply) == 401 {
        r := Forget(d, None, HttpError(401));
        return;
      }
      r := if reply.Success? then Served(reply.body) else Failure(reply);
    }

    /** `do`, statement by statement. */
    method Attempt(kind: Method) returns (r: Outcome, ghost last: Option<Reply>)
      requires OnTrack() && Synced() && pc.Entered? && Holds(pc.call) && pc.call.kind == kind && !pc.call.refreshed
      modifies this`credential, this`inputs, this`pc, store, wire
      ensures OnTrack() && pc.Returned? && pc.outcome == r && Holds(pc.call)
      ensures !r.LoggedOut?
      ensures r.Served? ==> pc.call.goal == old(pc.call.goal) && credential.userId == old(credential.userId)
      // A rejected session is off the disk before its error is seen.
      ensures r == HttpError(401) || r == LoginRequired || r == RefreshUnusable ==> key !in store.file.credentials
      ensures Answers(r, last)
      // A read is asked again after its first 401, unless refreshing has failed.
      ensures last.None? || (kind == Get && last == Some(Refused(401))) ==> pc.call.refreshed
      // No other profile is touched.
      ensures Synced() && Others() == old(Others())
    {
      ghost var c := pc.call;
      var refreshed, failed;
      ghost var at;
      last := None;
      refreshed, failed, at := RenewIfDue(c);
      if failed.Some? {
        return failed.value, last;
      }
      ghost var heard;
      c := pc.call;
      var reply;
      reply, heard := CallTarget(kind, c);
      last := Some(reply);
      if Status(reply) != 401 {
        r := if reply.Success? then Served(reply.body) else Failure(reply);
        return;
      }
      if kind != Get || refreshed {
        r := Forget(c, None, HttpError(401));
        return;
      }
      c := pc.call;
      r, last := Retry(kind, c);
    }

    /** Every call, for every server, clock and disk: one run of the machine, with at most
        one refresh, a write sent to its target at most once and a read at most twice. */
    method Do(kind: Method) returns (r: Outcome, ghost last: Option<Reply>)
      requires OnTrack() && Synced() && inputs == [] && pc.Entered? && Holds(pc.call) && pc.call.kind == kind
               && !pc.call.refreshed
      modifies this`credential, this`inputs, this`pc, store, wire
      ensures pc == Follow(old(pc), inputs) && pc.Returned? && pc.outcome == r && Holds(pc.call)
      ensures wire.sent == old(wire.sent) + Sends(old(pc), inputs)
      ensures store.file == FileAfter(old(pc), inputs, old(store.file))
      ensures Refreshes(Sends(old(pc), inputs)) <= 1
      ensures Targets(Sends(old(pc), inputs)) <= if kind == Get then 2 else 1
      ensures r == HttpError(401) || r == LoginRequired || r == RefreshUnusable ==> key !in store.file.credentials
      ensures Answers(r, last)
      // A read is given up as rejected only after its one refresh.
      ensures kind == Get && r == HttpError(401) ==> Refreshes(Sends(old(pc), inputs)) == 1
      // No other profile is touched.
      ensures Synced() && Others() == old(Others())
    {
      ghost var c := pc.call;
      r, last := Attempt(kind);
      DoSendsBounded(c, inputs);
      if kind == Get && r == HttpError(401) {
        ReadIsNotGivenUpEarly(c, inputs);
      }
    }

    /** The sessions `logout --all` drops beside its own. */
    predicate SameUser(c: Credential)
      reads this
    {
      c.url == key.origin && c.userId == credential.userId
    }

    /** The loop of `logout --all`, in whatever order the map yields its keys. */
    method WipeUser()
      requires pc.Returned? && Holds(pc.call)
      modifies store`state
      ensures store.state == Wipe(pc.call).memory
    {
      ghost var was := store.state;
      var todo := store.state.credentials.Keys;
      while todo != {}
        invariant store.state.servers == was.servers
        invariant todo <= was.credentials.Keys
        invariant store.state.credentials ==
                  map k | k in was.credentials && (k in todo || !SameUser(was.credentials[k])) :: was.credentials[k]
        decreases todo
      {
        var k :| k in todo;
        todo := todo - {k};
        if SameUser(store.state.credentials[k]) {
          store.state := store.state.(credentials := store.state.credentials - {k});
        }
      }
      assert store.state.credentials == Wipe(pc.call).memory.credentials;
    }

    /** Revokes, then forgets; everything else in the file stays. What the server has served
        ends logged out, or in a storage error. */
    method LogOut(all: bool) returns (r: Outcome, ghost last: Option<Reply>)
      requires OnTrack() && Synced() && pc.Entered? && Holds(pc.call) && !pc.call.refreshed
      requires pc.call.kind == Write && pc.call.goal == Logout(all)
      modifies this`credential, this`inputs, this`pc, store, wire
      ensures OnTrack() && pc.Returned? && pc.outcome == r && Holds(pc.call) && Ended(pc)
      ensures if last.Some? && last.value.Success? then r in {LoggedOut, StorageError} else Answers(r, last)
      ensures r == LoggedOut ==>
                store.file.credentials ==
                map k | k in old(Others()) && !(all && old(SameUser(Others()[k]))) :: old(Others())[k]
      ensures r != LoggedOut && r != StorageError ==> Others() == old(Others())
    {
      r, last := Attempt(Write);
      if !r.Served? {
        return;
      }
      ghost var c := if all then Wipe(pc.call) else pc.call;
      if all {
        WipeUser();
      }
      Hear(Go);
      r := Forget(c, None, LoggedOut);
    }

    /** `logout --local-only`: forgets without a word to the server. */
    method LogOutLocally(ghost c: Call) returns (r: Outcome)
      requires OnTrack() && Synced() && Holds(c) && pc == RemoteSession.Forget(c, None, LoggedOut)
      modifies this`credential, this`inputs, this`pc, store
      ensures OnTrack() && pc.Returned? && pc.outcome == r && r in {LoggedOut, StorageError}
      ensures Others() == old(Others())
      ensures r == LoggedOut ==> store.file.credentials == old(Others())
    {
      r := Forget(c, None, LoggedOut);
    }
  }
}
