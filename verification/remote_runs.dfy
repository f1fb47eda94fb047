/** The session protocol over whole runs: every order of any number of processes,
    replies, clock readings, save outcomes and crashes. */
module RemoteRuns {
  import opened Wrappers
  import opened RemoteStore
  import opened RemoteSession
  import opened RemoteSystem
  import opened RemoteSafety
  import opened RemoteSpending
  import opened RemoteLogins

  ghost predicate Inv(s: System) {
    Base(s) && Isolated(s) && SpendOk(s) && AllAccountedFor(s) && Counted(s)
  }

  lemma InitSpend(s: System)
    requires Init(s)
    ensures SpendOk(s)
  {
    assert Received(s.procs) == map[];
  }

  lemma InitBase(s: System)
    requires Init(s)
    ensures Base(s) && Isolated(s)
  {
  }

  lemma InitLogins(s: System)
    requires Init(s)
    ensures AllAccountedFor(s) && Counted(s)
  {
  }

  lemma InitInv(s: System)
    requires Init(s)
    ensures Inv(s)
  {
    InitBase(s);
    InitSpend(s);
    InitLogins(s);
  }

  lemma NextInv(s: System, a: Action)
    requires Inv(s) && Enabled(s, a)
    ensures Inv(Next(s, a))
  {
    BaseKept(s, a);
    IsolatedKept(s, a);
    SpendKept(s, a);
    AccountsKept(s, a);
    CountsKept(s, a);
  }

  lemma {:induction false} RunInv(s: System, run: seq<Action>)
    requires Inv(s) && Feasible(s, run)
    ensures Inv(After(s, run))
    decreases run
  {
    if run == [] {
    } else {
      NextInv(s, run[0]);
      RunInv(Next(s, run[0]), run[1..]);
    }
  }

  // ---------- single use ----------

  /** A save after a refresh request that does not replace the file, a crash between the
      request and that save, a server issuing one refresh token twice. */
  predicate Lossy(s: System, a: Action)
    requires Enabled(s, a)
  {
    match a
    case Step(p, input) => (SaveLost(input) && Spending(s.procs[p]).Some?) || Reissued(s, s.procs[p], input)
    case Crash(p) => Spending(s.procs[p]).Some?
    case _ => false
  }

  predicate Lossless(s: System, run: seq<Action>)
    requires Feasible(s, run)
    decreases run
  {
    run == [] || (!Lossy(s, run[0]) && Lossless(Next(s, run[0]), run[1..]))
  }

  lemma {:induction false} LosslessExcusesNothing(s: System, run: seq<Action>)
    requires Feasible(s, run) && Lossless(s, run)
    ensures After(s, run).excused == s.excused
    decreases run
  {
    if run == [] {
    } else {
      LosslessExcusesNothing(Next(s, run[0]), run[1..]);
    }
  }

  /** No refresh token is sent to its server twice, unless its own save was lost. */
  lemma RefreshTokensSentOnce(s: System, run: seq<Action>, origin: Origin, token: string)
    requires Init(s) && Feasible(s, run)
    requires (origin, token) !in After(s, run).excused
    ensures After(s, run).sent[Refresh(origin, token)] <= 1
  {
    InitInv(s);
    RunInv(s, run);
  }

  lemma LosslessRunsSendOnce(s: System, run: seq<Action>, origin: Origin, token: string)
    requires Init(s) && Feasible(s, run) && Lossless(s, run)
    ensures After(s, run).sent[Refresh(origin, token)] <= 1
  {
    LosslessExcusesNothing(s, run);
    RefreshTokensSentOnce(s, run, origin, token);
  }

  /** Once the lock is free, whatever the server answered, a sent token is off the disk. */
  lemma SentTokensAreGone(s: System, run: seq<Action>, k: Key)
    requires Init(s) && Feasible(s, run)
    requires var t := After(s, run);
             && t.lock.None? && k in t.disk.credentials
             && (k.origin, t.disk.credentials[k].token.refresh) !in t.excused
    ensures var t := After(s, run); t.sent[Refresh(k.origin, t.disk.credentials[k].token.refresh)] == 0
  {
    InitInv(s);
    RunInv(s, run);
    assert k in View(After(s, run)).stored;
  }

  // ---------- isolation ----------

  lemma TokensGoOnlyToTheirIssuer(s: System, run: seq<Action>, r: Request)
    requires Init(s) && Feasible(s, run) && r in After(s, run).sent
    ensures RequestIssued(r, After(s, run).issuedAccess, After(s, run).issuedRefresh)
  {
    InitInv(s);
    RunInv(s, run);
  }

  lemma CredentialsStayHome(s: System, run: seq<Action>, k: Key)
    requires Init(s) && Feasible(s, run) && k in After(s, run).disk.credentials
    ensures After(s, run).disk.credentials[k].url == k.origin
    ensures k.profile == "default" || Registered(After(s, run).disk, k.profile) == Some(k.origin)
  {
    InitInv(s);
    RunInv(s, run);
  }

  lemma {:induction false} ProfilesAreNeverRebound(s: System, run: seq<Action>, profile: string)
    requires Inv(s) && Feasible(s, run) && profile in s.disk.servers
    ensures profile in After(s, run).disk.servers
    ensures After(s, run).disk.servers[profile] == s.disk.servers[profile]
    decreases run
  {
    if run == [] {
    } else {
      BindingsKept(s, run[0], profile);
      NextInv(s, run[0]);
      ProfilesAreNeverRebound(Next(s, run[0]), run[1..], profile);
    }
  }

  // ---------- logins ----------

  /** Between two removals of a key at most one login is stored there. */
  lemma OneLoginPerVacancy(s: System, run: seq<Action>, k: Key)
    requires Inv(s) && Feasible(s, run)
    requires After(s, run).removals[k] == s.removals[k]
    ensures After(s, run).logins[k] <= s.logins[k] + (if k in s.disk.credentials then 0 else 1)
  {
    RunInv(s, run);
  }

  lemma EndedIsSettled(s: System, a: (Pid, Key, Token))
    requires AllAccountedFor(s) && a in s.approved && a !in s.abandoned
    requires a.0 in s.procs ==> Ended(s.procs[a.0])
    ensures a in s.kept || Disowned(s, a)
  {
    assert AccountedFor(s, a);
  }

  /** A login that has ended without a crash stored its session or sent its revocation
      itself, whatever became of the same session elsewhere. */
  lemma ApprovedSessionsAreSettled(s: System, run: seq<Action>, a: (Pid, Key, Token))
    requires Init(s) && Feasible(s, run)
    requires var t := After(s, run);
             a in t.approved && a !in t.abandoned && (a.0 in t.procs ==> Ended(t.procs[a.0]))
    ensures var t := After(s, run); a in t.kept || Disowned(t, a)
  {
    InitInv(s);
    RunInv(s, run);
    EndedIsSettled(After(s, run), a);
  }

  lemma RejectedIsGone(s: System, p: Pid)
    requires Base(s) && p in s.procs && s.procs[p].Returned? && Gone(s.procs[p].outcome)
    ensures s.procs[p].call.key !in s.disk.credentials
  {
    assert HeldOk(s.procs[p], s.disk);
  }

  /** A rejected or logged-out session is off the disk before its process returns. */
  lemma RejectedSessionsAreGone(s: System, run: seq<Action>, p: Pid)
    requires Init(s) && Feasible(s, run)
    requires var t := After(s, run); p in t.procs && t.procs[p].Returned? && Gone(t.procs[p].outcome)
    ensures After(s, run).procs[p].call.key !in After(s, run).disk.credentials
  {
    InitInv(s);
    RunInv(s, run);
    RejectedIsGone(After(s, run), p);
  }

  // ---------- what a lost save costs ----------

  /** A command line that selects the key. */
  function Selecting(k: Key): Selection {
    Selection(Some(Some(k.origin)), if k.profile == "default" then "" else k.profile)
  }

  function Reading(p: Pid, k: Key, now: int): seq<Action> {
    [Launch(p, Session(Selecting(k), Get, OneRequest, false)), Open(p), Step(p, Clock(now)), Step(p, Clock(now))]
  }

  lemma FeasibleConcat(s: System, a: seq<Action>, b: seq<Action>)
    requires Feasible(s, a) && Feasible(After(s, a), b)
    ensures Feasible(s, a + b) && After(s, a + b) == After(After(s, a), b)
    decreases a
  {
    if a == [] {
      assert a + b == b;
    } else {
      assert (a + b)[1..] == a[1..] + b;
      FeasibleConcat(Next(s, a[0]), a[1..], b);
    }
  }

  lemma OneAction(s: System, a: Action)
    requires Enabled(s, a)
    ensures Feasible(s, [a]) && After(s, [a]) == Next(s, a)
  {
  }

  lemma Append(s: System, run: seq<Action>, a: Action)
    requires Feasible(s, run) && Enabled(After(s, run), a)
    ensures Feasible(s, run + [a]) && After(s, run + [a]) == Next(After(s, run), a)
  {
    OneAction(After(s, run), a);
    FeasibleConcat(s, run, [a]);
  }

  ghost predicate Refreshable(s: System, k: Key, now: int) {
    && KeysOk(s.disk) && s.lock.None? && k in s.disk.credentials
    && s.disk.credentials[k].token.refresh != ""
    && s.disk.credentials[k].token.accessExpires <= now + 30
    && now < s.disk.credentials[k].token.refreshExpires
  }

  lemma SelectingSelects(s: System, k: Key)
    requires KeysOk(s.disk) && k in s.disk.credentials
    ensures OpenSession(Session(Selecting(k), Get, OneRequest, false), s.disk) ==
            Entered(Call(k, s.disk.credentials[k], s.disk, Get, false, OneRequest))
  {
  }

  lemma Started(s: System, k: Key, p: Pid, now: int)
    requires Refreshable(s, k, now) && p !in s.procs
    ensures var run := Reading(p, k, now)[..2];
            && Feasible(s, run)
            && After(s, run) ==
               s.(lock := Some(p),
                  procs := s.procs[p := Entered(Call(k, s.disk.credentials[k], s.disk, Get, false, OneRequest))])
  {
    var run := Reading(p, k, now);
    OneAction(s, run[0]);
    SelectingSelects(s, k);
    Append(s, [run[0]], run[1]);
    assert run[..2] == [run[0]] + [run[1]];
    var t := After(s, run[..2]);
    assert t.procs == s.procs[p := t.procs[p]];
  }

  /** Whatever is on disk, sent before or not, the next reader refreshes with it. */
  lemma StoredTokensAreSent(s: System, k: Key, p: Pid, now: int)
    requires Refreshable(s, k, now) && p !in s.procs
    ensures Feasible(s, Reading(p, k, now))
    ensures var t := After(s, Reading(p, k, now));
            && t.disk == s.disk && t.lock == Some(p)
            && p in t.procs
            && t.procs[p] == RefreshSent(Call(k, s.disk.credentials[k], s.disk, Get, true, OneRequest))
            && t.procs.Keys == s.procs.Keys + {p}
            && t.excused == s.excused && t.issuedRefresh == s.issuedRefresh
            && t.sent == s.sent + multiset{Refresh(k.origin, s.disk.credentials[k].token.refresh)}
  {
    var run := Reading(p, k, now);
    Started(s, k, p, now);
    Append(s, run[..2], run[2]);
    assert run[..3] == run[..2] + [run[2]];
    Append(s, run[..3], run[3]);
    assert run == run[..3] + [run[3]];
  }

  /** The response is lost, and so is the save that was to remove the credential. */
  function LosingSave(p: Pid): seq<Action> {
    [Step(p, Answer(Lost, 0)), Step(p, Saved(NotReplaced)), Exit(p)]
  }

  /** Only the process moves, and `excuse` is excused. */
  ghost predicate Moved(s: System, t: System, p: Pid, pc: Pc, excuse: set<(Origin, string)>) {
    && t.disk == s.disk && t.sent == s.sent && t.lock == s.lock && t.procs == s.procs[p := pc]
    && t.excused == s.excused + excuse
  }

  lemma ReplyLost(s: System, p: Pid)
    requires p in s.procs && s.procs[p].RefreshSent?
    ensures var c := s.procs[p].call;
            var pc := Forget(c, Some(c.credential.token.refresh), TransportError);
            Moved(s, Next(s, Step(p, Answer(Lost, 0))), p, pc, {})
  {
  }

  lemma SaveLostEnds(s: System, p: Pid)
    requires p in s.procs && s.procs[p].Forgetting?
    ensures var pc := Returned(s.procs[p].call, StorageError);
            Moved(s, Next(s, Step(p, Saved(NotReplaced))), p, pc, Spent(s.procs[p]))
  {
  }

  lemma ThreeActions(s: System, a: Action, b: Action, c: Action)
    requires Enabled(s, a) && Enabled(Next(s, a), b) && Enabled(Next(Next(s, a), b), c)
    ensures Feasible(s, [a, b, c]) && After(s, [a, b, c]) == Next(Next(Next(s, a), b), c)
  {
    OneAction(s, a);
    Append(s, [a], b);
    assert [a] + [b] == [a, b];
    Append(s, [a, b], c);
    assert [a, b] + [c] == [a, b, c];
  }

  lemma Leaves(s: System, p: Pid, c: Call)
    requires p in s.procs && s.procs[p] == Returned(c, StorageError) && s.lock == Some(p)
    ensures Enabled(s, Exit(p))
    ensures Next(s, Exit(p)) == s.(procs := s.procs - {p}, lock := None)
  {
  }

  lemma SaveIsLost(s: System, p: Pid)
    requires s.lock == Some(p) && p in s.procs && s.procs[p].RefreshSent?
    ensures Feasible(s, LosingSave(p))
    ensures var t := After(s, LosingSave(p));
            && t.disk == s.disk && t.sent == s.sent && t.lock.None? && t.procs == s.procs - {p}
            && t.excused == s.excused + Spent(s.procs[p])
  {
    ReplyLost(s, p);
    var s1 := Next(s, Step(p, Answer(Lost, 0)));
    SaveLostEnds(s1, p);
    var s2 := Next(s1, Step(p, Saved(NotReplaced)));
    Leaves(s2, p, s1.procs[p].call);
    ThreeActions(s, Step(p, Answer(Lost, 0)), Step(p, Saved(NotReplaced)), Exit(p));
    assert s2.procs - {p} == s.procs - {p};
  }

  /** The token of the credential, as it is excused. */
  function Stored(s: System, k: Key): (Origin, string)
    requires k in s.disk.credentials
  {
    (k.origin, s.disk.credentials[k].token.refresh)
  }

  /** The stored token went out twice, it is the one token excused, and `t` is where that led. */
  ghost predicate Replayed(s: System, t: System, k: Key)
    requires k in s.disk.credentials
  {
    && t.sent == s.sent + multiset{Refresh(Stored(s, k).0, Stored(s, k).1), Refresh(Stored(s, k).0, Stored(s, k).1)}
    && t.excused == s.excused + {Stored(s, k)}
  }

  /** A first reader, something that leaves its token on disk, and a second reader. */
  lemma ReadTwice(s: System, k: Key, p: Pid, now: int, between: seq<Action>)
    requires Refreshable(s, k, now) && p !in s.procs
    requires Feasible(s, Reading(p, k, now)) && Feasible(After(s, Reading(p, k, now)), between)
    requires var s1 := After(s, Reading(p, k, now));
             var s2 := After(s1, between);
             && s1.sent == s.sent + multiset{Refresh(Stored(s, k).0, Stored(s, k).1)}
             && s2.sent == s1.sent && s2.excused == s.excused + {Stored(s, k)}
             && Refreshable(s2, k, now) && Stored(s2, k) == Stored(s, k) && p !in s2.procs
    ensures var run := Reading(p, k, now) + between + Reading(p, k, now);
            Feasible(s, run) && Replayed(s, After(s, run), k)
  {
    var first := Reading(p, k, now);
    FeasibleConcat(s, first, between);
    StoredTokensAreSent(After(s, first + between), k, p, now);
    FeasibleConcat(s, first + between, first);
  }

  /** Why the save must succeed: without it the same token goes out twice. */
  lemma LostSaveReplays(s: System, k: Key, p: Pid, now: int)
    requires Refreshable(s, k, now) && p !in s.procs
    ensures var run := Reading(p, k, now) + LosingSave(p) + Reading(p, k, now);
            Feasible(s, run) && Replayed(s, After(s, run), k)
  {
    StoredTokensAreSent(s, k, p, now);
    SaveIsLost(After(s, Reading(p, k, now)), p);
    ReadTwice(s, k, p, now, LosingSave(p));
  }

  /** And why the process must live to save. */
  lemma CrashReplays(s: System, k: Key, p: Pid, now: int)
    requires Refreshable(s, k, now) && p !in s.procs
    ensures var run := Reading(p, k, now) + [Crash(p)] + Reading(p, k, now);
            Feasible(s, run) && Replayed(s, After(s, run), k)
  {
    StoredTokensAreSent(s, k, p, now);
    OneAction(After(s, Reading(p, k, now)), Crash(p));
    ReadTwice(s, k, p, now, [Crash(p)]);
  }

  /** The server answers the refresh with the token it was sent, good for one more second.
      The crash comes after the save, and loses nothing. */
  function GivingBack(p: Pid, refresh: string, now: int): seq<Action> {
    var next := Token("access", now + 1, refresh, now + 1);
    [Step(p, Answer(Success(Body(Some(next), None, None)), now)), Step(p, Saved(Replaced)), Crash(p)]
  }

  lemma TokenReturned(s: System, p: Pid, next: Token, now: int)
    requires p in s.procs && s.procs[p].RefreshSent? && Usable(next, now)
    requires (s.procs[p].call.key.origin, next.refresh) in s.issuedRefresh
    ensures var c := s.procs[p].call;
            var a := Step(p, Answer(Success(Body(Some(next), None, None)), now));
            Enabled(s, a) && Moved(s, Next(s, a), p, Rotate(c, next), {(c.key.origin, next.refresh)})
  {
  }

  lemma RotationSaved(s: System, p: Pid)
    requires p in s.procs && s.procs[p].Rotating?
    ensures var t := Next(s, Step(p, Saved(Replaced)));
            && Enabled(s, Step(p, Saved(Replaced)))
            && t.disk == s.procs[p].call.memory && t.sent == s.sent && t.lock == s.lock && t.excused == s.excused
            && t.procs == s.procs[p := Calling(s.procs[p].call)]
  {
  }

  lemma CrashAfterSave(s: System, p: Pid)
    requires p in s.procs && s.procs[p].Calling? && s.lock == Some(p)
    ensures var t := Next(s, Crash(p));
            && Enabled(s, Crash(p))
            && t.disk == s.disk && t.sent == s.sent && t.lock.None? && t.excused == s.excused
            && t.procs == s.procs - {p}
  {
  }

  lemma RenewedRefreshable(s: System, t: System, c: Call, next: Token, now: int)
    requires KeysOk(s.disk) && c.memory == s.disk && c.key in s.disk.credentials
    requires c.credential == s.disk.credentials[c.key] && c.credential.token.refresh == next.refresh != ""
    requires next.accessExpires == next.refreshExpires == now + 1
    requires t.lock.None? && t.disk == Rotate(c, next).call.memory
    ensures Refreshable(t, c.key, now) && Stored(t, c.key) == Stored(s, c.key)
  {
  }

  lemma GivenBack(s: System, p: Pid, now: int)
    requires KeysOk(s.disk) && s.lock == Some(p) && p in s.procs && s.procs[p].RefreshSent?
    requires var c := s.procs[p].call;
             && c.memory == s.disk && c.key in s.disk.credentials && c.credential == s.disk.credentials[c.key]
             && c.credential.token.refresh != "" && SingleLine(c.credential.token.refresh)
             && (c.key.origin, c.credential.token.refresh) in s.issuedRefresh
    ensures var c := s.procs[p].call;
            var run := GivingBack(p, c.credential.token.refresh, now);
            && Feasible(s, run)
            && var t := After(s, run);
            && Refreshable(t, c.key, now) && Stored(t, c.key) == Stored(s, c.key) && p !in t.procs
            && t.sent == s.sent && t.excused == s.excused + {Stored(s, c.key)}
  {
    var c := s.procs[p].call;
    var next := Token("access", now + 1, c.credential.token.refresh, now + 1);
    var run := GivingBack(p, c.credential.token.refresh, now);
    TokenReturned(s, p, next, now);
    var s1 := Next(s, run[0]);
    RotationSaved(s1, p);
    var s2 := Next(s1, run[1]);
    CrashAfterSave(s2, p);
    var s3 := Next(s2, run[2]);
    ThreeActions(s, run[0], run[1], run[2]);
    assert run == [run[0], run[1], run[2]];
    RenewedRefreshable(s, s3, c, next, now);
  }

  /** And why a server must not issue a token twice. */
  lemma ReissueReplays(s: System, k: Key, p: Pid, now: int)
    requires Refreshable(s, k, now) && p !in s.procs
    requires Stored(s, k) in s.issuedRefresh && SingleLine(s.disk.credentials[k].token.refresh)
    ensures var run := Reading(p, k, now) + GivingBack(p, Stored(s, k).1, now) + Reading(p, k, now);
            Feasible(s, run) && Replayed(s, After(s, run), k)
  {
    StoredTokensAreSent(s, k, p, now);
    GivenBack(After(s, Reading(p, k, now)), p, now);
    ReadTwice(s, k, p, now, GivingBack(p, Stored(s, k).1, now));
  }
}
