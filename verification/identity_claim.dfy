/** What one replica gets when nobody else moves and no call fails: the first free identity
    of its listing, or a new one. This is the promise of IdentityPool, kept by the system
    calls of IdentitySystem. */
module IdentityClaim {
  import opened Text
  import opened IdentitySystem
  import opened IdentityPool

  /** A system call of `p` that does not fail of itself; finding a file locked is no failure. */
  predicate Smooth(a: Action, p: Pid) {
    && a.p == p && !a.Exit?
    && (a.Open? || a.Lock? || a.Read? || a.Create? || a.Write? || a.Sync? || a.Remove? ==> a.ok)
  }

  predicate Alone(run: seq<Action>, p: Pid) {
    forall a: Action | a in run :: Smooth(a, p)
  }

  lemma {:induction false} Then(w: World, x: seq<Action>, y: seq<Action>)
    requires Feasible(w, x) && Feasible(After(w, x), y)
    ensures Feasible(w, x + y) && After(w, x + y) == After(After(w, x), y)
    decreases |x|
  {
    if x == [] {
      assert x + y == y;
    } else {
      assert (x + y)[0] == x[0] && (x + y)[1..] == x[1..] + y;
      Then(Next(w, x[0]), x[1..], y);
    }
  }

  lemma OneCall(w: World, a: Action)
    requires Enabled(w, a)
    ensures Feasible(w, [a]) && After(w, [a]) == Next(w, a)
  {
    assert [a][1..] == [];
  }

  lemma OneMore(w: World, run: seq<Action>, a: Action)
    requires Feasible(w, run) && Enabled(After(w, run), a)
    ensures Feasible(w, run + [a]) && After(w, run + [a]) == Next(After(w, run), a)
  {
    OneCall(After(w, run), a);
    Then(w, run, [a]);
  }

  /** The name leads to an identity nobody has locked. */
  predicate Takeable(w: World, n: string) {
    && n in w.dir && w.dir[n] !in w.locks
    && w.dir[n] in w.contents && w.contents[w.dir[n]].Id?
  }

  lemma OpensAndLocks(w: World, p: Pid, n: string, rest: seq<string>) returns (run: seq<Action>)
    requires p in w.procs && w.procs[p] == Trying([n] + rest) && n in w.dir
    ensures Feasible(w, run) && Alone(run, p)
    ensures var i := w.dir[n];
            After(w, run) ==
            if i in w.locks then To(w, p, Trying(rest))
            else To(w, p, Locked(n, i, rest)).(locks := w.locks[i := p])
  {
    run := [Open(p, true)];
    OneCall(w, Open(p, true));
    assert ([n] + rest)[1..] == rest;
    OneMore(w, run, Lock(p, true));
    run := run + [Lock(p, true)];
  }

  /** A file that is locked, or holds no identity, is passed over and left as it was. */
  lemma PassesOver(w: World, p: Pid, n: string, rest: seq<string>) returns (run: seq<Action>)
    requires p in w.procs && w.procs[p] == Trying([n] + rest) && n in w.dir && !Takeable(w, n)
    ensures Feasible(w, run) && Alone(run, p) && After(w, run) == To(w, p, Trying(rest))
  {
    run := OpensAndLocks(w, p, n, rest);
    if w.dir[n] !in w.locks {
      OneMore(w, run, Read(p, true));
      run := run + [Read(p, true)];
      OneMore(w, run, Close(p));
      run := run + [Close(p)];
    }
  }

  lemma Takes(w: World, p: Pid, n: string, rest: seq<string>) returns (run: seq<Action>)
    requires p in w.procs && w.procs[p] == Trying([n] + rest) && Takeable(w, n)
    ensures Feasible(w, run) && Alone(run, p)
    ensures After(w, run).procs == w.procs[p := Claimed(w.contents[w.dir[n]].id, w.dir[n])]
  {
    run := OpensAndLocks(w, p, n, rest);
    OneMore(w, run, Read(p, true));
    run := run + [Read(p, true)];
  }

  /** The first takeable name, if there is one. */
  function FirstTakeable(w: World, names: seq<string>): (k: nat)
    ensures k <= |names| && forall j | 0 <= j < k :: !Takeable(w, names[j])
    ensures k < |names| ==> Takeable(w, names[k])
  {
    if names == [] || Takeable(w, names[0]) then 0 else 1 + FirstTakeable(w, names[1..])
  }

  /** Where the tries of `names` have brought the replica. */
  ghost predicate Tried(w: World, p: Pid, names: seq<string>, v: World)
    requires p in w.procs
  {
    var k := FirstTakeable(w, names);
    if k < |names|
    then
      && Takeable(w, names[k])
      && v.procs == w.procs[p := Claimed(w.contents[w.dir[names[k]]].id, w.dir[names[k]])]
    else v == To(w, p, Trying([]))
  }

  lemma UpdateTwice(procs: map<Pid, Pc>, p: Pid, a: Pc, b: Pc)
    ensures procs[p := a][p := b] == procs[p := b]
  {
  }

  lemma PassedOver(w: World, p: Pid, n: string, rest: seq<string>, v: World)
    requires p in w.procs && !Takeable(w, n) && Tried(To(w, p, Trying(rest)), p, rest, v)
    ensures Tried(w, p, [n] + rest, v)
  {
    var u := To(w, p, Trying(rest));
    SameTakeable(w, u, rest);
    var names := [n] + rest;
    assert names[1..] == rest;
    assert FirstTakeable(w, names) == 1 + FirstTakeable(w, rest);
    UpdateTwice(w.procs, p, Trying(rest), v.procs[p]);
  }

  lemma {:induction false} TriesInOrder(w: World, p: Pid, names: seq<string>) returns (run: seq<Action>)
    requires p in w.procs && w.procs[p] == Trying(names) && forall n | n in names :: n in w.dir
    ensures Feasible(w, run) && Alone(run, p) && Tried(w, p, names, After(w, run))
    decreases |names|
  {
    if names == [] {
      run := [];
      assert w.procs == w.procs[p := Trying([])];
    } else {
      var n, rest := names[0], names[1..];
      assert names == [n] + rest && forall m | m in rest :: m in names;
      if Takeable(w, n) {
        run := Takes(w, p, n, rest);
      } else {
        var passes := PassesOver(w, p, n, rest);
        var more := TriesInOrder(After(w, passes), p, rest);
        Then(w, passes, more);
        PassedOver(w, p, n, rest, After(w, passes + more));
        run := passes + more;
      }
    }
  }

  lemma {:induction false} SameTakeable(w: World, v: World, names: seq<string>)
    requires v.dir == w.dir && v.locks == w.locks && v.contents == w.contents
    ensures FirstTakeable(v, names) == FirstTakeable(w, names)
  {
    if names == [] {
    } else {
      SameTakeable(w, v, names[1..]);
    }
  }

  lemma Creates(w: World, p: Pid, id: Uuid, inode: Inode) returns (run: seq<Action>)
    requires p in w.procs && w.procs[p] == Trying([]) && id !in w.used && FileName(id) !in w.dir
    requires inode !in w.contents
    ensures Feasible(w, run) && Alone(run, p)
    ensures var v := After(w, run);
            && v.procs == w.procs[p := Created(id, inode)]
            && v.dir == w.dir[FileName(id) := inode] && v.contents == w.contents[inode := Junk]
            && v.locks == w.locks
  {
    run := [Mint(p, id)];
    OneCall(w, Mint(p, id));
    OneMore(w, run, Create(p, inode, true));
    run := run + [Create(p, inode, true)];
  }

  lemma Fills(w: World, p: Pid, id: Uuid, inode: Inode) returns (run: seq<Action>)
    requires p in w.procs && w.procs[p] == Created(id, inode) && inode !in w.locks
    ensures Feasible(w, run) && Alone(run, p)
    ensures var v := After(w, run);
            && v.procs == w.procs[p := Claimed(id, inode)]
            && v.dir == w.dir && v.contents == w.contents[inode := Id(id)] && v.locks == w.locks[inode := p]
  {
    run := [Lock(p, true)];
    OneCall(w, Lock(p, true));
    OneMore(w, run, Write(p, Id(id), true));
    run := run + [Write(p, Id(id), true)];
    OneMore(w, run, Sync(p, true));
    run := run + [Sync(p, true)];
  }

  /** With nothing to take, a new file is minted, written, synced and claimed. */
  lemma Mints(w: World, p: Pid, id: Uuid, inode: Inode) returns (run: seq<Action>)
    requires p in w.procs && w.procs[p] == Trying([]) && id !in w.used && FileName(id) !in w.dir
    requires inode !in w.contents && inode !in w.locks
    ensures Feasible(w, run) && Alone(run, p)
    ensures var v := After(w, run);
            && v.procs == w.procs[p := Claimed(id, inode)]
            && v.dir == w.dir[FileName(id) := inode] && v.contents == w.contents[inode := Id(id)]
            && v.locks == w.locks[inode := p]
  {
    var creates := Creates(w, p, id, inode);
    var v := After(w, creates);
    var fills := Fills(v, p, id, inode);
    Then(w, creates, fills);
    run := creates + fills;
  }

  // ---------- the pool a directory is ----------

  /** The pool has the directory's files, and holds those whose inode is locked. */
  ghost predicate Pictures(pool: Pool, w: World)
    requires InodesOk(w)
  {
    && pool.files == (map n | n in w.dir :: w.contents[w.dir[n]])
    && forall n | n in w.dir :: n in pool.held.Values <==> w.dir[n] in w.locks
  }

  lemma {:induction false} HeldBySomebody(names: set<string>) returns (held: map<Pid, string>, next: Pid)
    ensures held.Values == names && forall p | p in held :: p < next
    decreases names
  {
    if names == {} {
      held, next := map[], 0;
    } else {
      var n :| n in names;
      held, next := HeldBySomebody(names - {n});
      var more := held[next := n];
      assert more.Values == held.Values + {n} by {
        assert next in more && forall p | p in held :: p in more && more[p] == held[p];
      }
      held, next := more, next + 1;
    }
  }

  lemma EveryWorldHasAPool(w: World) returns (pool: Pool)
    requires InodesOk(w)
    ensures Pictures(pool, w)
  {
    var held, next := HeldBySomebody(set n | n in w.dir && w.dir[n] in w.locks);
    pool := Pool(map n | n in w.dir :: w.contents[w.dir[n]], held);
  }

  lemma ClaimableIsTakeable(pool: Pool, w: World, n: string)
    requires InodesOk(w) && Pictures(pool, w)
    ensures Claimable(pool, n) <==> IdFile(n) && Takeable(w, n)
  {
  }

  /** The first takeable name of the sorted listing is the pool's first claimable one. */
  lemma FirstIsFirst(pool: Pool, w: World, names: seq<string>)
    requires InodesOk(w) && Pictures(pool, w) && SortedListing(names, w.dir.Keys)
    ensures var k := FirstTakeable(w, names);
            if k < |names| then First(pool, names[k]) else NoneClaimable(pool)
  {
    var k := FirstTakeable(w, names);
    forall m | m in pool.files && Claimable(pool, m)
      ensures k < |names| && (m != names[k] ==> Before(names[k], m))
    {
      ClaimableIsTakeable(pool, w, m);
      var j :| 0 <= j < |names| && names[j] == m;
    }
    if k < |names| {
      assert names[k] in names;
      ClaimableIsTakeable(pool, w, names[k]);
    }
  }

  /** The listing, and the tries it leads to. */
  lemma ListsAndTries(w: World, p: Pid, names: seq<string>) returns (run: seq<Action>)
    requires p in w.procs && w.procs[p].Listing? && SortedListing(names, w.dir.Keys)
    ensures Feasible(w, run) && Alone(run, p) && Tried(w, p, names, After(w, run))
  {
    OneCall(w, List(p, names));
    var listed := Next(w, List(p, names));
    SameTakeable(w, listed, names);
    var tries := TriesInOrder(listed, p, names);
    Then(w, [List(p, names)], tries);
    run := [List(p, names)] + tries;
    UpdateTwice(w.procs, p, Trying(names), After(w, run).procs[p]);
  }

  /** The replica has claimed the first claimable file of the pool, or its new one. */
  ghost predicate Got(w: World, p: Pid, pool: Pool, id: Uuid, inode: Inode, v: World) {
    if NoneClaimable(pool)
    then
      && v.procs == w.procs[p := Claimed(id, inode)]
      && FileName(id) in v.dir && v.dir[FileName(id)] == inode
      && inode in v.contents && v.contents[inode] == Id(id)
    else
      exists n | n in w.dir && n in pool.files ::
        First(pool, n) && pool.files[n].Id? && v.procs == w.procs[p := Claimed(pool.files[n].id, w.dir[n])]
  }

  lemma TriesGotOne(w: World, p: Pid, names: seq<string>, pool: Pool, id: Uuid, inode: Inode, v: World)
    requires InodesOk(w) && p in w.procs && Pictures(pool, w) && SortedListing(names, w.dir.Keys)
    requires Tried(w, p, names, v) && FirstTakeable(w, names) < |names|
    ensures Got(w, p, pool, id, inode, v)
  {
    FirstIsFirst(pool, w, names);
    var n := names[FirstTakeable(w, names)];
    assert n in names && n in w.dir && n in pool.files && First(pool, n);
  }

  lemma MintsAfterTries(w: World, p: Pid, names: seq<string>, pool: Pool, id: Uuid, inode: Inode, tried: seq<Action>)
      returns (run: seq<Action>)
    requires Inv(w) && p in w.procs && Pictures(pool, w) && SortedListing(names, w.dir.Keys)
    requires id !in w.used && FileName(id) !in w.dir && inode !in w.contents
    requires Feasible(w, tried) && Alone(tried, p) && After(w, tried) == To(w, p, Trying([]))
    requires NoneClaimable(pool)
    ensures Feasible(w, run) && Alone(run, p) && Got(w, p, pool, id, inode, After(w, run))
  {
    var mints := Mints(To(w, p, Trying([])), p, id, inode);
    Then(w, tried, mints);
    UpdateTwice(w.procs, p, Trying([]), Claimed(id, inode));
    run := tried + mints;
  }

  /** In every state of every run: a replica about to list, left alone, claims the first valid
      unlocked file of the sorted listing, or mints when there is none. */
  lemma AloneClaimsTheFirst(w: World, p: Pid, names: seq<string>, pool: Pool, id: Uuid, inode: Inode)
      returns (run: seq<Action>)
    requires Inv(w) && p in w.procs && w.procs[p].Listing?
    requires SortedListing(names, w.dir.Keys) && Pictures(pool, w)
    requires id !in w.used && FileName(id) !in w.dir && inode !in w.contents
    ensures Feasible(w, run) && Alone(run, p) && Got(w, p, pool, id, inode, After(w, run))
  {
    FirstIsFirst(pool, w, names);
    run := ListsAndTries(w, p, names);
    if FirstTakeable(w, names) < |names| {
      TriesGotOne(w, p, names, pool, id, inode, After(w, run));
    } else {
      run := MintsAfterTries(w, p, names, pool, id, inode, run);
    }
  }

  // ---------- calls that fail ----------

  /** A candidate that cannot be opened, locked or read is passed over for the next one. */
  lemma FailedCandidateIsSkipped(w: World, p: Pid, n: string, inode: Inode, rest: seq<string>)
    requires p in w.procs
    ensures w.procs[p] == Trying([n] + rest) ==> NextPc(w, Open(p, false)) == Trying(rest)
    ensures w.procs[p] == Opened(n, inode, rest) ==> NextPc(w, Lock(p, false)) == Trying(rest)
    ensures w.procs[p] == Locked(n, inode, rest) ==> NextPc(w, Read(p, false)) == Skipping(inode, rest)
    ensures w.procs[p] == Skipping(inode, rest) ==>
              NextPc(w, Close(p)) == Trying(rest) && inode !in Next(w, Close(p)).locks
  {
    assert ([n] + rest)[1..] == rest;
  }

  /** A minter that cannot create or lock its file falls back; one that cannot write or sync
      closes it, removes it, and falls back. */
  lemma FailedMinterFallsBack(w: World, p: Pid, id: Uuid, inode: Inode, left: Contents)
    requires p in w.procs && left in {Junk, Id(id)}
    ensures w.procs[p] == Minting(id) && inode !in w.contents ==>
              NextPc(w, Create(p, inode, false)) == Fallback && Next(w, Create(p, inode, false)).dir == w.dir
    ensures w.procs[p] == Created(id, inode) ==> NextPc(w, Lock(p, false)) == Fallback
    ensures w.procs[p] == Writing(id, inode) ==> NextPc(w, Write(p, left, false)) == Closing(id, inode)
    ensures w.procs[p] == Syncing(id, inode) ==> NextPc(w, Sync(p, false)) == Closing(id, inode)
    ensures w.procs[p] == Closing(id, inode) ==>
              NextPc(w, Close(p)) == Removing(id) && inode !in Next(w, Close(p)).locks
    ensures w.procs[p] == Removing(id) ==>
              NextPc(w, Remove(p, true)) == Fallback && FileName(id) !in Next(w, Remove(p, true)).dir
  {
  }
}
