/** When a claimed identity file outlives its replica, so that a successor can reclaim it:
    exactly when no failed minter is about to remove its path. */
module IdentitySurvival {
  import opened Wrappers
  import opened IdentitySystem

  /** The path still names the inode, and the inode still holds the identity. */
  predicate Findable(w: World, path: string, inode: Inode, id: Uuid) {
    && path in w.dir && w.dir[path] == inode
    && inode in w.contents && w.contents[inode] == Id(id)
  }

  /** A minter has failed and closed its file; removing the path is what it does next. */
  predicate BeingRemoved(w: World, path: string) {
    exists q :: q in w.procs && w.procs[q].Removing? && FileName(w.procs[q].id) == path
  }

  /** Nobody can remove the path or write the inode any more. */
  predicate Settled(w: World, path: string, inode: Inode) {
    forall q | q in w.procs ::
      && (Making(w.procs[q]).Some? || w.procs[q].Removing? ==> FileName(w.procs[q].id) != path)
      && Making(w.procs[q]) != Some(inode)
  }

  lemma SettledStep(w: World, a: Action, path: string, inode: Inode, id: Uuid)
    requires Enabled(w, a) && Settled(w, path, inode) && Findable(w, path, inode, id)
    ensures Settled(Next(w, a), path, inode) && Findable(Next(w, a), path, inode, id)
  {
    ContentChanges(w, a);
    DirChanges(w, a);
    if !a.Exit? {
      OnlyOneMoves(w, a);
      if Making(NextPc(w, a)).Some? {
        MakingChanges(w, a);
      }
    }
    if a.Write? {
      assert Making(w.procs[a.p]) == Some(w.procs[a.p].inode);
    }
  }

  lemma {:induction false} SettledStays(w: World, run: seq<Action>, path: string, inode: Inode, id: Uuid)
    requires Feasible(w, run) && Settled(w, path, inode) && Findable(w, path, inode, id)
    ensures Findable(After(w, run), path, inode, id)
    decreases run
  {
    if run == [] {
    } else {
      SettledStep(w, run[0], path, inode, id);
      SettledStays(Next(w, run[0]), run[1..], path, inode, id);
    }
  }

  /** A live claim leaves nobody but a failed minter with a hand on the file. */
  lemma ClaimSettles(w: World, p: Pid, path: string)
    requires Inv(w) && p in w.procs && w.procs[p].Claimed?
    requires path in w.dir && w.dir[path] == w.procs[p].inode && !BeingRemoved(w, path)
    ensures Settled(w, path, w.procs[p].inode)
  {
    var inode := w.procs[p].inode;
    assert Holds(w.procs[p]) == Some(inode) && Written(w.procs[p]).Some?;
    forall q | q in w.procs && Making(w.procs[q]).Some? && !w.procs[q].Created?
      ensures Making(w.procs[q]) != Some(inode)
    {
      assert Holds(w.procs[q]) == Making(w.procs[q]);
    }
  }

  lemma RemovalHappens(w: World, path: string) returns (run: seq<Action>)
    requires BeingRemoved(w, path)
    ensures Feasible(w, run) && path !in After(w, run).dir
    ensures forall a: Action | a in run :: a.p in w.procs && w.procs[a.p].Removing?
  {
    var q :| q in w.procs && w.procs[q].Removing? && FileName(w.procs[q].id) == path;
    run := [Remove(q, true)];
    assert run[1..] == [];
    assert After(w, run) == Next(w, run[0]);
  }

  /** In every state of every run: a live claim's file stays findable in every continuation,
      through its replica's exit and all its successors, if and only if no process is about to
      remove its path. */
  lemma ClaimedFileSurvives(w: World, p: Pid, path: string)
    requires Inv(w) && p in w.procs && w.procs[p].Claimed?
    requires path in w.dir && w.dir[path] == w.procs[p].inode
    ensures (forall run | Feasible(w, run) :: Findable(After(w, run), path, w.procs[p].inode, w.procs[p].id))
            <==> !BeingRemoved(w, path)
  {
    if BeingRemoved(w, path) {
      var run := RemovalHappens(w, path);
    } else {
      assert Written(w.procs[p]).Some?;
      ClaimSettles(w, p, path);
      forall run | Feasible(w, run)
        ensures Findable(After(w, run), path, w.procs[p].inode, w.procs[p].id)
      {
        SettledStays(w, run, path, w.procs[p].inode, w.procs[p].id);
      }
    }
  }

  ghost predicate Idle(p: Pid, run: seq<Action>) {
    forall a: Action | a in run :: a.p != p
  }

  /** The same while the holder only holds: nothing it could do would matter. */
  lemma SurvivesUnderItsHolder(w: World, p: Pid, path: string)
    requires Inv(w) && p in w.procs && w.procs[p].Claimed?
    requires path in w.dir && w.dir[path] == w.procs[p].inode
    ensures (forall run | Feasible(w, run) && Idle(p, run) :: path in After(w, run).dir) <==> !BeingRemoved(w, path)
  {
    ClaimedFileSurvives(w, p, path);
    if BeingRemoved(w, path) {
      var run := RemovalHappens(w, path);
      assert Idle(p, run);
    }
  }

  // ---------- runs without failed writes ----------

  predicate Succeeds(a: Action) {
    a.Write? || a.Sync? ==> a.ok
  }

  predicate NoFailures(w: World) {
    && w.withdrawn == {}
    && forall p | p in w.procs :: !w.procs[p].Closing? && !w.procs[p].Removing?
  }

  lemma {:induction false} NoFailuresKept(w: World, run: seq<Action>)
    requires NoFailures(w) && Feasible(w, run) && forall a | a in run :: Succeeds(a)
    ensures NoFailures(After(w, run))
    decreases run
  {
    if run == [] {
    } else {
      assert run[0] in run;
      assert NoFailures(Next(w, run[0]));
      NoFailuresKept(Next(w, run[0]), run[1..]);
    }
  }

  /** If every write and sync so far succeeded, every live claim has its file in the
      directory, and keeps it whatever happens or fails from there on. */
  lemma CleanClaimsSurvive(w: World, run: seq<Action>, p: Pid) returns (path: string)
    requires Init(w) && Feasible(w, run) && forall a | a in run :: Succeeds(a)
    requires p in After(w, run).procs && After(w, run).procs[p].Claimed?
    ensures var v := After(w, run);
            forall more | Feasible(v, more) :: Findable(After(v, more), path, v.procs[p].inode, v.procs[p].id)
  {
    RunInv(w, run);
    NoFailuresKept(w, run);
    var v := After(w, run);
    assert MustBeListed(v.procs[p]).Some?;
    assert ListedOrWithdrawn(v, v.procs[p].inode);
    path :| path in v.dir && v.dir[path] == v.procs[p].inode;
    ClaimedFileSurvives(v, p, path);
  }

  // ---------- the successor ----------

  function Reclaiming(q: Pid): seq<Action> {
    [Open(q, true), Lock(q, true), Read(q, true)]
  }

  /** A replica that tries a findable file nobody holds reclaims its identity. */
  lemma SuccessorReclaims(w: World, q: Pid, path: string, inode: Inode, id: Uuid)
    requires Findable(w, path, inode, id) && Free(w, inode)
    requires q in w.procs && w.procs[q].Trying? && w.procs[q].rest != [] && w.procs[q].rest[0] == path
    ensures Feasible(w, Reclaiming(q))
    ensures q in After(w, Reclaiming(q)).procs && After(w, Reclaiming(q)).procs[q] == Claimed(id, inode)
  {
    var run := Reclaiming(q);
    var w1 := Next(w, run[0]);
    var w2 := Next(w1, run[1]);
    var w3 := Next(w2, run[2]);
    assert run[1..][1..][1..] == [] && run[1..][0] == run[1] && run[1..][1..][0] == run[2];
    assert After(w2, run[1..][1..]) == w3;
    assert After(w1, run[1..]) == w3;
  }
}
