/** How a claimed file can vanish: its minter fails after writing, closes the file, and a
    sibling claims it before the minter removes the path. That nothing else does it is
    proved in IdentitySurvival. */
module IdentityWindow {
  import opened IdentitySystem

  lemma Extend(w: World, run: seq<Action>, a: Action)
    requires Feasible(w, run) && Enabled(After(w, run), a)
    ensures Feasible(w, run + [a]) && After(w, run + [a]) == Next(After(w, run), a)
    decreases run
  {
    if run == [] {
      assert run + [a] == [a] && [a][1..] == [];
    } else {
      assert (run + [a])[1..] == run[1..] + [a];
      Extend(Next(w, run[0]), run[1..], a);
    }
  }

  const EMPTY := World(map[], map[], map[], map[], {}, {})

  /** The minter has its new file. */
  lemma MinterCreates(id: Uuid) returns (run: seq<Action>)
    ensures Feasible(EMPTY, run)
    ensures After(EMPTY, run) ==
            World(map[FileName(id) := 0], map[0 := Junk], map[], map[1 := Created(id, 0)], {id}, {})
  {
    run := [];
    Extend(EMPTY, run, Launch(1));
    run := run + [Launch(1)];
    Extend(EMPTY, run, List(1, []));
    run := run + [List(1, [])];
    Extend(EMPTY, run, Mint(1, id));
    run := run + [Mint(1, id)];
    Extend(EMPTY, run, Create(1, 0, true));
    run := run + [Create(1, 0, true)];
  }

  /** The minter, up to its failed sync. */
  lemma MinterFails(id: Uuid) returns (run: seq<Action>)
    ensures Feasible(EMPTY, run)
    ensures After(EMPTY, run) ==
            World(map[FileName(id) := 0], map[0 := Id(id)], map[0 := 1], map[1 := Closing(id, 0)], {id}, {})
  {
    run := MinterCreates(id);
    Extend(EMPTY, run, Lock(1, true));
    run := run + [Lock(1, true)];
    Extend(EMPTY, run, Write(1, Id(id), true));
    run := run + [Write(1, Id(id), true)];
    Extend(EMPTY, run, Sync(1, false));
    run := run + [Sync(1, false)];
  }

  /** Both replicas ran the code to its end, and the file of the live claim is gone: a
      successor cannot reclaim it. */
  lemma ClaimedFileCanVanish(id: Uuid) returns (run: seq<Action>)
    ensures Init(EMPTY) && Feasible(EMPTY, run)
    ensures var v := After(EMPTY, run); 2 in v.procs && v.procs[2] == Claimed(id, 0) && v.dir == map[]
  {
    run := MinterFails(id);
    var name := FileName(id);
    Extend(EMPTY, run, Launch(2));
    run := run + [Launch(2)];
    assert SortedListing([name], {name}) by {
      assert IdFile(name);
    }
    assert After(EMPTY, run).dir.Keys == {name};
    Extend(EMPTY, run, List(2, [name]));
    run := run + [List(2, [name])];
    Extend(EMPTY, run, Open(2, true));
    run := run + [Open(2, true)];
    Extend(EMPTY, run, Close(1));
    run := run + [Close(1)];
    Extend(EMPTY, run, Lock(2, true));
    run := run + [Lock(2, true)];
    Extend(EMPTY, run, Read(2, true));
    run := run + [Read(2, true)];
    Extend(EMPTY, run, Remove(1, true));
    run := run + [Remove(1, true)];
  }
}
