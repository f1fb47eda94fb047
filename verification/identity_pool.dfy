/** The identity pool when claims do not overlap and I/O succeeds: `claimStateID` as the
    loop it is, and how large the pool grows. IdentitySystem has the interleaved form. */
module IdentityPool {
  import opened Wrappers
  import opened Text
  import opened IdentitySystem

  /** The files of the directory, and which live replica holds which one's lock. */
  datatype Pool = Pool(files: map<string, Contents>, held: map<Pid, string>)

  predicate Valid(files: map<string, Contents>, n: string) {
    n in files && IdFile(n) && files[n].Id?
  }

  predicate Claimable(pool: Pool, n: string) {
    Valid(pool.files, n) && n !in pool.held.Values
  }

  ghost predicate First(pool: Pool, n: string) {
    Claimable(pool, n) && forall m | m in pool.files && Claimable(pool, m) && m != n :: Before(n, m)
  }

  ghost predicate NoneClaimable(pool: Pool) {
    forall n | n in pool.files :: !Claimable(pool, n)
  }

  /** What a claim promises: the first valid unlocked file, or a new one. */
  ghost predicate Claims(before: Pool, p: Pid, minted: Uuid, after: Pool, id: Uuid) {
    && p !in before.held && FileName(minted) !in before.files
    && (|| (NoneClaimable(before)
            && id == minted
            && after == Pool(before.files[FileName(minted) := Id(minted)], before.held[p := FileName(minted)]))
        || (exists n | n in before.files ::
              First(before, n) && before.files[n] == Id(id) && after == Pool(before.files, before.held[p := n])))
  }

  class StateDir {
    var files: map<string, Contents>
    var held: map<Pid, string>

    constructor (found: map<string, Contents>)
      ensures files == found && held == map[]
    {
      files, held := found, map[];
    }

    /** Locks, reads and parses one file; gives the lock back when it is no identity. */
    method TryClaim(p: Pid, name: string) returns (id: Option<Uuid>)
      requires name in files && p !in held
      modifies this`held
      ensures if files[name].Id? && name !in old(held).Values
              then id == Some(files[name].id) && held == old(held)[p := name]
              else id == None && held == old(held)
    {
      if name in held.Values {
        return None;
      }
      ghost var was := held;
      held := held[p := name];
      if files[name].Junk? {
        held := held - {p};
        assert held == was;
        return None;
      }
      return Some(files[name].id);
    }

    method Claim(p: Pid, names: seq<string>, minted: Uuid) returns (id: Uuid)
      requires SortedListing(names, files.Keys) && p !in held && FileName(minted) !in files
      modifies this
      ensures Claims(old(Pool(files, held)), p, minted, Pool(files, held), id)
    {
      ghost var before := Pool(files, held);
      for i := 0 to |names|
        invariant files == before.files && held == before.held
        invariant forall j | 0 <= j < i :: !Claimable(before, names[j])
      {
        assert names[i] in names;
        var got := TryClaim(p, names[i]);
        if got.Some? {
          assert First(before, names[i]);
          return got.value;
        }
      }
      files := files[FileName(minted) := Id(minted)];
      held := held[p := FileName(minted)];
      return minted;
    }

    method Exit(p: Pid)
      modifies this`held
      ensures held == old(held) - {p}
    {
      held := held - {p};
    }
  }

  // ---------- restarts ----------

  /** A replica alone in the pool claims, and exits. */
  ghost predicate Restart(before: Pool, p: Pid, minted: Uuid, id: Uuid, after: Pool) {
    && before.held == map[]
    && exists during :: Claims(before, p, minted, during, id) && after == Pool(during.files, map[])
  }

  lemma RestartKeepsIdentity(a: Pool, p: Pid, minted: Uuid, id: Uuid, b: Pool, q: Pid, minted': Uuid, id': Uuid,
                             c: Pool)
    requires Restart(a, p, minted, id, b) && Restart(b, q, minted', id', c)
    ensures id' == id && c == b
  {
    var during :| Claims(a, p, minted, during, id) && b == Pool(during.files, map[]);
    var n := during.held[p];
    assert First(b, n) && b.files[n] == Id(id) by {
      if NoneClaimable(a) {
        assert forall m | m in a.files :: !Claimable(a, m);
        assert IdFile(n);
        assert forall m | m in b.files && m != n :: m in a.files && b.files[m] == a.files[m];
      } else {
        var f :| f in a.files && First(a, f) && a.files[f] == Id(id) && during == Pool(a.files, a.held[p := f]);
        assert b == a;
      }
    }
    var during' :| Claims(b, q, minted', during', id') && c == Pool(during'.files, map[]);
    assert !NoneClaimable(b);
    var m :| m in b.files && First(b, m) && b.files[m] == Id(id') && during' == Pool(b.files, b.held[q := m]);
    if m != n {
      BeforeIsAsymmetric(m, n);
    }
  }

  datatype Boot = Boot(p: Pid, minted: Uuid, id: Uuid)

  ghost predicate Restarts(pools: seq<Pool>, boots: seq<Boot>) {
    && |pools| == |boots| + 1
    && forall i | 0 <= i < |boots| :: Restart(pools[i], boots[i].p, boots[i].minted, boots[i].id, pools[i + 1])
  }

  /** However often it restarts alone, a replica keeps the identity of its first boot. */
  lemma {:induction false} IdentityIsStable(pools: seq<Pool>, boots: seq<Boot>, i: nat)
    requires Restarts(pools, boots) && i < |boots|
    ensures boots[i].id == boots[0].id
  {
    if i == 0 {
    } else {
      IdentityIsStable(pools, boots, i - 1);
      var x, y := boots[i - 1], boots[i];
      RestartKeepsIdentity(pools[i - 1], x.p, x.minted, x.id, pools[i], y.p, y.minted, y.id, pools[i + 1]);
    }
  }

  // ---------- how large the pool grows ----------

  function ValidNames(pool: Pool): set<string> {
    set n | n in pool.files && Valid(pool.files, n)
  }

  ghost predicate PoolOk(pool: Pool) {
    && (forall p | p in pool.held :: Valid(pool.files, pool.held[p]))
    && (forall p, q | p in pool.held && q in pool.held && p != q :: pool.held[p] != pool.held[q])
  }

  ghost predicate Moves(before: Pool, after: Pool) {
    || (exists p, minted, id :: Claims(before, p, minted, after, id))
    || (exists p :: p in before.held && after == before.(held := before.held - {p}))
  }

  ghost predicate History(pools: seq<Pool>) {
    |pools| > 0 && PoolOk(pools[0]) && forall i | 0 <= i < |pools| - 1 :: Moves(pools[i], pools[i + 1])
  }

  function Max(a: int, b: int): int {
    if a < b then b else a
  }

  /** The most replicas live at once. */
  function Peak(pools: seq<Pool>): nat {
    if pools == [] then 0 else Max(Peak(pools[..|pools| - 1]), |pools[|pools| - 1].held|)
  }

  lemma {:induction false} ValuesAtMostKeys(m: map<Pid, string>)
    ensures |m.Values| <= |m|
  {
    if m == map[] {
      assert m.Values == {};
    } else {
      var p :| p in m;
      var rest := m - {p};
      ValuesAtMostKeys(rest);
      assert |rest| == |m| - 1 by {
        assert rest.Keys == m.Keys - {p};
      }
      assert m.Values <= rest.Values + {m[p]} by {
        forall v | v in m.Values
          ensures v in rest.Values + {m[p]}
        {
          var q :| q in m && m[q] == v;
          if q != p {
            assert q in rest && rest[q] == v;
          }
        }
      }
      SubsetSize(m.Values, rest.Values + {m[p]});
    }
  }

  lemma SubsetSize(a: set<string>, b: set<string>)
    requires a <= b
    ensures |a| <= |b|
  {
    assert b == a + (b - a);
  }

  /** Taking a valid file nobody holds. */
  lemma TakingKeepsOk(before: Pool, files: map<string, Contents>, p: Pid, n: string)
    requires PoolOk(before) && n !in before.held.Values && Valid(files, n)
    requires forall m | m in before.files && m != n :: m in files && files[m] == before.files[m]
    ensures PoolOk(Pool(files, before.held[p := n]))
  {
  }

  lemma MovesKeepOk(before: Pool, after: Pool)
    requires PoolOk(before) && Moves(before, after)
    ensures PoolOk(after)
  {
    if p, minted, id :| Claims(before, p, minted, after, id) {
      if n :| n in before.files && First(before, n) && after == Pool(before.files, before.held[p := n]) {
        TakingKeepsOk(before, before.files, p, n);
      } else {
        var n := FileName(minted);
        assert IdFile(n);
        assert n !in before.held.Values;
        TakingKeepsOk(before, after.files, p, n);
      }
    }
  }

  /** A claim mints only when every valid file has a live holder. */
  lemma AllHeld(pool: Pool)
    requires NoneClaimable(pool)
    ensures |ValidNames(pool)| <= |pool.held|
  {
    forall n | n in ValidNames(pool)
      ensures n in pool.held.Values
    {
      assert !Claimable(pool, n);
    }
    ValuesAtMostKeys(pool.held);
    SubsetSize(ValidNames(pool), pool.held.Values);
  }

  lemma OneMoreName(before: Pool, after: Pool, name: string, c: Contents)
    requires after.files == before.files[name := c]
    ensures |ValidNames(after)| <= |ValidNames(before)| + 1
  {
    SubsetSize(ValidNames(after), ValidNames(before) + {name});
  }

  lemma MintGrowth(before: Pool, p: Pid, minted: Uuid, after: Pool)
    requires NoneClaimable(before) && p !in before.held
    requires after == Pool(before.files[FileName(minted) := Id(minted)], before.held[p := FileName(minted)])
    ensures |ValidNames(after)| <= |after.held|
  {
    AllHeld(before);
    OneMoreName(before, after, FileName(minted), Id(minted));
    assert after.held.Keys == before.held.Keys + {p};
    assert |after.held| == |after.held.Keys| == |before.held| + 1;
  }

  lemma MoveGrowth(before: Pool, after: Pool)
    requires Moves(before, after)
    ensures |ValidNames(after)| <= Max(|ValidNames(before)|, |after.held|)
  {
    if after.files == before.files {
      assert ValidNames(after) == ValidNames(before);
    } else {
      var p, minted, id :| Claims(before, p, minted, after, id);
      MintGrowth(before, p, minted, after);
    }
  }

  lemma {:induction false} HistoryOk(pools: seq<Pool>)
    requires History(pools)
    ensures PoolOk(pools[|pools| - 1])
  {
    if |pools| <= 1 {
    } else {
      HistoryOk(pools[..|pools| - 1]);
      MovesKeepOk(pools[|pools| - 2], pools[|pools| - 1]);
    }
  }

  /** The pool never outgrows what it was and the most replicas that ever lived at once. */
  lemma {:induction false} PoolIsBounded(pools: seq<Pool>)
    requires History(pools)
    ensures |ValidNames(pools[|pools| - 1])| <= Max(|ValidNames(pools[0])|, Peak(pools))
  {
    if |pools| <= 1 {
    } else {
      var init := pools[..|pools| - 1];
      PoolIsBounded(init);
      HistoryOk(init);
      MoveGrowth(pools[|pools| - 2], pools[|pools| - 1]);
    }
  }
}
