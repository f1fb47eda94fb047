/** Worker replicas claiming identity files in one directory, interleaved at every
    system call of cmd/worker/identity.go. Paths name inodes, inodes have contents and at
    most one lock holder, and each process has a control point. */
module IdentitySystem {
  import opened Wrappers
  import opened Text

  type Pid = nat
  type Inode = nat

  /** The canonical text of a UUID. */
  type Uuid = string

  /** What parsing the bytes gives. A strict prefix of a canonical UUID does not parse. */
  datatype Contents = Junk | Id(id: Uuid)

  datatype Pc =
    | Listing                                          // about to read the directory
    | Trying(rest: seq<string>)                        // next candidate, or mint
    | Opened(path: string, inode: Inode, rest: seq<string>) // about to lock
    | Locked(path: string, inode: Inode, rest: seq<string>) // about to read by path
    | Skipping(inode: Inode, rest: seq<string>)        // about to close, lock held
    | Minting(id: Uuid)                                // about to create
    | Created(id: Uuid, inode: Inode)                  // about to lock
    | Writing(id: Uuid, inode: Inode)
    | Syncing(id: Uuid, inode: Inode)
    | Closing(id: Uuid, inode: Inode)                  // failed, lock held
    | Removing(id: Uuid)                               // failed, lock released
    | Claimed(id: Uuid, inode: Inode)
    | Fallback

  datatype World = World(
    dir: map<string, Inode>,
    contents: map<Inode, Contents>,
    locks: map<Inode, Pid>,
    procs: map<Pid, Pc>,
    // history: every UUID in a file or minted, and inodes a failed minter unlinked
    used: set<Uuid>,
    withdrawn: set<Inode>)

  /** `ok` false is the system call failing for a reason of its own. */
  datatype Action =
    | Launch(p: Pid)
    | List(p: Pid, names: seq<string>)
    | Open(p: Pid, ok: bool)
    | Lock(p: Pid, ok: bool)
    | Read(p: Pid, ok: bool)
    | Close(p: Pid)
    | Mint(p: Pid, id: Uuid)
    | Create(p: Pid, inode: Inode, ok: bool)
    | Write(p: Pid, left: Contents, ok: bool)
    | Sync(p: Pid, ok: bool)
    | Remove(p: Pid, ok: bool)
    | Exit(p: Pid)

  function FileName(id: Uuid): string {
    id + ".id"
  }

  predicate IdFile(name: string) {
    |name| >= 3 && name[|name| - 3..] == ".id"
  }

  /** The sorted `*.id` names of the directory. */
  predicate SortedListing(names: seq<string>, present: set<string>) {
    && (forall n | n in names :: n in present && IdFile(n))
    && (forall n | n in present && IdFile(n) :: n in names)
    && forall i, j | 0 <= i < j < |names| :: Before(names[i], names[j])
  }

  predicate Enabled(w: World, a: Action) {
    if a.Launch? then a.p !in w.procs
    else
      && a.p in w.procs
      && match a
         case List(p, names) => w.procs[p].Listing? && SortedListing(names, w.dir.Keys)
         case Open(p, _) => w.procs[p].Trying? && w.procs[p].rest != []
         case Lock(p, _) => w.procs[p].Opened? || w.procs[p].Created?
         case Read(p, _) => w.procs[p].Locked?
         case Close(p) => w.procs[p].Skipping? || w.procs[p].Closing?
         case Mint(p, id) => w.procs[p].Trying? && w.procs[p].rest == [] && id !in w.used
         case Create(p, inode, _) => w.procs[p].Minting? && inode !in w.contents
         case Write(p, left, ok) =>
           w.procs[p].Writing? && left in {Junk, Id(w.procs[p].id)} && (ok ==> left == Id(w.procs[p].id))
         case Sync(p, _) => w.procs[p].Syncing?
         case Remove(p, _) => w.procs[p].Removing?
         case _ => true
  }

  function To(w: World, p: Pid, pc: Pc): World {
    w.(procs := w.procs[p := pc])
  }

  /** A non-blocking exclusive lock. */
  predicate Free(w: World, inode: Inode) {
    inode !in w.locks
  }

  function Next(w: World, a: Action): World
    requires Enabled(w, a)
  {
    match a
    case Launch(p) => To(w, p, Listing)
    case List(p, names) => To(w, p, Trying(names))
    case Open(p, ok) =>
      var path, rest := w.procs[p].rest[0], w.procs[p].rest[1..];
      if ok && path in w.dir then To(w, p, Opened(path, w.dir[path], rest)) else To(w, p, Trying(rest))
    case Lock(p, ok) =>
      var pc := w.procs[p];
      if ok && Free(w, pc.inode) then
        To(w, p, if pc.Opened? then Locked(pc.path, pc.inode, pc.rest) else Writing(pc.id, pc.inode))
          .(locks := w.locks[pc.inode := p])
      else
        To(w, p, if pc.Opened? then Trying(pc.rest) else Fallback)
    case Read(p, ok) =>
      var pc := w.procs[p];
      if ok && pc.path in w.dir && w.dir[pc.path] in w.contents && w.contents[w.dir[pc.path]].Id? then
        To(w, p, Claimed(w.contents[w.dir[pc.path]].id, pc.inode))
      else
        To(w, p, Skipping(pc.inode, pc.rest))
    case Close(p) =>
      var pc := w.procs[p];
      To(w, p, if pc.Skipping? then Trying(pc.rest) else Removing(pc.id)).(locks := w.locks - {pc.inode})
    case Mint(p, id) => To(w, p, Minting(id)).(used := w.used + {id})
    case Create(p, inode, ok) =>
      var id := w.procs[p].id;
      if ok && FileName(id) !in w.dir then
        To(w, p, Created(id, inode)).(dir := w.dir[FileName(id) := inode], contents := w.contents[inode := Junk])
      else
        To(w, p, Fallback)
    case Write(p, left, ok) =>
      var pc := w.procs[p];
      To(w, p, if ok then Syncing(pc.id, pc.inode) else Closing(pc.id, pc.inode))
        .(contents := w.contents[pc.inode := left])
    case Sync(p, ok) =>
      var pc := w.procs[p];
      To(w, p, if ok then Claimed(pc.id, pc.inode) else Closing(pc.id, pc.inode))
    case Remove(p, ok) =>
      var path := FileName(w.procs[p].id);
      if ok && path in w.dir then
        To(w, p, Fallback).(dir := w.dir - {path}, withdrawn := w.withdrawn + {w.dir[path]})
      else
        To(w, p, Fallback)
    case Exit(p) =>
      w.(procs := w.procs - {p}, locks := map i | i in w.locks && w.locks[i] != p :: w.locks[i])
  }

  /** No process yet; valid files hold distinct UUIDs. */
  predicate Init(w: World) {
    && w.procs == map[] && w.locks == map[] && w.withdrawn == {}
    && (forall n | n in w.dir :: w.dir[n] in w.contents)
    && (forall i | i in w.contents && w.contents[i].Id? :: w.contents[i].id in w.used)
    && (forall i, j | i in w.contents && j in w.contents && w.contents[i].Id? && w.contents[i] == w.contents[j] ::
          i == j)
  }

  predicate Feasible(w: World, run: seq<Action>)
    decreases run
  {
    run == [] || (Enabled(w, run[0]) && Feasible(Next(w, run[0]), run[1..]))
  }

  function After(w: World, run: seq<Action>): World
    requires Feasible(w, run)
    decreases run
  {
    if run == [] then w else After(Next(w, run[0]), run[1..])
  }

  // ---------- what every step keeps ----------

  /** The inode the process holds the lock of. */
  function Holds(pc: Pc): Option<Inode> {
    match pc
    case Locked(_, inode, _) => Some(inode)
    case Skipping(inode, _) => Some(inode)
    case Writing(_, inode) => Some(inode)
    case Syncing(_, inode) => Some(inode)
    case Closing(_, inode) => Some(inode)
    case Claimed(_, inode) => Some(inode)
    case _ => None
  }

  predicate LocksOk(w: World) {
    && (forall p | p in w.procs && Holds(w.procs[p]).Some? ::
          var i := Holds(w.procs[p]).value; i in w.locks && w.locks[i] == p)
    && (forall i | i in w.locks :: w.locks[i] in w.procs && Holds(w.procs[w.locks[i]]) == Some(i))
  }

  /** The UUID a process has minted and not yet given up or claimed. */
  function Minted(pc: Pc): Option<Uuid> {
    match pc
    case Minting(id) => Some(id)
    case Created(id, _) => Some(id)
    case Writing(id, _) => Some(id)
    case Syncing(id, _) => Some(id)
    case Closing(id, _) => Some(id)
    case Removing(id) => Some(id)
    case _ => None
  }

  predicate MintsOk(w: World) {
    && (forall p | p in w.procs && Minted(w.procs[p]).Some? :: Minted(w.procs[p]).value in w.used)
    && (forall p, q | p in w.procs && q in w.procs && p != q && Minted(w.procs[p]).Some? ::
          Minted(w.procs[p]) != Minted(w.procs[q]))
  }

  /** Before its write, nothing holds a minted UUID. */
  predicate Unwritten(pc: Pc) {
    pc.Minting? || pc.Created? || pc.Writing?
  }

  /** Valid files hold distinct UUIDs, each known. */
  predicate Distinct(contents: map<Inode, Contents>, used: set<Uuid>) {
    && (forall i | i in contents && contents[i].Id? :: contents[i].id in used)
    && (forall i, j | i in contents && j in contents && contents[i].Id? && contents[i] == contents[j] :: i == j)
  }

  predicate Absent(contents: map<Inode, Contents>, id: Uuid) {
    forall i | i in contents :: contents[i] != Id(id)
  }

  predicate UnwrittenAbsent(w: World) {
    forall p | p in w.procs && Unwritten(w.procs[p]) :: Absent(w.contents, w.procs[p].id)
  }

  /** The new file of a process that has created it. */
  function NewFile(pc: Pc): Option<Inode> {
    match pc
    case Created(_, inode) => Some(inode)
    case Writing(_, inode) => Some(inode)
    case Syncing(_, inode) => Some(inode)
    case _ => None
  }

  predicate InodesOk(w: World) {
    && (forall n | n in w.dir :: w.dir[n] in w.contents)
    && (forall p | p in w.procs && NewFile(w.procs[p]).Some? :: NewFile(w.procs[p]).value in w.contents)
  }

  predicate ContentsOk(w: World) {
    Distinct(w.contents, w.used) && UnwrittenAbsent(w) && InodesOk(w)
  }

  /** The UUID a process has written or read, with the inode it is in. */
  function Written(pc: Pc): Option<(Inode, Uuid)> {
    match pc
    case Syncing(id, inode) => Some((inode, id))
    case Claimed(id, inode) => Some((inode, id))
    case _ => None
  }

  predicate WrittenOk(w: World) {
    forall p | p in w.procs && Written(w.procs[p]).Some? ::
      var (inode, id) := Written(w.procs[p]).value;
      inode in w.contents && w.contents[inode] == Id(id)
  }

  function Stem(name: string): string
    requires |name| >= 3
  {
    name[..|name| - 3]
  }

  /** The path names the inode that was opened, or nothing, and then it was minted. */
  predicate TriedPath(w: World, h: (string, Inode)) {
    if h.0 in w.dir then w.dir[h.0] == h.1 else |h.0| >= 3 && Stem(h.0) in w.used
  }

  predicate TriedPaths(w: World) {
    forall p | p in w.procs && Holding(w.procs[p]).Some? :: TriedPath(w, Holding(w.procs[p]).value)
  }

  /** Nobody is about to create a path that somebody holds and that has gone. */
  predicate NotRecreated(w: World) {
    forall p, q | p in w.procs && q in w.procs && Holding(w.procs[p]).Some? && w.procs[q].Minting?
                  && Holding(w.procs[p]).value.0 == FileName(w.procs[q].id) ::
      Holding(w.procs[p]).value.0 in w.dir
  }

  predicate PathsOk(w: World) {
    TriedPaths(w) && NotRecreated(w)
  }

  function MustBeListed(pc: Pc): Option<Inode> {
    if pc.Claimed? then Some(pc.inode) else NewFile(pc)
  }

  predicate ListedOrWithdrawn(w: World, inode: Inode) {
    inode in w.dir.Values || inode in w.withdrawn
  }

  /** A claimed or freshly minted file is still listed, unless its minter gave it up. */
  predicate ListedOk(w: World) {
    forall p | p in w.procs && MustBeListed(w.procs[p]).Some? ::
      ListedOrWithdrawn(w, MustBeListed(w.procs[p]).value)
  }

  /** The file a process has created and may still give up. */
  function Making(pc: Pc): Option<Inode> {
    if pc.Closing? then Some(pc.inode) else NewFile(pc)
  }

  /** Each new file is its maker's own. */
  predicate MakingApart(w: World) {
    && (forall p | p in w.procs && Making(w.procs[p]).Some? :: Making(w.procs[p]).value in w.contents)
    && (forall p, q | p in w.procs && q in w.procs && p != q && Making(w.procs[p]).Some? ::
          Making(w.procs[p]) != Making(w.procs[q]))
  }

  /** It is empty until its maker has the lock. */
  predicate CreatedEmpty(w: World) {
    forall p | p in w.procs && w.procs[p].Created? ::
      w.procs[p].inode in w.contents && w.contents[w.procs[p].inode] == Junk
  }

  /** The path of a minted UUID names its maker's file, if it names any. */
  predicate MakingNamed(w: World) {
    forall p | p in w.procs && Making(w.procs[p]).Some? && FileName(w.procs[p].id) in w.dir ::
      Some(w.dir[FileName(w.procs[p].id)]) == Making(w.procs[p])
  }

  predicate MakingOk(w: World) {
    MakingApart(w) && CreatedEmpty(w) && MakingNamed(w)
  }

  /** What is locked, or about to be, exists. */
  predicate KnownInodes(w: World) {
    && (forall i | i in w.locks :: i in w.contents)
    && (forall p | p in w.procs && w.procs[p].Opened? :: w.procs[p].inode in w.contents)
  }

  predicate Inv(w: World) {
    && KnownInodes(w) && LocksOk(w) && MintsOk(w) && ContentsOk(w) && WrittenOk(w)
    && PathsOk(w) && ListedOk(w) && MakingOk(w)
  }

  /** Only the acting process moves; `NextPc` is where to. */
  function NextPc(w: World, a: Action): Pc
    requires Enabled(w, a) && !a.Exit?
  {
    Next(w, a).procs[a.p]
  }

  lemma OnlyOneMoves(w: World, a: Action)
    requires Enabled(w, a) && !a.Exit?
    ensures Next(w, a).procs == w.procs[a.p := NextPc(w, a)]
  {
  }

  lemma LockChanges(w: World, a: Action)
    requires Enabled(w, a) && !a.Exit? && !a.Launch?
    ensures var before, after := Holds(w.procs[a.p]), Holds(NextPc(w, a));
            || (after == before && Next(w, a).locks == w.locks)
            || (before.None? && after.Some? && Free(w, after.value) && Next(w, a).locks == w.locks[after.value := a.p])
            || (before.Some? && after.None? && Next(w, a).locks == w.locks - {before.value})
  {
  }

  lemma LocksKept(w: World, a: Action)
    requires LocksOk(w) && Enabled(w, a)
    ensures LocksOk(Next(w, a))
  {
    if !a.Exit? {
      OnlyOneMoves(w, a);
      if !a.Launch? {
        LockChanges(w, a);
      }
    }
  }

  lemma MintChanges(w: World, a: Action)
    requires Enabled(w, a) && !a.Exit?
    ensures w.used <= Next(w, a).used
    ensures Minted(NextPc(w, a)).Some? ==>
              || (a.p in w.procs && Minted(NextPc(w, a)) == Minted(w.procs[a.p]))
              || (a.Mint? && Minted(NextPc(w, a)) == Some(a.id) && a.id !in w.used && a.id in Next(w, a).used)
  {
  }

  lemma MintsKept(w: World, a: Action)
    requires MintsOk(w) && Enabled(w, a)
    ensures MintsOk(Next(w, a))
  {
    if !a.Exit? {
      OnlyOneMoves(w, a);
      MintChanges(w, a);
    }
  }

  lemma ContentChanges(w: World, a: Action)
    requires Enabled(w, a)
    ensures || Next(w, a).contents == w.contents
            || (a.Create? && a.inode !in w.contents && Next(w, a).contents == w.contents[a.inode := Junk])
            || (a.Write? && Next(w, a).contents == w.contents[w.procs[a.p].inode := a.left])
  {
  }

  lemma DistinctKept(w: World, a: Action)
    requires MintsOk(w) && ContentsOk(w) && Enabled(w, a)
    ensures Distinct(Next(w, a).contents, Next(w, a).used)
  {
    ContentChanges(w, a);
    if a.Write? {
      assert Absent(w.contents, w.procs[a.p].id);
    }
  }

  lemma UnwrittenChanges(w: World, a: Action)
    requires Enabled(w, a) && !a.Exit? && Unwritten(NextPc(w, a))
    ensures Next(w, a).contents.Keys == w.contents.Keys || a.Create?
    ensures || (a.p in w.procs && Unwritten(w.procs[a.p]) && w.procs[a.p].id == NextPc(w, a).id && !a.Write?)
            || (a.Mint? && NextPc(w, a).id == a.id)
  {
  }

  lemma UnwrittenKept(w: World, a: Action)
    requires MintsOk(w) && ContentsOk(w) && Enabled(w, a)
    ensures UnwrittenAbsent(Next(w, a))
  {
    ContentChanges(w, a);
    var v := Next(w, a);
    forall p | p in v.procs && Unwritten(v.procs[p])
      ensures Absent(v.contents, v.procs[p].id)
    {
      if !a.Exit? {
        OnlyOneMoves(w, a);
      }
      if p == a.p {
        UnwrittenChanges(w, a);
        assert !a.Mint? ==> Absent(w.contents, v.procs[p].id);
      } else {
        assert Absent(w.contents, v.procs[p].id);
        if a.Write? {
          assert Minted(w.procs[p]) != Minted(w.procs[a.p]);
        }
      }
    }
  }

  lemma InodesKept(w: World, a: Action)
    requires InodesOk(w) && Enabled(w, a)
    ensures InodesOk(Next(w, a))
  {
    ContentChanges(w, a);
    if !a.Exit? {
      OnlyOneMoves(w, a);
    }
  }

  lemma WrittenChanges(w: World, a: Action)
    requires Enabled(w, a) && !a.Exit? && Written(NextPc(w, a)).Some?
    ensures || (a.p in w.procs && Written(NextPc(w, a)) == Written(w.procs[a.p]) && !a.Write?)
            || (a.Read? && w.procs[a.p].path in w.dir && w.dir[w.procs[a.p].path] in w.contents
                && w.contents[w.dir[w.procs[a.p].path]] == Id(Written(NextPc(w, a)).value.1)
                && Written(NextPc(w, a)).value.0 == w.procs[a.p].inode)
            || (a.Write? && Written(NextPc(w, a)) == Some((w.procs[a.p].inode, w.procs[a.p].id))
               && a.left == Id(w.procs[a.p].id))
  {
  }

  /** Contents change only under the writer's own lock. */
  lemma WrittenKept(w: World, a: Action)
    requires LocksOk(w) && ContentsOk(w) && WrittenOk(w) && PathsOk(w) && Enabled(w, a)
    ensures WrittenOk(Next(w, a))
  {
    ContentChanges(w, a);
    var v := Next(w, a);
    forall p | p in v.procs && Written(v.procs[p]).Some?
      ensures var (inode, id) := Written(v.procs[p]).value;
              inode in v.contents && v.contents[inode] == Id(id)
    {
      if !a.Exit? {
        OnlyOneMoves(w, a);
      }
      if p == a.p {
        WrittenChanges(w, a);
      } else if a.Write? {
        assert Holds(w.procs[p]).Some?;
        assert Holds(w.procs[a.p]) == Some(w.procs[a.p].inode);
      }
    }
  }

  lemma StemOfName(id: Uuid)
    ensures Stem(FileName(id)) == id
  {
  }

  /** The path a process has open, with the inode it got. */
  function Holding(pc: Pc): Option<(string, Inode)> {
    match pc
    case Opened(path, inode, _) => Some((path, inode))
    case Locked(path, inode, _) => Some((path, inode))
    case _ => None
  }

  lemma HoldingChanges(w: World, a: Action)
    requires Enabled(w, a) && !a.Exit? && Holding(NextPc(w, a)).Some?
    ensures Next(w, a).dir == w.dir
    ensures var (path, inode) := Holding(NextPc(w, a)).value;
            || (a.p in w.procs && Holding(NextPc(w, a)) == Holding(w.procs[a.p]))
            || (path in w.dir && w.dir[path] == inode)
  {
  }

  lemma DirChanges(w: World, a: Action)
    requires Enabled(w, a)
    ensures || Next(w, a).dir == w.dir
            || (a.Create? && FileName(w.procs[a.p].id) !in w.dir
                && Next(w, a).dir == w.dir[FileName(w.procs[a.p].id) := a.inode])
            || (a.Remove? && Next(w, a).dir == w.dir - {FileName(w.procs[a.p].id)})
  {
  }

  lemma MintingOnlyByMint(w: World, a: Action)
    requires Enabled(w, a) && !a.Exit? && NextPc(w, a).Minting?
    ensures (a.p in w.procs && NextPc(w, a) == w.procs[a.p] && !a.Create?) || (a.Mint? && NextPc(w, a).id == a.id)
  {
  }

  lemma TriedPathsKept(w: World, a: Action)
    requires MintsOk(w) && PathsOk(w) && Enabled(w, a)
    ensures TriedPaths(Next(w, a))
  {
    DirChanges(w, a);
    var v := Next(w, a);
    forall p | p in v.procs && Holding(v.procs[p]).Some?
      ensures TriedPath(v, Holding(v.procs[p]).value)
    {
      if !a.Exit? {
        OnlyOneMoves(w, a);
      }
      if p == a.p {
        HoldingChanges(w, a);
        if Holding(v.procs[p]) == Holding(w.procs[p]) {
          assert TriedPath(w, Holding(w.procs[p]).value);
        }
      } else {
        var (path, inode) := Holding(w.procs[p]).value;
        assert TriedPath(w, (path, inode));
        if a.Remove? {
          StemOfName(w.procs[a.p].id);
        } else if a.Create? && path == FileName(w.procs[a.p].id) {
          assert w.procs[a.p].Minting?;
        }
      }
    }
  }

  lemma NotRecreatedKept(w: World, a: Action)
    requires MintsOk(w) && PathsOk(w) && Enabled(w, a)
    ensures NotRecreated(Next(w, a))
  {
    DirChanges(w, a);
    var v := Next(w, a);
    forall p, q | p in v.procs && q in v.procs && Holding(v.procs[p]).Some? && v.procs[q].Minting?
                  && Holding(v.procs[p]).value.0 == FileName(v.procs[q].id)
      ensures Holding(v.procs[p]).value.0 in v.dir
    {
      if !a.Exit? {
        OnlyOneMoves(w, a);
      }
      StemOfName(v.procs[q].id);
      if p == a.p {
        HoldingChanges(w, a);
      }
      if q == a.p {
        MintingOnlyByMint(w, a);
      }
      if p in w.procs && Holding(w.procs[p]).Some? {
        assert TriedPath(w, Holding(w.procs[p]).value);
      }
      if a.Remove? && q != a.p {
        assert Minted(w.procs[q]) != Minted(w.procs[a.p]);
        StemOfName(w.procs[a.p].id);
      }
    }
  }

  lemma ListedKept(w: World, a: Action)
    requires PathsOk(w) && InodesOk(w) && ListedOk(w) && Enabled(w, a)
    ensures ListedOk(Next(w, a))
  {
    DirChanges(w, a);
    var v := Next(w, a);
    forall p | p in v.procs && MustBeListed(v.procs[p]).Some?
      ensures ListedOrWithdrawn(v, MustBeListed(v.procs[p]).value)
    {
      if !a.Exit? {
        OnlyOneMoves(w, a);
      }
      if p == a.p {
        ListedChanges(w, a);
      }
      if p in w.procs && MustBeListed(w.procs[p]) == MustBeListed(v.procs[p]) {
        assert ListedOrWithdrawn(w, MustBeListed(w.procs[p]).value);
        StaysListed(w, a, MustBeListed(w.procs[p]).value);
      }
    }
  }

  lemma ListedChanges(w: World, a: Action)
    requires PathsOk(w) && Enabled(w, a) && !a.Exit? && MustBeListed(NextPc(w, a)).Some?
    ensures || (a.p in w.procs && MustBeListed(NextPc(w, a)) == MustBeListed(w.procs[a.p]))
            || ListedOrWithdrawn(Next(w, a), MustBeListed(NextPc(w, a)).value)
  {
    if a.Read? {
      assert TriedPath(w, Holding(w.procs[a.p]).value);
      assert w.procs[a.p].path in Next(w, a).dir;
    } else if a.Create? {
      assert FileName(w.procs[a.p].id) in Next(w, a).dir;
    }
  }

  lemma StaysListed(w: World, a: Action, inode: Inode)
    requires Enabled(w, a) && ListedOrWithdrawn(w, inode)
    ensures ListedOrWithdrawn(Next(w, a), inode)
  {
    DirChanges(w, a);
    if inode in w.dir.Values {
      var n :| n in w.dir && w.dir[n] == inode;
      if n in Next(w, a).dir {
        assert Next(w, a).dir[n] == inode;
      }
    }
  }

  lemma MakingChanges(w: World, a: Action)
    requires Enabled(w, a) && !a.Exit? && Making(NextPc(w, a)).Some?
    ensures || (a.p in w.procs && Making(NextPc(w, a)) == Making(w.procs[a.p])
                && NextPc(w, a).id == w.procs[a.p].id && !NextPc(w, a).Created? && Next(w, a).dir == w.dir)
            || (a.Create? && Making(NextPc(w, a)) == Some(a.inode) && a.inode !in w.contents
                && NextPc(w, a).id == w.procs[a.p].id
                && Next(w, a).dir == w.dir[FileName(w.procs[a.p].id) := a.inode])
  {
  }

  lemma MakingApartKept(w: World, a: Action)
    requires MakingApart(w) && Enabled(w, a)
    ensures MakingApart(Next(w, a))
  {
    ContentChanges(w, a);
    if !a.Exit? {
      OnlyOneMoves(w, a);
      if Making(NextPc(w, a)).Some? {
        MakingChanges(w, a);
      }
    }
  }

  lemma CreatedEmptyKept(w: World, a: Action)
    requires MakingApart(w) && CreatedEmpty(w) && Enabled(w, a)
    ensures CreatedEmpty(Next(w, a))
  {
    ContentChanges(w, a);
    var v := Next(w, a);
    forall p | p in v.procs && v.procs[p].Created?
      ensures v.procs[p].inode in v.contents && v.contents[v.procs[p].inode] == Junk
    {
      if !a.Exit? {
        OnlyOneMoves(w, a);
      }
      if p == a.p {
        MakingChanges(w, a);
      } else if a.Write? {
        assert Making(w.procs[p]) != Making(w.procs[a.p]);
      }
    }
  }

  lemma MakingNamedKept(w: World, a: Action)
    requires MintsOk(w) && MakingNamed(w) && Enabled(w, a)
    ensures MakingNamed(Next(w, a))
  {
    DirChanges(w, a);
    var v := Next(w, a);
    forall p | p in v.procs && Making(v.procs[p]).Some? && FileName(v.procs[p].id) in v.dir
      ensures Some(v.dir[FileName(v.procs[p].id)]) == Making(v.procs[p])
    {
      if !a.Exit? {
        OnlyOneMoves(w, a);
      }
      if p == a.p {
        MakingChanges(w, a);
      } else if a.Create? {
        StemOfName(v.procs[p].id);
        StemOfName(w.procs[a.p].id);
        assert Minted(w.procs[p]) != Minted(w.procs[a.p]);
      }
    }
  }

  lemma KnownInodesKept(w: World, a: Action)
    requires KnownInodes(w) && InodesOk(w) && Enabled(w, a)
    ensures KnownInodes(Next(w, a))
  {
    ContentChanges(w, a);
    if !a.Exit? {
      OnlyOneMoves(w, a);
      if !a.Launch? {
        LockChanges(w, a);
      }
    }
  }

  // ---------- every run ----------

  lemma NextInv(w: World, a: Action)
    requires Inv(w) && Enabled(w, a)
    ensures Inv(Next(w, a))
  {
    LocksKept(w, a);
    MintsKept(w, a);
    DistinctKept(w, a);
    UnwrittenKept(w, a);
    InodesKept(w, a);
    WrittenKept(w, a);
    TriedPathsKept(w, a);
    NotRecreatedKept(w, a);
    ListedKept(w, a);
    MakingApartKept(w, a);
    CreatedEmptyKept(w, a);
    MakingNamedKept(w, a);
    KnownInodesKept(w, a);
  }

  lemma {:induction false} RunInv(w: World, run: seq<Action>)
    requires Inv(w) && Feasible(w, run)
    ensures Inv(After(w, run))
    decreases run
  {
    if run == [] {
    } else {
      NextInv(w, run[0]);
      RunInv(Next(w, run[0]), run[1..]);
    }
  }

  lemma HoldersClaimApart(w: World, p: Pid, q: Pid)
    requires LocksOk(w) && ContentsOk(w) && WrittenOk(w) && p != q
    requires p in w.procs && q in w.procs && w.procs[p].Claimed? && w.procs[q].Claimed?
    ensures w.procs[p].id != w.procs[q].id
  {
    assert Holds(w.procs[p]) == Some(w.procs[p].inode) && Holds(w.procs[q]) == Some(w.procs[q].inode);
    assert Written(w.procs[p]).Some? && Written(w.procs[q]).Some?;
  }

  /** In every run, two live replicas that claimed an identity claimed different ones. */
  lemma ClaimsAreDistinct(w: World, run: seq<Action>, p: Pid, q: Pid)
    requires Init(w) && Feasible(w, run) && p != q
    requires var v := After(w, run);
             p in v.procs && q in v.procs && v.procs[p].Claimed? && v.procs[q].Claimed?
    ensures After(w, run).procs[p].id != After(w, run).procs[q].id
  {
    RunInv(w, run);
    HoldersClaimApart(After(w, run), p, q);
  }

  /** A claim is the lock of a file holding that identity, listed unless its failed minter
      removed it. When that can still happen, IdentitySurvival says. */
  lemma ClaimsAreBacked(w: World, run: seq<Action>, p: Pid)
    requires Init(w) && Feasible(w, run)
    requires p in After(w, run).procs && After(w, run).procs[p].Claimed?
    ensures var v := After(w, run); var i := v.procs[p].inode;
            && i in v.contents && v.contents[i] == Id(v.procs[p].id)
            && i in v.locks && v.locks[i] == p
            && (i in v.dir.Values || i in v.withdrawn)
  {
    RunInv(w, run);
    var v := After(w, run);
    assert LocksOk(v) && WrittenOk(v) && ListedOk(v);
    assert Holds(v.procs[p]).Some? && Written(v.procs[p]).Some? && MustBeListed(v.procs[p]).Some?;
    assert ListedOrWithdrawn(v, v.procs[p].inode);
  }
}
