/** Blobs in a backup bundle: `collectBlobs`, `writeBundle`, `tarFile`, `restoreBlobs` and
    `openBundleEntry` of cmd/warmblyctl/backup.go. The archive is its list of entries. */
module Bundle {
  import opened Wrappers
  import opened Text
  import opened Paths

  newtype byte = x: int | 0 <= x < 256

  type Bytes = seq<byte>

  datatype Entry = Entry(name: string, regular: bool, body: Bytes)

  const MANIFEST := "manifest.json"
  const DATABASE := "database.sql"
  const KEYS := "keys.env"
  const BLOBS := "blobs/"

  // ---------- collecting ----------

  predicate EndsWith(s: string, suffix: string) {
    |suffix| <= |s| && s[|s| - |suffix|..] == suffix
  }

  /** An earlier backup left at the top of the blob root. */
  predicate EarlierBundle(rel: string) {
    '/' !in rel && "warmbly-" <= rel && EndsWith(rel, ".tar.gz")
  }

  function Under(root: string, rel: string): string {
    Clean(root) + "/" + rel
  }

  predicate IsBlob(root: string, exclude: string, rel: string) {
    Under(root, rel) != exclude && !EarlierBundle(rel)
  }

  /** A name begins with one text and ends with another that cannot overlap it exactly when
      something stands between them. */
  lemma EarlierBundleIsSpelled(rel: string)
    ensures EarlierBundle(rel) <==> '/' !in rel && exists mid :: rel == "warmbly-" + mid + ".tar.gz"
  {
    if "warmbly-" <= rel && EndsWith(rel, ".tar.gz") {
      assert rel[7] == '-';
      assert forall i | 0 <= i < 7 :: rel[|rel| - 7..][i] == ".tar.gz"[i] != '-';
      assert |rel| >= 15;
      assert rel == "warmbly-" + rel[8..|rel| - 7] + ".tar.gz";
    }
    forall mid | rel == "warmbly-" + mid + ".tar.gz"
      ensures "warmbly-" <= rel && EndsWith(rel, ".tar.gz")
    {
      assert rel[..8] == "warmbly-" && rel[|rel| - 7..] == ".tar.gz";
    }
  }

  /** A path below a root as a directory walk reports it. */
  predicate Relative(rel: string) {
    Names(Split(rel))
  }

  /** The regular files below the root, each once. */
  predicate Walk(walk: seq<string>, files: map<string, Bytes>, root: string) {
    && (forall r | r in walk :: Relative(r) && Under(root, r) in files)
    && Distinct(walk)
  }

  /** In order of their names: the walked blobs that did not vanish before they were looked at. */
  ghost predicate Collected(out: seq<string>, root: string, exclude: string, walk: seq<string>, vanished: set<string>) {
    && (forall r :: r in out <==> r in walk && IsBlob(root, exclude, r) && r !in vanished)
    && (Distinct(walk) ==> Increasing(out))
  }

  method CollectBlobs(root: string, exclude: string, walk: seq<string>, vanished: set<string>)
      returns (out: seq<string>)
    ensures Collected(out, root, exclude, walk, vanished)
    ensures forall r :: r in out <==>
              && r in walk && r !in vanished && Clean(root) + "/" + r != exclude
              && ('/' in r || forall mid :: r != "warmbly-" + mid + ".tar.gz")
  {
    out := [];
    for k := 0 to |walk|
      invariant forall r :: r in out <==> r in walk[..k] && IsBlob(root, exclude, r) && r !in vanished
      invariant Distinct(walk) ==> Distinct(out)
    {
      assert Distinct(walk) ==> walk[k] !in walk[..k];
      if Under(root, walk[k]) == exclude || EarlierBundle(walk[k]) || walk[k] in vanished {
        continue;
      }
      out := out + [walk[k]];
    }
    if Distinct(walk) {
      SortSorts(out);
    }
    out := Sort(out);
    forall r {
      EarlierBundleIsSpelled(r);
    }
  }

  // ---------- writing ----------

  /** A blob as the writer meets it: its size when examined and its bytes when read, each
      absent if the file has gone. */
  datatype Seen = Seen(rel: string, size: Option<nat>, content: Option<Bytes>)

  function Zeros(n: nat): (z: Bytes)
    ensures |z| == n && forall i | 0 <= i < n :: z[i] == 0
  {
    seq(n, _ => 0)
  }

  /** The header fixed the size: more is cut off, less is padded. */
  function Fit(content: Bytes, size: nat): (body: Bytes)
    ensures |body| == size
    ensures forall i | 0 <= i < size :: body[i] == if i < |content| then content[i] else 0
  {
    if size <= |content| then content[..size] else content + Zeros(size - |content|)
  }

  function Packed(s: Seen): seq<Entry> {
    if s.size.None? || s.content.None? then []
    else [Entry(BLOBS + s.rel, true, Fit(s.content.value, s.size.value))]
  }

  function PackedAll(blobs: seq<Seen>): seq<Entry> {
    if blobs == [] then [] else Packed(blobs[0]) + PackedAll(blobs[1..])
  }

  function Archive(manifest: Bytes, keys: Option<Bytes>, dump: Bytes, blobs: seq<Seen>): seq<Entry> {
    [Entry(MANIFEST, true, manifest)]
    + (if keys.Some? then [Entry(KEYS, true, keys.value)] else [])
    + [Entry(DATABASE, true, dump)]
    + PackedAll(blobs)
  }

  method TarFile(s: Seen) returns (added: seq<Entry>)
    ensures added == Packed(s)
    ensures if s.size.None? || s.content.None? then added == []
            else
              && |added| == 1 && added[0].name == "blobs/" + s.rel && added[0].regular
              && |added[0].body| == s.size.value
              && forall i | 0 <= i < s.size.value ::
                   added[0].body[i] == if i < |s.content.value| then s.content.value[i] else 0
  {
    if s.size.None? || s.content.None? {
      return [];
    }
    var size, content := s.size.value, s.content.value;
    var body := if size <= |content| then content[..size] else content;
    while |body| < size
      invariant |body| <= size
      invariant forall i | 0 <= i < |body| :: body[i] == Fit(content, size)[i]
    {
      body := body + [0];
    }
    assert body == Fit(content, size);
    return [Entry(BLOBS + s.rel, true, body)];
  }

  method WriteBundle(manifest: Bytes, keys: Option<Bytes>, dump: Bytes, blobs: seq<Seen>) returns (entries: seq<Entry>)
    ensures entries == Archive(manifest, keys, dump, blobs)
  {
    entries := [Entry(MANIFEST, true, manifest)];
    if keys.Some? {
      entries := entries + [Entry(KEYS, true, keys.value)];
    }
    entries := entries + [Entry(DATABASE, true, dump)];
    ghost var head := entries;
    assert head + PackedAll(blobs[..0]) == head;
    for i := 0 to |blobs|
      invariant entries == head + PackedAll(blobs[..i])
    {
      PackedOneMore(blobs[..i], blobs[i]);
      assert blobs[..i + 1] == blobs[..i] + [blobs[i]];
      var added := TarFile(blobs[i]);
      entries := entries + added;
    }
    assert blobs[..|blobs|] == blobs;
  }

  lemma {:induction false} PackedOneMore(blobs: seq<Seen>, s: Seen)
    ensures PackedAll(blobs + [s]) == PackedAll(blobs) + Packed(s)
  {
    if blobs == [] {
      assert blobs + [s] == [s] && [s][1..] == [];
    } else {
      assert (blobs + [s])[1..] == blobs[1..] + [s];
      PackedOneMore(blobs[1..], s);
    }
  }

  // ---------- reading ----------

  function Find(entries: seq<Entry>, want: string): Option<Bytes> {
    if entries == [] then None
    else if entries[0].name == want then Some(entries[0].body)
    else Find(entries[1..], want)
  }

  predicate Restorable(e: Entry) {
    e.regular && BLOBS <= e.name
  }

  function Destination(root: string, e: Entry): Result<string, Failure>
    requires Restorable(e)
  {
    SafeJoin(root, e.name[|BLOBS|..])
  }

  /** The files afterwards, and whether an entry was refused; earlier ones stay written. */
  function Unpack(files: map<string, Bytes>, root: string, entries: seq<Entry>): (map<string, Bytes>, bool)
    decreases |entries|
  {
    if entries == [] then (files, true)
    else if !Restorable(entries[0]) then Unpack(files, root, entries[1..])
    else if Destination(root, entries[0]).Err? then (files, false)
    else Unpack(files[Destination(root, entries[0]).value := entries[0].body], root, entries[1..])
  }

  class Disk {
    var files: map<string, Bytes>

    constructor (files: map<string, Bytes>)
      ensures this.files == files
    {
      this.files := files;
    }

    method RestoreBlobs(entries: seq<Entry>, root: string) returns (ok: bool, n: nat, total: nat)
      modifies this
      ensures (files, ok) == Unpack(old(files), root, entries)
      ensures n == Count(root, entries) && total == Total(root, entries)
    {
      n, total := 0, 0;
      for i := 0 to |entries|
        invariant Unpack(old(files), root, entries) == Unpack(files, root, entries[i..])
        invariant Count(root, entries) == n + Count(root, entries[i..])
        invariant Total(root, entries) == total + Total(root, entries[i..])
      {
        var e := entries[i];
        assert entries[i..][1..] == entries[i + 1..];
        if !Restorable(e) {
          continue;
        }
        var dest := Destination(root, e);
        if dest.Err? {
          return false, n, total;
        }
        files := files[dest.value := e.body];
        n, total := n + 1, total + |e.body|;
      }
      return true, n, total;
    }
  }

  /** Files written, up to the entry that is refused. */
  function Count(root: string, entries: seq<Entry>): nat {
    if entries == [] then 0
    else if !Restorable(entries[0]) then Count(root, entries[1..])
    else if Destination(root, entries[0]).Err? then 0
    else 1 + Count(root, entries[1..])
  }

  function Total(root: string, entries: seq<Entry>): nat {
    if entries == [] then 0
    else if !Restorable(entries[0]) then Total(root, entries[1..])
    else if Destination(root, entries[0]).Err? then 0
    else |entries[0].body| + Total(root, entries[1..])
  }

  /** The first entry of that name, read by walking the archive. */
  method OpenBundleEntry(entries: seq<Entry>, want: string) returns (r: Option<Bytes>)
    ensures r == Find(entries, want)
  {
    for i := 0 to |entries|
      invariant Find(entries, want) == Find(entries[i..], want)
    {
      assert entries[i..][1..] == entries[i + 1..];
      if entries[i].name == want {
        return Some(entries[i].body);
      }
    }
    return None;
  }

  lemma {:induction false} BlobsHideNothing(blobs: seq<Seen>, want: string)
    requires !(BLOBS <= want)
    ensures Find(PackedAll(blobs), want) == None
  {
    if blobs == [] {
    } else {
      BlobsHideNothing(blobs[1..], want);
      var first := Packed(blobs[0]);
      if first != [] {
        assert first == [first[0]] && BLOBS <= first[0].name;
        assert PackedAll(blobs)[1..] == PackedAll(blobs[1..]);
      } else {
        assert PackedAll(blobs) == PackedAll(blobs[1..]);
      }
    }
  }

  lemma FindCons(e: Entry, rest: seq<Entry>, want: string)
    ensures Find([e] + rest, want) == if e.name == want then Some(e.body) else Find(rest, want)
  {
    assert ([e] + rest)[1..] == rest;
  }

  /** Manifest, keys and dump are found again whatever the blobs are called; a bundle
      without keys holds none. */
  lemma FixedEntriesAreFound(manifest: Bytes, keys: Option<Bytes>, dump: Bytes, blobs: seq<Seen>)
    ensures var entries := Archive(manifest, keys, dump, blobs);
            && Find(entries, MANIFEST) == Some(manifest)
            && Find(entries, DATABASE) == Some(dump)
            && Find(entries, KEYS) == keys
  {
    FixedNamesAreNoBlobs([]);
    var packed := PackedAll(blobs);
    var tail := [Entry(DATABASE, true, dump)] + packed;
    forall want | want in {MANIFEST, DATABASE, KEYS}
      ensures Find(tail, want) == if want == DATABASE then Some(dump) else None
    {
      BlobsHideNothing(blobs, want);
      FindCons(Entry(DATABASE, true, dump), packed, want);
    }
    assert |MANIFEST| == 13 && |DATABASE| == 12 && |KEYS| == 8;
    if keys.Some? {
      forall want {
        FindCons(Entry(KEYS, true, keys.value), tail, want);
      }
      tail := [Entry(KEYS, true, keys.value)] + tail;
    }
    forall want {
      FindCons(Entry(MANIFEST, true, manifest), tail, want);
    }
    assert Archive(manifest, keys, dump, blobs) == [Entry(MANIFEST, true, manifest)] + tail;
  }

  // ---------- restore never leaves the destination ----------

  ghost predicate Below(root: string, path: string) {
    exists names :: names != [] && Names(names) && path == Under(root, Slashed(names))
  }

  /** Whatever the archive holds, files not below the destination stay as they were, and
      nothing is ever deleted. */
  lemma {:induction false} RestoreStaysBelow(files: map<string, Bytes>, root: string, entries: seq<Entry>, path: string)
    requires !Below(root, path)
    ensures var after := Unpack(files, root, entries).0;
            Unchanged(files, after, path)
    decreases |entries|
  {
    if entries == [] {
    } else {
      if !Restorable(entries[0]) {
        RestoreStaysBelow(files, root, entries[1..], path);
      } else if Destination(root, entries[0]).Ok? {
        SafeJoinIsExact(root, entries[0].name[|BLOBS|..]);
        var dest := Destination(root, entries[0]).value;
        assert Below(root, dest);
        RestoreStaysBelow(files[dest := entries[0].body], root, entries[1..], path);
      }
    }
  }

  lemma {:induction false} RestoreDeletesNothing(files: map<string, Bytes>, root: string, entries: seq<Entry>)
    ensures files.Keys <= Unpack(files, root, entries).0.Keys
    decreases |entries|
  {
    if entries == [] {
    } else {
      if !Restorable(entries[0]) {
        RestoreDeletesNothing(files, root, entries[1..]);
      } else if Destination(root, entries[0]).Ok? {
        RestoreDeletesNothing(files[Destination(root, entries[0]).value := entries[0].body], root, entries[1..]);
      }
    }
  }

  // ---------- backup then restore ----------

  /** Blobs nobody touches while the backup runs. */
  function Still(files: map<string, Bytes>, root: string, rels: seq<string>): seq<Seen>
    requires forall r | r in rels :: Under(root, r) in files
  {
    seq(|rels|, i requires 0 <= i < |rels| =>
      Seen(rels[i], Some(|files[Under(root, rels[i])]|), Some(files[Under(root, rels[i])])))
  }

  lemma FitExactly(content: Bytes)
    ensures Fit(content, |content|) == content
  {
  }

  /** One entry lands at its own path. */
  lemma BlobDestination(root: string, rel: string, body: Bytes)
    requires Usable(root) && Relative(rel)
    ensures Destination(root, Entry(BLOBS + rel, true, body)) == Ok(Under(root, rel))
  {
    JoinUndoesSplit(rel, '/');
    SafeJoinOfNames(root, Split(rel));
    assert (BLOBS + rel)[|BLOBS|..] == rel;
  }

  /** The files after the blobs `rels` of `from` are restored over `files`. */
  function Restored(files: map<string, Bytes>, root: string, from: map<string, Bytes>, source: string,
                    rels: seq<string>): map<string, Bytes>
    requires forall r | r in rels :: Under(source, r) in from
    decreases |rels|
  {
    if rels == [] then files
    else Restored(files[Under(root, rels[0]) := from[Under(source, rels[0])]], root, from, source, rels[1..])
  }

  lemma {:induction false} UnpackPacked(files: map<string, Bytes>, root: string, from: map<string, Bytes>,
                                        source: string, rels: seq<string>)
    requires Usable(root) && forall r | r in rels :: Relative(r) && Under(source, r) in from
    ensures Unpack(files, root, PackedAll(Still(from, source, rels))) ==
            (Restored(files, root, from, source, rels), true)
    decreases |rels|
  {
    if rels == [] {
    } else {
      assert rels[0] in rels;
      var content := from[Under(source, rels[0])];
      FitExactly(content);
      var e := Entry(BLOBS + rels[0], true, content);
      var blobs := Still(from, source, rels);
      assert blobs[1..] == Still(from, source, rels[1..]);
      assert PackedAll(blobs) == [e] + PackedAll(blobs[1..]);
      BlobDestination(root, rels[0], content);
      UnpackPacked(files[Under(root, rels[0]) := content], root, from, source, rels[1..]);
    }
  }

  lemma {:induction false} RestoredFiles(files: map<string, Bytes>, root: string, from: map<string, Bytes>,
                                         source: string, rels: seq<string>, path: string)
    requires forall r | r in rels :: Under(source, r) in from
    ensures var after := Restored(files, root, from, source, rels);
            && (forall r | r in rels && path == Under(root, r) ::
                  path in after && after[path] == from[Under(source, r)])
            && ((forall r | r in rels :: path != Under(root, r)) ==>
                  Unchanged(files, after, path))
    decreases |rels|
  {
    if rels == [] {
    } else {
      assert rels[0] in rels && rels == [rels[0]] + rels[1..];
      var next := files[Under(root, rels[0]) := from[Under(source, rels[0])]];
      RestoredFiles(next, root, from, source, rels[1..], path);
      forall r | r in rels && path == Under(root, r)
        ensures r in rels[1..] || r == rels[0]
        ensures path == Under(root, rels[0]) ==> r == rels[0]
      {
        assert Under(root, r)[|Clean(root)| + 1..] == r;
        assert Under(root, rels[0])[|Clean(root)| + 1..] == rels[0];
      }
    }
  }

  lemma {:induction false} OthersAreSkipped(files: map<string, Bytes>, root: string, e: Entry, rest: seq<Entry>)
    requires !Restorable(e)
    ensures Unpack(files, root, [e] + rest) == Unpack(files, root, rest)
  {
    assert ([e] + rest)[1..] == rest;
  }

  lemma FixedNamesAreNoBlobs(body: Bytes)
    ensures !Restorable(Entry(MANIFEST, true, body))
    ensures !Restorable(Entry(KEYS, true, body))
    ensures !Restorable(Entry(DATABASE, true, body))
  {
    assert MANIFEST[0] != BLOBS[0] && KEYS[0] != BLOBS[0] && DATABASE[0] != BLOBS[0];
  }

  lemma UnpackArchive(files: map<string, Bytes>, root: string, manifest: Bytes, keys: Option<Bytes>, dump: Bytes,
                      blobs: seq<Seen>)
    ensures Unpack(files, root, Archive(manifest, keys, dump, blobs)) == Unpack(files, root, PackedAll(blobs))
  {
    FixedNamesAreNoBlobs(manifest);
    FixedNamesAreNoBlobs(dump);
    var packed := PackedAll(blobs);
    OthersAreSkipped(files, root, Entry(DATABASE, true, dump), packed);
    var tail := [Entry(DATABASE, true, dump)] + packed;
    if keys.Some? {
      FixedNamesAreNoBlobs(keys.value);
      OthersAreSkipped(files, root, Entry(KEYS, true, keys.value), tail);
      tail := [Entry(KEYS, true, keys.value)] + tail;
    }
    OthersAreSkipped(files, root, Entry(MANIFEST, true, manifest), tail);
    assert Archive(manifest, keys, dump, blobs) == [Entry(MANIFEST, true, manifest)] + tail;
  }

  predicate Unchanged(before: map<string, Bytes>, after: map<string, Bytes>, path: string) {
    (path in after <==> path in before) && (path in before ==> after[path] == before[path])
  }

  /** Every blob of an unchanged tree comes back at its own path with its own bytes, under
      any usable destination, and every other file is left alone. */
  lemma RestoreUndoesBackup(
      from: map<string, Bytes>, source: string, rels: seq<string>,
      manifest: Bytes, keys: Option<Bytes>, dump: Bytes,
      files: map<string, Bytes>, root: string)
    requires Walk(rels, from, source) && Usable(root)
    ensures var (after, ok) := Unpack(files, root, Archive(manifest, keys, dump, Still(from, source, rels)));
            && ok
            && (forall r | r in rels :: Under(root, r) in after && after[Under(root, r)] == from[Under(source, r)])
            && (forall path | forall r | r in rels :: path != Under(root, r) :: Unchanged(files, after, path))
  {
    UnpackArchive(files, root, manifest, keys, dump, Still(from, source, rels));
    UnpackPacked(files, root, from, source, rels);
    forall path {
      RestoredFiles(files, root, from, source, rels, path);
    }
  }

  /** Plain names joined by slashes are what a walk reports. */
  lemma NamesAreRelative(names: seq<string>)
    requires names != [] && forall n | n in names :: n !in {"", ".", ".."} && '/' !in n
    ensures Relative(Join(names, '/'))
  {
    SplitUndoesJoin(names, '/');
  }

  lemma UnderIsInjective(root: string, a: string, b: string)
    requires Under(root, a) == Under(root, b)
    ensures a == b
  {
    assert Under(root, a)[|Clean(root)| + 1..] == a;
    assert Under(root, b)[|Clean(root)| + 1..] == b;
  }

  /** Walk, collect, write, restore: of an unchanged tree every walked file comes back, but
      for the bundle being written and earlier ones at the top; their places, and all others
      at the destination, are left alone. */
  lemma BackupThenRestore(
      from: map<string, Bytes>, source: string, exclude: string, walk: seq<string>, rels: seq<string>,
      manifest: Bytes, keys: Option<Bytes>, dump: Bytes,
      files: map<string, Bytes>, root: string)
    requires Walk(walk, from, source) && Usable(root) && Collected(rels, source, exclude, walk, {})
    ensures forall r | r in rels :: Under(source, r) in from
    ensures var (after, ok) := Unpack(files, root, Archive(manifest, keys, dump, Still(from, source, rels)));
            && ok
            && (forall r | r in walk ::
                  if Clean(source) + "/" + r != exclude && ('/' in r || forall mid :: r != "warmbly-" + mid + ".tar.gz")
                  then Under(root, r) in after && after[Under(root, r)] == from[Under(source, r)]
                  else Unchanged(files, after, Under(root, r)))
            && (forall path | forall r | r in walk :: path != Under(root, r) :: Unchanged(files, after, path))
  {
    IncreasingNamesAreDistinct(rels);
    RestoreUndoesBackup(from, source, rels, manifest, keys, dump, files, root);
    forall r {
      EarlierBundleIsSpelled(r);
    }
    forall r, s | r in walk && !IsBlob(source, exclude, r) && s in rels
      ensures Under(root, r) != Under(root, s)
    {
      if Under(root, r) == Under(root, s) {
        UnderIsInjective(root, r, s);
      }
    }
  }

  /** Only regular entries under the blob prefix are written; others are passed over. */
  lemma OnlyBlobsAreRestored(files: map<string, Bytes>, root: string, e: Entry)
    requires !e.regular || !("blobs/" <= e.name)
    ensures Unpack(files, root, [e]) == (files, true)
  {
    assert [e][1..] == [];
  }
}
