/** Lexical path cleaning and joining, and `safeJoin` of cmd/warmblyctl/backup.go. */
module Paths {
  import opened Wrappers
  import opened Text

  function Split(path: string): seq<string> {
    SplitOn(path, '/')
  }

  function Slashed(parts: seq<string>): string {
    Join(parts, '/')
  }

  predicate Rooted(path: string) {
    path != "" && path[0] == '/'
  }

  /** Drops empty and "." parts and lets ".." undo the part before it. */
  function Resolve(parts: seq<string>, stack: seq<string>, rooted: bool): seq<string>
    decreases |parts|
  {
    if parts == [] then stack
    else if parts[0] == "" || parts[0] == "." then Resolve(parts[1..], stack, rooted)
    else if parts[0] == ".." then
      if stack != [] && stack[|stack| - 1] != ".." then Resolve(parts[1..], stack[..|stack| - 1], rooted)
      else if rooted then Resolve(parts[1..], stack, rooted)
      else Resolve(parts[1..], stack + [".."], rooted)
    else Resolve(parts[1..], stack + [parts[0]], rooted)
  }

  function Parts(path: string): seq<string> {
    Resolve(Split(path), [], Rooted(path))
  }

  function Clean(path: string): string {
    if Rooted(path) then "/" + Slashed(Parts(path))
    else if Parts(path) == [] then "."
    else Slashed(Parts(path))
  }

  /** Joining two paths; an empty first one is left out. */
  function JoinPath(a: string, b: string): string {
    if a == "" then (if b == "" then "" else Clean(b)) else Clean(a + "/" + b)
  }

  datatype Failure = Outside

  function SafeJoin(root: string, rel: string): Result<string, Failure> {
    var joined := JoinPath(root, Clean("/" + rel));
    if Clean(root) + "/" <= joined then Ok(joined) else Err(Outside)
  }

  /** A plain file or directory name. */
  predicate Name(p: string) {
    p !in {"", ".", ".."} && '/' !in p
  }

  predicate Names(ps: seq<string>) {
    forall p | p in ps :: Name(p)
  }

  // ---------- resolving ----------

  lemma {:induction false} ResolveConcat(a: seq<string>, b: seq<string>, stack: seq<string>, rooted: bool)
    ensures Resolve(a + b, stack, rooted) == Resolve(b, Resolve(a, stack, rooted), rooted)
    decreases |a|
  {
    if a == [] {
      assert a + b == b;
    } else {
      assert (a + b)[0] == a[0] && (a + b)[1..] == a[1..] + b;
      if a[0] == "" || a[0] == "." {
        ResolveConcat(a[1..], b, stack, rooted);
      } else if a[0] == ".." {
        if stack != [] && stack[|stack| - 1] != ".." {
          ResolveConcat(a[1..], b, stack[..|stack| - 1], rooted);
        } else if rooted {
          ResolveConcat(a[1..], b, stack, rooted);
        } else {
          ResolveConcat(a[1..], b, stack + [".."], rooted);
        }
      } else {
        ResolveConcat(a[1..], b, stack + [a[0]], rooted);
      }
    }
  }

  lemma {:induction false} ResolveNames(names: seq<string>, stack: seq<string>, rooted: bool)
    requires Names(names)
    ensures Resolve(names, stack, rooted) == stack + names
    decreases |names|
  {
    if names != [] {
      assert names[0] in names;
      ResolveNames(names[1..], stack + [names[0]], rooted);
      assert stack + [names[0]] + names[1..] == stack + names;
    } else {
      assert stack + [] == stack;
    }
  }

  /** From the root nothing but names survives. */
  lemma {:induction false} RootedResolvesToNames(parts: seq<string>, stack: seq<string>)
    requires Names(stack) && forall p | p in parts :: '/' !in p
    ensures Names(Resolve(parts, stack, true))
    decreases |parts|
  {
    if parts == [] {
    } else {
      var first, rest := parts[0], parts[1..];
      assert first in parts && forall p | p in rest :: p in parts;
      if first == "" || first == "." {
        RootedResolvesToNames(rest, stack);
      } else if first == ".." {
        if stack != [] && stack[|stack| - 1] != ".." {
          assert forall p | p in stack[..|stack| - 1] :: p in stack;
          RootedResolvesToNames(rest, stack[..|stack| - 1]);
        } else {
          RootedResolvesToNames(rest, stack);
        }
      } else {
        RootedResolvesToNames(rest, stack + [first]);
      }
    }
  }

  /** Resolved parts never contain a slash. */
  lemma {:induction false} ResolvedPartsAreFlat(parts: seq<string>, stack: seq<string>, rooted: bool)
    requires (forall p | p in stack :: '/' !in p && p != "" && p != ".") && forall p | p in parts :: '/' !in p
    ensures forall p | p in Resolve(parts, stack, rooted) :: '/' !in p && p != "" && p != "."
    decreases |parts|
  {
    if parts == [] {
    } else {
      var first, rest := parts[0], parts[1..];
      assert first in parts && forall p | p in rest :: p in parts;
      if first == "" || first == "." {
        ResolvedPartsAreFlat(rest, stack, rooted);
      } else if first == ".." {
        if stack != [] && stack[|stack| - 1] != ".." {
          assert forall p | p in stack[..|stack| - 1] :: p in stack;
          ResolvedPartsAreFlat(rest, stack[..|stack| - 1], rooted);
        } else if rooted {
          ResolvedPartsAreFlat(rest, stack, rooted);
        } else {
          ResolvedPartsAreFlat(rest, stack + [".."], rooted);
        }
      } else {
        ResolvedPartsAreFlat(rest, stack + [first], rooted);
      }
    }
  }

  /** A name followed by ".." is as if neither were there. */
  lemma DotDotUndoesAName(before: seq<string>, name: string, after: seq<string>, rooted: bool)
    requires Name(name)
    ensures Resolve(before + [name, ".."] + after, [], rooted) == Resolve(before + after, [], rooted)
  {
    var stack := Resolve(before, [], rooted);
    var pair := [name, ".."];
    assert before + pair + after == before + (pair + after);
    ResolveConcat(before, pair + after, [], rooted);
    ResolveConcat(pair, after, stack, rooted);
    ResolveConcat(before, after, [], rooted);
    assert pair[1..] == [".."] && pair[1..][1..] == [];
    assert (stack + [name])[..|stack|] == stack;
  }

  /** A ".." with nothing before it is lost at the root and stays elsewhere. */
  lemma LeadingDotDot(names: seq<string>)
    requires Names(names)
    ensures Resolve([".."] + names, [], true) == names
    ensures Resolve([".."] + names, [], false) == [".."] + names
    ensures Clean(Slashed([".."] + names)) == Slashed([".."] + names)
  {
    var parts := [".."] + names;
    assert parts[1..] == names;
    ResolveNames(names, [], true);
    ResolveNames(names, [".."], false);
    assert [] + names == names && [] + [".."] == [".."];
    SplitUndoesJoin(parts, '/');
    assert Slashed(parts)[0] == '.';
  }

  // ---------- safeJoin ----------

  /** The parts of an archive entry, seen from the root. */
  function EntryParts(rel: string): seq<string> {
    Parts("/" + rel)
  }

  lemma EntryPartsAreNames(rel: string)
    ensures Names(EntryParts(rel))
    ensures Clean("/" + rel) == "/" + Slashed(EntryParts(rel))
  {
    SplitParts("/" + rel, '/');
    RootedResolvesToNames(Split("/" + rel), []);
  }

  /** A cleaned entry appends its own names to the parts of the root. */
  lemma PartsOfJoined(root: string, names: seq<string>)
    requires root != "" && Names(names)
    ensures Parts(root + "/" + ("/" + Slashed(names))) == Parts(root) + names
    ensures Rooted(root + "/" + ("/" + Slashed(names))) == Rooted(root)
  {
    var tail := "/" + Slashed(names);
    SplitAcross(root, '/', tail);
    SplitAcross("", '/', Slashed(names));
    assert tail == "" + "/" + Slashed(names);
    ResolveConcat(Split(root), Split(tail), [], Rooted(root));
    if names != [] {
      SplitUndoesJoin(names, '/');
      assert Split(tail) == [""] + names;
      assert Split(tail)[1..] == names;
      ResolveNames(names, Parts(root), Rooted(root));
    } else {
      assert Split(tail) == ["", ""];
      assert Split(tail)[1..] == [""] && [""][1..] == [];
    }
  }

  predicate Usable(root: string) {
    Clean(root) != "/" && Clean(root) != "."
  }

  lemma UsableRoots(root: string)
    ensures Usable(root) <==> Parts(root) != []
  {
    SplitParts(root, '/');
    ResolvedPartsAreFlat(Split(root), [], Rooted(root));
    var ps := Parts(root);
    if ps != [] {
      assert ps[0] in ps;
      if |ps| > 1 {
        assert '/' in Slashed(ps) by { assert Slashed(ps)[|ps[0]|] == '/'; }
      }
    }
  }

  lemma SlashedStart(names: seq<string>)
    requires names != [] && forall p | p in names :: '/' !in p && p != "" && p != "."
    ensures var s := Slashed(names); s != "" && s[0] != '/' && !("./" <= s)
  {
    var s, first := Slashed(names), names[0];
    assert first in names;
    assert s[..|first|] == first;
    assert s[0] == first[0];
    if |first| == 1 {
      assert first == [first[0]];
      assert first[0] != '.';
    } else {
      assert s[1] == first[1];
    }
  }

  /** A joined path, spelled out. */
  lemma JoinedPath(root: string, rel: string)
    requires Usable(root) && EntryParts(rel) != []
    ensures JoinPath(root, Clean("/" + rel)) == Clean(root) + "/" + Slashed(EntryParts(rel))
  {
    var names := EntryParts(rel);
    EntryPartsAreNames(rel);
    UsableRoots(root);
    PartsOfJoined(root, names);
    JoinConcat(Parts(root), names, '/');
  }

  /** `safeJoin` accepts an entry exactly when it names something below the root, and
      then lands strictly below it; roots that clean to "/" or "." accept nothing. */
  lemma SafeJoinIsExact(root: string, rel: string)
    ensures SafeJoin(root, rel).Ok? <==> Usable(root) && EntryParts(rel) != []
    ensures SafeJoin(root, rel).Ok? ==>
              && SafeJoin(root, rel).value == Clean(root) + "/" + Slashed(EntryParts(rel))
              && Names(EntryParts(rel))
  {
    var names := EntryParts(rel);
    EntryPartsAreNames(rel);
    UsableRoots(root);
    var joined := JoinPath(root, Clean("/" + rel));
    if Usable(root) && names != [] {
      JoinedPath(root, rel);
    } else if names == [] {
      if root != "" {
        PartsOfJoined(root, []);
        assert Parts(root) + [] == Parts(root);
        assert joined == Clean(root);
      } else {
        EmptyRoot(names);
      }
    } else if root == "" {
      EmptyRoot(names);
    } else {
      PartsOfJoined(root, names);
      assert Parts(root) + names == names;
      SlashedStart(names);
      if Rooted(root) {
        assert joined == "/" + Slashed(names) && joined[1] != '/';
      } else {
        assert joined == Slashed(names);
      }
    }
  }

  lemma EmptyRoot(names: seq<string>)
    requires Names(names)
    ensures Clean("") == "."
    ensures !("./" <= JoinPath("", "/" + Slashed(names)))
  {
    var path := "/" + Slashed(names);
    assert Rooted(path) && JoinPath("", path) == "/" + Slashed(Parts(path));
    assert JoinPath("", path)[0] == '/';
  }

  /** A path of plain names is kept as it is. */
  lemma SafeJoinOfNames(root: string, names: seq<string>)
    requires Usable(root) && names != [] && Names(names)
    ensures SafeJoin(root, Slashed(names)) == Ok(Clean(root) + "/" + Slashed(names))
  {
    assert "/" + Slashed(names) == "" + "/" + Slashed(names);
    SplitAcross("", '/', Slashed(names));
    SplitUndoesJoin(names, '/');
    assert Split("/" + Slashed(names)) == [""] + names;
    assert ([""] + names)[1..] == names;
    ResolveNames(names, [], true);
    assert [] + names == names;
    SafeJoinIsExact(root, Slashed(names));
  }

  /** Empty parts and "." are as if they were not there. */
  lemma DotsVanish(before: seq<string>, dot: string, after: seq<string>, rooted: bool)
    requires dot in {"", "."}
    ensures Resolve(before + [dot] + after, [], rooted) == Resolve(before + after, [], rooted)
  {
    var stack := Resolve(before, [], rooted);
    assert before + [dot] + after == before + ([dot] + after) && ([dot] + after)[1..] == after;
    ResolveConcat(before, [dot] + after, [], rooted);
    ResolveConcat(before, after, [], rooted);
  }
}
