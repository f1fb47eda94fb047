/** `renderKeys` and `readKeys` of cmd/warmblyctl/backup.go: the instance keys as a text
    file in the bundle. */
module KeysEnv {
  import opened Text

  /** The lines of a text; the text after the last newline is a line too. */
  function Lines(s: string): seq<string> {
    SplitOn(s, '\n')
  }

  function Unlines(lines: seq<string>): string {
    if lines == [] then "" else lines[0] + "\n" + Unlines(lines[1..])
  }

  predicate Ignored(line: string) {
    line == "" || line[0] == '#' || Index(line, '=') == |line|
  }

  function ReadLine(out: map<string, string>, raw: string): map<string, string> {
    var line := Trim(raw);
    if Ignored(line) then out
    else out[Trim(line[..Index(line, '=')]) := Trim(line[Index(line, '=') + 1..])]
  }

  function ReadLines(out: map<string, string>, lines: seq<string>): map<string, string>
    decreases |lines|
  {
    if lines == [] then out else ReadLines(ReadLine(out, lines[0]), lines[1..])
  }

  function Read(text: string): map<string, string> {
    ReadLines(map[], Lines(text))
  }

  /** Every key once. */
  predicate Listing(names: seq<string>, keys: map<string, string>) {
    && (forall n | n in names :: n in keys)
    && (forall k | k in keys :: k in names)
    && Distinct(names)
  }

  /** Every key once, in order. */
  predicate Sorted(names: seq<string>, keys: map<string, string>) {
    Listing(names, keys) && Increasing(names)
  }

  lemma OneSortedListing(a: seq<string>, b: seq<string>, keys: map<string, string>)
    requires Sorted(a, keys) && Sorted(b, keys)
    ensures a == b
  {
    OneOrder(a, b);
  }

  function Entry(k: string, v: string): string {
    k + "=" + v
  }

  function Entries(names: seq<string>, keys: map<string, string>): seq<string>
    requires forall n | n in names :: n in keys
  {
    seq(|names|, i requires 0 <= i < |names| => Entry(names[i], keys[names[i]]))
  }

  function Rendered(header: seq<string>, names: seq<string>, keys: map<string, string>): string
    requires forall n | n in names :: n in keys
  {
    Unlines(header + Entries(names, keys))
  }

  /** Lines the reader skips. */
  predicate Comments(header: seq<string>) {
    forall l | l in header :: l != "" && l[0] == '#' && '\n' !in l
  }

  /** The names in whatever order the map yields them, then sorted. */
  method SortedNames(keys: map<string, string>) returns (names: seq<string>)
    ensures Sorted(names, keys)
  {
    names := [];
    var todo := keys.Keys;
    while todo != {}
      invariant todo <= keys.Keys && Distinct(names)
      invariant forall n :: n in names <==> n in keys && n !in todo
      decreases todo
    {
      var k :| k in todo;
      todo := todo - {k};
      names := names + [k];
    }
    SortSorts(names);
    names := Sort(names);
    IncreasingNamesAreDistinct(names);
  }

  /** The header is two comment lines; their wording does not matter. The text is the same
      for every order of the map. */
  method RenderKeys(header: seq<string>, keys: map<string, string>) returns (text: string)
    ensures forall names | Sorted(names, keys) :: text == Rendered(header, names, keys)
    ensures exists names :: Sorted(names, keys) && text == Rendered(header, names, keys)
  {
    var names := SortedNames(keys);
    text := "";
    for i := 0 to |header|
      invariant text == Unlines(header[..i])
    {
      UnlinesOneMore(header[..i], header[i]);
      assert header[..i + 1] == header[..i] + [header[i]];
      text := text + (header[i] + "\n");
    }
    assert header[..|header|] == header;
    text := AddEntries(header, names, keys, text);
    forall other | Sorted(other, keys)
      ensures text == Rendered(header, other, keys)
    {
      OneSortedListing(other, names, keys);
    }
  }

  lemma EntryAdded(header: seq<string>, names: seq<string>, keys: map<string, string>, i: nat)
    requires (forall n | n in names :: n in keys) && i < |names|
    ensures Unlines(header + Entries(names, keys)[..i + 1]) ==
            Unlines(header + Entries(names, keys)[..i]) + (Entry(names[i], keys[names[i]]) + "\n")
  {
    var entries := Entries(names, keys);
    UnlinesOneMore(header + entries[..i], entries[i]);
    assert header + entries[..i + 1] == header + entries[..i] + [entries[i]];
  }

  method AddEntries(header: seq<string>, names: seq<string>, keys: map<string, string>, top: string)
      returns (text: string)
    requires Listing(names, keys) && top == Unlines(header)
    ensures text == Rendered(header, names, keys)
  {
    text := top;
    ghost var entries := Entries(names, keys);
    assert header + entries[..0] == header;
    for i := 0 to |names|
      invariant text == Unlines(header + entries[..i])
    {
      EntryAdded(header, names, keys, i);
      text := text + (names[i] + "=" + keys[names[i]] + "\n");
    }
    assert entries[..|names|] == entries;
  }

  lemma {:induction false} UnlinesOneMore(lines: seq<string>, l: string)
    ensures Unlines(lines + [l]) == Unlines(lines) + (l + "\n")
  {
    if lines != [] {
      assert (lines + [l])[1..] == lines[1..] + [l];
      UnlinesOneMore(lines[1..], l);
    } else {
      assert [l][1..] == [];
    }
  }

  method ReadKeys(text: string) returns (out: map<string, string>)
    ensures out == Read(text)
  {
    out := map[];
    var lines := Lines(text);
    for i := 0 to |lines|
      invariant ReadLines(map[], lines) == ReadLines(out, lines[i..])
    {
      assert lines[i..][1..] == lines[i + 1..];
      var line := Trim(lines[i]);
      if line == "" || line[0] == '#' {
        continue;
      }
      var n := Index(line, '=');
      if n == |line| {
        continue;
      }
      out := out[Trim(line[..n]) := Trim(line[n + 1..])];
    }
  }

  // ---------- trimming ----------

  lemma {:induction false} TrimLeftTrims(s: string)
    ensures TrimLeft(s) == "" || !Space(TrimLeft(s)[0])
    ensures exists n :: 0 <= n <= |s| && TrimLeft(s) == s[n..]
  {
    if s != "" && Space(s[0]) {
      TrimLeftTrims(s[1..]);
      var n :| 0 <= n <= |s| - 1 && TrimLeft(s[1..]) == s[1..][n..];
      assert s[1..][n..] == s[n + 1..];
    } else {
      assert s == s[0..];
    }
  }

  lemma {:induction false} TrimRightTrims(s: string)
    ensures TrimRight(s) == "" || !Space(TrimRight(s)[|TrimRight(s)| - 1])
    ensures TrimRight(s) == s[..|TrimRight(s)|]
  {
    if s != "" && Space(s[|s| - 1]) {
      TrimRightTrims(s[..|s| - 1]);
    }
  }

  lemma TrimTrims(s: string)
    ensures Trimmed(Trim(s))
    ensures forall c | c in Trim(s) :: c in s
    ensures s != "" && !Space(s[0]) ==> Trim(s) != "" && Trim(s)[0] == s[0]
  {
    TrimLeftTrims(s);
    TrimRightTrims(TrimLeft(s));
    var n :| 0 <= n <= |s| && TrimLeft(s) == s[n..];
    if s != "" && !Space(s[0]) {
      TrimRightKeepsFirst(s);
    }
  }

  lemma {:induction false} TrimRightKeepsFirst(s: string)
    requires s != "" && !Space(s[0])
    ensures TrimRight(s) != "" && TrimRight(s)[0] == s[0]
  {
    if Space(s[|s| - 1]) {
      TrimRightKeepsFirst(s[..|s| - 1]);
    }
  }

  lemma TrimOfTrimmed(s: string)
    requires Trimmed(s)
    ensures Trim(s) == s
  {
  }

  // ---------- what survives the file ----------

  predicate GoodName(k: string) {
    Trimmed(k) && '=' !in k && '\n' !in k && (k == "" || k[0] != '#')
  }

  predicate GoodValue(v: string) {
    Trimmed(v) && '\n' !in v
  }

  predicate Good(keys: map<string, string>) {
    forall k | k in keys :: GoodName(k) && GoodValue(keys[k])
  }

  /** Whatever the text, what is read is trimmed and single-line. */
  lemma ReadLineIsGood(out: map<string, string>, raw: string)
    requires Good(out) && '\n' !in raw
    ensures Good(ReadLine(out, raw))
  {
    var line := Trim(raw);
    TrimTrims(raw);
    if !Ignored(line) {
      var n := Index(line, '=');
      TrimTrims(line[..n]);
      TrimTrims(line[n + 1..]);
    }
  }

  lemma {:induction false} ReadLinesAreGood(out: map<string, string>, lines: seq<string>)
    requires Good(out) && forall l | l in lines :: '\n' !in l
    ensures Good(ReadLines(out, lines))
    decreases |lines|
  {
    if lines == [] {
    } else {
      assert lines[0] in lines;
      ReadLineIsGood(out, lines[0]);
      ReadLinesAreGood(ReadLine(out, lines[0]), lines[1..]);
    }
  }

  lemma {:induction false} LinesOfUnlines(lines: seq<string>)
    requires forall l | l in lines :: '\n' !in l
    ensures Lines(Unlines(lines)) == lines + [""]
  {
    if lines == [] {
    } else {
      var first, rest := lines[0], lines[1..];
      assert first in lines && lines == [first] + rest;
      assert forall l | l in rest :: l in lines;
      LinesOfUnlines(rest);
      SplitParts(first, '\n');
      assert Unlines(lines) == first + ['\n'] + Unlines(rest);
      SplitAcross(first, '\n', Unlines(rest));
    }
  }

  lemma {:induction false} ReadLinesConcat(out: map<string, string>, a: seq<string>, b: seq<string>)
    ensures ReadLines(out, a + b) == ReadLines(ReadLines(out, a), b)
    decreases |a|
  {
    if a == [] {
      assert a + b == b;
    } else {
      assert (a + b)[0] == a[0] && (a + b)[1..] == a[1..] + b;
      ReadLinesConcat(ReadLine(out, a[0]), a[1..], b);
    }
  }

  lemma EntryIsTrimmed(k: string, v: string)
    requires Trimmed(k) && Trimmed(v)
    ensures Trimmed(Entry(k, v))
  {
    var line := Entry(k, v);
    assert line[0] == (if k == "" then '=' else k[0]);
    assert line[|line| - 1] == (if v == "" then '=' else v[|v| - 1]);
  }

  lemma EntryParts(k: string, v: string)
    requires '=' !in k
    ensures var line := Entry(k, v);
            && Index(line, '=') == |k| && |k| < |line|
            && line[..|k|] == k && line[|k| + 1..] == v
            && line[0] == (if k == "" then '=' else k[0])
  {
    assert Entry(k, v) == k + ("=" + v);
    IndexAfter(k, '=', "=" + v);
  }

  lemma EntryIsRead(out: map<string, string>, k: string, v: string)
    requires GoodName(k) && GoodValue(v)
    ensures ReadLine(out, Entry(k, v)) == out[k := v]
  {
    EntryParts(k, v);
    EntryIsTrimmed(k, v);
    TrimOfTrimmed(Entry(k, v));
    TrimOfTrimmed(k);
    TrimOfTrimmed(v);
  }

  lemma EntriesHaveNoNewline(names: seq<string>, keys: map<string, string>)
    requires (forall n | n in names :: n in keys) && Good(keys)
    ensures forall l | l in Entries(names, keys) :: '\n' !in l
  {
    forall l | l in Entries(names, keys)
      ensures '\n' !in l
    {
      var i :| 0 <= i < |names| && l == Entry(names[i], keys[names[i]]);
      assert names[i] in names;
    }
  }

  lemma {:induction false} EntriesAreRead(out: map<string, string>, names: seq<string>, keys: map<string, string>)
    requires (forall n | n in names :: n in keys) && Good(keys)
    ensures ReadLines(out, Entries(names, keys)) == out + map n | n in names :: keys[n]
    decreases |names|
  {
    if names == [] {
    } else {
      assert names[0] in names;
      var next := out[names[0] := keys[names[0]]];
      EntryIsRead(out, names[0], keys[names[0]]);
      EntriesAreRead(next, names[1..], keys);
      assert Entries(names, keys)[1..] == Entries(names[1..], keys);
      EntriesMerge(out, names, keys);
    }
  }

  lemma EntriesMerge(out: map<string, string>, names: seq<string>, keys: map<string, string>)
    requires names != [] && forall n | n in names :: n in keys
    ensures names[0] in names && forall n | n in names[1..] :: n in names
    ensures out[names[0] := keys[names[0]]] + (map n | n in names[1..] :: keys[n]) ==
            out + map n | n in names :: keys[n]
  {
    assert names == [names[0]] + names[1..];
    assert forall n :: n in names <==> n == names[0] || n in names[1..];
  }

  lemma {:induction false} CommentsAreIgnored(out: map<string, string>, header: seq<string>)
    requires Comments(header)
    ensures ReadLines(out, header) == out
    decreases |header|
  {
    if header == [] {
    } else {
      assert header[0] in header;
      TrimTrims(header[0]);
      CommentsAreIgnored(out, header[1..]);
    }
  }

  lemma BlankLineIsIgnored(out: map<string, string>)
    ensures ReadLines(out, [""]) == out
  {
    assert [""][1..] == [];
    assert Trim("") == "";
  }

  lemma LinesOfRendered(header: seq<string>, names: seq<string>, keys: map<string, string>)
    requires Comments(header) && Listing(names, keys) && Good(keys)
    ensures Lines(Rendered(header, names, keys)) == header + Entries(names, keys) + [""]
  {
    EntriesHaveNoNewline(names, keys);
    LinesOfUnlines(header + Entries(names, keys));
  }

  lemma WholeListing(names: seq<string>, keys: map<string, string>)
    requires Listing(names, keys)
    ensures map[] + (map n | n in names :: keys[n]) == keys
  {
  }

  lemma GoodKeysAreReadBack(header: seq<string>, names: seq<string>, keys: map<string, string>)
    requires Comments(header) && Listing(names, keys) && Good(keys)
    ensures Read(Rendered(header, names, keys)) == keys
  {
    var entries := Entries(names, keys);
    LinesOfRendered(header, names, keys);
    ReadLinesConcat(map[], header + entries, [""]);
    ReadLinesConcat(map[], header, entries);
    CommentsAreIgnored(map[], header);
    EntriesAreRead(map[], names, keys);
    WholeListing(names, keys);
    BlankLineIsIgnored(keys);
  }

  /** Reading what was written gives the keys back exactly when every name and value fits
      on its line: trimmed, no newline, and names without '=' or a leading '#'. */
  lemma RoundTripIsExact(header: seq<string>, names: seq<string>, keys: map<string, string>)
    requires Comments(header) && Listing(names, keys)
    ensures Read(Rendered(header, names, keys)) == keys <==> Good(keys)
  {
    if Good(keys) {
      GoodKeysAreReadBack(header, names, keys);
    }
    SplitParts(Rendered(header, names, keys), '\n');
    ReadLinesAreGood(map[], Lines(Rendered(header, names, keys)));
  }

  // ---------- any line ----------

  /** Blank lines, comments and lines without '=' say nothing. */
  lemma SilentLine(out: map<string, string>, raw: string)
    requires Trim(raw) == "" || Trim(raw)[0] == '#' || '=' !in Trim(raw)
    ensures ReadLine(out, raw) == out
  {
    var line := Trim(raw);
    if Index(line, '=') < |line| {
      assert line[Index(line, '=')] in line;
    }
  }

  /** Any other line is cut at its first '=', and both halves are trimmed. */
  lemma SpeakingLine(out: map<string, string>, raw: string, k: string, v: string)
    requires Trim(raw) == k + "=" + v && '=' !in k && (k == "" || k[0] != '#')
    ensures ReadLine(out, raw) == out[Trim(k) := Trim(v)]
  {
    EntryParts(k, v);
  }
}
