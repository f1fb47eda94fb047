/** `wrapText` of cmd/warmblyctl/checks.go: greedy line filling, and why no other split
    of the words needs fewer lines. */
module WrapText {
  import opened Text
  import opened Percent

  /** Lines are measured in bytes. */
  function Width(words: seq<string>): nat {
    Size(Join(words, ' '))
  }

  lemma WidthConcat(a: seq<string>, b: seq<string>)
    requires a != [] && b != []
    ensures Width(a + b) == Width(a) + 1 + Width(b)
  {
    JoinConcat(a, b, ' ');
    SizeConcat(Join(a, ' ') + [' '], Join(b, ' '));
    SizeConcat(Join(a, ' '), [' ']);
    assert Size([' ']) == 1 + Size([' '][1..]);
  }

  function Flatten(lines: seq<seq<string>>): seq<string> {
    if lines == [] then [] else lines[0] + Flatten(lines[1..])
  }

  /** The rule: a line fits, or is one word. */
  predicate Legal(line: seq<string>, width: int) {
    line != [] && (|line| == 1 || Width(line) <= width)
  }

  /** A way to break the words into lines. */
  predicate Layout(lines: seq<seq<string>>, words: seq<string>, width: int) {
    Flatten(lines) == words && forall i | 0 <= i < |lines| :: Legal(lines[i], width)
  }

  /** How many words the first line takes, once it has `n`. */
  function Fill(words: seq<string>, n: nat, width: int): (m: nat)
    requires 1 <= n <= |words|
    ensures n <= m <= |words|
    decreases |words| - n
  {
    if n < |words| && Width(words[..n]) + 1 + Size(words[n]) <= width then Fill(words, n + 1, width) else n
  }

  function Greedy(words: seq<string>, width: int): seq<seq<string>> {
    if words == [] then []
    else
      var m := Fill(words, 1, width);
      [words[..m]] + Greedy(words[m..], width)
  }

  function Lines(layout: seq<seq<string>>): seq<string> {
    if layout == [] then [] else [Join(layout[0], ' ')] + Lines(layout[1..])
  }

  lemma {:induction false} LinesOneMore(layout: seq<seq<string>>, line: seq<string>)
    ensures Lines(layout + [line]) == Lines(layout) + [Join(line, ' ')]
  {
    if layout == [] {
      assert layout + [line] == [line] && [line][1..] == [];
    } else {
      assert (layout + [line])[1..] == layout[1..] + [line];
      LinesOneMore(layout[1..], line);
    }
  }

  /** The loop has closed the lines of `done` and is filling words[start..i]. */
  ghost predicate Filling(words: seq<string>, width: int, done: seq<seq<string>>, start: nat, i: nat) {
    && start < i <= |words|
    && Greedy(words, width) == done + Greedy(words[start..], width)
    && Fill(words[start..], i - start, width) == Fill(words[start..], 1, width)
  }

  /** A full line is the next greedy line. */
  lemma FullLine(words: seq<string>, width: int, start: nat, i: nat)
    requires start < i <= |words| && Fill(words[start..], i - start, width) == Fill(words[start..], 1, width)
    requires i < |words| ==> Width(words[start..i]) + 1 + Size(words[i]) > width
    ensures Greedy(words[start..], width) == [words[start..i]] + Greedy(words[i..], width)
  {
    var left := words[start..];
    assert left[..i - start] == words[start..i] && left[i - start..] == words[i..];
    assert Fill(left, 1, width) == i - start;
  }

  lemma LineClosed(words: seq<string>, width: int, done: seq<seq<string>>, start: nat, i: nat)
    requires Filling(words, width, done, start, i)
    requires i < |words| ==> Width(words[start..i]) + 1 + Size(words[i]) > width
    ensures Greedy(words, width) == done + [words[start..i]] + Greedy(words[i..], width)
  {
    FullLine(words, width, start, i);
    Regroup(done, [words[start..i]], Greedy(words[i..], width));
  }

  lemma Regroup(a: seq<seq<string>>, b: seq<seq<string>>, c: seq<seq<string>>)
    ensures a + (b + c) == a + b + c
  {
  }

  lemma LastLine(words: seq<string>, width: int, done: seq<seq<string>>, start: nat)
    requires Filling(words, width, done, start, |words|)
    ensures Greedy(words, width) == done + [words[start..]]
    ensures Lines(Greedy(words, width)) == Lines(done) + [Join(words[start..], ' ')]
  {
    LineClosed(words, width, done, start, |words|);
    assert words[start..|words|] == words[start..] && words[|words|..] == [];
    LinesOneMore(done, words[start..]);
  }

  lemma CloseLine(words: seq<string>, width: int, done: seq<seq<string>>, start: nat, i: nat)
    requires Filling(words, width, done, start, i) && i < |words|
    requires Width(words[start..i]) + 1 + Size(words[i]) > width
    ensures Filling(words, width, done + [words[start..i]], i, i + 1)
    ensures Join(words[i..i + 1], ' ') == words[i]
    ensures Lines(done + [words[start..i]]) == Lines(done) + [Join(words[start..i], ' ')]
  {
    LineClosed(words, width, done, start, i);
    LinesOneMore(done, words[start..i]);
    assert words[i..i + 1] == [words[i]];
  }

  lemma GrowLine(words: seq<string>, width: int, done: seq<seq<string>>, start: nat, i: nat)
    requires Filling(words, width, done, start, i) && i < |words|
    requires Width(words[start..i]) + 1 + Size(words[i]) <= width
    ensures Filling(words, width, done, start, i + 1)
    ensures Join(words[start..i + 1], ' ') == Join(words[start..i], ' ') + " " + words[i]
  {
    var left := words[start..];
    assert left[..i - start] == words[start..i];
    JoinConcat(words[start..i], [words[i]], ' ');
    assert words[start..i] + [words[i]] == words[start..i + 1];
  }

  lemma FirstWord(words: seq<string>, width: int)
    requires words != []
    ensures Filling(words, width, [], 0, 1) && Join(words[0..1], ' ') == words[0]
  {
    assert words[0..] == words && [] + Greedy(words, width) == Greedy(words, width);
    assert words[0..1] == [words[0]];
  }

  method WrapText(text: string, width: int) returns (lines: seq<string>)
    ensures lines == Lines(Greedy(Fields(text), width))
  {
    var words := Fields(text);
    if words == [] {
      return [];
    }
    lines := FillLines(words, width);
  }

  /** The lines closed so far, and the one being filled. */
  ghost predicate Written(words: seq<string>, width: int, done: seq<seq<string>>, start: nat, i: nat,
                          lines: seq<string>, line: string)
  {
    Filling(words, width, done, start, i) && lines == Lines(done) && line == Join(words[start..i], ' ')
  }

  lemma LastWritten(words: seq<string>, width: int, done: seq<seq<string>>, start: nat,
                    lines: seq<string>, line: string)
    requires Written(words, width, done, start, |words|, lines, line)
    ensures lines + [line] == Lines(Greedy(words, width))
  {
    LastLine(words, width, done, start);
    assert words[start..|words|] == words[start..];
  }

  method AddWord(words: seq<string>, width: int, ghost done: seq<seq<string>>, ghost start: nat, i: nat,
                 lines: seq<string>, line: string)
      returns (more: seq<string>, next: string, ghost closed: seq<seq<string>>, ghost from: nat)
    requires Written(words, width, done, start, i, lines, line) && i < |words|
    ensures Written(words, width, closed, from, i + 1, more, next)
  {
    var word := words[i];
    if Size(line) + 1 + Size(word) > width {
      CloseLine(words, width, done, start, i);
      more, next, closed, from := lines + [line], word, done + [words[start..i]], i;
    } else {
      GrowLine(words, width, done, start, i);
      more, next, closed, from := lines, line + " " + word, done, start;
    }
  }

  method FillLines(words: seq<string>, width: int) returns (lines: seq<string>)
    requires words != []
    ensures lines == Lines(Greedy(words, width))
  {
    lines := [];
    var line := words[0];
    ghost var done: seq<seq<string>> := [];
    ghost var start := 0;
    FirstWord(words, width);
    for i := 1 to |words|
      invariant Written(words, width, done, start, i, lines, line)
    {
      lines, line, done, start := AddWord(words, width, done, start, i, lines, line);
    }
    LastWritten(words, width, done, start, lines, line);
    lines := lines + [line];
  }

  // ---------- the layout is legal and keeps the words ----------

  lemma {:induction false} FillFits(words: seq<string>, n: nat, width: int)
    requires 1 <= n <= |words| && Legal(words[..n], width)
    ensures Legal(words[..Fill(words, n, width)], width)
    decreases |words| - n
  {
    if n < |words| && Width(words[..n]) + 1 + Size(words[n]) <= width {
      assert words[..n] + [words[n]] == words[..n + 1];
      WidthConcat(words[..n], [words[n]]);
      FillFits(words, n + 1, width);
    }
  }

  lemma {:induction false} GreedyIsLayout(words: seq<string>, width: int)
    ensures Layout(Greedy(words, width), words, width)
  {
    if words == [] {
    } else {
      var m := Fill(words, 1, width);
      FillFits(words, 1, width);
      GreedyIsLayout(words[m..], width);
      var g := Greedy(words, width);
      assert g[1..] == Greedy(words[m..], width);
      assert words == words[..m] + words[m..];
    }
  }

  // ---------- no layout is shorter ----------

  lemma {:induction false} PrefixIsNarrower(words: seq<string>, n: nat)
    requires n <= |words|
    ensures Width(words[..n]) <= Width(words)
    decreases |words|
  {
    if n < |words| {
      var k := |words| - 1;
      assert words == words[..k] + [words[k]];
      if k > 0 {
        WidthConcat(words[..k], [words[k]]);
      }
      assert words[..k][..n] == words[..n];
      PrefixIsNarrower(words[..k], n);
    } else {
      assert words[..n] == words;
    }
  }

  lemma {:induction false} SuffixIsNarrower(words: seq<string>, n: nat)
    requires n <= |words|
    ensures Width(words[n..]) <= Width(words)
    decreases n
  {
    if n == 0 {
      assert words[0..] == words;
    } else {
      assert words[1..][n - 1..] == words[n..];
      if |words| > 1 {
        assert words == [words[0]] + words[1..];
        WidthConcat([words[0]], words[1..]);
      }
      SuffixIsNarrower(words[1..], n - 1);
    }
  }

  /** Whatever fits a first line, the greedy first line takes at least as much. */
  lemma {:induction false} FillIsLongest(words: seq<string>, n: nat, k: nat, width: int)
    requires 1 <= n <= k <= |words| && Legal(words[..k], width)
    ensures k <= Fill(words, n, width)
    decreases k - n
  {
    if n < k {
      assert words[..k][..n + 1] == words[..n + 1] == words[..n] + [words[n]];
      WidthConcat(words[..n], [words[n]]);
      PrefixIsNarrower(words[..k], n + 1);
      FillIsLongest(words, n + 1, k, width);
    }
  }

  /** Leaving out leading words never needs more lines. */
  lemma {:induction false} DropLeading(lines: seq<seq<string>>, words: seq<string>, width: int, n: nat)
    returns (rest: seq<seq<string>>)
    requires Layout(lines, words, width) && n <= |words|
    ensures Layout(rest, words[n..], width) && |rest| <= |lines|
    decreases lines
  {
    if lines == [] || n == 0 {
      assert words[n..] == words;
      return lines;
    }
    var first := lines[0];
    assert words == first + Flatten(lines[1..]);
    if n < |first| {
      SuffixIsNarrower(first, n);
      rest := [first[n..]] + lines[1..];
      assert rest[1..] == lines[1..];
      assert words[n..] == first[n..] + Flatten(lines[1..]);
    } else {
      assert Layout(lines[1..], Flatten(lines[1..]), width);
      rest := DropLeading(lines[1..], Flatten(lines[1..]), width, n - |first|);
      assert words[n..] == Flatten(lines[1..])[n - |first|..];
    }
  }

  /** No way to break the words by the same rule uses fewer lines. */
  lemma {:induction false} GreedyIsOptimal(words: seq<string>, width: int, lines: seq<seq<string>>)
    requires Layout(lines, words, width)
    ensures |Greedy(words, width)| <= |lines|
    decreases |words|
  {
    if words == [] {
    } else {
      assert lines != [];
      var first := lines[0];
      var m := Fill(words, 1, width);
      assert words[..|first|] == first;
      FillIsLongest(words, 1, |first|, width);
      assert Layout(lines[1..], words[|first|..], width);
      var rest := DropLeading(lines[1..], words[|first|..], width, m - |first|);
      assert words[|first|..][m - |first|..] == words[m..];
      GreedyIsOptimal(words[m..], width, rest);
    }
  }

  // ---------- the text keeps its words ----------

  lemma {:induction false} FieldsOfJoin(words: seq<string>, c: char)
    requires Space(c) && forall w | w in words :: Word(w)
    ensures Fields(Join(words, c)) == words
  {
    if |words| == 1 {
      FieldsOfWord(words[0]);
    } else if |words| > 1 {
      FieldsOfWord(words[0]);
      FieldsOfJoin(words[1..], c);
      FieldsAcrossSpace(words[0], c, Join(words[1..], c));
      assert words == [words[0]] + words[1..];
    }
  }

  lemma {:induction false} FieldsOfLines(layout: seq<seq<string>>, c: char)
    requires Space(c) && forall w | w in Flatten(layout) :: Word(w)
    ensures Fields(Join(Lines(layout), c)) == Flatten(layout)
  {
    if layout == [] {
    } else {
      assert forall w | w in layout[0] :: w in Flatten(layout);
      FieldsOfJoin(layout[0], ' ');
      assert Lines(layout)[1..] == Lines(layout[1..]);
      if |layout| == 1 {
        assert layout[1..] == [] && Flatten(layout) == layout[0] + [];
      } else {
        FieldsOfLines(layout[1..], c);
        FieldsAcrossSpace(Join(layout[0], ' '), c, Join(Lines(layout[1..]), c));
      }
    }
  }

  /** Printed one per line, the lines hold the words of the text in order. */
  lemma WrappingKeepsTheWords(text: string, width: int)
    ensures Fields(Join(Lines(Greedy(Fields(text), width)), '\n')) == Fields(text)
  {
    GreedyIsLayout(Fields(text), width);
    FieldsOfLines(Greedy(Fields(text), width), '\n');
  }
}
