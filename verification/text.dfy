/** White space and words, as the standard string functions see them. */
module Text {
  /** Unicode white space. */
  predicate Space(c: char) {
    || c in {' ', '\t', '\n', '\r', '\U{000B}', '\U{000C}', '\U{0085}', '\U{00A0}', '\U{1680}'}
    || '\U{2000}' <= c <= '\U{200A}'
    || c in {'\U{2028}', '\U{2029}', '\U{202F}', '\U{205F}', '\U{3000}'}
  }

  function TrimLeft(s: string): (r: string)
    ensures |r| <= |s|
  {
    if s != "" && Space(s[0]) then TrimLeft(s[1..]) else s
  }

  function TrimRight(s: string): (r: string)
    ensures |r| <= |s|
  {
    if s != "" && Space(s[|s| - 1]) then TrimRight(s[..|s| - 1]) else s
  }

  function Trim(s: string): string {
    TrimRight(TrimLeft(s))
  }

  predicate Trimmed(s: string) {
    s == "" || (!Space(s[0]) && !Space(s[|s| - 1]))
  }

  predicate Word(s: string) {
    s != "" && forall i | 0 <= i < |s| :: !Space(s[i])
  }

  function WordLength(s: string): (n: nat)
    ensures n <= |s|
    ensures forall i | 0 <= i < n :: !Space(s[i])
    ensures n < |s| ==> Space(s[n])
  {
    if s == "" || Space(s[0]) then 0 else 1 + WordLength(s[1..])
  }

  /** The maximal runs of non-space characters. */
  function Fields(s: string): (words: seq<string>)
    ensures forall w | w in words :: Word(w)
    decreases |s|
  {
    if s == "" then []
    else if Space(s[0]) then Fields(s[1..])
    else [s[..WordLength(s)]] + Fields(s[WordLength(s)..])
  }

  lemma {:induction false} WordLengthOfWord(w: string, rest: string)
    requires forall i | 0 <= i < |w| :: !Space(w[i])
    requires rest == "" || Space(rest[0])
    ensures WordLength(w + rest) == |w|
  {
    if w == "" {
      assert w + rest == rest;
    } else {
      assert (w + rest)[1..] == w[1..] + rest;
      WordLengthOfWord(w[1..], rest);
    }
  }

  lemma {:induction false} FieldsAcrossSpace(a: string, c: char, b: string)
    requires Space(c)
    ensures Fields(a + [c] + b) == Fields(a) + Fields(b)
    decreases |a|
  {
    var s := a + [c] + b;
    if a == "" {
      assert s[1..] == b;
      assert [] + Fields(b) == Fields(b);
    } else if Space(a[0]) {
      assert s[1..] == a[1..] + [c] + b;
      FieldsAcrossSpace(a[1..], c, b);
    } else {
      var n := WordLength(a);
      assert a == a[..n] + a[n..];
      assert s == a[..n] + (a[n..] + [c] + b);
      WordLengthOfWord(a[..n], a[n..] + [c] + b);
      assert s[..n] == a[..n] && s[n..] == a[n..] + [c] + b;
      FieldsAcrossSpace(a[n..], c, b);
      assert [a[..n]] + (Fields(a[n..]) + Fields(b)) == Fields(a) + Fields(b);
    }
  }

  lemma FieldsOfWord(w: string)
    requires Word(w)
    ensures Fields(w) == [w]
  {
    assert w + "" == w;
    WordLengthOfWord(w, "");
    assert w[..|w|] == w && w[|w|..] == "";
  }

  // ---------- splitting and joining ----------

  /** Index of the first `c`, or the length. */
  function Index(s: string, c: char): (n: nat)
    ensures n <= |s| && c !in s[..n]
    ensures n < |s| ==> s[n] == c
  {
    if s == "" || s[0] == c then 0 else 1 + Index(s[1..], c)
  }

  lemma {:induction false} IndexAfter(a: string, c: char, rest: string)
    requires c !in a && rest != "" && rest[0] == c
    ensures Index(a + rest, c) == |a|
    decreases a
  {
    if a == "" {
      assert a + rest == rest;
    } else {
      assert (a + rest)[1..] == a[1..] + rest;
      IndexAfter(a[1..], c, rest);
    }
  }

  /** Puts one character in front of the first piece. */
  function Prepend(first: char, parts: seq<string>): seq<string>
    requires parts != []
  {
    [[first] + parts[0]] + parts[1..]
  }

  /** The pieces between the separators; there is always at least one. */
  function SplitOn(s: string, c: char): (parts: seq<string>)
    ensures parts != []
  {
    if s == "" then [""]
    else if s[0] == c then [""] + SplitOn(s[1..], c)
    else Prepend(s[0], SplitOn(s[1..], c))
  }

  lemma {:induction false} SplitParts(s: string, c: char)
    ensures forall p | p in SplitOn(s, c) :: c !in p
    ensures c !in s ==> SplitOn(s, c) == [s]
  {
    if s == "" {
    } else {
      SplitParts(s[1..], c);
      assert [s[0]] + s[1..] == s;
    }
  }

  lemma PrependConcat(first: char, x: seq<string>, y: seq<string>)
    requires x != []
    ensures Prepend(first, x + y) == Prepend(first, x) + y
  {
  }

  function Join(parts: seq<string>, c: char): string {
    if parts == [] then ""
    else if |parts| == 1 then parts[0]
    else parts[0] + [c] + Join(parts[1..], c)
  }

  lemma SplitCons(s: string, first: char, rest: string, c: char)
    requires s == [first] + rest
    ensures SplitOn(s, c) == if first == c then [""] + SplitOn(rest, c) else Prepend(first, SplitOn(rest, c))
  {
    assert s[1..] == rest;
  }

  lemma {:induction false} SplitAcross(a: string, c: char, b: string)
    ensures SplitOn(a + [c] + b, c) == SplitOn(a, c) + SplitOn(b, c)
    decreases |a|
  {
    if a == "" {
      SplitCons(a + [c] + b, c, b, c);
    } else {
      var rest := a[1..] + [c] + b;
      SplitAcross(a[1..], c, b);
      SplitCons(a, a[0], a[1..], c);
      SplitCons(a + [c] + b, a[0], rest, c);
      if a[0] == c {
        assert [""] + (SplitOn(a[1..], c) + SplitOn(b, c)) == [""] + SplitOn(a[1..], c) + SplitOn(b, c);
      } else {
        PrependConcat(a[0], SplitOn(a[1..], c), SplitOn(b, c));
      }
    }
  }

  lemma {:induction false} SplitUndoesJoin(parts: seq<string>, c: char)
    requires parts != [] && forall p | p in parts :: c !in p
    ensures SplitOn(Join(parts, c), c) == parts
  {
    assert parts[0] in parts && parts == [parts[0]] + parts[1..];
    SplitParts(parts[0], c);
    if |parts| <= 1 {
    } else {
      assert forall p | p in parts[1..] :: p in parts;
      SplitUndoesJoin(parts[1..], c);
      SplitAcross(parts[0], c, Join(parts[1..], c));
    }
  }

  lemma {:induction false} JoinConcat(a: seq<string>, b: seq<string>, c: char)
    requires a != [] && b != []
    ensures Join(a + b, c) == Join(a, c) + [c] + Join(b, c)
  {
    if |a| == 1 {
      assert (a + b)[1..] == b;
    } else {
      assert (a + b)[1..] == a[1..] + b;
      JoinConcat(a[1..], b, c);
    }
  }

  lemma {:induction false} JoinUndoesSplit(s: string, c: char)
    ensures Join(SplitOn(s, c), c) == s
  {
    if s == "" {
    } else {
      JoinUndoesSplit(s[1..], c);
      assert [s[0]] + s[1..] == s;
    }
  }

  // ---------- byte order and sorting ----------

  /** Byte order of strings. */
  predicate Before(a: string, b: string)
    decreases |a|
  {
    if a == [] then b != []
    else b != [] && (a[0] < b[0] || (a[0] == b[0] && Before(a[1..], b[1..])))
  }

  lemma {:induction false} BeforeIsAsymmetric(a: string, b: string)
    requires Before(a, b)
    ensures !Before(b, a)
  {
    if a == [] || a[0] != b[0] {
    } else {
      BeforeIsAsymmetric(a[1..], b[1..]);
    }
  }

  lemma {:induction false} BeforeIsTotal(a: string, b: string)
    ensures Before(a, b) || a == b || Before(b, a)
  {
    if a == [] || b == [] || a[0] != b[0] {
    } else {
      BeforeIsTotal(a[1..], b[1..]);
      assert a == [a[0]] + a[1..] && b == [b[0]] + b[1..];
    }
  }

  lemma {:induction false} BeforeIsTransitive(a: string, b: string, c: string)
    requires Before(a, b) && Before(b, c)
    ensures Before(a, c)
  {
    if a == [] || a[0] != b[0] || b[0] != c[0] {
    } else {
      BeforeIsTransitive(a[1..], b[1..], c[1..]);
    }
  }

  /** Each name comes before all that follow. */
  predicate Increasing(names: seq<string>) {
    names == [] || ((forall n | n in names[1..] :: Before(names[0], n)) && Increasing(names[1..]))
  }

  predicate Distinct(names: seq<string>) {
    forall i, j | 0 <= i < j < |names| :: names[i] != names[j]
  }

  function Insert(name: string, names: seq<string>): (r: seq<string>)
    ensures forall n :: n in r <==> n == name || n in names
  {
    if names == [] || Before(name, names[0]) then [name] + names
    else
      assert names == [names[0]] + names[1..];
      [names[0]] + Insert(name, names[1..])
  }

  /** The library's sort, as far as distinct names can tell. */
  function Sort(names: seq<string>): (r: seq<string>)
    ensures forall n :: n in r <==> n in names
  {
    if names == [] then []
    else
      assert names == [names[0]] + names[1..];
      Insert(names[0], Sort(names[1..]))
  }

  lemma IncreasingCons(first: string, rest: seq<string>)
    ensures Increasing([first] + rest) <==> Increasing(rest) && forall n | n in rest :: Before(first, n)
  {
    assert ([first] + rest)[1..] == rest;
  }

  lemma {:induction false} InsertSorts(name: string, names: seq<string>)
    requires Increasing(names) && name !in names
    ensures Increasing(Insert(name, names))
  {
    if names == [] {
    } else {
      var first, rest := names[0], names[1..];
      assert names == [first] + rest;
      IncreasingCons(first, rest);
      BeforeIsTotal(name, first);
      if Before(name, first) {
        forall n | n in names
          ensures Before(name, n)
        {
          if n != first {
            BeforeIsTransitive(name, first, n);
          }
        }
        IncreasingCons(name, names);
      } else {
        InsertSorts(name, rest);
        IncreasingCons(first, Insert(name, rest));
      }
    }
  }

  lemma {:induction false} SortSorts(names: seq<string>)
    requires Distinct(names)
    ensures Increasing(Sort(names))
  {
    if names == [] {
    } else {
      SortSorts(names[1..]);
      InsertSorts(names[0], Sort(names[1..]));
    }
  }

  lemma FirstIsLeast(names: seq<string>, n: string)
    requires Increasing(names) && n in names
    ensures n == names[0] || (Before(names[0], n) && !Before(n, names[0]))
    ensures names[0] !in names[1..]
  {
    assert names == [names[0]] + names[1..];
    if n != names[0] {
      BeforeIsAsymmetric(names[0], n);
    }
    if names[0] in names[1..] {
      BeforeIsAsymmetric(names[0], names[0]);
    }
  }

  lemma {:induction false} IncreasingNamesAreDistinct(names: seq<string>)
    requires Increasing(names)
    ensures Distinct(names)
  {
    if names == [] {
    } else {
      FirstIsLeast(names, names[0]);
      IncreasingNamesAreDistinct(names[1..]);
      assert names == [names[0]] + names[1..];
    }
  }

  lemma SomeName(names: seq<string>)
    requires names != []
    ensures exists n :: n in names
  {
    assert names[0] in names;
  }

  /** There is one way to put names in order. */
  lemma {:induction false} OneOrder(a: seq<string>, b: seq<string>)
    requires Increasing(a) && Increasing(b) && forall n :: n in a <==> n in b
    ensures a == b
  {
    if a == [] {
      if b != [] {
        SomeName(b);
      }
    } else {
      SomeName(a);
      FirstIsLeast(a, b[0]);
      FirstIsLeast(b, a[0]);
      assert a == [a[0]] + a[1..] && b == [b[0]] + b[1..];
      assert forall n :: n in a[1..] <==> n in a && n != a[0];
      assert forall n :: n in b[1..] <==> n in b && n != b[0];
      OneOrder(a[1..], b[1..]);
    }
  }

  // ---------- white space in ASCII ----------

  /** Tab, newline, vertical tab, form feed, carriage return and the space. */
  lemma AsciiSpace(c: char)
    requires c as int < 128
    ensures Space(c) <==> c as int == 32 || 9 <= c as int <= 13
  {
  }
}
