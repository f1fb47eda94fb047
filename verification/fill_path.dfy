/** `fillPath` of cmd/cli/resources.go: positional arguments into the {} markers of an
    endpoint path. */
module FillPath {
  import opened Wrappers
  import opened Text
  import opened Percent
  import opened Paths

  datatype Failure = NoMarker | Empty | Unfilled

  function MarkerOf(name: string): string {
    "{" + name + "}"
  }

  // ---------- the string operations ----------

  function Contains(s: string, part: string): bool {
    part <= s || (s != "" && Contains(s[1..], part))
  }

  /** Every occurrence from left to right, without looking at what was put in. */
  function ReplaceAll(s: string, part: string, put: string): string
    requires part != ""
    decreases |s|
  {
    if s == "" then ""
    else if part <= s then put + ReplaceAll(s[|part|..], part, put)
    else [s[0]] + ReplaceAll(s[1..], part, put)
  }

  function FillOne(path: string, name: string, arg: string): Result<string, Failure> {
    if !Contains(path, MarkerOf(name)) then Err(NoMarker)
    else if Trim(arg) == "" then Err(Empty)
    else Ok(ReplaceAll(path, MarkerOf(name), PathEscape(Trim(arg))))
  }

  function FillAll(path: string, names: seq<string>, args: seq<string>): Result<string, Failure>
    requires |names| == |args|
    decreases |names|
  {
    if names == [] then (if '{' in path then Err(Unfilled) else Ok(path))
    else
      var next :- FillOne(path, names[0], args[0]);
      FillAll(next, names[1..], args[1..])
  }

  method Fill(template: string, names: seq<string>, args: seq<string>) returns (r: Result<string, Failure>)
    requires |names| == |args|
    ensures r == FillAll(template, names, args)
  {
    var path := template;
    for i := 0 to |names|
      invariant FillAll(template, names, args) == FillAll(path, names[i..], args[i..])
    {
      assert names[i..][1..] == names[i + 1..] && args[i..][1..] == args[i + 1..];
      var marker := MarkerOf(names[i]);
      if !Contains(path, marker) {
        return Err(NoMarker);
      }
      var value := Trim(args[i]);
      if value == "" {
        return Err(Empty);
      }
      path := ReplaceAll(path, marker, PathEscape(value));
    }
    if '{' in path {
      return Err(Unfilled);
    }
    return Ok(path);
  }

  // ---------- templates ----------

  /** Fixed text without braces, or a marker. */
  datatype Piece = Fixed(text: string) | Marker(name: string)

  predicate Plain(s: string) {
    '{' !in s && '}' !in s
  }

  predicate WellFormed(ps: seq<Piece>) {
    forall p | p in ps :: if p.Fixed? then Plain(p.text) else Plain(p.name)
  }

  function Show(p: Piece): string {
    if p.Fixed? then p.text else MarkerOf(p.name)
  }

  function Render(ps: seq<Piece>): string {
    if ps == [] then "" else Show(ps[0]) + Render(ps[1..])
  }

  function Put(p: Piece, name: string, value: string): Piece {
    if p == Marker(name) then Fixed(value) else p
  }

  function PutAll(ps: seq<Piece>, name: string, value: string): seq<Piece> {
    seq(|ps|, i requires 0 <= i < |ps| => Put(ps[i], name, value))
  }

  lemma {:induction false} SkipPlain(text: string, rest: string, name: string, put: string)
    requires '{' !in text
    ensures Contains(text + rest, MarkerOf(name)) <==> Contains(rest, MarkerOf(name))
    ensures ReplaceAll(text + rest, MarkerOf(name), put) == text + ReplaceAll(rest, MarkerOf(name), put)
    decreases |text|
  {
    var s := text + rest;
    if text == "" {
      assert s == rest;
      assert "" + ReplaceAll(rest, MarkerOf(name), put) == ReplaceAll(rest, MarkerOf(name), put);
    } else {
      assert s[0] == text[0] && s[1..] == text[1..] + rest;
      assert MarkerOf(name)[0] == '{';
      SkipPlain(text[1..], rest, name, put);
      assert [text[0]] + (text[1..] + ReplaceAll(rest, MarkerOf(name), put)) ==
             text + ReplaceAll(rest, MarkerOf(name), put);
    }
  }

  /** One marker is a prefix of a text beginning with another only if they are the same. */
  lemma MarkersDiffer(name: string, other: string, rest: string)
    requires Plain(name) && Plain(other) && MarkerOf(name) <= MarkerOf(other) + rest
    ensures name == other
  {
    var s := MarkerOf(other) + rest;
    var m := MarkerOf(name);
    assert s[..|m|] == m;
    assert m[|name| + 1] == '}' && forall i | 0 <= i <= |name| :: m[i] != '}';
    assert s[|other| + 1] == '}' && forall i | 0 <= i <= |other| :: s[i] != '}';
    assert s[|name| + 1] == '}' && forall i | 0 <= i <= |name| :: s[i] != '}';
    assert |name| == |other|;
    assert name == MarkerOf(name)[1..|name| + 1] == s[1..|name| + 1] == other;
  }

  lemma AtMarker(other: string, rest: string, name: string, put: string)
    requires Plain(name) && Plain(other)
    ensures Contains(MarkerOf(other) + rest, MarkerOf(name)) <==> other == name || Contains(rest, MarkerOf(name))
    ensures ReplaceAll(MarkerOf(other) + rest, MarkerOf(name), put) ==
            (if other == name then put else MarkerOf(other)) + ReplaceAll(rest, MarkerOf(name), put)
  {
    var s := MarkerOf(other) + rest;
    if other == name {
      assert s[|MarkerOf(name)|..] == rest;
    } else {
      if MarkerOf(name) <= s {
        MarkersDiffer(name, other, rest);
      }
      assert s[1..] == (other + "}") + rest;
      SkipPlain(other + "}", rest, name, put);
      assert ['{'] + ((other + "}") + ReplaceAll(rest, MarkerOf(name), put)) ==
             MarkerOf(other) + ReplaceAll(rest, MarkerOf(name), put);
    }
  }

  lemma AtPiece(p: Piece, rest: string, name: string, put: string)
    requires WellFormed([p]) && Plain(name)
    ensures Contains(Show(p) + rest, MarkerOf(name)) <==> p == Marker(name) || Contains(rest, MarkerOf(name))
    ensures ReplaceAll(Show(p) + rest, MarkerOf(name), put) ==
            Show(Put(p, name, put)) + ReplaceAll(rest, MarkerOf(name), put)
  {
    assert p in [p];
    if p.Fixed? {
      SkipPlain(p.text, rest, name, put);
    } else {
      AtMarker(p.name, rest, name, put);
    }
  }

  lemma FirstPiece(ps: seq<Piece>, name: string, put: string)
    requires WellFormed(ps) && ps != []
    ensures WellFormed([ps[0]]) && WellFormed(ps[1..])
    ensures PutAll(ps, name, put) != [] && PutAll(ps, name, put)[0] == Put(ps[0], name, put)
    ensures PutAll(ps, name, put)[1..] == PutAll(ps[1..], name, put)
    ensures Marker(name) in ps <==> ps[0] == Marker(name) || Marker(name) in ps[1..]
  {
    assert ps[0] in ps && ps == [ps[0]] + ps[1..];
    assert forall p | p in ps[1..] :: p in ps;
  }

  /** On a template, replacing a marker text is replacing that marker. */
  lemma {:induction false} ReplaceOnTemplate(ps: seq<Piece>, name: string, put: string)
    requires WellFormed(ps) && Plain(name)
    ensures Contains(Render(ps), MarkerOf(name)) <==> Marker(name) in ps
    ensures ReplaceAll(Render(ps), MarkerOf(name), put) == Render(PutAll(ps, name, put))
    decreases |ps|
  {
    if ps == [] {
    } else {
      FirstPiece(ps, name, put);
      ReplaceOnTemplate(ps[1..], name, put);
      AtPiece(ps[0], Render(ps[1..]), name, put);
    }
  }

  lemma {:induction false} BracesAreMarkers(ps: seq<Piece>)
    requires WellFormed(ps)
    ensures '{' in Render(ps) <==> exists p :: p in ps && p.Marker?
  {
    if ps == [] {
    } else {
      assert ps[0] in ps && ps == [ps[0]] + ps[1..];
      assert forall p | p in ps[1..] :: p in ps;
      BracesAreMarkers(ps[1..]);
      if ps[0].Marker? {
        assert Render(ps)[0] == '{';
      }
    }
  }

  // ---------- simultaneous substitution ----------

  function IndexOf(names: seq<string>, name: string): (i: nat)
    requires name in names
    ensures i < |names| && names[i] == name
  {
    if names[0] == name then 0 else 1 + IndexOf(names[1..], name)
  }

  function Substituted(p: Piece, names: seq<string>, args: seq<string>): Piece
    requires |names| == |args|
  {
    if p.Marker? && p.name in names then Fixed(PathEscape(Trim(args[IndexOf(names, p.name)]))) else p
  }

  /** Each marker replaced by its own argument, all at once. */
  function Substitute(ps: seq<Piece>, names: seq<string>, args: seq<string>): seq<Piece>
    requires |names| == |args|
  {
    seq(|ps|, i requires 0 <= i < |ps| => Substituted(ps[i], names, args))
  }

  /** What a template and its arguments must be. */
  predicate Fits(ps: seq<Piece>, names: seq<string>, args: seq<string>) {
    && |names| == |args|
    && Distinct(names)
    && (forall n | n in names :: Marker(n) in ps)
    && (forall p | p in ps && p.Marker? :: p.name in names)
    && (forall a | a in args :: Trim(a) != "")
  }

  lemma PutKeepsWellFormed(ps: seq<Piece>, name: string, arg: string)
    requires WellFormed(ps)
    ensures WellFormed(PutAll(ps, name, PathEscape(Trim(arg))))
  {
    assert Quiet(PathEscape(Trim(arg)));
    forall q | q in PutAll(ps, name, PathEscape(Trim(arg)))
      ensures if q.Fixed? then Plain(q.text) else Plain(q.name)
    {
      var i :| 0 <= i < |ps| && q == Put(ps[i], name, PathEscape(Trim(arg)));
      assert ps[i] in ps;
    }
  }

  lemma PutMarkers(ps: seq<Piece>, name: string, value: string)
    ensures forall n :: Marker(n) in PutAll(ps, name, value) <==> Marker(n) in ps && n != name
  {
    var qs := PutAll(ps, name, value);
    forall n
      ensures Marker(n) in qs <==> Marker(n) in ps && n != name
    {
      if Marker(n) in ps && n != name {
        var i :| 0 <= i < |ps| && ps[i] == Marker(n);
        assert qs[i] == Marker(n);
      }
    }
  }

  lemma FitsStep(ps: seq<Piece>, names: seq<string>, args: seq<string>)
    requires |names| == |args| > 0 && Trim(args[0]) != "" && Marker(names[0]) in ps
    ensures Fits(ps, names, args) <==> Fits(PutAll(ps, names[0], PathEscape(Trim(args[0]))), names[1..], args[1..])
  {
    var value := PathEscape(Trim(args[0]));
    var qs := PutAll(ps, names[0], value);
    PutMarkers(ps, names[0], value);
    assert names == [names[0]] + names[1..] && args == [args[0]] + args[1..];
    if Fits(qs, names[1..], args[1..]) {
      forall p | p in ps && p.Marker?
        ensures p.name in names
      {
        if p.name != names[0] {
          assert Marker(p.name) in qs;
        }
      }
      assert names[0] !in names[1..];
    }
    if Fits(ps, names, args) {
      forall p | p in qs && p.Marker?
        ensures p.name in names[1..]
      {
        assert p == Marker(p.name);
      }
    }
  }

  lemma SubstituteStep(ps: seq<Piece>, names: seq<string>, args: seq<string>)
    requires |names| == |args| > 0
    ensures Substitute(PutAll(ps, names[0], PathEscape(Trim(args[0]))), names[1..], args[1..]) ==
            Substitute(ps, names, args)
  {
    assert names == [names[0]] + names[1..];
  }

  /** `fillPath` succeeds exactly when the arguments fit the template, and then equals the
      simultaneous substitution: nothing put in is ever looked at again. */
  lemma {:induction false} FillIsSubstitution(ps: seq<Piece>, names: seq<string>, args: seq<string>)
    requires WellFormed(ps) && |names| == |args| && forall n | n in names :: Plain(n)
    ensures FillAll(Render(ps), names, args).Ok? <==> Fits(ps, names, args)
    ensures Fits(ps, names, args) ==> FillAll(Render(ps), names, args) == Ok(Render(Substitute(ps, names, args)))
    decreases |names|
  {
    if names == [] {
      BracesAreMarkers(ps);
      assert Substitute(ps, names, args) == ps;
    } else {
      assert names[0] in names && args[0] in args;
      var value := PathEscape(Trim(args[0]));
      ReplaceOnTemplate(ps, names[0], value);
      if Marker(names[0]) in ps && Trim(args[0]) != "" {
        PutKeepsWellFormed(ps, names[0], args[0]);
        FitsStep(ps, names, args);
        SubstituteStep(ps, names, args);
        FillIsSubstitution(PutAll(ps, names[0], value), names[1..], args[1..]);
      }
    }
  }

  // ---------- markers that are whole segments ----------

  /** The path whose segments are the pieces. */
  function Segmented(ps: seq<Piece>): seq<Piece> {
    if |ps| <= 1 then ps else [ps[0], Fixed("/")] + Segmented(ps[1..])
  }

  predicate Segments(ps: seq<Piece>) {
    ps != [] && WellFormed(ps) && forall p | p in ps :: '/' !in Show(p)
  }

  function Shown(ps: seq<Piece>): seq<string> {
    seq(|ps|, i requires 0 <= i < |ps| => Show(ps[i]))
  }

  lemma {:induction false} SegmentedPieces(ps: seq<Piece>)
    ensures forall p | p in Segmented(ps) :: p in ps || p == Fixed("/")
    ensures forall p | p in ps :: p in Segmented(ps)
  {
    if |ps| <= 1 {
    } else {
      SegmentedPieces(ps[1..]);
      assert ps == [ps[0]] + ps[1..];
    }
  }

  lemma RenderTwo(p: Piece, q: Piece, rest: seq<Piece>)
    ensures Render([p, q] + rest) == Show(p) + (Show(q) + Render(rest))
  {
    assert ([p, q] + rest)[1..] == [q] + rest;
    assert ([q] + rest)[1..] == rest;
  }

  lemma {:induction false} RenderSegmented(ps: seq<Piece>)
    ensures Render(Segmented(ps)) == Slashed(Shown(ps))
  {
    if |ps| == 0 {
    } else if |ps| == 1 {
      assert ps[1..] == [];
    } else {
      RenderTwo(ps[0], Fixed("/"), Segmented(ps[1..]));
      RenderSegmented(ps[1..]);
      assert Shown(ps)[1..] == Shown(ps[1..]);
    }
  }

  lemma {:induction false} SubstituteSegmented(ps: seq<Piece>, names: seq<string>, args: seq<string>)
    requires |names| == |args|
    ensures Substitute(Segmented(ps), names, args) == Segmented(Substitute(ps, names, args))
  {
    if |ps| <= 1 {
    } else {
      SubstituteSegmented(ps[1..], names, args);
      assert Substitute(ps, names, args)[1..] == Substitute(ps[1..], names, args);
    }
  }

  /** The filled path has the segments of the template, each marker decoding to its own
      trimmed argument. */
  lemma FilledSegmentsDecode(ps: seq<Piece>, names: seq<string>, args: seq<string>)
    requires Segments(ps) && Fits(ps, names, args) && forall n | n in names :: Plain(n)
    ensures FillAll(Render(Segmented(ps)), names, args).Ok?
    ensures var parts := Split(FillAll(Render(Segmented(ps)), names, args).value);
            && |parts| == |ps|
            && forall i | 0 <= i < |ps| ::
                 if ps[i].Fixed? then parts[i] == ps[i].text
                 else Decode(Unescape(parts[i])) == Points(Trim(args[IndexOf(names, ps[i].name)]))
  {
    var qs := Segmented(ps);
    RenderSegmented(ps);
    SegmentedPieces(ps);
    assert WellFormed(qs) && Fits(qs, names, args);
    FillIsSubstitution(qs, names, args);
    var filled := Substitute(ps, names, args);
    SubstituteSegmented(ps, names, args);
    RenderSegmented(filled);
    forall i | 0 <= i < |ps|
      ensures '/' !in Show(filled[i])
      ensures ps[i].Marker? ==> Decode(Unescape(Show(filled[i]))) == Points(Trim(args[IndexOf(names, ps[i].name)]))
    {
      assert ps[i] in ps;
      if ps[i].Marker? {
        assert Quiet(PathEscape(Trim(args[IndexOf(names, ps[i].name)])));
        PathEscapeIsUndone(Trim(args[IndexOf(names, ps[i].name)]));
      }
    }
    SplitUndoesJoin(Shown(filled), '/');
  }

  lemma IndexOfDistinct(names: seq<string>, i: nat)
    requires Distinct(names) && i < |names|
    ensures IndexOf(names, names[i]) == i
  {
  }

  /** Filling loses nothing but the blanks around an argument: equal paths come from equal
      trimmed arguments. */
  lemma FillIsInjective(ps: seq<Piece>, names: seq<string>, args: seq<string>, others: seq<string>)
    requires Segments(ps) && Fits(ps, names, args) && Fits(ps, names, others) && forall n | n in names :: Plain(n)
    requires FillAll(Render(Segmented(ps)), names, args) == FillAll(Render(Segmented(ps)), names, others)
    ensures forall i | 0 <= i < |names| :: Trim(args[i]) == Trim(others[i])
  {
    FilledSegmentsDecode(ps, names, args);
    FilledSegmentsDecode(ps, names, others);
    forall i | 0 <= i < |names|
      ensures Trim(args[i]) == Trim(others[i])
    {
      assert names[i] in names && Marker(names[i]) in ps;
      var j :| 0 <= j < |ps| && ps[j] == Marker(names[i]);
      IndexOfDistinct(names, i);
      PointsInjective(Trim(args[i]), Trim(others[i]));
    }
  }

  /** How one argument fails, and how a path with nothing left to fill ends. */
  lemma FillFails(path: string, name: string, arg: string)
    ensures !Contains(path, MarkerOf(name)) ==> FillAll(path, [name], [arg]) == Err(NoMarker)
    ensures Contains(path, MarkerOf(name)) && Trim(arg) == "" ==> FillAll(path, [name], [arg]) == Err(Empty)
    ensures FillAll(path, [], []) == if '{' in path then Err(Unfilled) else Ok(path)
  {
  }
}
