/** `decodeRemoteJSON` of cmd/warmblyctl/remote_output.go: one JSON value, no repeated
    object key, at most 64 levels below the top. Tokens are given; the standard decoder's
    own check that brackets match and keys are strings is part of the model. */
module JsonDecode {
  import opened Wrappers

  /** Numbers read from a document keep their text; Integer is a count put in later. */
  datatype Leaf = Number(text: string) | Boolean(b: bool) | Null | Integer(n: int)

  datatype Event =
    | ObjectOpen | ObjectClose | ArrayOpen | ArrayClose
    | Text(text: string)
    | Plain(leaf: Leaf)
    | Malformed

  datatype Value =
    | Object(fields: map<string, Value>)
    | Array(items: seq<Value>)
    | String(text: string)
    | Scalar(leaf: Leaf)

  datatype Failure = InvalidJson

  const LIMIT: nat := 64

  // ---------- what the grammar says ----------

  /** A document as written: members keep their order and may repeat. */
  datatype Tree = ObjectTree(members: Members) | ArrayTree(items: Items) | TextTree(text: string) | LeafTree(leaf: Leaf)
  datatype Members = NoMember | Member(name: string, value: Tree, rest: Members)
  datatype Items = NoItem | Item(head: Tree, tail: Items)

  /** The tokens of a document, RFC 8259 sections 4 and 5. */
  function Print(t: Tree): seq<Event> {
    match t
    case ObjectTree(ms) => [ObjectOpen] + PrintMembers(ms)
    case ArrayTree(xs) => [ArrayOpen] + PrintItems(xs)
    case TextTree(s) => [Text(s)]
    case LeafTree(l) => [Plain(l)]
  }

  function PrintMembers(ms: Members): seq<Event> {
    match ms
    case NoMember => [ObjectClose]
    case Member(name, value, rest) => [Text(name)] + Print(value) + PrintMembers(rest)
  }

  function PrintItems(xs: Items): seq<Event> {
    match xs
    case NoItem => [ArrayClose]
    case Item(head, tail) => Print(head) + PrintItems(tail)
  }

  /** No repeated key in any object, no node deeper than the limit. */
  predicate Acceptable(t: Tree, depth: nat) {
    depth <= LIMIT
    && match t
       case ObjectTree(ms) => AcceptableMembers(ms, {}, depth)
       case ArrayTree(xs) => AcceptableItems(xs, depth)
       case _ => true
  }

  predicate AcceptableMembers(ms: Members, seen: set<string>, depth: nat) {
    match ms
    case NoMember => true
    case Member(name, value, rest) =>
      name !in seen && Acceptable(value, depth + 1) && AcceptableMembers(rest, seen + {name}, depth)
  }

  predicate AcceptableItems(xs: Items, depth: nat) {
    match xs
    case NoItem => true
    case Item(head, tail) => Acceptable(head, depth + 1) && AcceptableItems(tail, depth)
  }

  function Meaning(t: Tree): Value {
    match t
    case ObjectTree(ms) => Object(Fields(ms, map[]))
    case ArrayTree(xs) => Array(Elements(xs))
    case TextTree(s) => String(s)
    case LeafTree(l) => Scalar(l)
  }

  function Fields(ms: Members, before: map<string, Value>): map<string, Value> {
    match ms
    case NoMember => before
    case Member(name, value, rest) => Fields(rest, before[name := Meaning(value)])
  }

  function Elements(xs: Items): seq<Value> {
    match xs
    case NoItem => []
    case Item(head, tail) => [Meaning(head)] + Elements(tail)
  }

  // ---------- the reader ----------

  type Parsed = Result<(Value, seq<Event>), Failure>

  function ReadValue(es: seq<Event>, depth: nat): (r: Parsed)
    ensures r.Ok? ==> |r.value.1| < |es|
    decreases |es|, 1
  {
    if depth > LIMIT || es == [] then Err(InvalidJson)
    else
      match es[0]
      case ObjectOpen => ReadMembers(es[1..], map[], depth)
      case ArrayOpen => ReadItems(es[1..], [], depth)
      case Text(s) => Ok((String(s), es[1..]))
      case Plain(l) => Ok((Scalar(l), es[1..]))
      case _ => Err(InvalidJson)
  }

  function ReadMembers(es: seq<Event>, fields: map<string, Value>, depth: nat): (r: Parsed)
    ensures r.Ok? ==> |r.value.1| < |es|
    decreases |es|, 0
  {
    if es == [] then Err(InvalidJson)
    else if es[0].ObjectClose? then Ok((Object(fields), es[1..]))
    else if !es[0].Text? || es[0].text in fields then Err(InvalidJson)
    else
      var (v, rest) :- ReadValue(es[1..], depth + 1);
      ReadMembers(rest, fields[es[0].text := v], depth)
  }

  function ReadItems(es: seq<Event>, items: seq<Value>, depth: nat): (r: Parsed)
    ensures r.Ok? ==> |r.value.1| < |es|
    decreases |es|, 2
  {
    if es == [] then Err(InvalidJson)
    else if es[0].ArrayClose? then Ok((Array(items), es[1..]))
    else if es[0].ObjectClose? then Err(InvalidJson)
    else
      var (v, rest) :- ReadValue(es, depth + 1);
      ReadItems(rest, items + [v], depth)
  }

  function Decode(es: seq<Event>): Result<Value, Failure> {
    var (v, rest) :- ReadValue(es, 0);
    if rest == [] then Ok(v) else Err(InvalidJson)
  }

  // ---------- every acceptable document is read back ----------

  lemma {:induction false} ReadsPrinted(t: Tree, depth: nat, rest: seq<Event>)
    requires Acceptable(t, depth)
    ensures ReadValue(Print(t) + rest, depth) == Ok((Meaning(t), rest))
    decreases t
  {
    var es := Print(t) + rest;
    match t
    case ObjectTree(ms) =>
      assert es[1..] == PrintMembers(ms) + rest;
      var none: map<string, Value> := map[];
      assert none.Keys == {};
      ReadsMembers(ms, none, depth, rest);
    case ArrayTree(xs) =>
      assert es[1..] == PrintItems(xs) + rest;
      ReadsItems(xs, [], depth, rest);
      assert [] + Elements(xs) == Elements(xs);
    case _ =>
      assert es[1..] == rest;
  }

  lemma {:induction false} ReadsMembers(ms: Members, fields: map<string, Value>, depth: nat, rest: seq<Event>)
    requires AcceptableMembers(ms, fields.Keys, depth)
    ensures ReadMembers(PrintMembers(ms) + rest, fields, depth) == Ok((Object(Fields(ms, fields)), rest))
    decreases ms
  {
    var es := PrintMembers(ms) + rest;
    match ms
    case NoMember =>
      assert es[1..] == rest;
    case Member(name, value, more) =>
      assert es[1..] == Print(value) + (PrintMembers(more) + rest);
      ReadsPrinted(value, depth + 1, PrintMembers(more) + rest);
      assert fields.Keys + {name} == fields[name := Meaning(value)].Keys;
      ReadsMembers(more, fields[name := Meaning(value)], depth, rest);
  }

  lemma {:induction false} ReadsItems(xs: Items, items: seq<Value>, depth: nat, rest: seq<Event>)
    requires AcceptableItems(xs, depth)
    ensures ReadItems(PrintItems(xs) + rest, items, depth) == Ok((Array(items + Elements(xs)), rest))
    decreases xs
  {
    var es := PrintItems(xs) + rest;
    match xs
    case NoItem =>
      assert es[1..] == rest;
      assert items + [] == items;
    case Item(head, tail) =>
      assert es == Print(head) + (PrintItems(tail) + rest);
      ReadsPrinted(head, depth + 1, PrintItems(tail) + rest);
      ReadsItems(tail, items + [Meaning(head)], depth, rest);
      assert items + [Meaning(head)] + Elements(tail) == items + Elements(xs);
  }

  // ---------- nothing else is read ----------

  lemma {:induction false} ReadIsPrinted(es: seq<Event>, depth: nat) returns (t: Tree)
    requires ReadValue(es, depth).Ok?
    ensures var (v, rest) := ReadValue(es, depth).value;
            Acceptable(t, depth) && es == Print(t) + rest && Meaning(t) == v
    decreases |es|, 1
  {
    var (v, rest) := ReadValue(es, depth).value;
    assert es == [es[0]] + es[1..];
    match es[0]
    case ObjectOpen =>
      var none: map<string, Value> := map[];
      assert none.Keys == {};
      var ms := MembersArePrinted(es[1..], none, depth);
      t := ObjectTree(ms);
    case ArrayOpen =>
      var xs := ItemsArePrinted(es[1..], [], depth);
      t := ArrayTree(xs);
      assert [] + Elements(xs) == Elements(xs);
    case Text(s) => t := TextTree(s);
    case Plain(l) => t := LeafTree(l);
  }

  lemma {:induction false} MembersArePrinted(es: seq<Event>, fields: map<string, Value>, depth: nat)
      returns (ms: Members)
    requires ReadMembers(es, fields, depth).Ok?
    ensures var (v, rest) := ReadMembers(es, fields, depth).value;
            AcceptableMembers(ms, fields.Keys, depth) && es == PrintMembers(ms) + rest
              && Object(Fields(ms, fields)) == v
    decreases |es|, 0
  {
    if es[0].ObjectClose? {
      assert es == [ObjectClose] + es[1..];
      ms := NoMember;
    } else {
      var name := es[0].text;
      var (v, after) := ReadValue(es[1..], depth + 1).value;
      var t := ReadIsPrinted(es[1..], depth + 1);
      var more := MembersArePrinted(after, fields[name := v], depth);
      ms := Member(name, t, more);
      assert fields.Keys + {name} == fields[name := v].Keys;
      MemberPrinted(es, name, t, after, more, ReadMembers(es, fields, depth).value.1);
    }
  }

  lemma MemberPrinted(es: seq<Event>, name: string, t: Tree, after: seq<Event>, more: Members, rest: seq<Event>)
    requires es != [] && es[0] == Text(name) && es[1..] == Print(t) + after && after == PrintMembers(more) + rest
    ensures es == PrintMembers(Member(name, t, more)) + rest
  {
    assert es == [es[0]] + es[1..];
    assert [es[0]] + (Print(t) + (PrintMembers(more) + rest)) == [es[0]] + Print(t) + PrintMembers(more) + rest;
  }

  lemma {:induction false} ItemsArePrinted(es: seq<Event>, items: seq<Value>, depth: nat) returns (xs: Items)
    requires ReadItems(es, items, depth).Ok?
    ensures var (v, rest) := ReadItems(es, items, depth).value;
            AcceptableItems(xs, depth) && es == PrintItems(xs) + rest && Array(items + Elements(xs)) == v
    decreases |es|, 2
  {
    assert es == [es[0]] + es[1..];
    if es[0].ArrayClose? {
      xs := NoItem;
      assert items + [] == items;
    } else {
      var (v, after) := ReadValue(es, depth + 1).value;
      var t := ReadIsPrinted(es, depth + 1);
      var more := ItemsArePrinted(after, items + [v], depth);
      xs := Item(t, more);
      assert items + [v] + Elements(more) == items + Elements(xs);
      var rest := ReadItems(es, items, depth).value.1;
      assert Print(t) + (PrintItems(more) + rest) == PrintItems(xs) + rest;
    }
  }

  /** Decoding accepts exactly the tokens of one acceptable document, and yields its
      meaning. */
  lemma DecodeIsExact(es: seq<Event>, v: Value)
    ensures Decode(es) == Ok(v) <==> exists t :: Acceptable(t, 0) && Print(t) == es && Meaning(t) == v
  {
    if Decode(es) == Ok(v) {
      var t := ReadIsPrinted(es, 0);
      assert Print(t) + [] == Print(t);
    }
    forall t | Acceptable(t, 0) && Print(t) == es && Meaning(t) == v
      ensures Decode(es) == Ok(v)
    {
      ReadsPrinted(t, 0, []);
      assert Print(t) + [] == es;
    }
  }

  // ---------- every value can be written ----------

  /** No node of the value is deeper than the limit. */
  predicate Shallow(v: Value, depth: nat) {
    depth <= LIMIT
    && match v
       case Object(m) => forall k | k in m :: Shallow(m[k], depth + 1)
       case Array(items) => forall i | 0 <= i < |items| :: Shallow(items[i], depth + 1)
       case _ => true
  }

  lemma {:induction false} ShallowValueHasTree(v: Value, depth: nat) returns (t: Tree)
    requires Shallow(v, depth)
    ensures Acceptable(t, depth) && Meaning(t) == v
    decreases v, 1
  {
    match v
    case Object(m) =>
      var none: map<string, Value> := map[];
      assert none.Keys == {};
      var ms := MembersOf(v, depth, none, m.Keys);
      t := ObjectTree(ms);
    case Array(items) =>
      var xs := ItemsOf(v, depth, 0);
      assert items[0..] == items;
      t := ArrayTree(xs);
    case String(s) => t := TextTree(s);
    case Scalar(l) => t := LeafTree(l);
  }

  /** Some of the fields are done, the others to do. */
  predicate Divided(fields: map<string, Value>, done: map<string, Value>, todo: set<string>) {
    && done.Keys !! todo && done.Keys + todo == fields.Keys
    && forall k | k in done :: done[k] == fields[k]
  }

  lemma DivideOneMore(fields: map<string, Value>, done: map<string, Value>, todo: set<string>, k: string)
    requires Divided(fields, done, todo) && k in todo
    ensures k in fields && Divided(fields, done[k := fields[k]], todo - {k})
    ensures done[k := fields[k]].Keys == done.Keys + {k} && k !in done
  {
    assert k in done.Keys + todo;
  }

  lemma MemberAccepted(k: string, t: Tree, rest: Members, done: map<string, Value>, depth: nat)
    requires k !in done && Acceptable(t, depth + 1)
    requires AcceptableMembers(rest, done.Keys + {k}, depth)
    ensures AcceptableMembers(Member(k, t, rest), done.Keys, depth)
    ensures Fields(Member(k, t, rest), done) == Fields(rest, done[k := Meaning(t)])
  {
  }

  /** The members still to be written, in any order. */
  lemma {:induction false} MembersOf(o: Value, depth: nat, done: map<string, Value>, todo: set<string>)
      returns (ms: Members)
    requires o.Object? && Shallow(o, depth) && Divided(o.fields, done, todo)
    ensures AcceptableMembers(ms, done.Keys, depth) && Fields(ms, done) == o.fields
    decreases o, 0, |todo|
  {
    if todo == {} {
      assert done == o.fields;
      ms := NoMember;
    } else {
      var k :| k in todo;
      DivideOneMore(o.fields, done, todo, k);
      var t := ShallowValueHasTree(o.fields[k], depth + 1);
      var rest := MembersOf(o, depth, done[k := o.fields[k]], todo - {k});
      ms := Member(k, t, rest);
      MemberAccepted(k, t, rest, done, depth);
    }
  }

  lemma {:induction false} ItemsOf(a: Value, depth: nat, from: nat) returns (xs: Items)
    requires a.Array? && Shallow(a, depth) && from <= |a.items|
    ensures AcceptableItems(xs, depth) && Elements(xs) == a.items[from..]
    decreases a, 0, |a.items| - from
  {
    if from == |a.items| {
      xs := NoItem;
    } else {
      var t := ShallowValueHasTree(a.items[from], depth + 1);
      var rest := ItemsOf(a, depth, from + 1);
      xs := Item(t, rest);
      assert a.items[from..] == [a.items[from]] + a.items[from + 1..];
    }
  }

  lemma {:induction false} MeaningIsShallow(t: Tree, depth: nat)
    requires Acceptable(t, depth)
    ensures Shallow(Meaning(t), depth)
    decreases t
  {
    match t
    case ObjectTree(ms) => FieldsAreShallow(ms, map[], {}, depth);
    case ArrayTree(xs) => ElementsAreShallow(xs, depth);
    case _ =>
  }

  lemma {:induction false} FieldsAreShallow(ms: Members, before: map<string, Value>, seen: set<string>, depth: nat)
    requires AcceptableMembers(ms, seen, depth) && forall k | k in before :: Shallow(before[k], depth + 1)
    ensures forall k | k in Fields(ms, before) :: Shallow(Fields(ms, before)[k], depth + 1)
    decreases ms
  {
    match ms
    case NoMember =>
    case Member(name, value, rest) =>
      MeaningIsShallow(value, depth + 1);
      FieldsAreShallow(rest, before[name := Meaning(value)], seen + {name}, depth);
  }

  lemma {:induction false} ElementsAreShallow(xs: Items, depth: nat)
    requires AcceptableItems(xs, depth)
    ensures forall i | 0 <= i < |Elements(xs)| :: Shallow(Elements(xs)[i], depth + 1)
    decreases xs
  {
    match xs
    case NoItem =>
    case Item(head, tail) =>
      MeaningIsShallow(head, depth + 1);
      ElementsAreShallow(tail, depth);
  }

  /** The values decoding can produce are exactly those within the depth limit. */
  lemma DecodableValues(v: Value)
    ensures (exists es :: Decode(es) == Ok(v)) <==> Shallow(v, 0)
  {
    if Shallow(v, 0) {
      var t := ShallowValueHasTree(v, 0);
      DecodeIsExact(Print(t), v);
    }
    if es :| Decode(es) == Ok(v) {
      DecodeIsExact(es, v);
      var t :| Acceptable(t, 0) && Print(t) == es && Meaning(t) == v;
      MeaningIsShallow(t, 0);
    }
  }

  // ---------- the reader as it runs ----------

  /** Where the standard decoder is inside each open bracket. */
  datatype Frame = InArray | BeforeKey | BeforeValue

  datatype TokenError = EndOfInput | BadToken

  /** The standard token reader over a fixed input. */
  class Tokens {
    const events: seq<Event>
    var pos: nat
    var frames: seq<Frame>

    constructor (events: seq<Event>)
      ensures this.events == events && pos == 0 && frames == []
    {
      this.events, pos, frames := events, 0, [];
    }

    predicate Valid()
      reads this
    {
      pos <= |events|
    }

    function Left(): seq<Event>
      requires Valid()
      reads this
    {
      events[pos..]
    }

    predicate AtKey()
      reads this
    {
      frames != [] && frames[|frames| - 1] == BeforeKey
    }

    /** The value just begun or read is no longer awaited. */
    static function Settle(frames: seq<Frame>): seq<Frame> {
      if frames != [] && frames[|frames| - 1] == BeforeValue then frames[..|frames| - 1] + [BeforeKey] else frames
    }

    method More() returns (more: bool)
      requires Valid()
      ensures more <==> Left() != [] && !Left()[0].ObjectClose? && !Left()[0].ArrayClose?
    {
      more := pos < |events| && !events[pos].ObjectClose? && !events[pos].ArrayClose?;
    }

    method Token() returns (r: Result<Event, TokenError>)
      requires Valid()
      modifies this`pos, this`frames
      ensures Valid() && pos == old(pos) + (if r.Ok? then 1 else 0)
      ensures r.Ok? ==> old(Left()) == [r.value] + Left()
      ensures r == Err(EndOfInput) <==> old(Left()) == []
      ensures r.Ok? <==>
                old(Left()) != [] &&
                match old(Left())[0]
                case Malformed => false
                case ObjectClose => old(AtKey())
                case ArrayClose => old(frames) != [] && old(frames)[|old(frames)| - 1] == InArray
                case Text(_) => true
                case _ => !old(AtKey())
      ensures r.Ok? ==>
                frames ==
                match r.value
                case ObjectOpen => Settle(old(frames)) + [BeforeKey]
                case ArrayOpen => Settle(old(frames)) + [InArray]
                case ObjectClose => old(frames)[..|old(frames)| - 1]
                case ArrayClose => old(frames)[..|old(frames)| - 1]
                case _ => if old(AtKey()) then old(frames)[..|old(frames)| - 1] + [BeforeValue] else Settle(old(frames))
    {
      if pos == |events| {
        return Err(EndOfInput);
      }
      var e := events[pos];
      var n := |frames|;
      match e {
        case Malformed =>
          return Err(BadToken);
        case ObjectOpen =>
          if AtKey() { return Err(BadToken); }
          frames := Settle(frames) + [BeforeKey];
        case ArrayOpen =>
          if AtKey() { return Err(BadToken); }
          frames := Settle(frames) + [InArray];
        case ObjectClose =>
          if !AtKey() { return Err(BadToken); }
          frames := frames[..n - 1];
        case ArrayClose =>
          if n == 0 || frames[n - 1] != InArray { return Err(BadToken); }
          frames := frames[..n - 1];
        case Text(_) =>
          frames := if AtKey() then frames[..n - 1] + [BeforeValue] else Settle(frames);
        case Plain(_) =>
          if AtKey() { return Err(BadToken); }
          frames := Settle(frames);
      }
      pos := pos + 1;
      return Ok(e);
    }

    /** The method agrees with the function on value, rest of the input and failure. */
    ghost predicate Agrees(spec: Parsed, r: Result<Value, Failure>)
      requires Valid()
      reads this
    {
      if spec.Err? then r == Err(InvalidJson) else r == Ok(spec.value.0) && Left() == spec.value.1
    }

    method Read(depth: nat) returns (r: Result<Value, Failure>)
      requires Valid() && !AtKey()
      modifies this`pos, this`frames
      ensures Valid() && pos >= old(pos)
      ensures Agrees(ReadValue(old(Left()), depth), r)
      ensures r.Ok? ==> frames == Settle(old(frames))
      decreases |events| - pos, 2
    {
      if depth > LIMIT {
        return Err(InvalidJson);
      }
      var t := Token();
      if t.Err? {
        return Err(InvalidJson);
      }
      match t.value
      case ObjectOpen =>
        r := ReadObject(depth);
      case ArrayOpen =>
        r := ReadArray(depth);
      case Text(s) =>
        r := Ok(String(s));
      case Plain(l) =>
        r := Ok(Scalar(l));
      case _ =>
        r := Err(InvalidJson);
    }

    /** One key and its value, added to the object so far. */
    method ReadMember(depth: nat, out: map<string, Value>) returns (r: Result<map<string, Value>, Failure>)
      requires Valid() && AtKey() && Left() != [] && !Left()[0].ObjectClose?
      modifies this`pos, this`frames
      ensures Valid() && pos >= old(pos) && (r.Ok? ==> pos > old(pos))
      ensures r.Ok? ==> frames == old(frames)
      ensures r.Ok? ==> ReadMembers(old(Left()), out, depth) == ReadMembers(Left(), r.value, depth)
      ensures r.Err? ==> ReadMembers(old(Left()), out, depth).Err?
      decreases |events| - pos, 3
    {
      var key := Token();
      if key.Err? || !key.value.Text? || key.value.text in out {
        return Err(InvalidJson);
      }
      var v := Read(depth + 1);
      if v.Err? {
        return Err(InvalidJson);
      }
      return Ok(out[key.value.text := v.value]);
    }

    method ReadObject(depth: nat) returns (r: Result<Value, Failure>)
      requires Valid() && AtKey()
      modifies this`pos, this`frames
      ensures Valid() && pos >= old(pos)
      ensures Agrees(ReadMembers(old(Left()), map[], depth), r)
      ensures r.Ok? ==> frames == old(frames)[..|old(frames)| - 1]
      decreases |events| - pos, 4
    {
      var out: map<string, Value> := map[];
      ghost var start := frames;
      var more := More();
      while more
        invariant Valid() && pos >= old(pos) && frames == start
        invariant more <==> Left() != [] && !Left()[0].ObjectClose? && !Left()[0].ArrayClose?
        invariant ReadMembers(old(Left()), map[], depth) == ReadMembers(Left(), out, depth)
        decreases |events| - pos
      {
        var next := ReadMember(depth, out);
        if next.Err? {
          return Err(InvalidJson);
        }
        out := next.value;
        more := More();
      }
      var end := Token();
      if end.Err? {
        return Err(InvalidJson);
      }
      return Ok(Object(out));
    }

    method ReadArray(depth: nat) returns (r: Result<Value, Failure>)
      requires Valid() && frames != [] && frames[|frames| - 1] == InArray
      modifies this`pos, this`frames
      ensures Valid() && pos >= old(pos)
      ensures Agrees(ReadItems(old(Left()), [], depth), r)
      ensures r.Ok? ==> frames == old(frames)[..|old(frames)| - 1]
      decreases |events| - pos, 3
    {
      var out: seq<Value> := [];
      ghost var start := frames;
      var more := More();
      while more
        invariant Valid() && pos >= old(pos) && frames == start
        invariant more <==> Left() != [] && !Left()[0].ObjectClose? && !Left()[0].ArrayClose?
        invariant ReadItems(old(Left()), [], depth) == ReadItems(Left(), out, depth)
        decreases |events| - pos
      {
        var v := Read(depth + 1);
        if v.Err? {
          return Err(InvalidJson);
        }
        out := out + [v.value];
        more := More();
      }
      var end := Token();
      if end.Err? {
        return Err(InvalidJson);
      }
      return Ok(Array(out));
    }
  }

  /** `decodeRemoteJSON`: the reader, then nothing but the end of the input. */
  method DecodeTokens(es: seq<Event>) returns (r: Result<Value, Failure>)
    ensures r == Decode(es)
  {
    var dec := new Tokens(es);
    assert dec.Left() == es;
    var v := dec.Read(0);
    if v.Err? {
      assert ReadValue(es, 0).error.InvalidJson?;
      return v;
    }
    var end := dec.Token();
    return if end == Err(EndOfInput) then v else Err(InvalidJson);
  }

  // ---------- the limit ----------

  /** The tokens of n arrays, each alone in the one around it. */
  function Brackets(n: nat): seq<Event> {
    if n == 0 then [] else [ArrayOpen] + Brackets(n - 1) + [ArrayClose]
  }

  function Nested(n: nat): Value
    requires n > 0
  {
    Array(if n == 1 then [] else [Nested(n - 1)])
  }

  lemma {:induction false} ReadsNested(n: nat, depth: nat, rest: seq<Event>)
    requires n > 0
    ensures ReadValue(Brackets(n) + rest, depth) ==
            if depth + n <= 65 then Ok((Nested(n), rest)) else Err(InvalidJson)
    decreases n
  {
    var es := Brackets(n) + rest;
    assert es[0] == ArrayOpen && es[1..] == Brackets(n - 1) + ([ArrayClose] + rest);
    if n == 1 {
      assert es[1..][1..] == rest;
    } else {
      var more := [ArrayClose] + rest;
      ReadsNested(n - 1, depth + 1, more);
      assert more[1..] == rest && es[1..][0] == ArrayOpen;
      assert [] + [Nested(n - 1)] == [Nested(n - 1)];
      assert ReadItems(more, [Nested(n - 1)], depth) == Ok((Array([Nested(n - 1)]), rest));
      assert ReadItems(es[1..], [], depth) ==
             if depth + n <= 65 then Ok((Nested(n), rest)) else Err(InvalidJson);
    }
  }

  /** The outermost array is level 0 and level 64 is the last: 65 nested arrays decode, 66 do not. */
  lemma SixtyFiveLevels(n: nat)
    requires n > 0
    ensures Decode(Brackets(n)) == if n <= 65 then Ok(Nested(n)) else Err(InvalidJson)
  {
    ReadsNested(n, 0, []);
    assert Brackets(n) + [] == Brackets(n);
  }

  // ---------- repeated keys ----------

  function TwoMembers(k: string, a: Leaf, l: string, b: Leaf): seq<Event> {
    [ObjectOpen, Text(k), Plain(a), Text(l), Plain(b), ObjectClose]
  }

  /** An object of two members decodes if and only if their names differ. */
  lemma RepeatedKey(k: string, a: Leaf, l: string, b: Leaf)
    ensures Decode(TwoMembers(k, a, l, b)) ==
            if k == l then Err(InvalidJson) else Ok(Object(map[k := Scalar(a), l := Scalar(b)]))
  {
    var es := TwoMembers(k, a, l, b);
    var one: map<string, Value> := map[][k := Scalar(a)];
    var rest := [Text(l), Plain(b), ObjectClose];
    assert es[1..] == [Text(k), Plain(a)] + rest;
    assert es[1..][1..] == [Plain(a)] + rest && ([Plain(a)] + rest)[1..] == rest;
    assert rest[1..] == [Plain(b), ObjectClose] && rest[1..][1..] == [ObjectClose];
    assert [ObjectClose][1..] == [];
    assert ReadValue([Plain(a)] + rest, 1) == Ok((Scalar(a), rest));
    assert ReadValue(rest[1..], 1) == Ok((Scalar(b), [ObjectClose]));
    var none: map<string, Value> := map[];
    assert none[k := Scalar(a)] == one && one[l := Scalar(b)] == map[k := Scalar(a), l := Scalar(b)];
    if k != l {
      assert ReadMembers([ObjectClose], one[l := Scalar(b)], 0) == Ok((Object(one[l := Scalar(b)]), []));
    }
    assert ReadMembers(rest, one, 0) ==
           if k == l then Err(InvalidJson) else Ok((Object(one[l := Scalar(b)]), []));
    assert ReadMembers(es[1..], none, 0) == ReadMembers(rest, one, 0);
  }
}
