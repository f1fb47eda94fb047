/** What `assign` and `buildFields` of cmd/cli/api.go compute: `-f key=value` fields become
    one JSON object, with key[sub] nesting and key[] appending. The objects themselves,
    changed in place, are in FieldObject. */
module FieldAssign {
  import opened Wrappers
  import opened Text

  /** A list of strings from a repeated flag is not an array that can be appended to. */
  datatype Json =
    | Map(fields: map<string, Json>)
    | List(items: seq<Json>)
    | Strings(words: seq<string>)
    | Str(text: string)
    | Truth(b: bool)
    | Nil
    | Number(text: string)

  type Object = map<string, Json>

  datatype Failure = UnbalancedBrackets | NoName | NotKeyValue | Unreadable

  // ---------- setting at a path ----------

  /** A parsed key: the names from the outside in, and whether the last is appended to. */
  datatype Path = Path(names: seq<string>, append: bool)

  function Nested(o: Object, name: string): Object {
    if name in o && o[name].Map? then o[name].fields else map[]
  }

  function Existing(o: Object, name: string): seq<Json> {
    if name in o && o[name].List? then o[name].items else []
  }

  /** What ends up under the first name. Anything in the way that is not an object, or
      not an array, is replaced. */
  function Put(o: Object, names: seq<string>, append: bool, v: Json): Json
    requires names != []
    decreases |names|, 0
  {
    if |names| > 1 then Map(SetAt(Nested(o, names[0]), names[1..], append, v))
    else if append then List(Existing(o, names[0]) + [v])
    else v
  }

  function SetAt(o: Object, names: seq<string>, append: bool, v: Json): Object
    requires names != []
    decreases |names|, 1
  {
    o[names[0] := Put(o, names, append, v)]
  }

  function Lookup(o: Object, names: seq<string>): Option<Json>
    requires names != []
    decreases |names|
  {
    if names[0] !in o then None
    else if |names| == 1 then Some(o[names[0]])
    else if o[names[0]].Map? then Lookup(o[names[0]].fields, names[1..])
    else None
  }

  // ---------- the key syntax ----------

  predicate Closed(key: string) {
    key != "" && key[|key| - 1] == ']'
  }

  /** The text between the first '[' and the closing ']'. */
  function Inner(key: string): (inner: string)
    requires Index(key, '[') < |key| && Closed(key)
    ensures |inner| < |key|
  {
    key[Index(key, '[') + 1..|key| - 1]
  }

  function ParseKey(key: string): (r: Result<Path, Failure>)
    ensures r.Ok? ==> r.value.names != []
    decreases |key|
  {
    var n := Index(key, '[');
    if n == |key| then Ok(Path([key], false))
    else if !Closed(key) then Err(UnbalancedBrackets)
    else if n == 0 then Err(NoName)
    else if Inner(key) == "" then Ok(Path([key[..n]], true))
    else
      var rest :- ParseKey(Inner(key));
      Ok(Path([key[..n]] + rest.names, rest.append))
  }

  /** What a refused key leaves: the objects opened on the way to the fault, each replacing
      whatever else had its name. */
  function Opened(o: Object, key: string): Object
    decreases |key|
  {
    var n := Index(key, '[');
    if n == 0 || n == |key| || !Closed(key) || Inner(key) == "" then o
    else o[key[..n] := Map(Opened(Nested(o, key[..n]), Inner(key)))]
  }

  /** The object after an assignment, and the failure if the key was refused. */
  function Assigned(o: Object, key: string, v: Json): (Object, Option<Failure>) {
    match ParseKey(key)
    case Err(e) => (Opened(o, key), Some(e))
    case Ok(path) => (SetAt(o, path.names, path.append, v), None)
  }

  lemma SetAtBelow(o: Object, head: string, rest: seq<string>, append: bool, v: Json)
    requires rest != []
    ensures SetAt(o, [head] + rest, append, v) == o[head := Map(SetAt(Nested(o, head), rest, append, v))]
  {
    assert ([head] + rest)[1..] == rest;
  }

  /** A key that goes on inside brackets is assigned to the nested object. */
  lemma AssignedBelow(o: Object, key: string, v: Json)
    requires 0 < Index(key, '[') < |key| && Closed(key) && Inner(key) != ""
    ensures var head := key[..Index(key, '[')];
            var (nested, failed) := Assigned(Nested(o, head), Inner(key), v);
            Assigned(o, key, v) == (o[head := Map(nested)], failed)
  {
    if ParseKey(Inner(key)).Ok? {
      var path := ParseKey(Inner(key)).value;
      SetAtBelow(o, key[..Index(key, '[')], path.names, path.append, v);
    }
  }

  lemma SetAtOne(o: Object, name: string, append: bool, v: Json)
    ensures SetAt(o, [name], append, v) == o[name := if append then List(Existing(o, name) + [v]) else v]
  {
  }

  /** An empty pair of brackets appends. */
  lemma AssignedAppend(o: Object, key: string, v: Json)
    requires 0 < Index(key, '[') < |key| && Closed(key) && Inner(key) == ""
    ensures var head := key[..Index(key, '[')];
            Assigned(o, key, v) == (o[head := List(Existing(o, head) + [v])], None)
  {
    assert ParseKey(key) == Ok(Path([key[..Index(key, '[')]], true));
    SetAtOne(o, key[..Index(key, '[')], true, v);
  }

  lemma AssignedPlain(o: Object, key: string, v: Json)
    requires Index(key, '[') == |key|
    ensures Assigned(o, key, v) == (o[key := v], None)
  {
    SetAtOne(o, key, false, v);
  }

  /** How a path is written. */
  function ShowPath(names: seq<string>, append: bool): string
    requires names != []
  {
    if |names| > 1 then names[0] + "[" + ShowPath(names[1..], append) + "]"
    else if append then names[0] + "[]"
    else names[0]
  }

  /** Names the syntax can carry; inside brackets a plain name may not be empty. */
  predicate Writable(names: seq<string>, append: bool) {
    && names != []
    && (forall n | n in names :: '[' !in n)
    && (|names| > 1 || append ==> forall n | n in names :: n != "")
  }

  lemma ParseNested(name: string, inner: string, path: Path)
    requires name != "" && '[' !in name && inner != "" && ParseKey(inner) == Ok(path)
    ensures ParseKey(name + "[" + inner + "]") == Ok(Path([name] + path.names, path.append))
  {
    var key := name + "[" + inner + "]";
    assert key == name + ("[" + inner + "]");
    IndexAfter(name, '[', "[" + inner + "]");
    assert Inner(key) == inner && key[..|name|] == name;
  }

  lemma ParseAppend(name: string)
    requires name != "" && '[' !in name
    ensures ParseKey(name + "[]") == Ok(Path([name], true))
  {
    IndexAfter(name, '[', "[]");
    assert Inner(name + "[]") == "" && (name + "[]")[..|name|] == name;
  }

  /** The syntax undoes itself: nesting is written a[b[c]]. */
  lemma {:induction false} ParseShown(names: seq<string>, append: bool)
    requires Writable(names, append)
    ensures ParseKey(ShowPath(names, append)) == Ok(Path(names, append))
    decreases |names|
  {
    var name := names[0];
    assert name in names;
    if |names| > 1 {
      assert forall n | n in names[1..] :: n in names;
      ParseShown(names[1..], append);
      ShownNotEmpty(names[1..], append);
      ParseNested(name, ShowPath(names[1..], append), Path(names[1..], append));
      assert [name] + names[1..] == names;
    } else {
      assert names == [name];
      if append {
        ParseAppend(name);
      }
    }
  }

  lemma ShownNotEmpty(names: seq<string>, append: bool)
    requires names != [] && forall n | n in names :: n != ""
    ensures ShowPath(names, append) != ""
  {
    assert names[0] in names;
  }

  // ---------- laws of setting ----------

  /** Neither path reaches through or overwrites the other. */
  predicate Independent(p: seq<string>, q: seq<string>) {
    !(p <= q) && !(q <= p)
  }

  lemma IndependentTails(p: seq<string>, q: seq<string>)
    requires Independent(p, q) && p != [] && q != [] && p[0] == q[0]
    ensures |p| > 1 && |q| > 1 && Independent(p[1..], q[1..])
  {
    assert p == [p[0]] + p[1..] && q == [q[0]] + q[1..];
  }

  /** Only the first name of the object matters to what is put there. */
  lemma PutLooksOnlyAtName(o: Object, other: string, j: Json, names: seq<string>, append: bool, v: Json)
    requires names != [] && other != names[0]
    ensures Put(o[other := j], names, append, v) == Put(o, names, append, v)
  {
  }

  lemma UpdatesCommute(o: Object, a: string, x: Json, b: string, y: Json)
    requires a != b
    ensures o[a := x][b := y] == o[b := y][a := x]
  {
  }

  lemma TwiceUnderOneName(o: Object, p: seq<string>, a: bool, v: Json, q: seq<string>, b: bool, w: Json)
    requires |p| > 1 && |q| > 1 && p[0] == q[0]
    ensures SetAt(SetAt(o, p, a, v), q, b, w) ==
            o[p[0] := Map(SetAt(SetAt(Nested(o, p[0]), p[1..], a, v), q[1..], b, w))]
  {
    var once := SetAt(o, p, a, v);
    assert p == [p[0]] + p[1..] && q == [q[0]] + q[1..];
    SetAtBelow(o, p[0], p[1..], a, v);
    SetAtBelow(once, q[0], q[1..], b, w);
  }

  lemma {:induction false} IndependentSetsCommute(o: Object, p: seq<string>, a: bool, v: Json, q: seq<string>,
                                                  b: bool, w: Json)
    requires p != [] && q != [] && Independent(p, q)
    ensures SetAt(SetAt(o, p, a, v), q, b, w) == SetAt(SetAt(o, q, b, w), p, a, v)
    decreases |p|
  {
    if p[0] == q[0] {
      IndependentTails(p, q);
      TwiceUnderOneName(o, p, a, v, q, b, w);
      TwiceUnderOneName(o, q, b, w, p, a, v);
      IndependentSetsCommute(Nested(o, p[0]), p[1..], a, v, q[1..], b, w);
    } else {
      PutLooksOnlyAtName(o, q[0], Put(o, q, b, w), p, a, v);
      PutLooksOnlyAtName(o, p[0], Put(o, p, a, v), q, b, w);
      UpdatesCommute(o, p[0], Put(o, p, a, v), q[0], Put(o, q, b, w));
    }
  }

  lemma {:induction false} LastSetWins(o: Object, p: seq<string>, v: Json, w: Json)
    requires p != []
    ensures SetAt(SetAt(o, p, false, v), p, false, w) == SetAt(o, p, false, w)
    decreases |p|
  {
    if |p| <= 1 {
    } else {
      LastSetWins(Nested(o, p[0]), p[1..], v, w);
    }
  }

  lemma {:induction false} SetIsFound(o: Object, p: seq<string>, v: Json)
    requires p != []
    ensures Lookup(SetAt(o, p, false, v), p) == Some(v)
    decreases |p|
  {
    if |p| <= 1 {
    } else {
      SetIsFound(Nested(o, p[0]), p[1..], v);
    }
  }

  lemma {:induction false} SetLeavesOthers(o: Object, p: seq<string>, a: bool, v: Json, q: seq<string>)
    requires p != [] && q != [] && Independent(p, q)
    ensures Lookup(SetAt(o, p, a, v), q) == Lookup(o, q)
    decreases |p|
  {
    if p[0] == q[0] {
      IndependentTails(p, q);
      SetLeavesOthers(Nested(o, p[0]), p[1..], a, v, q[1..]);
      if p[0] !in o || !o[p[0]].Map? {
        NothingInEmpty(q[1..]);
      }
    }
  }

  lemma NothingInEmpty(q: seq<string>)
    requires q != []
    ensures Lookup(map[], q) == None
  {
  }

  /** What an append finds to append to. */
  function Found(o: Object, p: seq<string>): seq<Json>
    requires p != []
  {
    match Lookup(o, p)
    case Some(List(items)) => items
    case _ => []
  }

  function AppendAll(o: Object, p: seq<string>, vs: seq<Json>): Object
    requires p != []
    decreases |vs|
  {
    if vs == [] then o else AppendAll(SetAt(o, p, true, vs[0]), p, vs[1..])
  }

  lemma {:induction false} AppendIsFound(o: Object, p: seq<string>, v: Json)
    requires p != []
    ensures Lookup(SetAt(o, p, true, v), p) == Some(List(Found(o, p) + [v]))
    decreases |p|
  {
    if |p| <= 1 {
    } else {
      AppendIsFound(Nested(o, p[0]), p[1..], v);
      if p[0] !in o || !o[p[0]].Map? {
        NothingInEmpty(p[1..]);
      }
    }
  }

  /** Appends at one path build exactly their values in order, whatever independent
      writes come between. */
  lemma {:induction false} AppendsBuildInOrder(o: Object, p: seq<string>, vs: seq<Json>)
    requires p != [] && vs != []
    ensures Lookup(AppendAll(o, p, vs), p) == Some(List(Found(o, p) + vs))
    decreases |vs|
  {
    AppendIsFound(o, p, vs[0]);
    if |vs| == 1 {
      assert vs == [vs[0]] && vs[1..] == [];
    } else {
      AppendsBuildInOrder(SetAt(o, p, true, vs[0]), p, vs[1..]);
      assert Found(o, p) + [vs[0]] + vs[1..] == Found(o, p) + vs;
    }
  }

  lemma {:induction false} AppendsIgnoreIndependentWrites(o: Object, p: seq<string>, vs: seq<Json>, q: seq<string>,
                                                          b: bool, w: Json)
    requires p != [] && q != [] && Independent(p, q)
    ensures AppendAll(SetAt(o, q, b, w), p, vs) == SetAt(AppendAll(o, p, vs), q, b, w)
    decreases |vs|
  {
    if vs == [] {
    } else {
      IndependentSetsCommute(o, q, b, w, p, true, vs[0]);
      AppendsIgnoreIndependentWrites(SetAt(o, p, true, vs[0]), p, vs[1..], q, b, w);
    }
  }

  // ---------- one body from many fields ----------

  /** Files and standard input, and what the number parsers accept. */
  datatype Environment = Environment(read: string -> Option<string>, number: string -> bool)

  datatype Field = Raw(kv: string) | Typed(kv: string)

  /** "true", "false", "null" and numbers are themselves, the rest is text. */
  function GuessType(env: Environment, s: string): Json {
    if s == "true" then Truth(true)
    else if s == "false" then Truth(false)
    else if s == "null" then Nil
    else if env.number(s) then Number(s)
    else Str(s)
  }

  function TrimNewlines(s: string): string {
    if s != "" && s[|s| - 1] == '\n' then TrimNewlines(s[..|s| - 1]) else s
  }

  function KeyOf(f: Field): string {
    f.kv[..Index(f.kv, '=')]
  }

  function FieldValue(env: Environment, f: Field): Result<Json, Failure>
    requires Index(f.kv, '=') < |f.kv|
  {
    var value := f.kv[Index(f.kv, '=') + 1..];
    if f.Raw? then Ok(Str(value))
    else if value != "" && value[0] == '@' then
      var data := env.read(value);
      if data.None? then Err(Unreadable) else Ok(Str(TrimNewlines(data.value)))
    else Ok(GuessType(env, value))
  }

  function AssignAt(o: Object, key: string, v: Json): Result<Object, Failure> {
    var path :- ParseKey(key);
    Ok(SetAt(o, path.names, path.append, v))
  }

  function Apply(env: Environment, o: Object, f: Field): Result<Object, Failure> {
    if Index(f.kv, '=') == |f.kv| then Err(NotKeyValue)
    else
      var v :- FieldValue(env, f);
      AssignAt(o, KeyOf(f), v)
  }

  function Fold(env: Environment, o: Object, given: seq<Field>): Result<Object, Failure>
    decreases |given|
  {
    if given == [] then Ok(o)
    else
      var next :- Apply(env, o, given[0]);
      Fold(env, next, given[1..])
  }

  function RawFields(kvs: seq<string>): seq<Field> {
    seq(|kvs|, i requires 0 <= i < |kvs| => Raw(kvs[i]))
  }

  function TypedFields(kvs: seq<string>): seq<Field> {
    seq(|kvs|, i requires 0 <= i < |kvs| => Typed(kvs[i]))
  }

  lemma {:induction false} FoldOneMore(env: Environment, o: Object, given: seq<Field>, f: Field)
    ensures Fold(env, o, given + [f]) ==
            match Fold(env, o, given)
            case Err(e) => Err(e)
            case Ok(p) => Apply(env, p, f)
    decreases |given|
  {
    if given == [] {
      assert given + [f] == [f] && [f][1..] == [];
    } else {
      assert (given + [f])[0] == given[0] && (given + [f])[1..] == given[1..] + [f];
      if Apply(env, o, given[0]).Ok? {
        FoldOneMore(env, Apply(env, o, given[0]).value, given[1..], f);
      }
    }
  }

  lemma {:induction false} FoldConcat(env: Environment, o: Object, a: seq<Field>, b: seq<Field>)
    ensures Fold(env, o, a + b) ==
            match Fold(env, o, a)
            case Err(e) => Err(e)
            case Ok(p) => Fold(env, p, b)
    decreases |a|
  {
    if a == [] {
      assert a + b == b;
    } else {
      assert (a + b)[0] == a[0] && (a + b)[1..] == a[1..] + b;
      if Apply(env, o, a[0]).Ok? {
        FoldConcat(env, Apply(env, o, a[0]).value, a[1..], b);
      }
    }
  }

  /** A failing field fails the whole list. */
  lemma FoldFailsAt(env: Environment, o: Object, given: seq<Field>, i: nat)
    requires i < |given| && Fold(env, o, given[..i]).Ok?
    requires Apply(env, Fold(env, o, given[..i]).value, given[i]).Err?
    ensures Fold(env, o, given) == Err(Apply(env, Fold(env, o, given[..i]).value, given[i]).error)
  {
    FoldConcat(env, o, given[..i], given[i..]);
    assert given == given[..i] + given[i..];
  }

  /** Two fields on independent keys may be given in either order. */
  lemma IndependentFieldsCommute(env: Environment, o: Object, f: Field, g: Field)
    requires Index(f.kv, '=') < |f.kv| && Index(g.kv, '=') < |g.kv| && FieldValue(env, f).Ok? && FieldValue(env, g).Ok?
    requires ParseKey(KeyOf(f)).Ok? && ParseKey(KeyOf(g)).Ok?
    requires Independent(ParseKey(KeyOf(f)).value.names, ParseKey(KeyOf(g)).value.names)
    ensures Fold(env, o, [f, g]) == Fold(env, o, [g, f])
  {
    var p, q := ParseKey(KeyOf(f)).value, ParseKey(KeyOf(g)).value;
    var v, w := FieldValue(env, f).value, FieldValue(env, g).value;
    FoldOneMore(env, o, [f], g);
    FoldOneMore(env, o, [g], f);
    assert [f][1..] == [] && [g][1..] == [];
    assert [f] + [g] == [f, g] && [g] + [f] == [g, f];
    IndependentSetsCommute(o, p.names, p.append, v, q.names, q.append, w);
  }

  // ---------- what a field's value is ----------

  /** The three literals and numbers are themselves, everything else is text. */
  lemma GuessedTypes(env: Environment, s: string)
    ensures GuessType(env, "true") == Truth(true) && GuessType(env, "false") == Truth(false)
    ensures GuessType(env, "null") == Nil
    ensures s !in {"true", "false", "null"} ==> GuessType(env, s) == if env.number(s) then Number(s) else Str(s)
  {
  }

  lemma {:induction false} NewlinesAreTrimmed(s: string, n: nat)
    requires s == "" || s[|s| - 1] != '\n'
    ensures TrimNewlines(s + seq(n, _ => '\n')) == s
  {
    var text := s + seq(n, _ => '\n');
    if n == 0 {
      assert text == s;
    } else {
      assert text[..|text| - 1] == s + seq(n - 1, _ => '\n');
      NewlinesAreTrimmed(s, n - 1);
    }
  }

  /** -f keeps its text whatever it looks like; -F guesses, and reads what follows an '@'. */
  lemma FieldValues(env: Environment, key: string, value: string)
    requires '=' !in key
    ensures KeyOf(Raw(key + "=" + value)) == KeyOf(Typed(key + "=" + value)) == key
    ensures Index(key + "=" + value, '=') == |key|
    ensures FieldValue(env, Raw(key + "=" + value)) == Ok(Str(value))
    ensures FieldValue(env, Typed(key + "=" + value)) ==
            if "@" <= value
            then (if env.read(value).None? then Err(Unreadable) else Ok(Str(TrimNewlines(env.read(value).value))))
            else Ok(GuessType(env, value))
  {
    var kv := key + "=" + value;
    assert kv == key + ("=" + value);
    IndexAfter(key, '=', "=" + value);
    assert kv[..|key|] == key && kv[|key| + 1..] == value;
  }

  // ---------- which keys are refused ----------

  /** Brackets must close the key, and must follow a name. */
  lemma RefusedKeys(name: string, tail: string)
    requires '[' !in name
    ensures tail == "" || tail[|tail| - 1] != ']' ==>
              ParseKey(name + ("[" + tail)) == Err(UnbalancedBrackets)
    ensures ParseKey("[" + tail + "]") == Err(NoName)
    ensures ParseKey(name) == Ok(Path([name], false))
  {
    var key := name + ("[" + tail);
    IndexAfter(name, '[', "[" + tail);
    assert key[|key| - 1] == (if tail == "" then '[' else tail[|tail| - 1]);
    var headless := "[" + tail + "]";
    assert headless[0] == '[' && headless[|headless| - 1] == ']';
  }

  /** A fault inside the brackets is the fault of the key. */
  lemma RefusedInside(name: string, inner: string)
    requires name != "" && '[' !in name && inner != "" && ParseKey(inner).Err?
    ensures ParseKey(name + "[" + inner + "]") == ParseKey(inner)
  {
    var key := name + "[" + inner + "]";
    assert key == name + ("[" + inner + "]");
    IndexAfter(name, '[', "[" + inner + "]");
    assert Inner(key) == inner;
  }

  /** The fields of a command line, raw ones first, each group as it was given. */
  lemma FieldsInOrder(raw: seq<string>, typed: seq<string>)
    ensures var given := RawFields(raw) + TypedFields(typed);
            && |given| == |raw| + |typed|
            && (forall i | 0 <= i < |raw| :: given[i] == Raw(raw[i]))
            && (forall i | 0 <= i < |typed| :: given[|raw| + i] == Typed(typed[i]))
  {
  }
}
