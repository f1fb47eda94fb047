/** The body of a resource command (cmd/cli/resources.go): flags are assigned into one
    object, -f and -F fields into another, and the second is laid over the first name by
    name. */
module EndpointBody {
  import opened Wrappers
  import opened Text
  import opened FieldAssign
  import opened FieldObject

  /** A flag that was given: its key, its value, and whether it goes into the query. */
  datatype Flag = Flag(key: string, value: Json, query: bool)

  datatype Mode = NoBody | Optional | Required

  datatype Payload = Nothing | Empty | Literal(text: string) | Encoded(body: Obj)

  datatype BodyError = BadField(error: Failure) | InputAndFields | InvalidJson | NeedsBody

  /** Flag values are text, numbers, booleans and lists of words. */
  predicate FlagValue(v: Json) {
    !v.Map? && !v.List?
  }

  function FlagFold(o: Object, flags: seq<Flag>): Result<Object, Failure>
    decreases |flags|
  {
    if flags == [] then Ok(o)
    else if flags[0].query then FlagFold(o, flags[1..])
    else
      var next :- AssignAt(o, flags[0].key, flags[0].value);
      FlagFold(next, flags[1..])
  }

  /** The last flag of a key is the one in the query. */
  function Query(flags: seq<Flag>): map<string, Json> {
    if flags == [] then map[]
    else
      var f := flags[|flags| - 1];
      if f.query then Query(flags[..|flags| - 1])[f.key := f.value] else Query(flags[..|flags| - 1])
  }

  lemma {:induction false} FlagFoldOneMore(o: Object, flags: seq<Flag>, f: Flag)
    ensures FlagFold(o, flags + [f]) ==
            match FlagFold(o, flags)
            case Err(e) => Err(e)
            case Ok(p) => if f.query then Ok(p) else AssignAt(p, f.key, f.value)
    decreases |flags|
  {
    if flags == [] {
      assert flags + [f] == [f] && [f][1..] == [];
    } else {
      assert (flags + [f])[0] == flags[0] && (flags + [f])[1..] == flags[1..] + [f];
      if flags[0].query {
        FlagFoldOneMore(o, flags[1..], f);
      } else if AssignAt(o, flags[0].key, flags[0].value).Ok? {
        FlagFoldOneMore(AssignAt(o, flags[0].key, flags[0].value).value, flags[1..], f);
      }
    }
  }

  lemma {:induction false} FlagFoldFailsAt(o: Object, flags: seq<Flag>, i: nat)
    requires i <= |flags| && FlagFold(o, flags[..i]).Err?
    ensures FlagFold(o, flags) == FlagFold(o, flags[..i])
    decreases |flags| - i
  {
    if i == |flags| {
      assert flags[..i] == flags;
    } else {
      FlagFoldOneMore(o, flags[..i], flags[i]);
      assert flags[..i] + [flags[i]] == flags[..i + 1];
      FlagFoldFailsAt(o, flags, i + 1);
    }
  }

  method ReadFlags(flags: seq<Flag>, body: Obj) returns (query: map<string, Json>, failed: Option<Failure>)
    requires body.Valid() && forall f | f in flags :: FlagValue(f.value)
    modifies body.Repr
    ensures body.Valid() && fresh(body.Repr - old(body.Repr))
    ensures match FlagFold(old(body.Contents()), flags)
            case Err(e) => failed == Some(e)
            case Ok(o) => failed == None && body.Contents() == o && query == Query(flags)
  {
    ghost var was := body.Contents();
    query := map[];
    for i := 0 to |flags|
      invariant body.Valid() && fresh(body.Repr - old(body.Repr))
      invariant FlagFold(was, flags[..i]) == Ok(body.Contents()) && query == Query(flags[..i])
    {
      var f := flags[i];
      FlagFoldOneMore(was, flags[..i], f);
      assert flags[..i] + [f] == flags[..i + 1] && flags[..i + 1][..i] == flags[..i];
      if f.query {
        query := query[f.key := f.value];
        continue;
      }
      failed := body.Assign(f.key, f.value);
      if failed.Some? {
        FlagFoldFailsAt(was, flags, i + 1);
        return;
      }
    }
    assert flags[..|flags|] == flags;
    failed := None;
  }

  /** The loop over the fields' names, in whatever order the map yields them. */
  method OverlayNames(body: Obj, over: Obj)
    requires body != over
    modifies body
    ensures body.fields == old(body.fields) + over.fields && body.Repr == old(body.Repr) + over.Repr
  {
    ghost var was := body.fields;
    var todo := over.fields.Keys;
    while todo != {}
      invariant todo <= over.fields.Keys && body.Repr == old(body.Repr)
      invariant body.fields == was + map k | k in over.fields && k !in todo :: over.fields[k]
      decreases todo
    {
      var k :| k in todo;
      todo := todo - {k};
      body.fields := body.fields[k := over.fields[k]];
    }
    assert body.fields == was + over.fields;
    body.Repr := body.Repr + over.Repr;
  }

  /** Two trees under one root, apart from each other, are a tree. */
  lemma TreesJoin(body: Obj, over: Obj, was: map<string, Slot>, repr: set<object>)
    requires body.fields == was + over.fields && body.Repr == repr + over.Repr
    requires over.Valid() && repr !! over.Repr && body in repr
    requires forall k | k in was && was[k].Sub? ::
               && was[k].child in repr && was[k].child.Repr < repr
               && body !in was[k].child.Repr && was[k].child.Valid()
    requires forall k, l | k in was && l in was && k != l && was[k].Sub? && was[l].Sub? ::
               was[k].child.Repr !! was[l].child.Repr
    requires forall k | k in was && was[k].Leaf? :: !was[k].value.Map? && !was[k].value.List?
    ensures body.Valid()
  {
  }

  /** The body takes over the nested objects of the fields. */
  method Overlay(body: Obj, over: Obj)
    requires body.Valid() && over.Valid() && body.Repr !! over.Repr
    modifies body
    ensures body.Valid() && body.Repr == old(body.Repr) + over.Repr
    ensures body.Contents() == old(body.Contents()) + old(over.Contents())
  {
    ghost var was, repr := body.fields, body.Repr;
    OverlayNames(body, over);
    TreesJoin(body, over, was, repr);
    assert forall k | k in was && was[k].Sub? :: was[k].child.Contents() == old(was[k].child.Contents());
    assert forall k | k in over.fields :: body.Held(k) == over.Held(k);
  }

  /** What is known before the payload is chosen: query, --input, and the merged body. */
  function Prepared(flags: seq<Flag>, input: Result<Option<string>, Failure>, raw: seq<string>, typed: seq<string>,
                    env: Environment): Result<(map<string, Json>, Option<string>, Object), BodyError>
  {
    match FlagFold(map[], flags)
    case Err(e) => Err(BadField(e))
    case Ok(given) =>
      if input.Err? then Err(BadField(input.error))
      else
        match Fold(env, map[], RawFields(raw) + TypedFields(typed))
        case Err(e) => Err(BadField(e))
        case Ok(laid) => Ok((Query(flags), input.value, given + laid))
  }

  /** Flags, then --input, then fields. */
  method Prepare(flags: seq<Flag>, input: Result<Option<string>, Failure>, raw: seq<string>, typed: seq<string>,
                 env: Environment) returns (r: Result<(map<string, Json>, Option<string>, Obj), BodyError>)
    requires forall f | f in flags :: FlagValue(f.value)
    ensures match Prepared(flags, input, raw, typed, env)
            case Err(e) => r == Err(e)
            case Ok((query, text, o)) =>
              r.Ok? && r.value.0 == query && r.value.1 == text && r.value.2.Valid() && r.value.2.Contents() == o
  {
    var body := new Obj();
    var query, failed := ReadFlags(flags, body);
    if failed.Some? {
      return Err(BadField(failed.value));
    }
    if input.Err? {
      return Err(BadField(input.error));
    }
    var built := BuildFields(raw, typed, env);
    if built.Err? {
      return Err(BadField(built.error));
    }
    if built.value.Some? {
      Overlay(body, built.value.value);
    }
    return Ok((query, input.value, body));
  }

  /** A literal body excludes every other part. */
  method BuildBody(flags: seq<Flag>, input: Result<Option<string>, Failure>, raw: seq<string>, typed: seq<string>,
                   mode: Mode, isGet: bool, env: Environment, valid: string -> bool)
      returns (r: Result<(map<string, Json>, Payload), BodyError>)
    requires forall f | f in flags :: FlagValue(f.value)
    ensures match Prepared(flags, input, raw, typed, env)
            case Err(e) => r == Err(e)
            case Ok((query, text, o)) => Chosen(r, query, text, o, mode, isGet, valid)
    ensures r.Ok? && r.value.1.Encoded? ==>
              var over := RawFields(raw) + TypedFields(typed);
              && FlagFold(map[], flags).Ok? && Fold(env, map[], over).Ok? && r.value.1.body.Valid()
              && forall q | q != [] :: SentAt(env, flags, over, q, r.value.1.body.Contents())
  {
    forall q: seq<string> | q != [] && Prepared(flags, input, raw, typed, env).Ok? {
      PreparedIsSent(flags, input, raw, typed, env, q);
    }
    var ready := Prepare(flags, input, raw, typed, env);
    if ready.Err? {
      return Err(ready.error);
    }
    r := Choose(ready.value.2, ready.value.0, ready.value.1, mode, isGet, valid);
  }

  method Choose(body: Obj, query: map<string, Json>, text: Option<string>, mode: Mode, isGet: bool,
                valid: string -> bool)
      returns (r: Result<(map<string, Json>, Payload), BodyError>)
    requires body.Valid()
    ensures Chosen(r, query, text, body.Contents(), mode, isGet, valid)
  {
    assert body.fields == map[] <==> body.Contents() == map[];
    if text.Some? && |body.fields| > 0 {
      return Err(InputAndFields);
    } else if text.Some? {
      return if valid(text.value) then Ok((query, Literal(text.value))) else Err(InvalidJson);
    } else if |body.fields| > 0 {
      return Ok((query, Encoded(body)));
    } else if mode.Required? {
      return Err(NeedsBody);
    } else if mode.Optional? && !isGet {
      return Ok((query, Empty));
    }
    return Ok((query, Nothing));
  }

  ghost predicate Chosen(r: Result<(map<string, Json>, Payload), BodyError>, query: map<string, Json>,
                         text: Option<string>, body: Object, mode: Mode, isGet: bool, valid: string -> bool)
    reads *
  {
    if text.Some? then
      if body != map[] then r == Err(InputAndFields)
      else r == (if valid(text.value) then Ok((query, Literal(text.value))) else Err(InvalidJson))
    else if body != map[] then
      && r.Ok? && r.value.0 == query && r.value.1.Encoded?
      && r.value.1.body.Valid() && r.value.1.body.Contents() == body
    else if mode.Required? then r == Err(NeedsBody)
    else r == Ok((query, if mode.Optional? && !isGet then Empty else Nothing))
  }

  // ---------- what laying over does to the flags ----------

  function PathOf(f: Field): seq<string>
    requires ParseKey(KeyOf(f)).Ok?
  {
    ParseKey(KeyOf(f)).value.names
  }

  predicate Parsed(given: seq<Field>) {
    forall f | f in given :: ParseKey(KeyOf(f)).Ok?
  }

  predicate Touches(given: seq<Field>, name: string)
    requires Parsed(given)
  {
    exists f | f in given :: PathOf(f)[0] == name
  }

  lemma FoldParses(env: Environment, o: Object, given: seq<Field>)
    requires Fold(env, o, given).Ok?
    ensures Parsed(given)
    decreases |given|
  {
    if given == [] {
    } else {
      FoldParses(env, Apply(env, o, given[0]).value, given[1..]);
      forall f | f in given
        ensures ParseKey(KeyOf(f)).Ok?
      {
        if f != given[0] {
          assert f in given[1..];
        }
      }
    }
  }

  /** The fields' object has exactly the names the fields begin with. */
  lemma {:induction false} NamesOfFold(env: Environment, o: Object, given: seq<Field>, name: string)
    requires Parsed(given) && Fold(env, o, given).Ok?
    ensures name in Fold(env, o, given).value <==> name in o || Touches(given, name)
    decreases |given|
  {
    if given == [] {
    } else {
      var next := Apply(env, o, given[0]).value;
      assert Parsed(given[1..]);
      NamesOfFold(env, next, given[1..], name);
      assert name in next <==> name in o || name == PathOf(given[0])[0];
      assert Touches(given, name) <==> PathOf(given[0])[0] == name || Touches(given[1..], name) by {
        assert given == [given[0]] + given[1..];
      }
    }
  }

  lemma {:induction false} FoldLeavesOthers(env: Environment, o: Object, given: seq<Field>, q: seq<string>)
    requires Parsed(given) && Fold(env, o, given).Ok? && q != []
    requires forall f | f in given :: Independent(PathOf(f), q)
    ensures Lookup(Fold(env, o, given).value, q) == Lookup(o, q)
    decreases |given|
  {
    if given == [] {
    } else {
      var next := Apply(env, o, given[0]).value;
      FoldLeavesOthers(env, next, given[1..], q);
      var path := ParseKey(KeyOf(given[0])).value;
      assert given[0] in given;
      SetLeavesOthers(o, path.names, path.append, FieldValue(env, given[0]).value, q);
    }
  }

  /** A value a flag put at a path no field writes reaches the server if and only if no field
      begins with the same name, because only the outermost names are merged. */
  lemma FlagSurvives(env: Environment, given: Object, over: seq<Field>, q: seq<string>)
    requires Parsed(over) && Fold(env, map[], over).Ok? && q != [] && Lookup(given, q).Some?
    requires forall f | f in over :: Independent(PathOf(f), q)
    ensures var sent := Lookup(given + Fold(env, map[], over).value, q);
            if Touches(over, q[0]) then sent == None else sent == Lookup(given, q)
  {
    var laid := Fold(env, map[], over).value;
    NamesOfFold(env, map[], over, q[0]);
    FoldLeavesOthers(env, map[], over, q);
    NothingInEmpty(q);
    if q[0] in laid {
      assert Lookup(given + laid, q) == Lookup(laid, q);
    } else {
      assert Lookup(given + laid, q) == Lookup(given, q);
    }
  }

  /** A flag that writes s[t]. */
  function NestedFlag(s: string, t: string, value: Json): Flag {
    Flag(ShowPath([s, t], false), value, false)
  }

  /** -f s[u]=text. */
  function NestedField(s: string, u: string, text: string): Field {
    Raw(ShowPath([s, u], false) + ("=" + text))
  }

  lemma NestedFlagIsSet(s: string, t: string, value: Json)
    requires Writable([s, t], false)
    ensures var given := FlagFold(map[], [NestedFlag(s, t, value)]);
            given == Ok(SetAt(map[], [s, t], false, value)) && Lookup(given.value, [s, t]) == Some(value)
  {
    var flags := [NestedFlag(s, t, value)];
    ParseShown([s, t], false);
    assert flags[1..] == [];
    SetIsFound(map[], [s, t], value);
  }

  lemma NestedFieldIsSet(env: Environment, s: string, u: string, text: string)
    requires Writable([s, u], false) && '=' !in s && '=' !in u
    ensures KeyOf(NestedField(s, u, text)) == ShowPath([s, u], false)
    ensures Fold(env, map[], [NestedField(s, u, text)]) == Ok(SetAt(map[], [s, u], false, Str(text)))
  {
    var f := NestedField(s, u, text);
    var key := ShowPath([s, u], false);
    assert [s, u][1..] == [u] && ShowPath([u], false) == u;
    assert key == s + "[" + u + "]";
    IndexAfter(key, '=', "=" + text);
    assert f.kv[|key| + 1..] == text;
    ParseShown([s, u], false);
    assert [f][1..] == [];
  }

  /** A flag that writes s[t], together with -f s[u]=text: both are accepted, and of the two
      only the field is sent. */
  lemma FlagIsDropped(env: Environment, s: string, t: string, u: string, value: Json, text: string)
    requires Writable([s, t], false) && Writable([s, u], false) && '=' !in s && '=' !in u && t != u
    ensures var given := FlagFold(map[], [NestedFlag(s, t, value)]);
            var laid := Fold(env, map[], [NestedField(s, u, text)]);
            && given.Ok? && laid.Ok? && Lookup(given.value, [s, t]) == Some(value)
            && Lookup(given.value + laid.value, [s, t]) == None
            && Lookup(given.value + laid.value, [s, u]) == Some(Str(text))
  {
    NestedFlagIsSet(s, t, value);
    NestedFieldIsSet(env, s, u, text);
    ParseShown([s, u], false);
    var over := [NestedField(s, u, text)];
    assert PathOf(over[0]) == [s, u];
    assert [s, u][1] != [s, t][1];
    FlagSurvives(env, FlagFold(map[], [NestedFlag(s, t, value)]).value, over, [s, t]);
    SetIsFound(map[], [s, u], Str(text));
  }

  /** Whatever the fields say wins over the flags. */
  lemma FieldsWin(env: Environment, given: Object, over: seq<Field>, q: seq<string>)
    requires Fold(env, map[], over).Ok? && q != [] && Lookup(Fold(env, map[], over).value, q).Some?
    ensures Lookup(given + Fold(env, map[], over).value, q) == Lookup(Fold(env, map[], over).value, q)
  {
  }

  // ---------- what the command sends ----------

  /** At the path: what the fields set, or else what the flags set, unless a field begins with
      the same name. */
  ghost predicate SentAt(env: Environment, flags: seq<Flag>, over: seq<Field>, q: seq<string>, sent: Object)
    requires q != [] && FlagFold(map[], flags).Ok? && Fold(env, map[], over).Ok?
  {
    var given, laid := FlagFold(map[], flags).value, Fold(env, map[], over).value;
    && (Lookup(laid, q).Some? ==> Lookup(sent, q) == Lookup(laid, q))
    && (Lookup(given, q).Some? && Parsed(over) && (forall f | f in over :: Independent(PathOf(f), q)) ==>
          Lookup(sent, q) == if Touches(over, q[0]) then None else Lookup(given, q))
  }

  lemma PreparedIsSent(flags: seq<Flag>, input: Result<Option<string>, Failure>, raw: seq<string>, typed: seq<string>,
                       env: Environment, q: seq<string>)
    requires q != [] && Prepared(flags, input, raw, typed, env).Ok?
    ensures var over := RawFields(raw) + TypedFields(typed);
            && FlagFold(map[], flags).Ok? && Fold(env, map[], over).Ok?
            && SentAt(env, flags, over, q, Prepared(flags, input, raw, typed, env).value.2)
  {
    var over := RawFields(raw) + TypedFields(typed);
    var given := FlagFold(map[], flags).value;
    if Lookup(Fold(env, map[], over).value, q).Some? {
      FieldsWin(env, given, over, q);
    }
    if Lookup(given, q).Some? && Parsed(over) && forall f | f in over :: Independent(PathOf(f), q) {
      FlagSurvives(env, given, over, q);
    }
  }

  /** In the query, the last flag of a key counts. */
  lemma {:induction false} LastFlagWins(flags: seq<Flag>, i: nat)
    requires i < |flags| && flags[i].query
    requires forall j | i < j < |flags| :: !(flags[j].query && flags[j].key == flags[i].key)
    ensures flags[i].key in Query(flags) && Query(flags)[flags[i].key] == flags[i].value
    decreases |flags|
  {
    if i == |flags| - 1 {
    } else {
      LastFlagWins(flags[..|flags| - 1], i);
    }
  }

  lemma {:induction false} OnlyQueryFlags(flags: seq<Flag>, key: string)
    ensures key in Query(flags) <==> exists i :: 0 <= i < |flags| && flags[i].query && flags[i].key == key
  {
    if flags == [] {
    } else {
      var last := |flags| - 1;
      OnlyQueryFlags(flags[..last], key);
      assert forall i | 0 <= i < last :: flags[..last][i] == flags[i];
    }
  }

  /** A literal body goes out as it is, and only alone; a required one must be there. */
  lemma LiteralGoesAlone(r: Result<(map<string, Json>, Payload), BodyError>, query: map<string, Json>,
                         text: Option<string>, body: Object, mode: Mode, isGet: bool, valid: string -> bool)
    requires Chosen(r, query, text, body, mode, isGet, valid)
    ensures r.Err? <==>
              || (text.Some? && (body != map[] || !valid(text.value)))
              || (text.None? && body == map[] && mode == Required)
    ensures r.Ok? && text.Some? ==> r.value.1 == Literal(text.value)
    ensures r.Ok? && text.None? ==> (r.value.1.Encoded? <==> body != map[])
    ensures r.Ok? && text.None? && body == map[] ==> (r.value.1 == Empty <==> mode == Optional && !isGet)
    ensures r.Ok? ==> r.value.0 == query
  {
  }
}
