/** `assign` of cmd/cli/api.go on the objects it changes in place: nested maps are objects
    of their own, updated where they are. What a tree of objects holds is a value of
    FieldAssign, and assigning in place is setting that value at the path. */
module FieldObject {
  import opened Wrappers
  import opened Text
  import opened FieldAssign

  datatype Slot = Leaf(value: Json) | Items(items: seq<Json>) | Sub(child: Obj)

  class Obj {
    var fields: map<string, Slot>
    ghost var Repr: set<object>

    constructor ()
      ensures Valid() && fresh(Repr) && fields == map[]
    {
      fields, Repr := map[], {this};
    }

    /** A tree: children own their parts, apart from each other and from this object. */
    ghost predicate Valid()
      reads this, Repr
      ensures Valid() ==> this in Repr
      decreases Repr
    {
      && this in Repr
      && (forall k | k in fields && fields[k].Sub? ::
            && fields[k].child in Repr && fields[k].child.Repr < Repr
            && this !in fields[k].child.Repr && fields[k].child.Valid())
      && (forall k, l | k in fields && l in fields && k != l && fields[k].Sub? && fields[l].Sub? ::
            fields[k].child.Repr !! fields[l].child.Repr)
      && (forall k | k in fields && fields[k].Leaf? :: !fields[k].value.Map? && !fields[k].value.List?)
    }

    ghost function Contents(): Object
      requires Valid()
      reads this, Repr
      decreases Repr, 0
    {
      map k | k in fields :: Held(k)
    }

    ghost function Held(k: string): Json
      requires Valid() && k in fields
      reads this, Repr
      decreases Repr, 0, 0
    {
      match fields[k]
      case Leaf(v) => v
      case Items(items) => List(items)
      case Sub(child) => Map(child.Contents())
    }

    /** Every other name keeps its slot, and what the slot holds. */
    method Place(name: string, slot: Slot)
      requires Valid() && !slot.Sub? && (slot.Leaf? ==> !slot.value.Map? && !slot.value.List?)
      modifies this`fields
      ensures Valid() && Repr == old(Repr)
      ensures Contents() == old(Contents())[name := if slot.Leaf? then slot.value else List(slot.items)]
    {
      fields := fields[name := slot];
    }

    /** The object nested under the name; a new one replaces whatever else was there. */
    method Descend(name: string) returns (child: Obj)
      requires Valid()
      modifies this
      ensures Valid() && fresh(Repr - old(Repr))
      ensures name in fields && fields[name] == Sub(child)
      ensures child.Contents() == Nested(old(Contents()), name)
      ensures Contents() == old(Contents())[name := Map(child.Contents())]
    {
      if name in fields && fields[name].Sub? {
        child := fields[name].child;
        assert Held(name) == Map(child.Contents());
      } else {
        child := Nest(name);
      }
    }

    /** A new empty object under the name. */
    method Nest(name: string) returns (child: Obj)
      requires Valid()
      modifies this
      ensures Valid() && fresh(Repr - old(Repr))
      ensures name in fields && fields[name] == Sub(child)
      ensures child.Contents() == map[]
      ensures Contents() == old(Contents())[name := Map(map[])]
    {
      child := new Obj();
      fields := fields[name := Sub(child)];
      Repr := Repr + child.Repr;
    }

    method Assign(key: string, v: Json) returns (failed: Option<Failure>)
      requires Valid() && !v.Map? && !v.List?
      modifies Repr
      ensures Valid() && fresh(Repr - old(Repr))
      ensures (Contents(), failed) == Assigned(old(Contents()), key, v)
      decreases |key|, 0
    {
      var n := Index(key, '[');
      if n == |key| {
        AssignedPlain(Contents(), key, v);
        Place(key, Leaf(v));
        return None;
      }
      if !Closed(key) {
        return Some(UnbalancedBrackets);
      }
      if n == 0 {
        return Some(NoName);
      }
      var head, inner := key[..n], Inner(key);
      if inner == "" {
        var existing := if head in fields && fields[head].Items? then fields[head].items else [];
        AssignedAppend(Contents(), key, v);
        Place(head, Items(existing + [v]));
        return None;
      }
      AssignedBelow(Contents(), key, v);
      failed := AssignBelow(head, inner, v);
    }

    /** The rest of the key is for the nested object; nothing else is touched. */
    method AssignBelow(head: string, inner: string, v: Json) returns (failed: Option<Failure>)
      requires Valid() && !v.Map? && !v.List?
      modifies Repr
      ensures Valid() && fresh(Repr - old(Repr))
      ensures var (nested, f) := Assigned(Nested(old(Contents()), head), inner, v);
              failed == f && Contents() == old(Contents())[head := Map(nested)]
      decreases |inner|, 2
    {
      var child := Descend(head);
      failed := AssignInChild(head, child, inner, v);
    }

    method AssignInChild(head: string, child: Obj, inner: string, v: Json) returns (failed: Option<Failure>)
      requires Valid() && head in fields && fields[head] == Sub(child) && !v.Map? && !v.List?
      modifies Repr
      ensures Valid() && fresh(Repr - old(Repr))
      ensures var (nested, f) := Assigned(old(child.Contents()), inner, v);
              failed == f && Contents() == old(Contents())[head := Map(nested)]
      decreases |inner|, 1
    {
      failed := child.Assign(inner, v);
      Repr := Repr + child.Repr;
      // The siblings are apart from what changed.
      assert forall k | k in fields && k != head && fields[k].Sub? ::
        fields[k].child.Valid() && fields[k].child.Repr == old(fields[k].child.Repr)
        && fields[k].child.Contents() == old(fields[k].child.Contents());
    }
  }

  /** One -f or -F field, cut at its first '='. */
  method AddField(out: Obj, env: Environment, f: Field) returns (failed: Option<Failure>)
    requires out.Valid()
    modifies out.Repr
    ensures out.Valid() && fresh(out.Repr - old(out.Repr))
    ensures match Apply(env, old(out.Contents()), f)
            case Err(e) => failed == Some(e)
            case Ok(o) => failed == None && out.Contents() == o
  {
    var n := Index(f.kv, '=');
    if n == |f.kv| {
      return Some(NotKeyValue);
    }
    var v := FieldValue(env, f);
    if v.Err? {
      return Some(v.error);
    }
    failed := out.Assign(f.kv[..n], v.value);
  }

  method AddRaw(out: Obj, raw: seq<string>, env: Environment) returns (failed: Option<Failure>)
    requires out.Valid()
    modifies out.Repr
    ensures out.Valid() && fresh(out.Repr - old(out.Repr))
    ensures match Fold(env, old(out.Contents()), RawFields(raw))
            case Err(e) => failed == Some(e)
            case Ok(o) => failed == None && out.Contents() == o
  {
    ghost var given, was := RawFields(raw), out.Contents();
    for i := 0 to |raw|
      invariant out.Valid() && fresh(out.Repr - old(out.Repr))
      invariant Fold(env, was, given[..i]) == Ok(out.Contents())
    {
      FoldOneMore(env, was, given[..i], given[i]);
      assert given[..i + 1] == given[..i] + [given[i]];
      failed := AddField(out, env, Raw(raw[i]));
      if failed.Some? {
        FoldFailsAt(env, was, given, i);
        return;
      }
    }
    assert given[..|raw|] == given;
    failed := None;
  }

  method AddTyped(out: Obj, typed: seq<string>, env: Environment) returns (failed: Option<Failure>)
    requires out.Valid()
    modifies out.Repr
    ensures out.Valid() && fresh(out.Repr - old(out.Repr))
    ensures match Fold(env, old(out.Contents()), TypedFields(typed))
            case Err(e) => failed == Some(e)
            case Ok(o) => failed == None && out.Contents() == o
  {
    ghost var given, was := TypedFields(typed), out.Contents();
    for i := 0 to |typed|
      invariant out.Valid() && fresh(out.Repr - old(out.Repr))
      invariant Fold(env, was, given[..i]) == Ok(out.Contents())
    {
      FoldOneMore(env, was, given[..i], given[i]);
      assert given[..i + 1] == given[..i] + [given[i]];
      failed := AddField(out, env, Typed(typed[i]));
      if failed.Some? {
        FoldFailsAt(env, was, given, i);
        return;
      }
    }
    assert given[..|typed|] == given;
    failed := None;
  }

  /** All raw fields, then all typed ones, each in order; None is an empty body. */
  method BuildFields(raw: seq<string>, typed: seq<string>, env: Environment) returns (r: Result<Option<Obj>, Failure>)
    ensures match Fold(env, map[], RawFields(raw) + TypedFields(typed))
            case Err(e) => r == Err(e)
            case Ok(o) =>
              && r.Ok? && (r.value.None? <==> o == map[])
              && (r.value.Some? ==> r.value.value.Valid() && fresh(r.value.value.Repr) && r.value.value.Contents() == o)
  {
    var out := new Obj();
    FoldConcat(env, map[], RawFields(raw), TypedFields(typed));
    var failed := AddRaw(out, raw, env);
    if failed.Some? {
      return Err(failed.value);
    }
    failed := AddTyped(out, typed, env);
    if failed.Some? {
      return Err(failed.value);
    }
    assert out.fields == map[] <==> out.Contents() == map[];
    return Ok(if |out.fields| == 0 then None else Some(out));
  }
}
