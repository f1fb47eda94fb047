/** `redactRemoteJSON` of cmd/warmblyctl/remote_output.go: only allow-listed fields and
    recognisably harmless strings leave the program. */
module JsonRedact {
  import opened JsonDecode
  import opened Percent

  const REDACTED := "[REDACTED]"
  const COUNTER := "_redacted_fields"

  /** The word lists, and the parsers of other packages as yes or no. */
  datatype Policy = Policy(
    fields: set<string>,
    enums: set<string>,
    monitoringIds: set<string>,
    monitoringUnits: set<string>,
    monitoringReasons: set<string>,
    cursor: string -> bool,
    timestamp: string -> bool,
    uuid: string -> bool,
    semver: string -> bool)

  /** What the source's lists make true: the counter is not an allowed field, `sources`
      is, and the placeholder passes no test. */
  predicate Sound(p: Policy) {
    && COUNTER !in p.fields && "sources" in p.fields
    && REDACTED !in p.enums && REDACTED !in p.monitoringIds
    && REDACTED !in p.monitoringUnits && REDACTED !in p.monitoringReasons
    && !p.cursor(REDACTED) && !p.timestamp(REDACTED) && !p.uuid(REDACTED) && !p.semver(REDACTED)
  }

  predicate Prefixed(prefix: string, s: string) {
    prefix <= s
  }

  /** The suffix test wants the canonical lower-case form, which `uuid` alone does not. */
  predicate WorkerTopic(p: Policy, s: string) {
    || s == "jobs.worker-events"
    || s == "consumer-group"
    || (Prefixed("w.", s) && p.uuid(s[2..]) && Lower(s[2..]))
    || (Prefixed("worker-", s) && p.uuid(s[7..]) && Lower(s[7..]))
  }

  predicate Lower(s: string) {
    forall i | 0 <= i < |s| :: !('A' <= s[i] <= 'Z')
  }

  predicate Safe(p: Policy, key: string, s: string) {
    || (key in {"cursor", "next_cursor", "prev_cursor"} && Size(s) <= 512 && p.cursor(s))
    || p.timestamp(s)
    || p.uuid(s)
    || s in p.enums
    || (key == "version" && p.semver(s))
    || (key in {"topic", "topics", "consumer_group"} && WorkerTopic(p, s))
  }

  predicate SafeMonitoring(p: Policy, name: string, s: string) {
    match name
    case "id" => s in p.monitoringIds
    case "unit" => s in p.monitoringUnits
    case "severity" => s in {"info", "warning", "critical"}
    case "reason" => s in p.monitoringReasons
    case "version" => s == "1"
    case _ => false
  }

  function ShowString(p: Policy, key: string, s: string): string {
    if s == "" || Safe(p, key, s) then s else REDACTED
  }

  function ShowMonitoring(p: Policy, name: string, v: Value): Value {
    match v
    case String(s) => String(if s == "" || SafeMonitoring(p, name, s) then s else REDACTED)
    case _ => String(REDACTED)
  }

  predicate HasSources(m: map<string, Value>) {
    "sources" in m && m["sources"] != Scalar(Null)
  }

  /** The fields of monitoring samples and of a monitoring document. */
  predicate Slot(key: string, name: string, m: map<string, Value>) {
    || (key in {"sources", "metrics"} && name in {"id", "unit", "severity", "reason"})
    || (key == "" && name == "version" && HasSources(m))
  }

  function Dropped(p: Policy, m: map<string, Value>): set<string> {
    m.Keys - p.fields
  }

  function Counted(kept: map<string, Value>, dropped: nat): map<string, Value> {
    if dropped > 0 then kept[COUNTER := Scalar(Integer(dropped))] else kept
  }

  function RedactField(p: Policy, key: string, o: Value, name: string): Value
    requires o.Object? && name in o.fields
    decreases o, 0
  {
    if Slot(key, name, o.fields) then ShowMonitoring(p, name, o.fields[name]) else Redact(p, name, o.fields[name])
  }

  function Kept(p: Policy, key: string, o: Value): map<string, Value>
    requires o.Object?
    decreases o, 1
  {
    map name | name in o.fields && name in p.fields :: RedactField(p, key, o, name)
  }

  function Redact(p: Policy, key: string, v: Value): Value
    decreases v, 2
  {
    match v
    case Object(m) => Object(Counted(Kept(p, key, v), |Dropped(p, m)|))
    case Array(items) => Array(seq(|items|, i requires 0 <= i < |items| => Redact(p, key, items[i])))
    case String(s) => String(ShowString(p, key, s))
    case Scalar(l) => v
  }

  // ---------- nothing unsafe is shown ----------

  /** At every depth: a string is empty, the placeholder, or passes the test of its own
      place; a field is allowed, or the counter. */
  predicate Displayable(p: Policy, key: string, v: Value)
    decreases v, 1
  {
    match v
    case String(s) => s in {"", REDACTED} || Safe(p, key, s)
    case Scalar(_) => true
    case Array(items) => forall i | 0 <= i < |items| :: Displayable(p, key, items[i])
    case Object(m) => forall name | name in m :: DisplayableField(p, key, v, name)
  }

  predicate DisplayableField(p: Policy, key: string, o: Value, name: string)
    requires o.Object? && name in o.fields
    decreases o, 0
  {
    var v := o.fields[name];
    if name == COUNTER then v.Scalar?
    else
      && name in p.fields
      && (if Slot(key, name, o.fields) then v.String? && (v.text in {"", REDACTED} || SafeMonitoring(p, name, v.text))
          else Displayable(p, name, v))
  }

  lemma CountedFields(kept: map<string, Value>, dropped: set<string>)
    requires COUNTER !in kept
    ensures var out := Counted(kept, |dropped|);
            && out.Keys == kept.Keys + (if dropped == {} then {} else {COUNTER})
            && (forall name | name in kept :: out[name] == kept[name])
            && (dropped != {} ==> out[COUNTER] == Scalar(Integer(|dropped|)))
  {
    assert dropped != {} ==> |dropped| > 0;
  }

  /** The fields of a redacted object. */
  lemma RedactedFields(p: Policy, key: string, o: Value)
    requires COUNTER !in p.fields && o.Object?
    ensures var out := Redact(p, key, o).fields;
            && out.Keys == o.fields.Keys * p.fields + (if Dropped(p, o.fields) == {} then {} else {COUNTER})
            && (forall name | name in o.fields && name in p.fields :: out[name] == RedactField(p, key, o, name))
            && (Dropped(p, o.fields) != {} ==> out[COUNTER] == Scalar(Integer(|Dropped(p, o.fields)|)))
  {
    var kept := Kept(p, key, o);
    assert kept.Keys == o.fields.Keys * p.fields;
    CountedFields(kept, Dropped(p, o.fields));
  }

  /** Redaction neither adds nor removes the field that marks a monitoring document. */
  lemma SlotsSurvive(p: Policy, key: string, o: Value, name: string)
    requires Sound(p) && o.Object?
    ensures Slot(key, name, Redact(p, key, o).fields) == Slot(key, name, o.fields)
  {
    RedactedFields(p, key, o);
    assert "sources" in Redact(p, key, o).fields <==> "sources" in o.fields;
    if "sources" in o.fields {
      assert !Slot(key, "sources", o.fields);
      assert Redact(p, key, o).fields["sources"] == Redact(p, "sources", o.fields["sources"]);
    }
  }

  lemma FieldIsDisplayable(p: Policy, key: string, o: Value, name: string)
    requires Sound(p) && o.Object? && name in Redact(p, key, o).fields
    requires name in o.fields && name in p.fields && !Slot(key, name, o.fields) ==>
               Displayable(p, name, Redact(p, name, o.fields[name]))
    ensures DisplayableField(p, key, Redact(p, key, o), name)
  {
    RedactedFields(p, key, o);
    SlotsSurvive(p, key, o, name);
  }

  lemma {:induction false} OutputIsDisplayable(p: Policy, key: string, v: Value)
    requires Sound(p)
    ensures Displayable(p, key, Redact(p, key, v))
    decreases v
  {
    match v
    case Object(m) =>
      forall name | name in Redact(p, key, v).fields
        ensures DisplayableField(p, key, Redact(p, key, v), name)
      {
        if name in m && name in p.fields && !Slot(key, name, m) {
          OutputIsDisplayable(p, name, m[name]);
        }
        FieldIsDisplayable(p, key, v, name);
      }
    case Array(items) =>
      forall i | 0 <= i < |items|
        ensures Displayable(p, key, Redact(p, key, items[i]))
      {
        OutputIsDisplayable(p, key, items[i]);
      }
    case _ =>
  }

  // ---------- nothing is lost uncounted ----------

  lemma Sizes(m: map<string, Value>, out: map<string, Value>, shown: set<string>, dropped: set<string>)
    requires m.Keys == shown + dropped && shown !! dropped && COUNTER !in shown
    requires out.Keys == shown + (if dropped == {} then {} else {COUNTER})
    ensures if dropped == {} then |out| == |m| else |dropped| > 0 && |m| == |out| - 1 + |dropped|
  {
    assert |m| == |m.Keys| && |out| == |out.Keys|;
  }

  /** Fields shown and fields counted add up to the fields there were. */
  ghost predicate Conserved(before: map<string, Value>, out: map<string, Value>) {
    if COUNTER in out
    then |before| > |out| - 1 && out[COUNTER] == Scalar(Integer(|before| - (|out| - 1)))
    else |out| == |before|
  }

  lemma FieldsAreConserved(p: Policy, key: string, o: Value)
    requires COUNTER !in p.fields && o.Object?
    ensures Conserved(o.fields, Redact(p, key, o).fields)
  {
    var before, out, dropped := o.fields, Redact(p, key, o).fields, Dropped(p, o.fields);
    RedactedFields(p, key, o);
    SetSplits(before.Keys, p.fields);
    CountsAddUp(before, out, before.Keys * p.fields, dropped);
  }

  lemma SetSplits(all: set<string>, allowed: set<string>)
    ensures all == all * allowed + (all - allowed) && all * allowed !! (all - allowed)
  {
  }

  lemma CountsAddUp(before: map<string, Value>, out: map<string, Value>, shown: set<string>, dropped: set<string>)
    requires before.Keys == shown + dropped && shown !! dropped && COUNTER !in shown
    requires out.Keys == shown + (if dropped == {} then {} else {COUNTER})
    requires dropped != {} ==> out[COUNTER] == Scalar(Integer(|dropped|))
    ensures Conserved(before, out)
  {
    Sizes(before, out, shown, dropped);
  }

  lemma ArraysKeepTheirLength(p: Policy, key: string, items: seq<Value>)
    ensures |Redact(p, key, Array(items)).items| == |items|
  {
  }

  // ---------- redacting again ----------

  lemma MonitoringIsIdempotent(p: Policy, name: string, v: Value)
    ensures ShowMonitoring(p, name, ShowMonitoring(p, name, v)) == ShowMonitoring(p, name, v)
  {
  }

  /** Of an output only the counter is dropped. */
  lemma OutputDrops(p: Policy, m: map<string, Value>, keys: set<string>)
    requires COUNTER !in p.fields
    requires m.Keys == keys * p.fields || m.Keys == keys * p.fields + {COUNTER}
    ensures Dropped(p, m) == if COUNTER in m then {COUNTER} else {}
    ensures m.Keys * p.fields + Dropped(p, m) == m.Keys
  {
  }

  /** Redacting an output: the same fields, and any counter becomes one. */
  lemma AgainKeys(p: Policy, key: string, o: Value)
    requires Sound(p) && o.Object?
    ensures var once := Redact(p, key, o).fields; var again := Redact(p, key, Redact(p, key, o)).fields;
            && again.Keys == once.Keys
            && (COUNTER in again ==> again[COUNTER] == Scalar(Integer(1)))
  {
    var once := Redact(p, key, o);
    RedactedFields(p, key, o);
    OutputDrops(p, once.fields, o.fields.Keys);
    RedactedFields(p, key, once);
  }

  /** Each other field is redacted again in its place. */
  lemma AgainField(p: Policy, key: string, o: Value, name: string)
    requires Sound(p) && o.Object? && name in o.fields && name in p.fields
    ensures var once := Redact(p, key, o);
            && name in once.fields && name in Redact(p, key, once).fields
            && once.fields[name] == RedactField(p, key, o, name)
            && Redact(p, key, once).fields[name] ==
               if Slot(key, name, o.fields) then RedactField(p, key, o, name)
               else Redact(p, name, Redact(p, name, o.fields[name]))
  {
    var once := Redact(p, key, o);
    RedactedFields(p, key, o);
    RedactedFields(p, key, once);
    SlotsSurvive(p, key, o, name);
    MonitoringIsIdempotent(p, name, o.fields[name]);
  }

  lemma OutputNames(p: Policy, key: string, o: Value, name: string)
    requires Sound(p) && o.Object? && name in Redact(p, key, o).fields && name != COUNTER
    ensures name in o.fields && name in p.fields
  {
    RedactedFields(p, key, o);
  }

  lemma {:induction false} ThriceIsTwice(p: Policy, key: string, v: Value)
    requires Sound(p)
    ensures Redact(p, key, Redact(p, key, Redact(p, key, v))) == Redact(p, key, Redact(p, key, v))
    decreases v
  {
    match v
    case Object(m) =>
      forall name | name in m && name in p.fields && !Slot(key, name, m)
        ensures Redact(p, name, Redact(p, name, Redact(p, name, m[name]))) == Redact(p, name, Redact(p, name, m[name]))
      {
        ThriceIsTwice(p, name, m[name]);
      }
      ThirdTimeOnObject(p, key, v);
    case Array(items) =>
      var twice := Redact(p, key, Redact(p, key, v));
      forall i | 0 <= i < |items|
        ensures Redact(p, key, twice.items[i]) == twice.items[i]
      {
        ThriceIsTwice(p, key, items[i]);
      }
    case _ =>
  }

  lemma ThirdTimeOnObject(p: Policy, key: string, o: Value)
    requires Sound(p) && o.Object?
    requires forall name | name in o.fields && name in p.fields && !Slot(key, name, o.fields) ::
               Redact(p, name, Redact(p, name, Redact(p, name, o.fields[name]))) ==
                 Redact(p, name, Redact(p, name, o.fields[name]))
    ensures Redact(p, key, Redact(p, key, Redact(p, key, o))) == Redact(p, key, Redact(p, key, o))
  {
    var once := Redact(p, key, o);
    var twice := Redact(p, key, once);
    var thrice := Redact(p, key, twice);
    AgainKeys(p, key, o);
    AgainKeys(p, key, once);
    forall name | name in twice.fields
      ensures thrice.fields[name] == twice.fields[name]
    {
      if name != COUNTER {
        OutputNames(p, key, o, name);
        AgainField(p, key, o, name);
        AgainField(p, key, once, name);
        SlotsSurvive(p, key, o, name);
      }
    }
    assert thrice.fields == twice.fields;
  }

  /** Every object that is shown drops at most one field. */
  predicate DropsAtMostOne(p: Policy, key: string, v: Value)
    decreases v
  {
    match v
    case Object(m) =>
      && |Dropped(p, m)| <= 1
      && forall name | name in m && name in p.fields && !Slot(key, name, m) :: DropsAtMostOne(p, name, m[name])
    case Array(items) => forall i | 0 <= i < |items| :: DropsAtMostOne(p, key, items[i])
    case _ => true
  }

  /** Once is enough exactly when no object drops two fields. */
  lemma {:induction false} TwiceIsOnce(p: Policy, key: string, v: Value)
    requires Sound(p)
    ensures Redact(p, key, Redact(p, key, v)) == Redact(p, key, v) <==> DropsAtMostOne(p, key, v)
    decreases v
  {
    match v
    case Object(m) =>
      forall name | name in m && name in p.fields && !Slot(key, name, m)
        ensures Redact(p, name, Redact(p, name, m[name])) == Redact(p, name, m[name]) <==>
                DropsAtMostOne(p, name, m[name])
      {
        TwiceIsOnce(p, name, m[name]);
      }
      SecondTimeOnObject(p, key, v);
    case Array(items) =>
      var once := Redact(p, key, v);
      var twice := Redact(p, key, once);
      forall i | 0 <= i < |items|
        ensures twice.items[i] == once.items[i] <==> DropsAtMostOne(p, key, items[i])
      {
        TwiceIsOnce(p, key, items[i]);
      }
      if DropsAtMostOne(p, key, v) {
        assert twice.items == once.items;
      }
    case _ =>
  }

  ghost predicate FieldsStabilise(p: Policy, key: string, o: Value)
    requires o.Object?
  {
    forall name | name in o.fields && name in p.fields && !Slot(key, name, o.fields) ::
      Redact(p, name, Redact(p, name, o.fields[name])) == Redact(p, name, o.fields[name]) <==>
        DropsAtMostOne(p, name, o.fields[name])
  }

  lemma StableCount(p: Policy, key: string, o: Value)
    requires Sound(p) && o.Object? && |Dropped(p, o.fields)| <= 1 && COUNTER in Redact(p, key, o).fields
    ensures var once := Redact(p, key, o);
            COUNTER in Redact(p, key, once).fields && Redact(p, key, once).fields[COUNTER] == once.fields[COUNTER]
  {
    AgainKeys(p, key, o);
    RedactedFields(p, key, o);
    assert Dropped(p, o.fields) != {} && |Dropped(p, o.fields)| == 1;
  }

  lemma StableField(p: Policy, key: string, o: Value, name: string)
    requires Sound(p) && o.Object? && FieldsStabilise(p, key, o) && DropsAtMostOne(p, key, o)
    requires name in Redact(p, key, o).fields && name != COUNTER
    ensures var once := Redact(p, key, o);
            name in Redact(p, key, once).fields && Redact(p, key, once).fields[name] == once.fields[name]
  {
    OutputNames(p, key, o, name);
    AgainField(p, key, o, name);
  }

  lemma SameMaps(a: map<string, Value>, b: map<string, Value>)
    requires a.Keys == b.Keys && forall name | name in a :: b[name] == a[name]
    ensures a == b
  {
  }

  lemma StableObject(p: Policy, key: string, o: Value)
    requires Sound(p) && o.Object? && FieldsStabilise(p, key, o) && DropsAtMostOne(p, key, o)
    ensures Redact(p, key, Redact(p, key, o)) == Redact(p, key, o)
  {
    var a, b := Redact(p, key, o).fields, Redact(p, key, Redact(p, key, o)).fields;
    assert Redact(p, key, o) == Object(a) && Redact(p, key, Redact(p, key, o)) == Object(b);
    forall name | name in a
      ensures name in b && b[name] == a[name]
    {
      if name == COUNTER {
        StableCount(p, key, o);
      } else {
        StableField(p, key, o, name);
      }
    }
    AgainKeys(p, key, o);
    SameMaps(a, b);
  }

  lemma UnstableField(p: Policy, key: string, o: Value, name: string)
    requires Sound(p) && o.Object? && name in o.fields && name in p.fields && !Slot(key, name, o.fields)
    requires Redact(p, name, Redact(p, name, o.fields[name])) != Redact(p, name, o.fields[name])
    ensures Redact(p, key, Redact(p, key, o)) != Redact(p, key, o)
  {
    AgainField(p, key, o, name);
    assert Redact(p, key, Redact(p, key, o)).fields[name] != Redact(p, key, o).fields[name];
  }

  lemma UnstableCount(p: Policy, key: string, o: Value)
    requires Sound(p) && o.Object? && |Dropped(p, o.fields)| > 1
    ensures Redact(p, key, Redact(p, key, o)) != Redact(p, key, o)
  {
    AgainKeys(p, key, o);
    RedactedFields(p, key, o);
    assert Redact(p, key, Redact(p, key, o)).fields[COUNTER] != Redact(p, key, o).fields[COUNTER];
  }

  lemma SecondTimeOnObject(p: Policy, key: string, o: Value)
    requires Sound(p) && o.Object? && FieldsStabilise(p, key, o)
    ensures Redact(p, key, Redact(p, key, o)) == Redact(p, key, o) <==> DropsAtMostOne(p, key, o)
  {
    if DropsAtMostOne(p, key, o) {
      StableObject(p, key, o);
    } else if |Dropped(p, o.fields)| > 1 {
      UnstableCount(p, key, o);
    } else {
      var name :| name in o.fields && name in p.fields && !Slot(key, name, o.fields)
        && !DropsAtMostOne(p, name, o.fields[name]);
      UnstableField(p, key, o, name);
    }
  }

  // ---------- exactly what the output reveals ----------

  predicate HiddenString(p: Policy, key: string, s: string) {
    s != "" && !Safe(p, key, s)
  }

  predicate HiddenSample(p: Policy, name: string, v: Value) {
    !v.String? || (v.text != "" && !SafeMonitoring(p, name, v.text))
  }

  predicate SameSample(p: Policy, name: string, v: Value, w: Value) {
    v == w || (HiddenSample(p, name, v) && HiddenSample(p, name, w))
  }

  /** The two documents differ only in dropped fields, not their number, in unsafe
      strings, and in what stands in a monitoring slot. */
  predicate SameView(p: Policy, key: string, v: Value, w: Value)
    decreases v
  {
    match v
    case String(s) => w.String? && (s == w.text || (HiddenString(p, key, s) && HiddenString(p, key, w.text)))
    case Scalar(_) => v == w
    case Array(items) =>
      w.Array? && |items| == |w.items| && forall i | 0 <= i < |items| :: SameView(p, key, items[i], w.items[i])
    case Object(m) =>
      && w.Object?
      && |Dropped(p, m)| == |Dropped(p, w.fields)|
      && m.Keys * p.fields == w.fields.Keys * p.fields
      && forall name | name in m && name in p.fields && name in w.fields :: SameField(p, key, v, w, name)
  }

  predicate SameField(p: Policy, key: string, v: Value, w: Value, name: string)
    requires v.Object? && w.Object? && name in v.fields && name in w.fields
    decreases v, 0
  {
    && Slot(key, name, v.fields) == Slot(key, name, w.fields)
    && (if Slot(key, name, v.fields) then SameSample(p, name, v.fields[name], w.fields[name])
        else SameView(p, name, v.fields[name], w.fields[name]))
  }

  lemma SampleReveals(p: Policy, name: string, v: Value, w: Value)
    requires Sound(p)
    ensures ShowMonitoring(p, name, v) == ShowMonitoring(p, name, w) <==> SameSample(p, name, v, w)
  {
  }

  lemma StringReveals(p: Policy, key: string, s: string, t: string)
    requires Sound(p)
    ensures !Safe(p, key, REDACTED)
    ensures ShowString(p, key, s) == ShowString(p, key, t) <==>
            s == t || (HiddenString(p, key, s) && HiddenString(p, key, t))
  {
    assert REDACTED[0] == '[';
  }

  /** Two documents have the same output if and only if they have the same view. */
  lemma {:induction false} OutputRevealsTheView(p: Policy, key: string, v: Value, w: Value)
    requires Sound(p)
    ensures Redact(p, key, v) == Redact(p, key, w) <==> SameView(p, key, v, w)
    decreases v
  {
    match v
    case String(s) =>
      if w.String? {
        StringReveals(p, key, s, w.text);
      }
    case Scalar(_) =>
    case Array(items) =>
      if w.Array? {
        ArraysKeepTheirLength(p, key, items);
        ArraysKeepTheirLength(p, key, w.items);
      }
      if w.Array? && |items| == |w.items| {
        var a, b := Redact(p, key, v).items, Redact(p, key, w).items;
        assert Redact(p, key, v) == Array(a) && Redact(p, key, w) == Array(b);
        forall i | 0 <= i < |items|
          ensures a[i] == b[i] <==> SameView(p, key, items[i], w.items[i])
        {
          OutputRevealsTheView(p, key, items[i], w.items[i]);
        }
        assert a == b <==> forall i | 0 <= i < |items| :: a[i] == b[i];
      }
    case Object(m) =>
      if w.Object? {
        forall name | name in m && name in w.fields && name in p.fields
                      && Slot(key, name, m) == Slot(key, name, w.fields)
          ensures RedactField(p, key, v, name) == RedactField(p, key, w, name) <==> SameField(p, key, v, w, name)
        {
          if Slot(key, name, m) {
            SampleReveals(p, name, m[name], w.fields[name]);
          } else {
            OutputRevealsTheView(p, name, m[name], w.fields[name]);
          }
        }
        if SameView(p, key, v, w) {
          SameViewSameObject(p, key, v, w);
        }
        if Redact(p, key, v) == Redact(p, key, w) {
          SameObjectSameView(p, key, v, w);
        }
      }
  }

  ghost predicate FieldsReveal(p: Policy, key: string, v: Value, w: Value)
    requires v.Object? && w.Object?
  {
    forall name | name in v.fields && name in w.fields && name in p.fields
                  && Slot(key, name, v.fields) == Slot(key, name, w.fields) ::
      RedactField(p, key, v, name) == RedactField(p, key, w, name) <==> SameField(p, key, v, w, name)
  }

  lemma SameViewSameObject(p: Policy, key: string, v: Value, w: Value)
    requires v.Object? && w.Object? && FieldsReveal(p, key, v, w)
    requires SameView(p, key, v, w)
    ensures Redact(p, key, v) == Redact(p, key, w)
  {
    var a, b := Kept(p, key, v), Kept(p, key, w);
    assert a.Keys == v.fields.Keys * p.fields && b.Keys == w.fields.Keys * p.fields;
    forall name | name in a
      ensures a[name] == b[name]
    {
      assert name in v.fields.Keys * p.fields;
      assert SameField(p, key, v, w, name);
    }
    assert a == b;
  }

  lemma SameFieldShown(p: Policy, key: string, v: Value, w: Value, name: string)
    requires Sound(p) && v.Object? && w.Object? && Redact(p, key, v) == Redact(p, key, w)
    requires name in v.fields && name in w.fields && name in p.fields
    ensures Slot(key, name, v.fields) == Slot(key, name, w.fields)
    ensures RedactField(p, key, v, name) == RedactField(p, key, w, name)
  {
    RedactedFields(p, key, v);
    RedactedFields(p, key, w);
    SlotsSurvive(p, key, v, name);
    SlotsSurvive(p, key, w, name);
  }

  lemma SameObjectSameView(p: Policy, key: string, v: Value, w: Value)
    requires Sound(p) && v.Object? && w.Object? && FieldsReveal(p, key, v, w)
    requires Redact(p, key, v) == Redact(p, key, w)
    ensures SameView(p, key, v, w)
  {
    RedactedFields(p, key, v);
    RedactedFields(p, key, w);
    var out := Redact(p, key, v).fields;
    assert v.fields.Keys * p.fields == out.Keys - {COUNTER} == w.fields.Keys * p.fields;
    forall name | name in v.fields && name in p.fields && name in w.fields
      ensures SameField(p, key, v, w, name)
    {
      SameFieldShown(p, key, v, w, name);
    }
  }

  // ---------- the loop over a map, in any order ----------

  /** The fields shown once all but `todo` have been visited. */
  function KeptBut(p: Policy, key: string, o: Value, todo: set<string>): map<string, Value>
    requires o.Object?
  {
    map name | name in o.fields && name in p.fields && name !in todo :: RedactField(p, key, o, name)
  }

  lemma VisitShown(p: Policy, key: string, o: Value, todo: set<string>, name: string)
    requires o.Object? && name in todo && name in o.fields && name in p.fields
    ensures KeptBut(p, key, o, todo - {name}) == KeptBut(p, key, o, todo)[name := RedactField(p, key, o, name)]
    ensures Dropped(p, o.fields) - (todo - {name}) == Dropped(p, o.fields) - todo
  {
  }

  lemma VisitDropped(p: Policy, key: string, o: Value, todo: set<string>, name: string)
    requires o.Object? && name in todo && name in o.fields && name !in p.fields
    ensures KeptBut(p, key, o, todo - {name}) == KeptBut(p, key, o, todo)
    ensures |Dropped(p, o.fields) - (todo - {name})| == |Dropped(p, o.fields) - todo| + 1
  {
    assert Dropped(p, o.fields) - (todo - {name}) == (Dropped(p, o.fields) - todo) + {name};
  }

  lemma VisitedAll(p: Policy, key: string, o: Value)
    requires o.Object?
    ensures KeptBut(p, key, o, {}) == Kept(p, key, o)
    ensures Dropped(p, o.fields) - {} == Dropped(p, o.fields)
  {
  }

  method RedactObject(p: Policy, key: string, o: Value) returns (out: Value)
    requires o.Object?
    ensures out == Redact(p, key, o)
    decreases o, 0
  {
    var fields: map<string, Value> := map[];
    var redacted := 0;
    var todo := o.fields.Keys;
    while todo != {}
      invariant todo <= o.fields.Keys
      invariant fields == KeptBut(p, key, o, todo)
      invariant redacted == |Dropped(p, o.fields) - todo|
      decreases todo
    {
      var name :| name in todo;
      if name !in p.fields {
        VisitDropped(p, key, o, todo, name);
        redacted := redacted + 1;
      } else if Slot(key, name, o.fields) {
        VisitShown(p, key, o, todo, name);
        fields := fields[name := ShowMonitoring(p, name, o.fields[name])];
      } else {
        VisitShown(p, key, o, todo, name);
        var item := RedactValue(p, name, o.fields[name]);
        fields := fields[name := item];
      }
      todo := todo - {name};
    }
    VisitedAll(p, key, o);
    if redacted > 0 {
      fields := fields[COUNTER := Scalar(Integer(redacted))];
    }
    return Object(fields);
  }

  method RedactArray(p: Policy, key: string, a: Value) returns (out: Value)
    requires a.Array?
    ensures out == Redact(p, key, a)
    decreases a, 0
  {
    var items: seq<Value> := [];
    for i := 0 to |a.items|
      invariant |items| == i && forall j | 0 <= j < i :: items[j] == Redact(p, key, a.items[j])
    {
      var item := RedactValue(p, key, a.items[i]);
      items := items + [item];
    }
    return Array(items);
  }

  method RedactValue(p: Policy, key: string, v: Value) returns (out: Value)
    ensures out == Redact(p, key, v)
    decreases v, 1
  {
    match v
    case Object(_) => out := RedactObject(p, key, v);
    case Array(_) => out := RedactArray(p, key, v);
    case String(s) => out := String(ShowString(p, key, s));
    case Scalar(_) => out := v;
  }
}
