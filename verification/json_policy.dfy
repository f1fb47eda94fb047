/** Which strings the redactor shows, key by key, said of its output and of the policy alone
    (cmd/warmblyctl/remote_output.go). */
module JsonPolicy {
  import opened JsonDecode
  import opened JsonRedact
  import opened Percent

  // ---------- strings ----------

  lemma EmptyStaysEmpty(p: Policy, key: string)
    ensures Redact(p, key, String("")) == String("")
  {
  }

  /** What is shown under every key. */
  predicate Plain(p: Policy, s: string) {
    p.timestamp(s) || p.uuid(s) || s in p.enums
  }

  /** Shown as it is if `shown`, and otherwise the placeholder. */
  ghost predicate ShownIff(p: Policy, key: string, s: string, shown: bool) {
    Redact(p, key, String(s)) == String(if shown then s else "[REDACTED]")
  }

  /** Under an ordinary key: timestamps, UUIDs and the listed words. */
  lemma OrdinaryKey(p: Policy, key: string, s: string)
    requires s != ""
    requires key !in {"cursor", "next_cursor", "prev_cursor", "version", "topic", "topics", "consumer_group"}
    ensures ShownIff(p, key, s, Plain(p, s))
  {
  }

  /** Cursors of at most 512 bytes are shown besides. */
  lemma CursorKey(p: Policy, key: string, s: string)
    requires s != "" && key in {"cursor", "next_cursor", "prev_cursor"}
    ensures ShownIff(p, key, s, Plain(p, s) || (|Encode(s)| <= 512 && p.cursor(s)))
  {
    SizeIsEncodedLength(s);
  }

  lemma VersionKey(p: Policy, s: string)
    requires s != ""
    ensures ShownIff(p, "version", s, Plain(p, s) || p.semver(s))
  {
  }

  /** A UUID without capital letters, the form it prints in. */
  predicate Canonical(p: Policy, id: string) {
    p.uuid(id) && forall i | 0 <= i < |id| :: id[i] < 'A' || 'Z' < id[i]
  }

  /** The two fixed topics, and those of one worker. */
  lemma TopicKey(p: Policy, key: string, s: string)
    requires s != "" && key in {"topic", "topics", "consumer_group"}
    ensures ShownIff(p, key, s,
                     || Plain(p, s)
                     || s in {"jobs.worker-events", "consumer-group"}
                     || exists id :: Canonical(p, id) && s in {"w." + id, "worker-" + id})
  {
    if WorkerTopic(p, s) {
      if Prefixed("w.", s) && p.uuid(s[2..]) && Lower(s[2..]) {
        assert s == "w." + s[2..] && Canonical(p, s[2..]);
      } else if Prefixed("worker-", s) && p.uuid(s[7..]) && Lower(s[7..]) {
        assert s == "worker-" + s[7..] && Canonical(p, s[7..]);
      }
    }
    forall id | Canonical(p, id) && s in {"w." + id, "worker-" + id}
      ensures WorkerTopic(p, s)
    {
      assert ("w." + id)[2..] == id && ("worker-" + id)[7..] == id;
      assert "w." <= "w." + id && "worker-" <= "worker-" + id;
    }
  }

  // ---------- fields ----------

  /** The output has the listed fields of the input, and at most the counter beside them. */
  lemma OnlyListedFields(p: Policy, key: string, m: map<string, Value>, name: string)
    requires COUNTER !in p.fields && name != "_redacted_fields"
    ensures name in Redact(p, key, Object(m)).fields <==> name in m && name in p.fields
  {
    RedactedFields(p, key, Object(m));
  }

  /** The words of a monitoring sample's own vocabulary. */
  function Vocabulary(p: Policy, name: string): set<string> {
    match name
    case "id" => p.monitoringIds
    case "unit" => p.monitoringUnits
    case "severity" => {"info", "warning", "critical"}
    case "reason" => p.monitoringReasons
    case "version" => {"1"}
    case _ => {}
  }

  /** A text is shown if it is empty or in the vocabulary; anything else is the placeholder. */
  ghost predicate Monitored(p: Policy, name: string, before: Value, after: Value) {
    after == String(if before.String? && before.text in Vocabulary(p, name) + {""} then before.text else "[REDACTED]")
  }

  lemma VocabularyIsShown(p: Policy, name: string, v: Value)
    requires name in {"id", "unit", "severity", "reason", "version"}
    ensures Monitored(p, name, v, ShowMonitoring(p, name, v))
  {
  }

  lemma SlotIsMonitored(p: Policy, key: string, m: map<string, Value>, name: string)
    requires COUNTER !in p.fields && name in m && name in p.fields && Slot(key, name, m)
    ensures name in Redact(p, key, Object(m)).fields
    ensures Redact(p, key, Object(m)).fields[name] == ShowMonitoring(p, name, m[name])
  {
    RedactedFields(p, key, Object(m));
  }

  /** Inside `sources` and `metrics`, four fields have their own vocabulary. */
  lemma MonitoringSample(p: Policy, key: string, m: map<string, Value>, name: string)
    requires COUNTER !in p.fields && key in {"sources", "metrics"} && name in {"id", "unit", "severity", "reason"}
    requires name in m && name in p.fields
    ensures var out := Redact(p, key, Object(m)).fields; name in out && Monitored(p, name, m[name], out[name])
  {
    SlotIsMonitored(p, key, m, name);
    VocabularyIsShown(p, name, m[name]);
  }

  /** The version of a document is monitored if the document has sources. */
  lemma MonitoringVersion(p: Policy, m: map<string, Value>)
    requires COUNTER !in p.fields && "version" in m && "version" in p.fields
    requires "sources" in m && m["sources"] != Scalar(Null)
    ensures var out := Redact(p, "", Object(m)).fields;
            "version" in out && Monitored(p, "version", m["version"], out["version"])
  {
    SlotIsMonitored(p, "", m, "version");
    VocabularyIsShown(p, "version", m["version"]);
  }

  /** Every other field is redacted under its own name. */
  lemma OtherFields(p: Policy, key: string, m: map<string, Value>, name: string)
    requires COUNTER !in p.fields && name in m && name in p.fields
    requires !(key in {"sources", "metrics"} && name in {"id", "unit", "severity", "reason"})
    requires !(key == "" && name == "version" && "sources" in m && m["sources"] != Scalar(Null))
    ensures var out := Redact(p, key, Object(m)).fields; name in out && out[name] == Redact(p, name, m[name])
  {
    RedactedFields(p, key, Object(m));
  }

  /** Items are redacted under the key of their array; scalars are shown. */
  lemma ItemsAndScalars(p: Policy, key: string, v: Value)
    ensures v.Scalar? ==> Redact(p, key, v) == v
    ensures v.Array? ==>
              var out := Redact(p, key, v);
              && out.Array? && |out.items| == |v.items|
              && forall i | 0 <= i < |v.items| :: out.items[i] == Redact(p, key, v.items[i])
  {
  }
}
