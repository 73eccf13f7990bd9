/** Workload admission: stamping a managed object with its lease, and checking the stamp at CREATE. */
module Binding {
  import opened Wrappers
  import opened Json

  const MANAGED_LEASE := "berth.skaphos.io/managed-lease"
  const MANAGED_UID := "berth.skaphos.io/managed-lease-uid"
  const GATE := "berth.skaphos.io/lease-held"

  const METADATA := "metadata"
  const ANNOTATIONS := "annotations"
  const LABELS := "labels"
  const KIND := "kind"
  const SPEC := "spec"
  const TEMPLATE := "template"
  const JOB_TEMPLATE := "jobTemplate"
  const GATES := "schedulingGates"
  const NODE_NAME := "nodeName"

  const POD := "Pod"
  const CRON_JOB := "CronJob"
  const DEPLOYMENT := "Deployment"

  datatype Bound = Bound(name: string, uid: string)

  // ---------- Stamping ----------

  function Annotations(m: Fields): map<string, string> { NestedTexts(m, [METADATA, ANNOTATIONS]) }

  function Labels(m: Fields): map<string, string> { NestedTexts(m, [METADATA, LABELS]) }

  /** The binding in the annotations and labels of one object. */
  function Stamped(m: Fields, b: Bound): Fields {
    var o := SetTexts(m, [METADATA, ANNOTATIONS], Annotations(m)[MANAGED_LEASE := b.name][MANAGED_UID := b.uid]);
    SetTexts(o, [METADATA, LABELS], Labels(o)[MANAGED_UID := b.uid])
  }

  function Kind(m: Fields): string { NestedString(m, [KIND]) }

  function TemplatePath(kind: string): seq<string> {
    if kind == CRON_JOB then [SPEC, JOB_TEMPLATE, SPEC, TEMPLATE]
    else if kind == POD then []
    else [SPEC, TEMPLATE]
  }

  predicate IsGate(g: Json) { g.Obj? && "name" in g.fields && g.fields["name"] == Str(GATE) }

  predicate Gated(gates: seq<Json>) { exists i :: 0 <= i < |gates| && IsGate(gates[i]) }

  function WithGate(gates: seq<Json>): seq<Json> {
    if Gated(gates) then gates else gates + [Obj(map["name" := Str(GATE)])]
  }

  /** The template with its gate, unless its gates are malformed or cannot be set. */
  function GateTemplate(t: Fields): Option<Fields> {
    match NestedSlice(t, [SPEC, GATES])
    case Wrong => None
    case Missing => SetNested(t, [SPEC, GATES], Arr(WithGate([])))
    case Found(gates) => SetNested(t, [SPEC, GATES], Arr(WithGate(gates)))
  }

  function StampJobTemplate(o: Fields, b: Bound): Option<Fields> {
    match NestedMap(o, [SPEC, JOB_TEMPLATE])
    case Wrong => None
    case Missing => SetNested(o, [SPEC, JOB_TEMPLATE], Obj(Stamped(map[], b)))
    case Found(raw) => SetNested(o, [SPEC, JOB_TEMPLATE], Obj(Stamped(raw, b)))
  }

  /** The object with its binding at every level and the gate on its Pod template, or an error. */
  function Stamp(obj: Fields, b: Bound): Option<Fields> {
    var o := Stamped(obj, b);
    var path := TemplatePath(Kind(o));
    if path == [] then GateTemplate(o)
    else
      var raw := NestedMap(o, path);
      if !raw.Found? then None
      else
        var t := GateTemplate(Stamped(raw.value, b));
        if t.None? then None
        else
          var p := SetNested(o, path, Obj(t.value));
          if p.None? || Kind(o) != CRON_JOB then p else StampJobTemplate(p.value, b)
  }

  // ---------- Checking ----------

  predicate ValidMetadata(m: Fields, b: Bound) {
    && At(Annotations(m), MANAGED_LEASE) == b.name && At(Annotations(m), MANAGED_UID) == b.uid
    && At(Labels(m), MANAGED_UID) == b.uid
  }

  predicate GateOn(t: Fields) {
    var gates := NestedSlice(t, [SPEC, GATES]);
    gates.Found? && Gated(gates.value)
  }

  function NodeName(t: Fields): string { NestedString(t, [SPEC, NODE_NAME]) }

  predicate ValidTemplate(t: Fields) { NodeName(t) == "" && GateOn(t) }

  /** What CREATE demands of a managed object. */
  predicate ValidManaged(obj: Fields, b: Bound) {
    && ValidMetadata(obj, b)
    && var path := TemplatePath(Kind(obj));
       && (if path == [] then ValidTemplate(obj)
           else
             var raw := NestedMap(obj, path);
             raw.Found? && ValidMetadata(raw.value, b) && ValidTemplate(raw.value))
       && (Kind(obj) == CRON_JOB ==>
             var raw := NestedMap(obj, [SPEC, JOB_TEMPLATE]);
             ValidMetadata(if raw.Found? then raw.value else map[], b))
  }

  // ---------- One object's metadata ----------

  /** Metadata can be written where there is none yet, or an object. */
  predicate Settable(m: Fields) { METADATA in m ==> m[METADATA].Obj? }

  function Meta(m: Fields): Fields
    requires Settable(m)
  {
    if METADATA in m then m[METADATA].fields else map[]
  }

  function TextsAt(m: Fields, k: string): map<string, string> {
    if k in m && m[k].Obj? && Textual(m[k].fields) then Texts(m[k].fields) else map[]
  }

  function StampedMeta(mm: Fields, b: Bound): Fields {
    mm[ANNOTATIONS := Obj(FromTexts(TextsAt(mm, ANNOTATIONS)[MANAGED_LEASE := b.name][MANAGED_UID := b.uid]))]
      [LABELS := Obj(FromTexts(TextsAt(mm, LABELS)[MANAGED_UID := b.uid]))]
  }

  lemma KeysDistinct()
    ensures METADATA != SPEC && METADATA != KIND && ANNOTATIONS != LABELS && SPEC != KIND && GATES != NODE_NAME
    ensures MANAGED_LEASE != MANAGED_UID && POD != CRON_JOB
  {
  }

  lemma TextsRead(m: Fields, k: string)
    ensures NestedTexts(m, [METADATA, k]) == if METADATA in m && m[METADATA].Obj? then TextsAt(m[METADATA].fields, k)
            else map[]
  {
    Follow2(m, METADATA, k);
  }

  /** Stamping changes the metadata alone, and nothing when it is not an object. */
  lemma StampedIs(m: Fields, b: Bound)
    ensures Stamped(m, b) == if Settable(m) then m[METADATA := Obj(StampedMeta(Meta(m), b))] else m
  {
    KeysDistinct();
    var a := Annotations(m)[MANAGED_LEASE := b.name][MANAGED_UID := b.uid];
    TextsRead(m, ANNOTATIONS);
    Set2(m, METADATA, ANNOTATIONS, Obj(FromTexts(a)));
    var o := SetTexts(m, [METADATA, ANNOTATIONS], a);
    TextsRead(o, LABELS);
    Set2(o, METADATA, LABELS, Obj(FromTexts(Labels(o)[MANAGED_UID := b.uid])));
    if Settable(m) {
      assert o == m[METADATA := Obj(Meta(m)[ANNOTATIONS := Obj(FromTexts(a))])];
      assert Labels(o) == TextsAt(Meta(m), LABELS);
    }
  }

  lemma StampedMetaTwice(mm: Fields, b: Bound)
    ensures StampedMeta(StampedMeta(mm, b), b) == StampedMeta(mm, b)
  {
    KeysDistinct();
    var a := TextsAt(mm, ANNOTATIONS)[MANAGED_LEASE := b.name][MANAGED_UID := b.uid];
    var l := TextsAt(mm, LABELS)[MANAGED_UID := b.uid];
    TextsRoundTrip(a);
    TextsRoundTrip(l);
    var r := StampedMeta(mm, b);
    assert TextsAt(r, ANNOTATIONS) == a && TextsAt(r, LABELS) == l;
    assert a[MANAGED_LEASE := b.name][MANAGED_UID := b.uid] == a;
    assert l[MANAGED_UID := b.uid] == l;
  }

  lemma StampedTwice(m: Fields, b: Bound)
    ensures Stamped(Stamped(m, b), b) == Stamped(m, b)
  {
    StampedIs(m, b);
    StampedIs(Stamped(m, b), b);
    if Settable(m) { StampedMetaTwice(Meta(m), b); }
  }

  /** A stamp is valid exactly where metadata could be written. */
  lemma StampedValid(m: Fields, b: Bound)
    requires b.uid != ""
    ensures ValidMetadata(Stamped(m, b), b) <==> Settable(m)
  {
    var o := Stamped(m, b);
    StampedIs(m, b);
    KeysDistinct();
    TextsRead(o, ANNOTATIONS);
    TextsRead(o, LABELS);
    if Settable(m) {
      TextsRoundTrip(TextsAt(Meta(m), ANNOTATIONS)[MANAGED_LEASE := b.name][MANAGED_UID := b.uid]);
      TextsRoundTrip(TextsAt(Meta(m), LABELS)[MANAGED_UID := b.uid]);
    }
  }

  /** Stamping and a change elsewhere commute. */
  lemma StampedElsewhere(m: Fields, k: string, v: Json, b: Bound)
    requires k != METADATA
    ensures Stamped(m[k := v], b) == Stamped(m, b)[k := v]
    ensures Settable(m[k := v]) <==> Settable(m)
  {
    StampedIs(m, b);
    StampedIs(m[k := v], b);
  }

  lemma MetadataElsewhere(m: Fields, k: string, v: Json, b: Bound)
    requires k != METADATA
    ensures ValidMetadata(m[k := v], b) <==> ValidMetadata(m, b)
  {
  }

  // ---------- One Pod template ----------

  function Spec(t: Fields): Fields { if SPEC in t && t[SPEC].Obj? then t[SPEC].fields else map[] }

  predicate Gateable(t: Fields) { (SPEC in t ==> t[SPEC].Obj?) && (GATES in Spec(t) ==> Spec(t)[GATES].Arr?) }

  function GatesOf(t: Fields): seq<Json> {
    if GATES in Spec(t) && Spec(t)[GATES].Arr? then Spec(t)[GATES].items else []
  }

  /** Gating changes the list of gates alone. */
  lemma GateIs(t: Fields)
    ensures GateTemplate(t) ==
            if Gateable(t) then Some(t[SPEC := Obj(Spec(t)[GATES := Arr(WithGate(GatesOf(t)))])]) else None
  {
    Follow2(t, SPEC, GATES);
    Set2(t, SPEC, GATES, Arr(WithGate(GatesOf(t))));
  }

  lemma WithGateGated(gates: seq<Json>)
    ensures Gated(WithGate(gates))
  {
    if !Gated(gates) { assert IsGate(WithGate(gates)[|gates|]); }
  }

  lemma NodeNameIs(t: Fields)
    ensures NodeName(t) == if NODE_NAME in Spec(t) && Spec(t)[NODE_NAME].Str? then Spec(t)[NODE_NAME].text else ""
  {
    Follow2(t, SPEC, NODE_NAME);
  }

  lemma GateOnce(t: Fields)
    requires GateTemplate(t).Some?
    ensures var u := GateTemplate(t).value;
            && SPEC in u && u == t[SPEC := u[SPEC]]
            && GateTemplate(u) == Some(u) && GateOn(u) && NodeName(u) == NodeName(t)
  {
    var u := GateTemplate(t).value;
    GateIs(t);
    GateIs(u);
    WithGateGated(GatesOf(t));
    KeysDistinct();
    NodeNameIs(t);
    NodeNameIs(u);
    Follow2(u, SPEC, GATES);
    assert Spec(u) == Spec(t)[GATES := Arr(WithGate(GatesOf(t)))];
    assert Spec(u)[GATES := Arr(WithGate(GatesOf(u)))] == Spec(u);
    assert u[SPEC := Obj(Spec(u))] == u;
  }

  lemma SpecUnstamped(m: Fields, b: Bound)
    ensures (SPEC in Stamped(m, b) <==> SPEC in m) && (SPEC in m ==> Stamped(m, b)[SPEC] == m[SPEC])
    ensures Kind(Stamped(m, b)) == Kind(m) && NodeName(Stamped(m, b)) == NodeName(m)
  {
  }

  /** A stamped and gated template: done twice it is the same, and it is valid exactly when it could be. */
  lemma TemplateOnce(raw: Fields, b: Bound)
    requires GateTemplate(Stamped(raw, b)).Some?
    ensures var t := GateTemplate(Stamped(raw, b)).value;
            && GateTemplate(Stamped(t, b)) == Some(t) && Stamped(t, b) == t && Kind(t) == Kind(raw)
            && (b.uid != "" ==> (ValidMetadata(t, b) <==> Settable(raw)))
            && (ValidTemplate(t) <==> NodeName(raw) == "")
  {
    var o := Stamped(raw, b);
    var t := GateTemplate(o).value;
    KeysDistinct();
    GateOnce(o);
    SpecUnstamped(raw, b);
    StampedTwice(raw, b);
    StampedElsewhere(o, SPEC, t[SPEC], b);
    MetadataElsewhere(o, SPEC, t[SPEC], b);
    if b.uid != "" { StampedValid(raw, b); }
    Follow1(t, KIND);
    Follow1(o, KIND);
  }

  // ---------- Whole objects ----------

  /** Metadata can be written at every level, and the template names no node. */
  predicate Prepared(obj: Fields) {
    var path := TemplatePath(Kind(obj));
    && Settable(obj)
    && (if path == [] then NodeName(obj) == ""
        else
          var raw := NestedMap(obj, path);
          raw.Found? && Settable(raw.value) && NodeName(raw.value) == "")
    && (Kind(obj) == CRON_JOB ==>
          var raw := NestedMap(obj, [SPEC, JOB_TEMPLATE]);
          raw.Found? && Settable(raw.value))
  }

  /** Below the spec nothing changes when an object is stamped. */
  lemma BelowSpec(m: Fields, b: Bound, rest: seq<string>)
    ensures NestedMap(Stamped(m, b), [SPEC] + rest) == NestedMap(m, [SPEC] + rest)
  {
  }

  /** A stamped object after its spec was replaced. */
  lemma Respecced(obj: Fields, b: Bound, q: Fields)
    requires SPEC in q && q == Stamped(obj, b)[SPEC := q[SPEC]]
    ensures Stamped(q, b) == q && Kind(q) == Kind(obj)
    ensures b.uid != "" ==> (ValidMetadata(q, b) <==> Settable(obj))
  {
    var o := Stamped(obj, b);
    KeysDistinct();
    StampedTwice(obj, b);
    StampedElsewhere(o, SPEC, q[SPEC], b);
    MetadataElsewhere(o, SPEC, q[SPEC], b);
    SpecUnstamped(obj, b);
    Follow1(o, KIND);
    Follow1(q, KIND);
    if b.uid != "" { StampedValid(obj, b); }
  }

  lemma PodOnce(obj: Fields, b: Bound)
    requires Kind(obj) == POD && Stamp(obj, b).Some?
    ensures Stamp(Stamp(obj, b).value, b) == Stamp(obj, b)
    ensures b.uid != "" ==> (ValidManaged(Stamp(obj, b).value, b) <==> Prepared(obj))
  {
    KeysDistinct();
    SpecUnstamped(obj, b);
    TemplateOnce(obj, b);
  }

  /** Objects whose Pod template sits directly in the spec: what the stamped object q holds, against the original. */
  lemma PlainParts(obj: Fields, b: Bound) returns (raw: Fields, t: Fields)
    requires Kind(obj) != POD && Kind(obj) != CRON_JOB && Stamp(obj, b).Some?
    ensures NestedMap(obj, [SPEC, TEMPLATE]) == Found(raw) && GateTemplate(Stamped(raw, b)) == Some(t)
    ensures var q := Stamp(obj, b).value;
            NestedMap(q, [SPEC, TEMPLATE]) == Found(t) && SPEC in q && q == Stamped(obj, b)[SPEC := q[SPEC]]
  {
    var path := [SPEC, TEMPLATE];
    assert path == [SPEC] + [TEMPLATE];
    SpecUnstamped(obj, b);
    BelowSpec(obj, b, [TEMPLATE]);
    raw := NestedMap(obj, path).value;
    t := GateTemplate(Stamped(raw, b)).value;
    SetFound(Stamped(obj, b), path, Obj(t));
  }

  lemma PlainOnce(obj: Fields, b: Bound)
    requires Kind(obj) != POD && Kind(obj) != CRON_JOB && Stamp(obj, b).Some?
    ensures Stamp(Stamp(obj, b).value, b) == Stamp(obj, b)
  {
    var raw, t := PlainParts(obj, b);
    var q := Stamp(obj, b).value;
    TemplateOnce(raw, b);
    Respecced(obj, b, q);
    PlainAgain(q, b, t);
  }

  lemma PlainAgain(q: Fields, b: Bound, t: Fields)
    requires Kind(q) != POD && Kind(q) != CRON_JOB && Stamped(q, b) == q && NestedMap(q, [SPEC, TEMPLATE]) == Found(t)
    requires GateTemplate(Stamped(t, b)) == Some(t)
    ensures Stamp(q, b) == Some(q)
  {
    SetSame(q, [SPEC, TEMPLATE], Obj(t));
  }

  lemma PlainValid(obj: Fields, b: Bound)
    requires b.uid != "" && Kind(obj) != POD && Kind(obj) != CRON_JOB && Stamp(obj, b).Some?
    ensures ValidManaged(Stamp(obj, b).value, b) <==> Prepared(obj)
  {
    var raw, t := PlainParts(obj, b);
    TemplateOnce(raw, b);
    Respecced(obj, b, Stamp(obj, b).value);
  }

  /** Where a CronJob keeps its two templates. */
  lemma CronJobPaths(m: Fields)
    requires NestedMap(m, [SPEC, JOB_TEMPLATE, SPEC, TEMPLATE]).Found?
    ensures NestedMap(m, [SPEC, JOB_TEMPLATE]).Found?
    ensures NestedMap(m, [SPEC, JOB_TEMPLATE, SPEC, TEMPLATE]) ==
            NestedMap(NestedMap(m, [SPEC, JOB_TEMPLATE]).value, [SPEC, TEMPLATE])
  {
    var jobs, inner := [SPEC, JOB_TEMPLATE], [SPEC, TEMPLATE];
    assert jobs + inner == [SPEC, JOB_TEMPLATE, SPEC, TEMPLATE];
    FollowPrefix(Obj(m), jobs, inner);
    FollowSplit(Obj(m), jobs, inner);
  }

  /** Writing the Pod template, then the job template around it. */
  lemma CronJobWrites(o: Fields, b: Bound, jt: Fields, t: Fields)
    requires NestedMap(o, [SPEC, JOB_TEMPLATE]) == Found(jt) && NestedMap(jt, [SPEC, TEMPLATE]).Found?
    ensures var jt' := SetNested(jt, [SPEC, TEMPLATE], Obj(t));
            && jt'.Some? && SPEC in jt'.value && jt'.value == jt[SPEC := jt'.value[SPEC]]
            && NestedMap(jt'.value, [SPEC, TEMPLATE]) == Found(t)
            && var p := SetNested(o, [SPEC, JOB_TEMPLATE, SPEC, TEMPLATE], Obj(t));
               && p.Some?
               && StampJobTemplate(p.value, b) == SetNested(o, [SPEC, JOB_TEMPLATE], Obj(Stamped(jt'.value, b)))
  {
    var jobs, inner := [SPEC, JOB_TEMPLATE], [SPEC, TEMPLATE];
    assert jobs + inner == [SPEC, JOB_TEMPLATE, SPEC, TEMPLATE];
    SetFound(jt, inner, Obj(t));
    var jt' := SetNested(jt, inner, Obj(t)).value;
    SetDeep(o, jobs, inner, Obj(t));
    SetFound(o, jobs, Obj(jt'));
    SetAgain(o, jobs, Obj(jt'), Obj(Stamped(jt', b)));
  }

  /** What a CronJob that can be stamped holds. */
  lemma CronJobFound(obj: Fields, b: Bound) returns (jt: Fields, raw: Fields, t: Fields)
    requires Kind(obj) == CRON_JOB && Stamp(obj, b).Some?
    ensures NestedMap(Stamped(obj, b), [SPEC, JOB_TEMPLATE]) == Found(jt)
            && NestedMap(jt, [SPEC, TEMPLATE]) == Found(raw)
    ensures GateTemplate(Stamped(raw, b)) == Some(t)
    ensures var p := SetNested(Stamped(obj, b), [SPEC, JOB_TEMPLATE, SPEC, TEMPLATE], Obj(t));
            p.Some? && Stamp(obj, b) == StampJobTemplate(p.value, b)
  {
    var o := Stamped(obj, b);
    SpecUnstamped(obj, b);
    CronJobPaths(o);
    jt := NestedMap(o, [SPEC, JOB_TEMPLATE]).value;
    raw := NestedMap(jt, [SPEC, TEMPLATE]).value;
    t := GateTemplate(Stamped(raw, b)).value;
  }

  /** What the stamped CronJob q holds (j, t), against what the original held (jt, raw). */
  lemma CronJobParts(obj: Fields, b: Bound) returns (jt: Fields, raw: Fields, j: Fields, t: Fields)
    requires Kind(obj) == CRON_JOB && Stamp(obj, b).Some?
    ensures NestedMap(Stamped(obj, b), [SPEC, JOB_TEMPLATE]) == Found(jt)
            && NestedMap(jt, [SPEC, TEMPLATE]) == Found(raw)
    ensures GateTemplate(Stamped(raw, b)) == Some(t)
    ensures SPEC in j && j == Stamped(jt, b)[SPEC := j[SPEC]] && Stamped(j, b) == j
    ensures var q := Stamp(obj, b).value;
            && NestedMap(q, [SPEC, JOB_TEMPLATE]) == Found(j)
            && NestedMap(q, [SPEC, JOB_TEMPLATE, SPEC, TEMPLATE]) == Found(t)
            && SPEC in q && q == Stamped(obj, b)[SPEC := q[SPEC]]
  {
    jt, raw, t := CronJobFound(obj, b);
    CronJobWrites(Stamped(obj, b), b, jt, t);
    var jt' := SetNested(jt, [SPEC, TEMPLATE], Obj(t)).value;
    j := Stamped(jt', b);
    CronJobLevel(jt, jt', b);
    CronJobHolds(Stamped(obj, b), Stamp(obj, b).value, j, jt', t, b);
  }

  lemma CronJobHolds(o: Fields, q: Fields, j: Fields, jt': Fields, t: Fields, b: Bound)
    requires NestedMap(o, [SPEC, JOB_TEMPLATE]).Found? && SetNested(o, [SPEC, JOB_TEMPLATE], Obj(j)) == Some(q)
    requires j == Stamped(jt', b) && NestedMap(jt', [SPEC, TEMPLATE]) == Found(t)
    ensures NestedMap(q, [SPEC, JOB_TEMPLATE]) == Found(j)
            && NestedMap(q, [SPEC, JOB_TEMPLATE, SPEC, TEMPLATE]) == Found(t)
    ensures SPEC in q && q == o[SPEC := q[SPEC]]
  {
    var jobs, inner := [SPEC, JOB_TEMPLATE], [SPEC, TEMPLATE];
    assert jobs + inner == [SPEC, JOB_TEMPLATE, SPEC, TEMPLATE] && inner == [SPEC] + [TEMPLATE];
    SetFound(o, jobs, Obj(j));
    BelowSpec(jt', b, [TEMPLATE]);
    FollowSplit(Obj(q), jobs, inner);
  }

  lemma CronJobLevel(jt: Fields, jt': Fields, b: Bound)
    requires SPEC in jt' && jt' == jt[SPEC := jt'[SPEC]]
    ensures var j := Stamped(jt', b); SPEC in j && j == Stamped(jt, b)[SPEC := j[SPEC]] && Stamped(j, b) == j
  {
    KeysDistinct();
    StampedElsewhere(jt, SPEC, jt'[SPEC], b);
    StampedTwice(jt', b);
    SpecUnstamped(jt', b);
  }

  lemma CronJobOnce(obj: Fields, b: Bound)
    requires Kind(obj) == CRON_JOB && Stamp(obj, b).Some?
    ensures Stamp(Stamp(obj, b).value, b) == Stamp(obj, b)
  {
    var jt, raw, j, t := CronJobParts(obj, b);
    var q := Stamp(obj, b).value;
    Respecced(obj, b, q);
    TemplateOnce(raw, b);
    CronJobAgain(q, b, j, t);
  }

  lemma CronJobChecks(q: Fields, b: Bound, j: Fields, t: Fields)
    requires Kind(q) == CRON_JOB && NestedMap(q, [SPEC, JOB_TEMPLATE]) == Found(j)
    requires NestedMap(q, [SPEC, JOB_TEMPLATE, SPEC, TEMPLATE]) == Found(t)
    ensures ValidManaged(q, b)
            <==> ValidMetadata(q, b) && ValidMetadata(t, b) && ValidTemplate(t) && ValidMetadata(j, b)
  {
  }

  lemma CronJobPrepared(obj: Fields, b: Bound, jt: Fields, raw: Fields)
    requires Kind(obj) == CRON_JOB && NestedMap(Stamped(obj, b), [SPEC, JOB_TEMPLATE]) == Found(jt)
             && NestedMap(jt, [SPEC, TEMPLATE]) == Found(raw)
    ensures Prepared(obj) <==> Settable(obj) && Settable(raw) && NodeName(raw) == "" && Settable(jt)
  {
    var jobs, inner := [SPEC, JOB_TEMPLATE], [SPEC, TEMPLATE];
    assert jobs + inner == [SPEC, JOB_TEMPLATE, SPEC, TEMPLATE] && jobs == [SPEC] + [JOB_TEMPLATE];
    BelowSpec(obj, b, [JOB_TEMPLATE]);
    FollowSplit(Obj(obj), jobs, inner);
  }

  lemma CronJobValid(obj: Fields, b: Bound)
    requires b.uid != "" && Kind(obj) == CRON_JOB && Stamp(obj, b).Some?
    ensures ValidManaged(Stamp(obj, b).value, b) <==> Prepared(obj)
  {
    var jt, raw, j, t := CronJobParts(obj, b);
    var q := Stamp(obj, b).value;
    Respecced(obj, b, q);
    Respecced(jt, b, j);
    TemplateOnce(raw, b);
    CronJobChecks(q, b, j, t);
    CronJobPrepared(obj, b, jt, raw);
  }

  /** Stamping an object that already has everything. */
  lemma CronJobAgain(q: Fields, b: Bound, jt: Fields, t: Fields)
    requires Kind(q) == CRON_JOB && Stamped(q, b) == q && Stamped(jt, b) == jt
    requires NestedMap(q, [SPEC, JOB_TEMPLATE]) == Found(jt)
             && NestedMap(q, [SPEC, JOB_TEMPLATE, SPEC, TEMPLATE]) == Found(t)
    requires GateTemplate(Stamped(t, b)) == Some(t)
    ensures Stamp(q, b) == Some(q)
  {
    SetSame(q, [SPEC, JOB_TEMPLATE, SPEC, TEMPLATE], Obj(t));
    SetSame(q, [SPEC, JOB_TEMPLATE], Obj(jt));
  }

  /** A successful stamp is idempotent, for every kind and whatever the object contains. */
  lemma StampIsIdempotent(obj: Fields, b: Bound)
    requires Stamp(obj, b).Some?
    ensures Stamp(Stamp(obj, b).value, b) == Stamp(obj, b)
  {
    if Kind(obj) == POD { PodOnce(obj, b); } else if Kind(obj) == CRON_JOB { CronJobOnce(obj, b); } else {
      PlainOnce(obj, b);
    }
  }

  /**
   Its result passes the CREATE check exactly when no level's metadata was in the way and the
   template names no node.
   */
  lemma StampIsValidIff(obj: Fields, b: Bound)
    requires b.uid != "" && Stamp(obj, b).Some?
    ensures ValidManaged(Stamp(obj, b).value, b) <==> Prepared(obj)
  {
    if Kind(obj) == POD { PodOnce(obj, b); } else if Kind(obj) == CRON_JOB { CronJobValid(obj, b); } else {
      PlainValid(obj, b);
    }
  }

  /** A Deployment with any metadata of its own, whose Pod template has null metadata. */
  function BareTemplate(meta: Fields): Fields {
    map[KIND := Str(DEPLOYMENT), METADATA := Obj(meta), SPEC := Obj(map[TEMPLATE := Obj(map[METADATA := Null])])]
  }

  lemma BareTemplateFound(meta: Fields, b: Bound)
    ensures Kind(BareTemplate(meta)) == DEPLOYMENT && Kind(Stamped(BareTemplate(meta), b)) == DEPLOYMENT
    ensures NestedMap(BareTemplate(meta), [SPEC, TEMPLATE]) == Found(map[METADATA := Null])
    ensures NestedMap(Stamped(BareTemplate(meta), b), [SPEC, TEMPLATE]) == Found(map[METADATA := Null])
  {
    var obj := BareTemplate(meta);
    KeysDistinct();
    Follow1(obj, KIND);
    SpecUnstamped(obj, b);
    Follow2(obj, SPEC, TEMPLATE);
    BelowSpec(obj, b, [TEMPLATE]);
    assert [SPEC] + [TEMPLATE] == [SPEC, TEMPLATE];
  }

  /** For that object the stamp reports success, yet its template is not bound. */
  lemma MetadataInTheWay(meta: Fields, b: Bound)
    requires b.uid != ""
    ensures Stamp(BareTemplate(meta), b).Some? && !ValidManaged(Stamp(BareTemplate(meta), b).value, b)
  {
    var obj, raw: Fields := BareTemplate(meta), map[METADATA := Null];
    KeysDistinct();
    BareTemplateFound(meta, b);
    StampedIs(raw, b);
    GateIs(raw);
    SetFound(Stamped(obj, b), [SPEC, TEMPLATE], Obj(GateTemplate(raw).value));
    StampIsValidIff(obj, b);
  }
}
