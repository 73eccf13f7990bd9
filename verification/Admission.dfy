/** Workload admission on live objects: nested maps are edited in place, templates are copied out and written back. */
module Admission {
  import opened Wrappers
  import opened Json
  import opened Binding

  method HasGate(gates: seq<Json>) returns (found: bool)
    ensures found <==> Gated(gates)
  {
    found := false;
    for i := 0 to |gates|
      invariant found <==> exists j :: 0 <= j < i && IsGate(gates[j])
    {
      if gates[i].Obj? && "name" in gates[i].fields && gates[i].fields["name"] == Str(GATE) { found := true; }
    }
  }

  class Unstructured {
    var root: Fields

    constructor (m: Fields)
      ensures root == m
    {
      root := m;
    }

    method BindingMetadata(b: Bound)
      modifies this
      ensures root == Stamped(old(root), b)
    {
      var a := Annotations(root);
      a := a[MANAGED_LEASE := b.name];
      a := a[MANAGED_UID := b.uid];
      root := SetTexts(root, [METADATA, ANNOTATIONS], a);
      var labels := Labels(root);
      labels := labels[MANAGED_UID := b.uid];
      root := SetTexts(root, [METADATA, LABELS], labels);
    }

    /** Adds the scheduling gate unless it is there already. */
    method AddGate() returns (ok: bool)
      modifies this
      ensures ok <==> GateTemplate(old(root)).Some?
      ensures ok ==> root == GateTemplate(old(root)).value
    {
      var found := NestedSlice(root, [SPEC, GATES]);
      if found.Wrong? { return false; }
      var gates := if found.Found? then found.value else [];
      var there := HasGate(gates);
      if !there { gates := gates + [Obj(map["name" := Str(GATE)])]; }
      var done := SetNested(root, [SPEC, GATES], Arr(gates));
      if done.None? { return false; }
      root := done.value;
      ok := true;
    }

    /** The job template of a CronJob carries the binding as well. */
    method StampJob(b: Bound) returns (ok: bool)
      modifies this
      ensures ok <==> StampJobTemplate(old(root), b).Some?
      ensures ok ==> root == StampJobTemplate(old(root), b).value
    {
      var raw := NestedMap(root, [SPEC, JOB_TEMPLATE]);
      if raw.Wrong? { return false; }
      var jt := new Unstructured(if raw.Found? then raw.value else map[]);
      jt.BindingMetadata(b);
      var done := SetNested(root, [SPEC, JOB_TEMPLATE], Obj(jt.root));
      if done.None? { return false; }
      root := done.value;
      ok := true;
    }

    /**
     Stamps the object. A success is a fixed point of stamping, and it passes the CREATE check
     exactly when no level's metadata was in the way and the template names no node.
     */
    method StampBinding(b: Bound) returns (ok: bool)
      modifies this
      ensures ok <==> Stamp(old(root), b).Some?
      ensures ok ==> root == Stamp(old(root), b).value && Stamp(root, b) == Some(root)
      ensures ok && b.uid != "" ==> (ValidManaged(root, b) <==> Prepared(old(root)))
    {
      ghost var was := root;
      BindingMetadata(b);
      var kind := Kind(root);
      var path := TemplatePath(kind);
      if path == [] {
        ok := AddGate();
      } else {
        var raw := NestedMap(root, path);
        if !raw.Found? { return false; }
        var template := new Unstructured(raw.value);
        template.BindingMetadata(b);
        ok := template.AddGate();
        if !ok { return; }
        var done := SetNested(root, path, Obj(template.root));
        if done.None? { return false; }
        root := done.value;
        if kind == CRON_JOB { ok := StampJob(b); }
      }
      if ok {
        StampIsIdempotent(was, b);
        if b.uid != "" { StampIsValidIff(was, b); }
      }
    }

    method ValidateMetadata(b: Bound) returns (ok: bool)
      ensures ok <==> ValidMetadata(root, b)
    {
      ok := At(Annotations(root), MANAGED_LEASE) == b.name && At(Annotations(root), MANAGED_UID) == b.uid
            && At(Labels(root), MANAGED_UID) == b.uid;
    }

    method TemplateOk() returns (ok: bool)
      ensures ok <==> ValidTemplate(root)
    {
      if NodeName(root) != "" { return false; }
      var gates := NestedSlice(root, [SPEC, GATES]);
      ok := HasGate(if gates.Found? then gates.value else []);
    }

    /** The check of a managed object at CREATE. */
    method ValidateManagedObject(b: Bound) returns (ok: bool)
      ensures ok <==> ValidManaged(root, b)
    {
      ok := ValidateMetadata(b);
      if !ok { return; }
      var path := TemplatePath(Kind(root));
      if path == [] {
        ok := TemplateOk();
      } else {
        var raw := NestedMap(root, path);
        if !raw.Found? { return false; }
        var template := new Unstructured(raw.value);
        ok := template.ValidateMetadata(b);
        if !ok { return; }
        ok := template.TemplateOk();
      }
      if ok && Kind(root) == CRON_JOB {
        var raw := NestedMap(root, [SPEC, JOB_TEMPLATE]);
        var jt := new Unstructured(if raw.Found? then raw.value else map[]);
        ok := jt.ValidateMetadata(b);
      }
    }
  }
}
