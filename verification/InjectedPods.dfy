/**
 What an admitted Pod is like, in the terms of those who meet it: which settings its annotations ask for, which
 containers it starts with, what the kubelet's probe decides, and where the helpers find their files.
 */
module InjectedPods {
  import opened Wrappers
  import opened PodSpecs
  import opened Injection
  import Decimal
  import Paths

  // ---------- Settings ----------

  /** The annotation has this text; an absent one has none. */
  predicate Says(ann: map<string, string>, key: string, text: string) {
    if key in ann then ann[key] == text else text == ""
  }

  predicate SaysOr(ann: map<string, string>, key: string, def: string, text: string) {
    if key in ann && ann[key] != "" then ann[key] == text else text == def
  }

  predicate SaysNumber(ann: map<string, string>, key: string, def: int, n: int) {
    if key in ann && ann[key] != "" then Decimal.ParseInt(ann[key]) == Some(n) else n == def
  }

  /** kind and name are those of the first owner that controls the Pod, if there is one. */
  predicate OwnedBy(owners: seq<Owner>, kind: string, name: string) {
    || ((forall i :: 0 <= i < |owners| ==> owners[i].controller != Some(true)) && kind == "" && name == "")
    || (exists i :: 0 <= i < |owners| && owners[i] == Owner(Some(true), kind, name)
                    && forall j :: 0 <= j < i ==> owners[j].controller != Some(true))
  }

  /** The Pod's metadata asks for exactly these settings. */
  predicate Asks(cfg: Config, p: PodSpec, ns: string, r: Settings) {
    var ann := p.annotations;
    && Says(ann, "berth.skaphos.io/lease-name", r.leaseName)
    && SaysOr(ann, "berth.skaphos.io/lease-namespace", ns, r.leaseNamespace)
    && SaysOr(ann, "berth.skaphos.io/mode", cfg.defaultMode, r.mode)
    && SaysOr(ann, "berth.skaphos.io/enforce", cfg.defaultEnforce, r.enforce)
    && Says(ann, "berth.skaphos.io/signal-target", r.signalTarget)
    && SaysNumber(ann, "berth.skaphos.io/ttl-seconds", cfg.defaultTtl, r.ttl)
    && SaysNumber(ann, "berth.skaphos.io/heartbeat-interval-seconds", 0, r.heartbeat)
    && SaysNumber(ann, "berth.skaphos.io/enforce-grace-seconds", 0, r.grace)
    && Says(ann, "berth.skaphos.io/release-on-shutdown", r.release)
    && Says(ann, "berth.skaphos.io/holder-identity", r.holder)
    && OwnedBy(p.owners, r.workloadKind, r.workloadName)
  }

  /** Settings the injector can work with. */
  predicate Workable(r: Settings) {
    && r.leaseName != ""
    && r.mode in {"startup-gate", "runtime-singleton"} && r.enforce in {"probe", "signal"}
    && (r.mode == "runtime-singleton" && r.enforce == "signal" ==> r.signalTarget != "")
    && 1 <= r.ttl <= 2147483647 && 0 <= r.heartbeat < r.ttl && 0 <= r.grace && r.release in {"", "true", "false"}
  }

  predicate OptsOut(p: PodSpec, r: Settings) {
    r.mode == "runtime-singleton" && r.enforce == "signal" && p.sharePids == Some(false)
  }

  lemma {:induction false} ControllerOwned(owners: seq<Owner>, kind: string, name: string)
    ensures var o := ControllerOwner(owners);
            OwnedBy(owners, kind, name) <==>
              kind == (if o.Some? then o.value.kind else "") && name == (if o.Some? then o.value.name else "")
  {
    if owners != [] && owners[0].controller != Some(true) {
      var rest := owners[1..];
      ControllerOwned(rest, kind, name);
      if OwnedBy(owners, kind, name) && !(forall i :: 0 <= i < |owners| ==> owners[i].controller != Some(true)) {
        var i :| 0 <= i < |owners| && owners[i] == Owner(Some(true), kind, name)
                 && forall j :: 0 <= j < i ==> owners[j].controller != Some(true);
        assert rest[i - 1] == owners[i];
        assert forall j :: 0 <= j < i - 1 ==> rest[j] == owners[j + 1];
      }
      if exists i :: 0 <= i < |rest| && rest[i] == Owner(Some(true), kind, name)
                     && forall j :: 0 <= j < i ==> rest[j].controller != Some(true) {
        var i :| 0 <= i < |rest| && rest[i] == Owner(Some(true), kind, name)
                 && forall j :: 0 <= j < i ==> rest[j].controller != Some(true);
        assert owners[i + 1] == rest[i];
        assert forall j :: 1 <= j < i + 1 ==> owners[j] == rest[j - 1];
      }
      assert forall i :: 1 <= i < |owners| ==> owners[i] == rest[i - 1];
    }
  }

  /** The webhook resolves exactly what the metadata asks for, and refuses exactly what it cannot work with. */
  lemma ResolveIff(cfg: Config, p: PodSpec, ns: string, r: Settings)
    ensures Resolve(cfg, p, ns) == Some(r) <==> Asks(cfg, p, ns, r) && Workable(r) && !OptsOut(p, r)
  {
    ControllerOwned(p.owners, r.workloadKind, r.workloadName);
  }

  // ---------- What an admitted Pod starts with ----------

  /** One of Berth's own containers, with the whole state volume writable at the state directory. */
  predicate Runs(cfg: Config, c: Container, name: string, verb: string) {
    && c.name == name && c.args == [verb] && c.image == cfg.image && c.pullPolicy == cfg.pullPolicy
    && |c.mounts| > 0 && c.mounts[0] == Mount("berth-state", cfg.stateDir, false, "", "")
    && c.liveness.None? && c.startup.None?
  }

  /**
   The lease is acquired before anything else starts; in runtime mode a sidecar that is always restarted then renews
   it, and shares process ids when it enforces by signals. The Pod is marked.
   */
  lemma HelpersStart(cfg: Config, p: PodSpec, ns: string)
    requires Admits(cfg, p, ns) && OptedIn(cfg, p, ns)
    ensures var q, r := Admitted(cfg, p, ns), Resolve(cfg, Checked(cfg, p), ns).value;
            && |q.inits| > 0 && Runs(cfg, q.inits[0], "berth-acquire", "acquire") && q.inits[0].restart.None?
            && (r.mode == "runtime-singleton" ==>
                  && |q.inits| == 2 && Runs(cfg, q.inits[1], "berth-sidecar", "renew")
                  && q.inits[1].restart == Some("Always")
                  && (r.enforce == "signal" ==> q.sharePids == Some(true)))
            && (r.mode != "runtime-singleton" || r.enforce != "signal" ==> q.sharePids == p.sharePids)
            && q.annotations == p.annotations["berth.skaphos.io/injected" := "true"]
  {
  }

  lemma NamesFree(cfg: Config, c: PodSpec, r: Settings, i: nat)
    requires Injectable(cfg, c, r) && r.ttl > 0
    ensures var q := Injected(cfg, c, r);
            && (i < |q.containers| ==>
                  q.containers[i].name != HOLD && (r.mode == RUNTIME ==> q.containers[i].name != SIDECAR))
            && (0 < i < |q.inits| ==> q.inits[i].name != HOLD)
  {
    var q, n := Injected(cfg, c, r), HelperCount(r);
    if i < |c.containers| { assert q.containers[i].name == c.containers[i].name; }
    if n <= i < |q.inits| { assert q.inits[i] == c.inits[i - n]; }
  }

  /** Nobody else in the Pod carries a helper's name. */
  lemma HelperNamesUnique(cfg: Config, p: PodSpec, ns: string, i: nat)
    requires Admits(cfg, p, ns) && OptedIn(cfg, p, ns)
    ensures var q, r := Admitted(cfg, p, ns), Resolve(cfg, Checked(cfg, p), ns).value;
            && (i < |q.containers| ==> q.containers[i].name != "berth-acquire")
            && (i < |q.containers| && r.mode == "runtime-singleton" ==> q.containers[i].name != "berth-sidecar")
            && (0 < i < |q.inits| ==> q.inits[i].name != "berth-acquire")
  {
    NamesFree(cfg, Checked(cfg, p), Resolve(cfg, Checked(cfg, p), ns).value, i);
  }

  // ---------- What passes the final validation ----------

  /** The container sees the whole state volume, read-only, at the state directory. */
  predicate SeesState(cfg: Config, c: Container) {
    exists k :: 0 <= k < |c.mounts| && c.mounts[k] == Mount("berth-state", cfg.stateDir, true, "", "")
  }

  /**
   A runtime Pod that passes starts with Berth's two helpers and no others, keeps the state in a volume of its own,
   and every workload container sees that volume and has no other startup rule.
   */
  lemma ValidPodShows(cfg: Config, p: PodSpec, ns: string, i: nat)
    requires ValidPod(cfg, p, ns) && OptedIn(cfg, p, ns)
    ensures var r := Resolve(cfg, p, ns);
            && r.Some?
            && (r.value.mode == "runtime-singleton" ==>
                  && |p.inits| == 2 && p.inits[0].name == "berth-acquire" && p.inits[1].name == "berth-sidecar"
                  && p.inits[0].restart.None? && p.inits[1].restart == Some("Always")
                  && HasVolume(p.volumes, "berth-state")
                  && (i < |p.volumes| && p.volumes[i].name == "berth-state" ==> p.volumes[i].source == EmptyDir)
                  && (i < |p.containers| ==> p.containers[i].startup.None? && SeesState(cfg, p.containers[i])))
  {
    var r := Resolve(cfg, p, ns);
    if r.value.mode == RUNTIME && i < |p.containers| {
      var c := p.containers[i];
      assert Gated(cfg, r.value, c);
      var k :| 0 <= k < |c.mounts| && Covers(cfg, c.mounts[k]);
      assert Harmless(cfg, c.mounts[k]);
    }
  }

  // ---------- What is admitted ----------

  /** Touches nothing the injector reserves. */
  predicate Ordinary(cfg: Config, c: Container) {
    && c.name != "berth-acquire" && c.name != "berth-sidecar"
    && forall k :: 0 <= k < |c.mounts| ==>
         c.mounts[k].name != "berth-state" && !Paths.AtOrBelow(cfg.stateDir, c.mounts[k].path)
  }

  predicate OrdinaryPod(cfg: Config, p: PodSpec) {
    && (forall i :: 0 <= i < |p.containers| ==> Ordinary(cfg, p.containers[i]))
    && (forall i :: 0 <= i < |p.inits| ==> Ordinary(cfg, p.inits[i]))
    && (forall i :: 0 <= i < |p.ephemerals| ==> Ordinary(cfg, p.ephemerals[i]))
    && (forall i :: 0 <= i < |p.volumes| ==> p.volumes[i].name !in {"berth-state", "berth-auth-token", "berth-auth-ca"})
  }

  /** In runtime mode the workload brings neither init containers nor liveness and startup probes. */
  predicate Fenceable(p: PodSpec) {
    && p.inits == []
    && forall i :: 0 <= i < |p.containers| ==> p.containers[i].liveness.None? && p.containers[i].startup.None?
  }

  lemma OrdinaryUnchanged(cfg: Config, c: Container)
    requires Ordinary(cfg, c)
    ensures Repaired(cfg, c) == c && !HasWritable(c) && ProbeMountsOk(cfg, c, false)
  {
    assert RepairedMounts(cfg, c.mounts) == c.mounts;
  }

  lemma OrdinaryAll(cfg: Config, cs: seq<Container>)
    requires forall i :: 0 <= i < |cs| ==> Ordinary(cfg, cs[i])
    ensures RepairedAll(cfg, cs) == cs && AllAllowed(cfg, cs, false) && EphemeralsAllowed(cs, false)
    ensures forall i :: 0 <= i < |cs| ==> ProbeMountsOk(cfg, cs[i], false)
    ensures !Named(cs, HOLD) && !Named(cs, SIDECAR)
  {
    forall i | 0 <= i < |cs|
      ensures Repaired(cfg, cs[i]) == cs[i] && !HasWritable(cs[i]) && ProbeMountsOk(cfg, cs[i], false)
    {
      OrdinaryUnchanged(cfg, cs[i]);
    }
  }

  /** Every such Pod that asks for workable settings is admitted. */
  lemma OrdinaryPodIsAdmitted(cfg: Config, p: PodSpec, ns: string, r: Settings)
    requires OrdinaryPod(cfg, p) && Asks(cfg, p, ns, r) && Workable(r) && !OptsOut(p, r)
    requires r.mode == "runtime-singleton" ==> Fenceable(p)
    ensures Admits(cfg, p, ns)
  {
    OrdinaryAll(cfg, p.containers);
    OrdinaryAll(cfg, p.inits);
    OrdinaryAll(cfg, p.ephemerals);
    assert Checked(cfg, p) == p;
    ResolveIff(cfg, p, ns, r);
  }

  /** On the debug path exactly the helpers may have a writable mount of the state volume. */
  predicate OnlyHelperMayWrite(cs: seq<Container>) {
    forall i, k :: 0 <= i < |cs| && 0 <= k < |cs[i].mounts|
                   && cs[i].mounts[k].name == "berth-state" && !cs[i].mounts[k].readOnly ==>
                     cs[i].name == "berth-acquire" || cs[i].name == "berth-sidecar"
  }

  lemma DebugAllowedIff(cfg: Config, p: PodSpec)
    ensures StateMountsAllowed(cfg, p, true) <==>
              OnlyHelperMayWrite(p.containers) && OnlyHelperMayWrite(p.inits) && OnlyHelperMayWrite(p.ephemerals)
  {
    DebugSetIff(cfg, p.containers);
    DebugSetIff(cfg, p.inits);
    DebugSetIff(cfg, p.ephemerals);
  }

  lemma DebugSetIff(cfg: Config, cs: seq<Container>)
    ensures AllAllowed(cfg, cs, true) <==> OnlyHelperMayWrite(cs)
    ensures EphemeralsAllowed(cs, true) <==> OnlyHelperMayWrite(cs)
  {
    if OnlyHelperMayWrite(cs) {
      forall i | 0 <= i < |cs| ensures HelperName(cs[i].name) || !HasWritable(cs[i]) {
        if HasWritable(cs[i]) { var k :| 0 <= k < |cs[i].mounts| && Writable(cs[i].mounts[k]); }
      }
    } else {
      var i, k :| 0 <= i < |cs| && 0 <= k < |cs[i].mounts| && cs[i].mounts[k].name == "berth-state"
                  && !cs[i].mounts[k].readOnly && cs[i].name != "berth-acquire" && cs[i].name != "berth-sidecar";
      assert Writable(cs[i].mounts[k]);
      assert HasWritable(cs[i]);
    }
  }

  // ---------- Credentials ----------

  /** A volume that none of the author's carries the name of is exactly the one that was added. */
  lemma {:induction false} AddedVolume(vs: seq<Volume>, more: seq<Volume>, v: Volume)
    requires !HasVolume(vs, v.name) && forall i :: 0 <= i < |more| && more[i].name == v.name ==> more[i] == v
    ensures var r := WithVolumes(vs, more);
            && (forall i :: 0 <= i < |r| && r[i].name == v.name ==> r[i] == v)
            && (v in more ==> v in r)
  {
    if more != [] {
      var init := WithVolumes(vs, more[..|more| - 1]);
      AddedVolume(vs, more[..|more| - 1], v);
      if more[|more| - 1] == v && HasVolume(init, v.name) {
        var i :| 0 <= i < |init| && init[i].name == v.name;
        assert init[i] == v;
      }
    }
  }

  /** The whole volume, read-only, at a directory in which the item is the file. */
  predicate MountsFile(m: Mount, volume: string, item: string, file: string) {
    m == Mount(volume, m.path, true, "", "") && Paths.TrimSlash(m.path) + "/" + item == Paths.Clean(file)
  }

  /** In the Pod q, container c finds the file where it is told to look, and it is what source holds. */
  predicate FindsFile(q: PodSpec, c: Container, volume: string, source: Source, item: string, file: string) {
    && (exists k :: 0 <= k < |c.mounts| && MountsFile(c.mounts[k], volume, item, file))
    && Volume(volume, source) in q.volumes
    && (forall i :: 0 <= i < |q.volumes| && q.volumes[i].name == volume ==> q.volumes[i].source == source)
  }

  /** An absolute path to a file. */
  predicate FilePath(f: string) {
    Paths.IsAbs(f) && f[|f| - 1] != '/' && Paths.Base(f) != "." && Paths.Base(f) != ".."
  }

  /** A mounted item of an added volume. */
  lemma FoundIn(q: PodSpec, c: Container, vs: seq<Volume>, more: seq<Volume>, v: Volume, m: Mount, item: string,
      file: string)
    requires q.volumes == WithVolumes(vs, more) && !HasVolume(vs, v.name) && v in more && m in c.mounts
    requires forall i :: 0 <= i < |more| && more[i].name == v.name ==> more[i] == v
    requires MountsFile(m, v.name, item, file)
    ensures FindsFile(q, c, v.name, v.source, item, file)
  {
    AddedVolume(vs, more, v);
    var k :| 0 <= k < |c.mounts| && c.mounts[k] == m;
    assert MountsFile(c.mounts[k], v.name, item, file);
  }

  lemma FileMounted(volume: string, file: string)
    requires FilePath(file)
    ensures MountsFile(Mount(volume, Paths.Dir(file), true, "", ""), volume, Paths.Base(file), file)
  {
    Paths.FileFound(file);
  }

  lemma TokenMount(cfg: Config) returns (v: Volume, m: Mount)
    requires cfg.apiKeySecret != "" && FilePath(cfg.apiKeyFile)
    ensures v == Volume("berth-auth-token", Secret(cfg.apiKeySecret, cfg.apiKeySecretKey, Paths.Base(cfg.apiKeyFile)))
    ensures v in AddedVolumes(cfg) && m in HelperMounts(cfg)
    ensures forall i :: 0 <= i < |AddedVolumes(cfg)| && AddedVolumes(cfg)[i].name == v.name ==>
            AddedVolumes(cfg)[i] == v
    ensures MountsFile(m, v.name, Paths.Base(cfg.apiKeyFile), cfg.apiKeyFile)
  {
    var more, ms := AddedVolumes(cfg), HelperMounts(cfg);
    v, m := more[1], ms[1];
    assert |more| <= 3 && (|more| == 3 ==> more[2].name == "berth-auth-ca") && more[0].name == "berth-state";
    FileMounted(v.name, cfg.apiKeyFile);
  }

  lemma BundleMount(cfg: Config) returns (v: Volume, m: Mount)
    requires cfg.caConfigMap != "" && FilePath(cfg.caBundleFile)
    ensures v == Volume("berth-auth-ca", ConfigMap(cfg.caConfigMap, cfg.caKey, Paths.Base(cfg.caBundleFile)))
    ensures v in AddedVolumes(cfg) && m in HelperMounts(cfg)
    ensures forall i :: 0 <= i < |AddedVolumes(cfg)| && AddedVolumes(cfg)[i].name == v.name ==>
            AddedVolumes(cfg)[i] == v
    ensures MountsFile(m, v.name, Paths.Base(cfg.caBundleFile), cfg.caBundleFile)
  {
    var more, ms := AddedVolumes(cfg), HelperMounts(cfg);
    v, m := more[|more| - 1], ms[|ms| - 1];
    assert |more| <= 3 && (|more| == 3 ==> more[1].name == "berth-auth-token") && more[0].name == "berth-state";
    FileMounted(v.name, cfg.caBundleFile);
  }

  lemma HelperShape(cfg: Config, p: PodSpec, ns: string, j: nat)
    requires Admits(cfg, p, ns) && OptedIn(cfg, p, ns) && j < HelperCount(Resolve(cfg, Checked(cfg, p), ns).value)
    ensures var q := Admitted(cfg, p, ns);
            && j < |q.inits| && q.inits[j].mounts == HelperMounts(cfg)
            && q.volumes == WithVolumes(p.volumes, AddedVolumes(cfg))
            && (cfg.apiKeySecret != "" ==> !HasVolume(p.volumes, "berth-auth-token"))
            && (cfg.caConfigMap != "" ==> !HasVolume(p.volumes, "berth-auth-ca"))
  {
  }

  /** Every helper finds its API key and its CA bundle at the paths its environment names. */
  lemma HelpersFindCredentials(cfg: Config, p: PodSpec, ns: string, j: nat)
    requires Admits(cfg, p, ns) && OptedIn(cfg, p, ns) && j < HelperCount(Resolve(cfg, Checked(cfg, p), ns).value)
    ensures var q := Admitted(cfg, p, ns);
            && j < |q.inits|
            && (cfg.apiKeySecret != "" && FilePath(cfg.apiKeyFile) ==>
                  var item := Paths.Base(cfg.apiKeyFile);
                  FindsFile(q, q.inits[j], "berth-auth-token", Secret(cfg.apiKeySecret, cfg.apiKeySecretKey, item),
                            item, cfg.apiKeyFile))
            && (cfg.caConfigMap != "" && FilePath(cfg.caBundleFile) ==>
                  var item := Paths.Base(cfg.caBundleFile);
                  FindsFile(q, q.inits[j], "berth-auth-ca", ConfigMap(cfg.caConfigMap, cfg.caKey, item),
                            item, cfg.caBundleFile))
  {
    var q, more := Admitted(cfg, p, ns), AddedVolumes(cfg);
    HelperShape(cfg, p, ns, j);
    if cfg.apiKeySecret != "" && FilePath(cfg.apiKeyFile) {
      var v, m := TokenMount(cfg);
      FoundIn(q, q.inits[j], p.volumes, more, v, m, Paths.Base(cfg.apiKeyFile), cfg.apiKeyFile);
    }
    if cfg.caConfigMap != "" && FilePath(cfg.caBundleFile) {
      var v, m := BundleMount(cfg);
      FoundIn(q, q.inits[j], p.volumes, more, v, m, Paths.Base(cfg.caBundleFile), cfg.caBundleFile);
    }
  }
}
