/** The webhook's handlers, which change the submitted Pod in place. */
module Webhook {
  import opened Wrappers
  import opened PodSpecs
  import opened Injection

  class Pod {
    var labels: map<string, string>
    var annotations: map<string, string>
    var owners: seq<Owner>
    var volumes: seq<Volume>
    var containers: seq<Container>
    var inits: seq<Container>
    var ephemerals: seq<Container>
    var sharePids: Option<bool>

    constructor (p: PodSpec)
      ensures Value() == p
    {
      labels, annotations, owners, volumes := p.labels, p.annotations, p.owners, p.volumes;
      containers, inits, ephemerals, sharePids := p.containers, p.inits, p.ephemerals, p.sharePids;
    }

    function Value(): PodSpec
      reads this
    {
      PodSpec(labels, annotations, owners, volumes, containers, inits, ephemerals, sharePids)
    }
  }

  method IsNamed(cs: seq<Container>, name: string) returns (found: bool)
    ensures found <==> Named(cs, name)
  {
    for i := 0 to |cs|
      invariant forall j :: 0 <= j < i ==> cs[j].name != name
    {
      if cs[i].name == name { return true; }
    }
    return false;
  }

  method FindVolume(vs: seq<Volume>, name: string) returns (found: bool)
    ensures found <==> HasVolume(vs, name)
  {
    for i := 0 to |vs|
      invariant forall j :: 0 <= j < i ==> vs[j].name != name
    {
      if vs[i].name == name { return true; }
    }
    return false;
  }

  method FindMount(c: Container, name: string, path: string) returns (found: bool)
    ensures found <==> MountsAt(c, name, path)
  {
    for i := 0 to |c.mounts|
      invariant forall j :: 0 <= j < i ==> c.mounts[j].name != name || c.mounts[j].path != path
    {
      if c.mounts[i].name == name && c.mounts[i].path == path { return true; }
    }
    return false;
  }

  /** The scan behind the probe checks, for any notion of which mounts lie in the way and which are trusted. */
  method ScanMounts(ms: seq<Mount>, covers: Mount -> bool, trusted: Mount -> bool, required: bool) returns (ok: bool)
    ensures ok <==> && (forall i :: 0 <= i < |ms| ==> (covers(ms[i]) ==> trusted(ms[i])) && !Writable(ms[i]))
                    && (required ==> exists i :: 0 <= i < |ms| && covers(ms[i]))
  {
    var found := false;
    for i := 0 to |ms|
      invariant forall j :: 0 <= j < i ==> (covers(ms[j]) ==> trusted(ms[j])) && !Writable(ms[j])
      invariant found <==> exists j :: 0 <= j < i && covers(ms[j])
    {
      if covers(ms[i]) {
        if !trusted(ms[i]) { return false; }
        found := true;
      }
      if ms[i].name == STATE_VOLUME && !ms[i].readOnly { return false; }
    }
    ok := !required || found;
  }

  method ValidateStateVolume(vs: seq<Volume>) returns (ok: bool)
    ensures ok <==> StateVolumeOk(vs)
  {
    var stateVolume := false;
    for i := 0 to |vs|
      invariant forall j :: 0 <= j < i && vs[j].name == STATE_VOLUME ==> vs[j].source.EmptyDir?
      invariant stateVolume <==> exists j :: 0 <= j < i && vs[j].name == STATE_VOLUME
    {
      if vs[i].name == STATE_VOLUME {
        if !vs[i].source.EmptyDir? { return false; }
        stateVolume := true;
      }
    }
    ok := stateVolume;
  }

  class PodInjector {
    const cfg: Config

    constructor (cfg: Config)
      ensures this.cfg == cfg
    {
      this.cfg := cfg;
    }

    /** One container of the create or the debug request: repair, accept or refuse its state mounts. */
    method CheckContainer(c: Container, injected: bool) returns (out: Container, ok: bool)
      ensures ok <==> MountsAllowed(cfg, c, injected)
      ensures ok ==> out == if injected then c else Repaired(cfg, c)
    {
      out, ok := c, true;
      if injected && HelperName(c.name) { return; }
      for i := 0 to |c.mounts|
        invariant out == c.(mounts := out.mounts) && |out.mounts| == |c.mounts|
        invariant forall j :: 0 <= j < i ==> out.mounts[j] == if injected then c.mounts[j]
                  else RepairedMount(cfg, c.mounts[j])
        invariant forall j :: i <= j < |c.mounts| ==> out.mounts[j] == c.mounts[j]
        invariant forall j :: 0 <= j < i && Writable(c.mounts[j]) ==> !injected && c.mounts[j].path == cfg.stateDir
      {
        var m := out.mounts[i];
        if m.name != STATE_VOLUME || m.readOnly { continue; }
        if !injected && m.path == cfg.stateDir {
          out := out.(mounts := out.mounts[i := m.(readOnly := true)]);
          continue;
        }
        assert Writable(c.mounts[i]);
        return out, false;
      }
      assert !injected ==> out.mounts == RepairedMounts(cfg, c.mounts);
      assert injected ==> out.mounts == c.mounts;
    }

    method CheckSet(cs: seq<Container>, injected: bool) returns (out: seq<Container>, ok: bool)
      ensures ok <==> AllAllowed(cfg, cs, injected)
      ensures ok ==> out == if injected then cs else RepairedAll(cfg, cs)
    {
      out := [];
      for i := 0 to |cs|
        invariant |out| == i
        invariant forall j :: 0 <= j < i ==> MountsAllowed(cfg, cs[j], injected)
        invariant forall j :: 0 <= j < i ==> out[j] == if injected then cs[j] else Repaired(cfg, cs[j])
      {
        var c, allowed := CheckContainer(cs[i], injected);
        if !allowed { return out, false; }
        out := out + [c];
      }
      ok := true;
    }

    method CheckEphemerals(cs: seq<Container>, injected: bool) returns (ok: bool)
      ensures ok <==> EphemeralsAllowed(cs, injected)
    {
      for i := 0 to |cs|
        invariant forall j :: 0 <= j < i ==> (injected && HelperName(cs[j].name)) || !HasWritable(cs[j])
      {
        if injected && HelperName(cs[i].name) { continue; }
        for k := 0 to |cs[i].mounts|
          invariant forall j :: 0 <= j < k ==> !Writable(cs[i].mounts[j])
        {
          if Writable(cs[i].mounts[k]) { return false; }
        }
      }
      ok := true;
    }

    /** The reserved state volume: no author container keeps a writable mount of it. */
    method CheckStateVolumeMounts(pod: Pod, injected: bool) returns (ok: bool)
      modifies pod
      ensures ok <==> StateMountsAllowed(cfg, old(pod.Value()), injected)
      ensures ok ==> pod.Value() == if injected then old(pod.Value()) else Checked(cfg, old(pod.Value()))
    {
      var containers, fine := CheckSet(pod.containers, injected);
      if !fine { return false; }
      pod.containers := containers;
      var inits, fine' := CheckSet(pod.inits, injected);
      if !fine' { return false; }
      pod.inits := inits;
      ok := CheckEphemerals(pod.ephemerals, injected);
    }

    /** The probe of this container sees the complete trusted state volume. */
    method ValidateProbeMounts(c: Container, required: bool) returns (ok: bool)
      ensures ok <==> ProbeMountsOk(cfg, c, required)
    {
      var covers, trusted := (m: Mount) => Covers(cfg, m), (m: Mount) => Trusted(cfg, m);
      ok := ScanMounts(c.mounts, covers, trusted, required);
    }

    method Preflight(pod: Pod, r: Settings) returns (ok: bool)
      ensures ok <==> Injectable(cfg, pod.Value(), r)
    {
      var a := IsNamed(pod.inits, HOLD);
      var b := IsNamed(pod.containers, HOLD);
      if a || b { return false; }
      if r.mode == RUNTIME {
        a := IsNamed(pod.inits, SIDECAR);
        b := IsNamed(pod.containers, SIDECAR);
        if a || b || |pod.inits| > 0 { return false; }
      }
      for i := 0 to |pod.volumes|
        invariant forall j :: 0 <= j < i && pod.volumes[j].name == STATE_VOLUME ==> pod.volumes[j].source.EmptyDir?
      {
        if pod.volumes[i].name == STATE_VOLUME && !pod.volumes[i].source.EmptyDir? { return false; }
      }
      a := FindVolume(pod.volumes, TOKEN_VOLUME);
      b := FindVolume(pod.volumes, CA_VOLUME);
      if (cfg.apiKeySecret != "" && a) || (cfg.caConfigMap != "" && b) { return false; }
      if r.mode == RUNTIME {
        for i := 0 to |pod.containers|
          invariant forall j :: 0 <= j < i ==> Unprobed(cfg, pod.containers[j])
        {
          var c := pod.containers[i];
          var mounts := ValidateProbeMounts(c, false);
          if c.liveness.Some? || c.startup.Some? || !mounts { assert !Unprobed(cfg, c); return false; }
        }
      }
      ok := true;
    }

    method ApplyEnforcement(pod: Pod, r: Settings)
      requires r.ttl > 0
      modifies pod
      ensures pod.Value() == old(pod.Value()).(containers := EnforcedAll(cfg, r, old(pod.containers)),
                                               sharePids := if r.enforce == SIGNAL then Some(true)
                                                   else old(pod.sharePids))
    {
      if r.enforce == SIGNAL { pod.sharePids := Some(true); }
      ghost var was, v := pod.containers, pod.Value();
      for i := 0 to |pod.containers|
        invariant pod.Value() == v.(containers := pod.containers) && |pod.containers| == |was|
        invariant forall j :: 0 <= j < i ==> pod.containers[j] == Enforced(cfg, r, was[j])
        invariant forall j :: i <= j < |was| ==> pod.containers[j] == was[j]
      {
        var c := pod.containers[i];
        var there := FindMount(c, STATE_VOLUME, cfg.stateDir);
        c := c.(liveness := Some(FreshnessProbe(cfg, r)));
        if !there { c := c.(mounts := c.mounts + [Mount(STATE_VOLUME, cfg.stateDir, true, "", "")]); }
        pod.containers := pod.containers[i := c];
      }
      assert pod.containers == EnforcedAll(cfg, r, was);
    }

    method AddVolumes(pod: Pod)
      modifies pod
      ensures pod.Value() == old(pod.Value()).(volumes := WithVolumes(old(pod.volumes), AddedVolumes(cfg)))
    {
      ghost var was, v := pod.volumes, pod.Value();
      var more := AddedVolumes(cfg);
      for i := 0 to |more|
        invariant pod.Value() == v.(volumes := WithVolumes(was, more[..i]))
      {
        assert more[..i + 1][..i] == more[..i];
        var there := FindVolume(pod.volumes, more[i].name);
        if !there { pod.volumes := pod.volumes + [more[i]]; }
      }
      assert more[..|more|] == more;
    }

    method Mutate(pod: Pod, r: Settings)
      requires r.ttl > 0
      modifies pod
      ensures pod.Value() == Injected(cfg, old(pod.Value()), r)
    {
      AddVolumes(pod);
      var injected := [Helper(cfg, r, HOLD, "acquire", None)];
      if r.mode == RUNTIME { injected := injected + [Helper(cfg, r, SIDECAR, "renew", Some("Always"))]; }
      pod.inits := injected + pod.inits;
      if r.mode == RUNTIME { ApplyEnforcement(pod, r); }
      pod.annotations := pod.annotations[ANN_INJECTED := "true"];
    }

    /**
     The create path: an admitted Pod passes the final validation as it stands, and only
     Berth's own helpers can write the state volume. The debug path changes nothing.
     */
    method Default(pod: Pod, ns: string, debug: bool) returns (ok: bool)
      modifies pod
      ensures !debug ==> (ok <==> Admits(cfg, old(pod.Value()), ns))
      ensures !debug && ok ==> pod.Value() == Admitted(cfg, old(pod.Value()), ns) && ValidPod(cfg, pod.Value(), ns)
      ensures debug ==> (ok <==> OptedIn(cfg, old(pod.Value()), ns) ==> StateMountsAllowed(cfg, old(pod.Value()), true))
      ensures debug && ok ==> pod.Value() == old(pod.Value())
    {
      ghost var was := pod.Value();
      if !debug && Admits(cfg, was, ns) { AdmittedIsValid(cfg, was, ns); }
      if ns in cfg.controlPlane || At(pod.labels, LABEL_INJECT) != INJECT_ACQUIRE { return true; }
      ok := CheckStateVolumeMounts(pod, debug);
      if !ok || debug { return; }
      var r := Resolve(cfg, pod.Value(), ns);
      if r.None? { return false; }
      ok := Preflight(pod, r.value);
      if ok { Mutate(pod, r.value); }
    }

    method ValidateContainers(cs: seq<Container>, r: Settings) returns (ok: bool)
      requires r.ttl > 0
      ensures ok <==> forall i :: 0 <= i < |cs| ==> Gated(cfg, r, cs[i])
    {
      for i := 0 to |cs|
        invariant forall j :: 0 <= j < i ==> Gated(cfg, r, cs[j])
      {
        var mounts := ValidateProbeMounts(cs[i], true);
        if cs[i].startup.Some? || cs[i].liveness != Some(FreshnessProbe(cfg, r)) || !mounts {
          assert !Gated(cfg, r, cs[i]);
          return false;
        }
      }
      ok := true;
    }

    /** The final Pod at CREATE. */
    method ValidateCreate(pod: Pod, ns: string) returns (ok: bool)
      ensures ok <==> ValidPod(cfg, pod.Value(), ns)
    {
      if ns in cfg.controlPlane || At(pod.labels, LABEL_INJECT) != INJECT_ACQUIRE { return true; }
      var r := Resolve(cfg, pod.Value(), ns);
      if r.None? { return false; }
      if r.value.mode != RUNTIME { return true; }
      var inits := pod.inits;
      if |inits| != 2 || inits[0].name != HOLD || inits[1].name != SIDECAR
         || inits[0].restart.Some? || inits[1].restart.None? || inits[1].restart.value != "Always" { return false; }
      ok := ValidateStateVolume(pod.volumes);
      if !ok { return; }
      ok := ValidateContainers(pod.containers, r.value);
    }
  }
}
