/** The mutating Pod webhook: what it refuses, what it repairs, what it adds. */
module Injection {
  import opened Wrappers
  import opened PodSpecs
  import Decimal
  import Paths

  // ---------- What injection means ----------

  function RepairedMount(cfg: Config, m: Mount): Mount {
    if Writable(m) && m.path == cfg.stateDir then m.(readOnly := true) else m
  }

  function RepairedMounts(cfg: Config, ms: seq<Mount>): (r: seq<Mount>)
    ensures |r| == |ms| && forall i :: 0 <= i < |ms| ==> r[i] == RepairedMount(cfg, ms[i])
  {
    seq(|ms|, i requires 0 <= i < |ms| => RepairedMount(cfg, ms[i]))
  }

  function Repaired(cfg: Config, c: Container): Container { c.(mounts := RepairedMounts(cfg, c.mounts)) }

  function RepairedAll(cfg: Config, cs: seq<Container>): (r: seq<Container>)
    ensures |r| == |cs| && forall i :: 0 <= i < |cs| ==> r[i] == Repaired(cfg, cs[i])
  {
    seq(|cs|, i requires 0 <= i < |cs| => Repaired(cfg, cs[i]))
  }

  /** Every writable state mount is at the state directory itself, where it can be repaired. */
  predicate Repairable(cfg: Config, c: Container) {
    forall i :: 0 <= i < |c.mounts| && Writable(c.mounts[i]) ==> c.mounts[i].path == cfg.stateDir
  }

  predicate HelperName(name: string) { name == HOLD || name == SIDECAR }

  /** On create every container is the author's; on the debug path the helpers exist and keep their mounts. */
  predicate MountsAllowed(cfg: Config, c: Container, injected: bool) {
    if injected then HelperName(c.name) || !HasWritable(c) else Repairable(cfg, c)
  }

  predicate AllAllowed(cfg: Config, cs: seq<Container>, injected: bool) {
    forall i :: 0 <= i < |cs| ==> MountsAllowed(cfg, cs[i], injected)
  }

  predicate EphemeralsAllowed(cs: seq<Container>, injected: bool) {
    forall i :: 0 <= i < |cs| ==> (injected && HelperName(cs[i].name)) || !HasWritable(cs[i])
  }

  predicate StateMountsAllowed(cfg: Config, p: PodSpec, injected: bool) {
    AllAllowed(cfg, p.containers, injected) && AllAllowed(cfg, p.inits, injected)
    && EphemeralsAllowed(p.ephemerals, injected)
  }

  function Checked(cfg: Config, p: PodSpec): PodSpec {
    p.(containers := RepairedAll(cfg, p.containers), inits := RepairedAll(cfg, p.inits))
  }

  predicate Unprobed(cfg: Config, c: Container) { c.liveness.None? && c.startup.None? && ProbeMountsOk(cfg, c, false) }

  predicate Injectable(cfg: Config, p: PodSpec, r: Settings) {
    && !Named(p.inits, HOLD) && !Named(p.containers, HOLD)
    && (r.mode == RUNTIME ==> !Named(p.inits, SIDECAR) && !Named(p.containers, SIDECAR) && p.inits == [])
    && (forall i :: 0 <= i < |p.volumes| && p.volumes[i].name == STATE_VOLUME ==> p.volumes[i].source.EmptyDir?)
    && (cfg.apiKeySecret != "" ==> !HasVolume(p.volumes, TOKEN_VOLUME))
    && (cfg.caConfigMap != "" ==> !HasVolume(p.volumes, CA_VOLUME))
    && (r.mode == RUNTIME ==> forall i :: 0 <= i < |p.containers| ==> Unprobed(cfg, p.containers[i]))
  }

  function AuthVolumes(cfg: Config): seq<Volume> {
    (if cfg.apiKeySecret != ""
        then [Volume(TOKEN_VOLUME, Secret(cfg.apiKeySecret, cfg.apiKeySecretKey, Paths.Base(cfg.apiKeyFile)))] else [])
    + (if cfg.caConfigMap != ""
        then [Volume(CA_VOLUME, ConfigMap(cfg.caConfigMap, cfg.caKey, Paths.Base(cfg.caBundleFile)))] else [])
  }

  function AddedVolumes(cfg: Config): seq<Volume> { [Volume(STATE_VOLUME, EmptyDir)] + AuthVolumes(cfg) }

  function AuthMounts(cfg: Config): seq<Mount> {
    (if cfg.apiKeySecret != "" then [Mount(TOKEN_VOLUME, Paths.Dir(cfg.apiKeyFile), true, "", "")] else [])
    + (if cfg.caConfigMap != "" then [Mount(CA_VOLUME, Paths.Dir(cfg.caBundleFile), true, "", "")] else [])
  }

  function WithVolumes(vs: seq<Volume>, more: seq<Volume>): seq<Volume> {
    if more == [] then vs
    else
      var init := WithVolumes(vs, more[..|more| - 1]);
      var v := more[|more| - 1];
      if HasVolume(init, v.name) then init else init + [v]
  }

  /** A variable that is set only when it has something to say. */
  datatype Optional = Optional(cond: bool, name: EnvName, value: string)

  function Appended(env: seq<EnvVar>, opts: seq<Optional>): seq<EnvVar> {
    if opts == [] then env
    else
      var init, o := Appended(env, opts[..|opts| - 1]), opts[|opts| - 1];
      if o.cond then init + [Literal(o.name, o.value)] else init
  }

  function BaseEnv(cfg: Config, r: Settings): seq<EnvVar> {
    [Literal(LeaseName, r.leaseName), Literal(LeaseNamespace, r.leaseNamespace),
     Literal(Mode, r.mode), Literal(Enforce, r.enforce),
     Literal(TtlSeconds, Decimal.FormatInt(r.ttl)), Literal(StateDir, cfg.stateDir),
     FieldRef(PodNamespace, "metadata.namespace"),
     FieldRef(PodName, "metadata.name"), FieldRef(PodUid, "metadata.uid")]
  }

  function OptionalEnv(cfg: Config, r: Settings): seq<Optional> {
    [Optional(r.signalTarget != "" && r.enforce == SIGNAL, SignalTarget, r.signalTarget),
     Optional(r.heartbeat > 0, HeartbeatSeconds, Decimal.FormatInt(r.heartbeat)),
     Optional(r.grace > 0, EnforceGrace, Decimal.FormatInt(r.grace)),
     Optional(r.release != "", ReleaseOnShutdown, r.release),
     Optional(r.holder != "", HolderIdentity, r.holder),
     Optional(r.workloadKind != "", WorkloadKind, r.workloadKind),
     Optional(r.workloadName != "", WorkloadName, r.workloadName),
     Optional(cfg.clusterId != "", ClusterId, cfg.clusterId),
     Optional(cfg.apiServer != "", ApiServer, cfg.apiServer),
     Optional(cfg.apiKeyFile != "", ApiKeyFile, cfg.apiKeyFile),
     Optional(cfg.caBundleFile != "", CaBundleFile, cfg.caBundleFile),
     Optional(cfg.serverName != "", ServerName, cfg.serverName),
     Optional(cfg.insecure, Insecure, "true")]
  }

  function HelperEnv(cfg: Config, r: Settings): seq<EnvVar> { Appended(BaseEnv(cfg, r), OptionalEnv(cfg, r)) }

  function HelperMounts(cfg: Config): seq<Mount> {
    [Mount(STATE_VOLUME, cfg.stateDir, false, "", "")] + AuthMounts(cfg)
  }

  function Helper(cfg: Config, r: Settings, name: string, verb: string, restart: Option<string>): Container {
    Container(name, cfg.image, cfg.pullPolicy, [verb], HelperEnv(cfg, r), HelperMounts(cfg), None, None, restart, "")
  }

  function Helpers(cfg: Config, r: Settings): seq<Container> {
    [Helper(cfg, r, HOLD, "acquire", None)]
    + if r.mode == RUNTIME then [Helper(cfg, r, SIDECAR, "renew", Some("Always"))] else []
  }

  function Enforced(cfg: Config, r: Settings, c: Container): Container
    requires r.ttl > 0
  {
    c.(liveness := Some(FreshnessProbe(cfg, r)),
       mounts := if MountsAt(c, STATE_VOLUME, cfg.stateDir) then c.mounts
                 else c.mounts + [Mount(STATE_VOLUME, cfg.stateDir, true, "", "")])
  }

  function EnforcedAll(cfg: Config, r: Settings, cs: seq<Container>): (e: seq<Container>)
    requires r.ttl > 0
    ensures |e| == |cs| && forall i :: 0 <= i < |cs| ==> e[i] == Enforced(cfg, r, cs[i])
  {
    seq(|cs|, i requires 0 <= i < |cs| => Enforced(cfg, r, cs[i]))
  }

  function Injected(cfg: Config, p: PodSpec, r: Settings): PodSpec
    requires r.ttl > 0
  {
    var runtime := r.mode == RUNTIME;
    p.(volumes := WithVolumes(p.volumes, AddedVolumes(cfg)),
       inits := Helpers(cfg, r) + p.inits,
       containers := if runtime then EnforcedAll(cfg, r, p.containers) else p.containers,
       sharePids := if runtime && r.enforce == SIGNAL then Some(true) else p.sharePids,
       annotations := p.annotations[ANN_INJECTED := "true"])
  }

  predicate Admits(cfg: Config, p: PodSpec, ns: string) {
    OptedIn(cfg, p, ns) ==>
      && StateMountsAllowed(cfg, p, false) && Resolve(cfg, Checked(cfg, p), ns).Some?
      && Injectable(cfg, Checked(cfg, p), Resolve(cfg, Checked(cfg, p), ns).value)
  }

  function Admitted(cfg: Config, p: PodSpec, ns: string): PodSpec
    requires Admits(cfg, p, ns)
  {
    if !OptedIn(cfg, p, ns) then p else Injected(cfg, Checked(cfg, p), Resolve(cfg, Checked(cfg, p), ns).value)
  }

  // ---------- What injection guarantees ----------

  lemma RepairLeavesNoneWritable(cfg: Config, c: Container)
    requires Repairable(cfg, c)
    ensures !HasWritable(Repaired(cfg, c))
  {
  }

  /** Marking the Pod as injected changes no setting. */
  lemma SettingsSurvive(cfg: Config, p: PodSpec, q: PodSpec, ns: string)
    requires Resolve(cfg, p, ns).Some? && q.owners == p.owners && q.annotations == p.annotations[ANN_INJECTED := "true"]
    requires q.sharePids == p.sharePids || q.sharePids == Some(true)
    ensures Resolve(cfg, q, ns) == Resolve(cfg, p, ns)
  {
  }

  lemma {:induction false} WithVolumesOk(vs: seq<Volume>, more: seq<Volume>)
    requires forall i :: 0 <= i < |vs| && vs[i].name == STATE_VOLUME ==> vs[i].source.EmptyDir?
    requires forall i :: 0 <= i < |more| && more[i].name == STATE_VOLUME ==> more[i].source.EmptyDir?
    ensures var r := WithVolumes(vs, more);
            && vs <= r
            && (forall i :: 0 <= i < |r| && r[i].name == STATE_VOLUME ==> r[i].source.EmptyDir?)
            && (forall i :: 0 <= i < |more| ==> HasVolume(r, more[i].name))
  {
    if more != [] {
      var m, v := more[..|more| - 1], more[|more| - 1];
      WithVolumesOk(vs, m);
      var init, r := WithVolumes(vs, m), WithVolumes(vs, more);
      forall i | 0 <= i < |more| ensures HasVolume(r, more[i].name) {
        if i < |m| {
          assert HasVolume(init, m[i].name);
          var j :| 0 <= j < |init| && init[j].name == m[i].name;
          assert r[j] == init[j];
        } else if !HasVolume(init, v.name) {
          assert r[|init|] == v;
        }
      }
    }
  }

  lemma AddedVolumesOk(cfg: Config)
    ensures var more := AddedVolumes(cfg);
            && more[0].name == STATE_VOLUME
            && forall i :: 0 <= i < |more| && more[i].name == STATE_VOLUME ==> more[i].source.EmptyDir?
  {
  }

  lemma VolumesOk(vs: seq<Volume>, more: seq<Volume>)
    requires forall i :: 0 <= i < |vs| && vs[i].name == STATE_VOLUME ==> vs[i].source.EmptyDir?
    requires forall i :: 0 <= i < |more| && more[i].name == STATE_VOLUME ==> more[i].source.EmptyDir?
    requires more != [] && more[0].name == STATE_VOLUME
    ensures StateVolumeOk(WithVolumes(vs, more))
  {
    WithVolumesOk(vs, more);
  }

  /** A workload container that passed preflight is gated once enforcement is applied. */
  lemma EnforcedIsGated(cfg: Config, r: Settings, c: Container)
    requires r.ttl > 0 && Unprobed(cfg, c)
    ensures Gated(cfg, r, Enforced(cfg, r, c))
  {
    var e := Enforced(cfg, r, c);
    forall i | 0 <= i < |e.mounts| ensures Harmless(cfg, e.mounts[i]) {
      if i < |c.mounts| { assert e.mounts[i] == c.mounts[i] && Harmless(cfg, c.mounts[i]); }
    }
    var k := if MountsAt(c, STATE_VOLUME, cfg.stateDir)
      then var k :| 0 <= k < |c.mounts| && c.mounts[k].name == STATE_VOLUME && c.mounts[k].path == cfg.stateDir; k
      else |c.mounts|;
    assert Covers(cfg, e.mounts[k]);
  }

  /** Every Pod the mutating webhook admits passes the final validation unchanged. */
  lemma AdmittedIsValid(cfg: Config, p: PodSpec, ns: string)
    requires Admits(cfg, p, ns)
    ensures ValidPod(cfg, Admitted(cfg, p, ns), ns)
  {
    if OptedIn(cfg, p, ns) {
      var c := Checked(cfg, p);
      var r := Resolve(cfg, c, ns).value;
      var q := Injected(cfg, c, r);
      SettingsSurvive(cfg, c, q, ns);
      if r.mode == RUNTIME {
        AddedVolumesOk(cfg);
        VolumesOk(c.volumes, AddedVolumes(cfg));
        assert c.inits == [];
        assert q.inits == Helpers(cfg, r);
        forall i | 0 <= i < |q.containers| ensures Gated(cfg, r, q.containers[i]) {
          EnforcedIsGated(cfg, r, c.containers[i]);
        }
      }
    }
  }

  /** How many of the Pod's init containers are Berth's. */
  function HelperCount(r: Settings): nat { if r.mode == RUNTIME then 2 else 1 }

  /** Only the injected helpers can write the state volume, whatever names the author chose. */
  lemma OnlyHelpersWrite(cfg: Config, p: PodSpec, ns: string, i: nat)
    requires Admits(cfg, p, ns) && OptedIn(cfg, p, ns)
    ensures var q, n := Admitted(cfg, p, ns), HelperCount(Resolve(cfg, Checked(cfg, p), ns).value);
            && (i < |q.containers| ==> !HasWritable(q.containers[i]))
            && (i < |q.ephemerals| ==> !HasWritable(q.ephemerals[i]))
            && |q.inits| == n + |p.inits|
            && (n <= i < |q.inits| ==> !HasWritable(q.inits[i]))
            && (i < n ==> IsHelper(cfg, q.inits[i]))
  {
    var r := Resolve(cfg, Checked(cfg, p), ns).value;
    WorkloadCannotWrite(cfg, Checked(cfg, p), p, r, i);
    HelpersFirst(cfg, p, r, i);
  }

  predicate IsHelper(cfg: Config, c: Container) {
    c.image == cfg.image && HelperName(c.name) && c.mounts == HelperMounts(cfg) && HasWritable(c)
  }

  lemma WorkloadCannotWrite(cfg: Config, c: PodSpec, p: PodSpec, r: Settings, i: nat)
    requires StateMountsAllowed(cfg, p, false) && c == Checked(cfg, p) && r.ttl > 0
    ensures i < |c.containers| ==> !HasWritable(Injected(cfg, c, r).containers[i])
    ensures i < |p.ephemerals| ==> !HasWritable(p.ephemerals[i])
  {
  }

  lemma HelpersFirst(cfg: Config, p: PodSpec, r: Settings, i: nat)
    requires StateMountsAllowed(cfg, p, false) && r.ttl > 0
    ensures var inits, n := Helpers(cfg, r) + RepairedAll(cfg, p.inits), HelperCount(r);
            && |inits| == n + |p.inits|
            && (i < n ==> IsHelper(cfg, inits[i]))
            && (n <= i < |inits| ==> !HasWritable(inits[i]))
  {
    var n := HelperCount(r);
    if i < n {
      assert Writable(Helpers(cfg, r)[i].mounts[0]);
    } else if i < n + |p.inits| {
      assert MountsAllowed(cfg, p.inits[i - n], false);
      RepairLeavesNoneWritable(cfg, p.inits[i - n]);
    }
  }

  /** The author's containers survive in order; only the probe and the state mounts change. */
  lemma AuthorsSurvive(cfg: Config, p: PodSpec, ns: string, i: nat)
    requires Admits(cfg, p, ns) && i < |p.containers|
    ensures var q := Admitted(cfg, p, ns);
            && |q.containers| == |p.containers| && q.labels == p.labels && q.owners == p.owners
            && q.ephemerals == p.ephemerals
            && p.volumes <= q.volumes
            && var a, b := p.containers[i], q.containers[i];
               && b == a.(mounts := b.mounts, liveness := b.liveness)
               && |a.mounts| <= |b.mounts| <= |a.mounts| + 1
               && forall k :: 0 <= k < |a.mounts| ==>
                  b.mounts[k] == a.mounts[k] || b.mounts[k] == a.mounts[k].(readOnly := true)
  {
    if OptedIn(cfg, p, ns) {
      WithVolumesPrefix(p.volumes, AddedVolumes(cfg));
    }
  }

  lemma {:induction false} WithVolumesPrefix(vs: seq<Volume>, more: seq<Volume>)
    ensures vs <= WithVolumes(vs, more)
  {
    if more != [] { WithVolumesPrefix(vs, more[..|more| - 1]); }
  }

  /** An injected Pod that is submitted again is refused: the helper names are taken. */
  lemma NeverInjectedTwice(cfg: Config, p: PodSpec, ns: string)
    requires Admits(cfg, p, ns) && OptedIn(cfg, p, ns)
    ensures !Admits(cfg, Admitted(cfg, p, ns), ns)
  {
    var q := Admitted(cfg, p, ns);
    assert q.inits[0].name == HOLD;
    assert Checked(cfg, q).inits[0].name == HOLD;
  }

  /**
   No accepted workload container mounts anything at, or below, the marker, the check binary or any
   other state file.
   */
  lemma ProbeFilesUnshadowed(cfg: Config, p: PodSpec, ns: string, i: nat, k: nat, file: string)
    requires ValidPod(cfg, p, ns) && OptedIn(cfg, p, ns) && Resolve(cfg, p, ns).value.mode == RUNTIME
    requires Paths.IsAbs(cfg.stateDir) && Paths.Plain(Paths.Split(file))
    requires i < |p.containers| && k < |p.containers[i].mounts|
    ensures !Paths.AtOrBelow(cfg.stateDir + "/" + file, p.containers[i].mounts[k].path)
  {
    var m := p.containers[i].mounts[k];
    assert Gated(cfg, Resolve(cfg, p, ns).value, p.containers[i]);
    assert Harmless(cfg, m);
    if Paths.AtOrBelow(cfg.stateDir + "/" + file, m.path) { Paths.BelowFile(cfg.stateDir, file, m.path); }
  }
}
