/** The parts of a Pod the injector reads and writes, and the injector's own configuration. */
module PodSpecs {
  import opened Wrappers
  import Decimal
  import Durations
  import Paths

  const LABEL_INJECT := "berth.skaphos.io/inject"
  const INJECT_ACQUIRE := "acquire"

  const ANN_LEASE_NAME := "berth.skaphos.io/lease-name"
  const ANN_LEASE_NAMESPACE := "berth.skaphos.io/lease-namespace"
  const ANN_MODE := "berth.skaphos.io/mode"
  const ANN_HOLDER := "berth.skaphos.io/holder-identity"
  const ANN_TTL := "berth.skaphos.io/ttl-seconds"
  const ANN_HEARTBEAT := "berth.skaphos.io/heartbeat-interval-seconds"
  const ANN_RELEASE := "berth.skaphos.io/release-on-shutdown"
  const ANN_ENFORCE := "berth.skaphos.io/enforce"
  const ANN_GRACE := "berth.skaphos.io/enforce-grace-seconds"
  const ANN_SIGNAL_TARGET := "berth.skaphos.io/signal-target"
  const ANN_INJECTED := "berth.skaphos.io/injected"

  const STATE_VOLUME := "berth-state"
  const HOLD := "berth-acquire"
  const SIDECAR := "berth-sidecar"
  const TOKEN_VOLUME := "berth-auth-token"
  const CA_VOLUME := "berth-auth-ca"

  const STARTUP_GATE := "startup-gate"
  const RUNTIME := "runtime-singleton"
  const PROBE := "probe"
  const SIGNAL := "signal"

  const MAX_INT32: int := 0x7fff_ffff

  datatype Mount = Mount(name: string, path: string, readOnly: bool, subPath: string, subPathExpr: string)

  datatype Handler = Exec(command: seq<string>) | OtherHandler(spec: string)

  datatype Probe = Probe(handler: Handler, period: int, timeout: int, success: int, failure: int, grace: Option<int>)

  datatype EnvName =
    | LeaseName | LeaseNamespace | Mode | Enforce | SignalTarget | TtlSeconds | HeartbeatSeconds | EnforceGrace
    | ReleaseOnShutdown | HolderIdentity | ClusterId | WorkloadKind | WorkloadName | StateDir | ApiServer | ApiKey
    | ApiKeyFile | CaBundleFile | ServerName | Insecure | PodNamespace | PodName | PodUid
    | Custom(text: string)

  datatype EnvVar = Literal(name: EnvName, value: string) | FieldRef(name: EnvName, field: string)

  /** rest: everything about a container the injector neither reads nor writes. */
  datatype Container = Container(
    name: string, image: string, pullPolicy: string, args: seq<string>, env: seq<EnvVar>, mounts: seq<Mount>,
    liveness: Option<Probe>, startup: Option<Probe>, restart: Option<string>, rest: string)

  datatype Source = EmptyDir | Secret(secret: string, key: string, path: string)
                  | ConfigMap(config: string, key: string, path: string) | OtherSource(spec: string)

  datatype Volume = Volume(name: string, source: Source)

  datatype Owner = Owner(controller: Option<bool>, kind: string, name: string)

  datatype PodSpec = PodSpec(
    labels: map<string, string>, annotations: map<string, string>, owners: seq<Owner>, volumes: seq<Volume>,
    containers: seq<Container>, inits: seq<Container>, ephemerals: seq<Container>, sharePids: Option<bool>)

  datatype Config = Config(
    image: string, pullPolicy: string, apiServer: string, apiKeyFile: string, caBundleFile: string, serverName: string,
    clusterId: string, insecure: bool, apiKeySecret: string, apiKeySecretKey: string, caConfigMap: string,
    caKey: string,
    controlPlane: seq<string>, defaultTtl: int, defaultMode: string, defaultEnforce: string, stateDir: string)

  datatype Settings = Settings(
    leaseName: string, leaseNamespace: string, mode: string, enforce: string, signalTarget: string, ttl: int,
    heartbeat: int, grace: int, release: string, holder: string, workloadKind: string, workloadName: string)

  function OrDefault(v: string, def: string): string { if v == "" then def else v }

  // ---------- Annotations ----------

  function IntAnn(ann: map<string, string>, key: string, def: int): Option<int> {
    if At(ann, key) == "" then Some(def) else Decimal.ParseInt(ann[key])
  }

  /** The first controlling owner. */
  function ControllerOwner(owners: seq<Owner>): Option<Owner> {
    if owners == [] then None
    else if owners[0].controller == Some(true) then Some(owners[0])
    else ControllerOwner(owners[1..])
  }

  predicate ValidSettings(r: Settings) {
    && r.leaseName != ""
    && (r.mode == STARTUP_GATE || r.mode == RUNTIME)
    && (r.enforce == PROBE || r.enforce == SIGNAL)
    && (r.mode == RUNTIME && r.enforce == SIGNAL ==> r.signalTarget != "")
    && 0 < r.ttl <= MAX_INT32
    && r.heartbeat >= 0 && (r.heartbeat > 0 ==> r.heartbeat < r.ttl)
    && r.grace >= 0
    && (r.release == "" || r.release == "true" || r.release == "false")
  }

  /** The settings the annotations ask for, or nothing when they are refused. */
  function Resolve(cfg: Config, p: PodSpec, ns: string): (r: Option<Settings>)
    ensures r.Some? ==> ValidSettings(r.value)
    ensures r.Some? && r.value.mode == RUNTIME && r.value.enforce == SIGNAL ==> p.sharePids != Some(false)
  {
    var ann := p.annotations;
    var owner := ControllerOwner(p.owners);
    var ttl, heartbeat, grace := IntAnn(ann, ANN_TTL, cfg.defaultTtl), IntAnn(ann, ANN_HEARTBEAT, 0),
        IntAnn(ann, ANN_GRACE, 0);
    if ttl.None? || heartbeat.None? || grace.None? then None
    else
      var r := Settings(
        At(ann, ANN_LEASE_NAME), OrDefault(At(ann, ANN_LEASE_NAMESPACE), ns),
        OrDefault(At(ann, ANN_MODE), cfg.defaultMode),
        OrDefault(At(ann, ANN_ENFORCE), cfg.defaultEnforce), At(ann, ANN_SIGNAL_TARGET), ttl.value, heartbeat.value,
        grace.value,
        At(ann, ANN_RELEASE), At(ann, ANN_HOLDER),
        if owner.Some? then owner.value.kind else "", if owner.Some? then owner.value.name else "");
      if !ValidSettings(r) || (r.mode == RUNTIME && r.enforce == SIGNAL && p.sharePids == Some(false))
      then None else Some(r)
  }

  // ---------- Mounts ----------

  predicate Writable(m: Mount) { m.name == STATE_VOLUME && !m.readOnly }

  predicate HasWritable(c: Container) { exists i :: 0 <= i < |c.mounts| && Writable(c.mounts[i]) }

  /** The complete state volume, read-only, exactly at the state directory. */
  predicate Trusted(cfg: Config, m: Mount) {
    m.path == cfg.stateDir && m.name == STATE_VOLUME && m.subPath == "" && m.subPathExpr == "" && m.readOnly
  }

  predicate Covers(cfg: Config, m: Mount) { Paths.AtOrBelow(cfg.stateDir, m.path) }

  /** Does not hide or alter what the probe reads. */
  predicate Harmless(cfg: Config, m: Mount) { (Covers(cfg, m) ==> Trusted(cfg, m)) && !Writable(m) }

  /** Every mount is harmless and, when required, the state mount is there. */
  predicate ProbeMountsOk(cfg: Config, c: Container, required: bool) {
    && (forall i :: 0 <= i < |c.mounts| ==> Harmless(cfg, c.mounts[i]))
    && (required ==> exists i :: 0 <= i < |c.mounts| && Covers(cfg, c.mounts[i]))
  }

  predicate Named(cs: seq<Container>, name: string) { exists i :: 0 <= i < |cs| && cs[i].name == name }

  predicate HasVolume(vs: seq<Volume>, name: string) { exists i :: 0 <= i < |vs| && vs[i].name == name }

  predicate MountsAt(c: Container, name: string, path: string) {
    exists i :: 0 <= i < |c.mounts| && c.mounts[i].name == name && c.mounts[i].path == path
  }

  // ---------- The probe ----------

  function FreshnessProbe(cfg: Config, r: Settings): Probe
    requires r.ttl > 0
  {
    var check := [cfg.stateDir + "/check", "check", cfg.stateDir + "/healthy", "--max-age",
        Durations.DurationText(r.ttl)];
    Probe(Exec(check), 2, 1, 1, 1, Some(1))
  }

  // ---------- The final Pod ----------

  predicate OptedIn(cfg: Config, p: PodSpec, ns: string) {
    ns !in cfg.controlPlane && At(p.labels, LABEL_INJECT) == INJECT_ACQUIRE
  }

  predicate HelpersOnly(inits: seq<Container>) {
    && |inits| == 2 && inits[0].name == HOLD && inits[1].name == SIDECAR
    && inits[0].restart == None && inits[1].restart == Some("Always")
  }

  predicate StateVolumeOk(vs: seq<Volume>) {
    HasVolume(vs, STATE_VOLUME) && forall i :: 0 <= i < |vs| && vs[i].name == STATE_VOLUME ==> vs[i].source.EmptyDir?
  }

  predicate Gated(cfg: Config, r: Settings, c: Container)
    requires r.ttl > 0
  {
    c.startup.None? && c.liveness == Some(FreshnessProbe(cfg, r)) && ProbeMountsOk(cfg, c, true)
  }

  /** What the final Pod must satisfy at CREATE, after every other webhook had its turn. */
  predicate ValidPod(cfg: Config, p: PodSpec, ns: string) {
    OptedIn(cfg, p, ns) ==>
      var r := Resolve(cfg, p, ns);
      r.Some? && (r.value.mode == RUNTIME ==>
                    && HelpersOnly(p.inits) && StateVolumeOk(p.volumes)
                    && forall i :: 0 <= i < |p.containers| ==> Gated(cfg, r.value, p.containers[i]))
  }
}
