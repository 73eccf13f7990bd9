/** The environment contract: what the webhook writes, the injected helper reads, defaults and validates. */
module HelperConfig {
  import opened Wrappers
  import opened PodSpecs
  import Decimal
  import Expansion
  import Identity
  import Injection

  /** What the downward API fills in for this Pod. */
  datatype Downward = Downward(namespace: string, name: string, uid: string)

  /** Durations are nanoseconds. */
  datatype Helper = Helper(
    leaseName: string, leaseNamespace: string, mode: string, enforce: string, signalTarget: string, ttl: int,
    heartbeat: int, grace: int, release: Option<bool>, holder: string, clusterId: string,
    podNamespace: string, podName: string, podUid: string,
    workloadKind: string, workloadName: string, stateDir: string, apiServer: string, apiKey: string, apiKeyFile: string,
    caBundleFile: string, serverName: string, insecure: bool)

  // ---------- Reading the environment ----------

  /** How the value written for a variable arrives. */
  type Delivery = (EnvName, string) -> string

  function Text(v: EnvVar, d: Downward, sent: Delivery): string {
    match v
    case Literal(name, value) => sent(name, value)
    case FieldRef(_, field) =>
      if field == "metadata.namespace" then d.namespace else if field == "metadata.name" then d.name
      else if field == "metadata.uid" then d.uid else ""
  }

  /** The last definition wins; a missing variable reads as the empty string. */
  function Getenv(env: seq<EnvVar>, d: Downward, sent: Delivery, n: EnvName): string {
    if env == [] then ""
    else if env[|env| - 1].name == n then Text(env[|env| - 1], d, sent)
    else Getenv(env[..|env| - 1], d, sent, n)
  }

  /** 64-bit two's complement. */
  function Wrap(v: int): int {
    var m := v % 0x1_0000_0000_0000_0000;
    if m > Decimal.INT64_MAX then m - 0x1_0000_0000_0000_0000 else m
  }

  lemma WrapIs(v: int)
    ensures -0x8000_0000_0000_0000 <= Wrap(v) <= 0x7fff_ffff_ffff_ffff
    ensures (v - Wrap(v)) % 0x1_0000_0000_0000_0000 == 0
  {
  }

  function Seconds(text: string): Option<int> {
    if text == "" then Some(0)
    else
      var n := Decimal.ParseInt(text);
      if n.None? then None else Some(Wrap(n.value * SECOND))
  }

  function ParseBool(text: string): Option<bool> {
    if text in {"1", "t", "T", "TRUE", "true", "True"} then Some(true)
    else if text in {"0", "f", "F", "FALSE", "false", "False"} then Some(false)
    else None
  }

  /** An unset flag is no flag; a malformed one is an error. */
  function Flag(text: string): (r: Option<Option<bool>>)
    ensures text == "" ==> r == Some(None)
  {
    if text == "" then Some(None)
    else
      var b := ParseBool(text);
      if b.None? then None else Some(b)
  }

  datatype Parsed = Parsed(ttl: int, heartbeat: int, grace: int, release: Option<bool>, insecure: bool)

  function Parse(ttl: string, heartbeat: string, grace: string, release: string, insecure: string): Option<Parsed> {
    var t, h, g, r, i := Seconds(ttl), Seconds(heartbeat), Seconds(grace), Flag(release), Flag(insecure);
    if t.None? || h.None? || g.None? || r.None? || i.None? then None
    else Some(Parsed(t.value, h.value, g.value, r.value, i.value == Some(true)))
  }

  function Build(get: EnvName -> string, p: Parsed): Helper {
    Helper(
      get(LeaseName), get(LeaseNamespace), get(Mode), get(Enforce), get(SignalTarget),
      p.ttl, p.heartbeat, p.grace, p.release,
      get(HolderIdentity), get(ClusterId), get(PodNamespace), get(PodName), get(PodUid),
      get(WorkloadKind), get(WorkloadName),
      get(StateDir), get(ApiServer), get(ApiKey), get(ApiKeyFile), get(CaBundleFile), get(ServerName), p.insecure)
  }

  function FromEnv(get: EnvName -> string): Option<Helper> {
    var p := Parse(get(TtlSeconds), get(HeartbeatSeconds), get(EnforceGrace), get(ReleaseOnShutdown), get(Insecure));
    if p.None? then None else Some(Build(get, p.value))
  }

  // ---------- Defaults and validation ----------

  function WithDefaults(h: Helper): Helper {
    var mode := OrDefault(h.mode, RUNTIME);
    h.(stateDir := OrDefault(h.stateDir, "/berth"), mode := mode, enforce := OrDefault(h.enforce, PROBE),
       leaseNamespace := OrDefault(h.leaseNamespace, h.podNamespace),
       heartbeat := if h.heartbeat <= 0 && h.ttl > 0 then h.ttl / 3 else h.heartbeat,
       release := if h.release.None? then Some(mode == RUNTIME) else h.release)
  }

  function IdentityOf(h: Helper): Identity.Config {
    Identity.Config(if h.mode == STARTUP_GATE then Identity.StartupGate else Identity.RuntimeSingleton,
                    h.holder, h.clusterId, h.podNamespace, h.podName, h.podUid, h.workloadKind, h.workloadName)
  }

  /** The checks after defaulting. */
  predicate Valid(h: Helper) {
    && h.leaseName != "" && h.leaseNamespace != ""
    && (h.mode == STARTUP_GATE || h.mode == RUNTIME) && (h.enforce == PROBE || h.enforce == SIGNAL)
    && (h.mode == RUNTIME && h.enforce == SIGNAL ==> h.signalTarget != "")
    && Identity.ValidIdentity(IdentityOf(h))
    && 0 < h.ttl <= MAX_INT32 * SECOND
    && 0 < h.heartbeat < h.ttl
    && h.grace >= 0
    && h.apiServer != "" && (h.apiKey == "" || h.apiKeyFile == "")
  }

  /** Defaulting twice is defaulting once, and it never changes what was set. */
  lemma DefaultsSettle(h: Helper)
    ensures WithDefaults(WithDefaults(h)) == WithDefaults(h)
    ensures var d := WithDefaults(h);
            && (h.stateDir != "" ==> d.stateDir == h.stateDir) && (h.mode != "" ==> d.mode == h.mode)
            && (h.enforce != "" ==> d.enforce == h.enforce) && (h.release.Some? ==> d.release == h.release)
            && (h.leaseNamespace != "" ==> d.leaseNamespace == h.leaseNamespace)
            && (h.heartbeat > 0 ==> d.heartbeat == h.heartbeat)
            && h == d.(stateDir := h.stateDir, mode := h.mode, enforce := h.enforce, release := h.release,
                       leaseNamespace := h.leaseNamespace, heartbeat := h.heartbeat)
  {
  }

  /**
   What the helper runs with, over what it was given: by default the runtime mode, which also releases on
   shutdown, probes, the Pod's own namespace, and a third of the time to live between heartbeats.
   */
  lemma DefaultsAre(h: Helper)
    ensures var d := WithDefaults(h);
            && (h.stateDir == "" ==> d.stateDir == "/berth") && (h.mode == "" ==> d.mode == "runtime-singleton")
            && (h.enforce == "" ==> d.enforce == "probe")
            && (h.leaseNamespace == "" ==> d.leaseNamespace == h.podNamespace)
            && (h.release.None? ==> d.release == Some(h.mode == "" || h.mode == "runtime-singleton"))
            && (h.heartbeat <= 0 < h.ttl ==> 3 * d.heartbeat <= h.ttl < 3 * d.heartbeat + 3)
  {
  }

  /** The helper starts if and only if what it was given meets these, before any defaulting. */
  lemma StartsIff(h: Helper)
    ensures Valid(WithDefaults(h)) <==>
              && h.leaseName != "" && (h.leaseNamespace != "" || h.podNamespace != "")
              && h.mode in {"", "startup-gate", "runtime-singleton"} && h.enforce in {"", "probe", "signal"}
              && (h.enforce == "signal" && h.signalTarget == "" ==> h.mode == "startup-gate")
              && Identity.ValidIdentity(IdentityOf(h))
              && 0 < h.ttl <= 2_147_483_647_000_000_000
              && (if h.heartbeat > 0 then h.heartbeat < h.ttl else h.ttl >= 3)
              && h.grace >= 0 && h.apiServer != "" && (h.apiKey == "" || h.apiKeyFile == "")
  {
    SameIdentity(h);
  }

  lemma SameIdentity(h: Helper)
    ensures IdentityOf(WithDefaults(h)) == IdentityOf(h)
  {
  }

  /** The helper's own configuration object, which defaulting and validation change in place. */
  class HelperSettings {
    var view: Helper

    constructor (h: Helper)
      ensures view == h
    {
      view := h;
    }

    method ApplyDefaults()
      modifies this
      ensures view == WithDefaults(old(view))
    {
      if view.stateDir == "" { view := view.(stateDir := "/berth"); }
      if view.mode == "" { view := view.(mode := RUNTIME); }
      if view.enforce == "" { view := view.(enforce := PROBE); }
      if view.leaseNamespace == "" { view := view.(leaseNamespace := view.podNamespace); }
      if view.heartbeat <= 0 && view.ttl > 0 { view := view.(heartbeat := view.ttl / 3); }
      if view.release.None? { view := view.(release := Some(view.mode == RUNTIME)); }
    }

    method Validate() returns (ok: bool)
      modifies this
      ensures view == WithDefaults(old(view))
      ensures ok <==> Valid(view)
    {
      ApplyDefaults();
      var h := view;
      if h.leaseName == "" || h.leaseNamespace == "" { return false; }
      if h.mode != STARTUP_GATE && h.mode != RUNTIME { return false; }
      if h.enforce != PROBE && h.enforce != SIGNAL { return false; }
      if h.mode == RUNTIME && h.enforce == SIGNAL && h.signalTarget == "" { return false; }
      if !Identity.ValidIdentity(IdentityOf(h)) { return false; }
      if h.ttl <= 0 || h.ttl > MAX_INT32 * SECOND { return false; }
      if h.heartbeat <= 0 || h.heartbeat >= h.ttl || h.grace < 0 { return false; }
      ok := h.apiServer != "" && !(h.apiKey != "" && h.apiKeyFile != "");
    }
  }

  // ---------- The contract ----------

  lemma GetenvSnoc(env: seq<EnvVar>, v: EnvVar, d: Downward, sent: Delivery, n: EnvName)
    ensures Getenv(env + [v], d, sent, n) == if v.name == n then Text(v, d, sent) else Getenv(env, d, sent, n)
  {
  }

  /** An optional variable listed once, at index i, or not at all. */
  lemma {:induction false} AppendedReads(env: seq<EnvVar>, opts: seq<Injection.Optional>, d: Downward, sent: Delivery,
      n: EnvName, i: nat)
    requires forall j :: 0 <= j < |opts| && j != i ==> opts[j].name != n
    ensures Getenv(Injection.Appended(env, opts), d, sent, n) ==
            if i < |opts| && opts[i].name == n && opts[i].cond then sent(n, opts[i].value) else Getenv(env, d, sent, n)
  {
    if opts != [] {
      var init, o := opts[..|opts| - 1], opts[|opts| - 1];
      AppendedReads(env, init, d, sent, n, i);
      if o.cond { GetenvSnoc(Injection.Appended(env, init), Literal(o.name, o.value), d, sent, n); }
    }
  }

  /** What the webhook writes, or refers to, for each variable. */
  function Expected(cfg: Config, r: Settings, d: Downward, n: EnvName): string {
    match n
    case LeaseName => r.leaseName
    case LeaseNamespace => r.leaseNamespace
    case Mode => r.mode
    case Enforce => r.enforce
    case SignalTarget => if r.enforce == SIGNAL then r.signalTarget else ""
    case TtlSeconds => Decimal.FormatInt(r.ttl)
    case HeartbeatSeconds => if r.heartbeat > 0 then Decimal.FormatInt(r.heartbeat) else ""
    case EnforceGrace => if r.grace > 0 then Decimal.FormatInt(r.grace) else ""
    case ReleaseOnShutdown => r.release
    case HolderIdentity => r.holder
    case ClusterId => cfg.clusterId
    case WorkloadKind => r.workloadKind
    case WorkloadName => r.workloadName
    case StateDir => cfg.stateDir
    case ApiServer => cfg.apiServer
    case ApiKeyFile => cfg.apiKeyFile
    case CaBundleFile => cfg.caBundleFile
    case ServerName => cfg.serverName
    case Insecure => if cfg.insecure then "true" else ""
    case PodNamespace => d.namespace
    case PodName => d.name
    case PodUid => d.uid
    case ApiKey => ""
    case Custom(_) => ""
  }

  predicate InBase(n: EnvName) {
    n.LeaseName? || n.LeaseNamespace? || n.Mode? || n.Enforce? || n.TtlSeconds? || n.StateDir? || n.PodNamespace?
    || n.PodName? || n.PodUid?
  }

  predicate FromField(n: EnvName) { n.PodNamespace? || n.PodName? || n.PodUid? }

  /** What each variable reads. */
  function Reading(cfg: Config, r: Settings, d: Downward, sent: Delivery, n: EnvName): string {
    if FromField(n) then Expected(cfg, r, d, n) else sent(n, Expected(cfg, r, d, n))
  }

  lemma BaseReads(cfg: Config, r: Settings, d: Downward, sent: Delivery, n: EnvName)
    ensures Getenv(Injection.BaseEnv(cfg, r), d, sent, n) == if InBase(n) then Reading(cfg, r, d, sent, n) else ""
  {
    var env := Injection.BaseEnv(cfg, r);
    FindIn(env, d, sent, n,
           if n.LeaseName? then 0 else if n.LeaseNamespace? then 1 else if n.Mode? then 2 else if n.Enforce? then 3
           else if n.TtlSeconds? then 4 else if n.StateDir? then 5 else if n.PodNamespace? then 6
           else if n.PodName? then 7 else 8);
  }

  /** A variable defined once, at index i, or not at all. */
  lemma {:induction false} FindIn(env: seq<EnvVar>, d: Downward, sent: Delivery, n: EnvName, i: nat)
    requires forall j :: 0 <= j < |env| && j != i ==> env[j].name != n
    ensures Getenv(env, d, sent, n) == if i < |env| && env[i].name == n then Text(env[i], d, sent) else ""
  {
    if env != [] { FindIn(env[..|env| - 1], d, sent, n, i); }
  }

  /** Where an optional variable is listed. */
  function Slot(n: EnvName): nat {
    match n
    case SignalTarget => 0
    case HeartbeatSeconds => 1
    case EnforceGrace => 2
    case ReleaseOnShutdown => 3
    case HolderIdentity => 4
    case WorkloadKind => 5
    case WorkloadName => 6
    case ClusterId => 7
    case ApiServer => 8
    case ApiKeyFile => 9
    case CaBundleFile => 10
    case ServerName => 11
    case Insecure => 12
    case _ => 13
  }

  lemma SlotsDistinct(cfg: Config, r: Settings)
    ensures forall j :: 0 <= j < |Injection.OptionalEnv(cfg, r)| ==> Slot(Injection.OptionalEnv(cfg, r)[j].name) == j
  {
  }

  lemma OptionalIs(cfg: Config, r: Settings, d: Downward, n: EnvName)
    requires Slot(n) < 13
    ensures var o := Injection.OptionalEnv(cfg, r)[Slot(n)];
            !InBase(n) && o.name == n && Expected(cfg, r, d, n) == if o.cond then o.value else ""
  {
  }

  /** Every variable reads what the webhook wrote, as it arrives. */
  lemma EnvReads(cfg: Config, r: Settings, d: Downward, sent: Delivery, n: EnvName)
    requires sent(n, "") == ""
    ensures Getenv(Injection.HelperEnv(cfg, r), d, sent, n) == Reading(cfg, r, d, sent, n)
  {
    var env, opts := Injection.BaseEnv(cfg, r), Injection.OptionalEnv(cfg, r);
    BaseReads(cfg, r, d, sent, n);
    assert forall j :: 0 <= j < |opts| && j != Slot(n) ==> opts[j].name != n by { SlotsDistinct(cfg, r); }
    AppendedReads(env, opts, d, sent, n, Slot(n));
    if Slot(n) < 13 {
      OptionalIs(cfg, r, d, n);
    } else {
      assert !InBase(n) ==> Expected(cfg, r, d, n) == "";
    }
  }

  lemma SecondsReadBack(n: int)
    requires 0 <= n <= Decimal.INT64_MAX
    ensures Seconds(Decimal.FormatInt(n)) == Some(Wrap(n * SECOND))
    ensures Decimal.FormatInt(n) != ""
  {
    Decimal.ParseOfFormat(n);
  }

  /** A number of seconds survives the conversion to nanoseconds exactly up to this bound. */
  const MAX_SECONDS: int := 9_223_372_036

  lemma SecondsSurviveIff(n: int)
    requires 0 <= n
    ensures Wrap(n * SECOND) == n * SECOND <==> n <= MAX_SECONDS
  {
  }

  function Numbers(cfg: Config, r: Settings): Parsed {
    Parsed(r.ttl * SECOND, r.heartbeat * SECOND, Wrap(r.grace * SECOND),
           if r.release == "" then None else Some(r.release == "true"), cfg.insecure)
  }

  /** What the helper of an admitted Pod parses when its texts are verbatim. */
  function Meant(cfg: Config, r: Settings, d: Downward): Helper {
    var p := Numbers(cfg, r);
    Helper(r.leaseName, r.leaseNamespace, r.mode, r.enforce, if r.enforce == SIGNAL then r.signalTarget else "",
           p.ttl, p.heartbeat, p.grace, p.release, r.holder, cfg.clusterId, d.namespace, d.name, d.uid,
           r.workloadKind, r.workloadName, cfg.stateDir,
           cfg.apiServer, "", cfg.apiKeyFile, cfg.caBundleFile, cfg.serverName, p.insecure)
  }

  /** The settings the webhook resolved, as the helper should have them. */
  function Intended(cfg: Config, r: Settings, d: Downward): Helper {
    Meant(cfg, r, d).(grace := r.grace * SECOND)
  }

  /** A duration the webhook writes only when it is positive. */
  lemma OptionalSeconds(n: int)
    requires 0 <= n <= Decimal.INT64_MAX
    ensures Seconds(if n > 0 then Decimal.FormatInt(n) else "") == Some(Wrap(n * SECOND))
  {
    SecondsReadBack(n);
  }

  lemma ShortSeconds(n: int)
    requires 0 <= n <= MAX_INT32
    ensures Seconds(if n > 0 then Decimal.FormatInt(n) else "") == Some(n * SECOND)
  {
    OptionalSeconds(n);
    SecondsSurviveIff(n);
  }

  lemma FlagsParse(cfg: Config, r: Settings)
    requires r.release == "" || r.release == "true" || r.release == "false"
    ensures Flag(r.release) == Some(if r.release == "" then None else Some(r.release == "true"))
    ensures Flag(if cfg.insecure then "true" else "") == Some(if cfg.insecure then Some(true) else None)
  {
  }

  /** Parsing, from how its five texts read. */
  lemma ParseIs(ttl: string, heartbeat: string, grace: string, release: string, insecure: string, p: Parsed)
    requires Seconds(ttl) == Some(p.ttl) && Seconds(heartbeat) == Some(p.heartbeat) && Seconds(grace) == Some(p.grace)
    requires Flag(release) == Some(p.release) && Flag(insecure) == Some(if p.insecure then Some(true) else None)
    ensures Parse(ttl, heartbeat, grace, release, insecure) == Some(p)
  {
  }

  /** Texts without a dollar sign arrive as written. */
  ghost predicate PlainArrives(sent: Delivery) { forall n, t :: '$' !in t ==> sent(n, t) == t }

  lemma NumbersRead(cfg: Config, r: Settings, d: Downward, sent: Delivery, n: EnvName)
    requires ValidSettings(r) && PlainArrives(sent)
    requires n.TtlSeconds? || n.HeartbeatSeconds? || n.EnforceGrace? || n.ReleaseOnShutdown? || n.Insecure?
    ensures Reading(cfg, r, d, sent, n) == Expected(cfg, r, d, n)
  {
    assert '$' !in Expected(cfg, r, d, n);
  }

  lemma NumbersParse(cfg: Config, r: Settings, d: Downward)
    requires ValidSettings(r) && r.grace <= Decimal.INT64_MAX
    ensures Seconds(Expected(cfg, r, d, TtlSeconds)) == Some(r.ttl * SECOND)
    ensures Seconds(Expected(cfg, r, d, HeartbeatSeconds)) == Some(r.heartbeat * SECOND)
    ensures Seconds(Expected(cfg, r, d, EnforceGrace)) == Some(Wrap(r.grace * SECOND))
  {
    ShortSeconds(r.ttl);
    ShortSeconds(r.heartbeat);
    OptionalSeconds(r.grace);
  }

  lemma ParsesNumbers(cfg: Config, r: Settings, d: Downward, get: EnvName -> string)
    requires ValidSettings(r) && r.grace <= Decimal.INT64_MAX
    requires forall n :: n in {TtlSeconds, HeartbeatSeconds, EnforceGrace, ReleaseOnShutdown, Insecure} ==>
             get(n) == Expected(cfg, r, d, n)
    ensures Parse(get(TtlSeconds), get(HeartbeatSeconds), get(EnforceGrace), get(ReleaseOnShutdown), get(Insecure)) ==
            Some(Numbers(cfg, r))
  {
    NumbersParse(cfg, r, d);
    FlagsParse(cfg, r);
    ParseIs(get(TtlSeconds), get(HeartbeatSeconds), get(EnforceGrace), get(ReleaseOnShutdown), get(Insecure),
        Numbers(cfg, r));
  }

  /** What the helper of an admitted Pod parses. */
  function Arrived(cfg: Config, r: Settings, d: Downward, sent: Delivery): Helper {
    var p := Numbers(cfg, r);
    Helper(
      sent(LeaseName, r.leaseName), sent(LeaseNamespace, r.leaseNamespace), sent(Mode, r.mode),
      sent(Enforce, r.enforce), sent(SignalTarget, if r.enforce == SIGNAL then r.signalTarget else ""),
      p.ttl, p.heartbeat,
      p.grace, p.release, sent(HolderIdentity, r.holder), sent(ClusterId, cfg.clusterId), d.namespace, d.name, d.uid,
      sent(WorkloadKind, r.workloadKind), sent(WorkloadName, r.workloadName), sent(StateDir, cfg.stateDir),
      sent(ApiServer, cfg.apiServer), "", sent(ApiKeyFile, cfg.apiKeyFile), sent(CaBundleFile, cfg.caBundleFile),
      sent(ServerName, cfg.serverName), p.insecure)
  }

  predicate ReadsSettings(r: Settings, sent: Delivery, get: EnvName -> string) {
    && get(LeaseName) == sent(LeaseName, r.leaseName) && get(LeaseNamespace) == sent(LeaseNamespace, r.leaseNamespace)
    && get(Mode) == sent(Mode, r.mode) && get(Enforce) == sent(Enforce, r.enforce)
    && get(SignalTarget) == sent(SignalTarget, if r.enforce == SIGNAL then r.signalTarget else "")
    && get(HolderIdentity) == sent(HolderIdentity, r.holder)
    && get(WorkloadKind) == sent(WorkloadKind, r.workloadKind)
    && get(WorkloadName) == sent(WorkloadName, r.workloadName)
  }

  predicate ReadsPlace(cfg: Config, d: Downward, sent: Delivery, get: EnvName -> string) {
    && get(ClusterId) == sent(ClusterId, cfg.clusterId) && get(StateDir) == sent(StateDir, cfg.stateDir)
    && get(ApiServer) == sent(ApiServer, cfg.apiServer) && get(ApiKey) == ""
    && get(ApiKeyFile) == sent(ApiKeyFile, cfg.apiKeyFile) && get(CaBundleFile) == sent(CaBundleFile, cfg.caBundleFile)
    && get(ServerName) == sent(ServerName, cfg.serverName)
    && get(PodNamespace) == d.namespace && get(PodName) == d.name && get(PodUid) == d.uid
  }

  lemma SettingsRead(cfg: Config, r: Settings, d: Downward, sent: Delivery, get: EnvName -> string)
    requires forall n :: get(n) == Reading(cfg, r, d, sent, n)
    ensures ReadsSettings(r, sent, get)
  {
  }

  lemma PlaceRead(cfg: Config, r: Settings, d: Downward, sent: Delivery, get: EnvName -> string)
    requires sent(ApiKey, "") == "" && forall n :: get(n) == Reading(cfg, r, d, sent, n)
    ensures ReadsPlace(cfg, d, sent, get)
  {
  }

  lemma BuildsArrived(cfg: Config, r: Settings, d: Downward, sent: Delivery, get: EnvName -> string)
    requires ReadsSettings(r, sent, get) && ReadsPlace(cfg, d, sent, get)
    ensures Build(get, Numbers(cfg, r)) == Arrived(cfg, r, d, sent)
  {
  }

  /** Parsing looks at nothing but the variables. */
  lemma SameReadings(get: EnvName -> string, want: EnvName -> string)
    requires forall n :: get(n) == want(n)
    ensures FromEnv(get) == FromEnv(want)
  {
  }

  /** What a container parses from its environment. */
  function ReceivedFrom(env: seq<EnvVar>, d: Downward, sent: Delivery): Option<Helper> {
    FromEnv(n => Getenv(env, d, sent, n))
  }

  function Received(cfg: Config, r: Settings, d: Downward, sent: Delivery): Option<Helper> {
    ReceivedFrom(Injection.HelperEnv(cfg, r), d, sent)
  }

  lemma ReceivedIs(cfg: Config, r: Settings, d: Downward, sent: Delivery)
    requires ValidSettings(r) && r.grace <= Decimal.INT64_MAX && PlainArrives(sent)
    ensures Received(cfg, r, d, sent) == Some(Arrived(cfg, r, d, sent))
  {
    var get, want := n => Getenv(Injection.HelperEnv(cfg, r), d, sent, n), n => Reading(cfg, r, d, sent, n);
    forall n ensures get(n) == want(n) { EnvReads(cfg, r, d, sent, n); }
    SameReadings(get, want);
    forall n | n in {TtlSeconds, HeartbeatSeconds, EnforceGrace, ReleaseOnShutdown, Insecure}
      ensures want(n) == Expected(cfg, r, d, n)
    {
      NumbersRead(cfg, r, d, sent, n);
    }
    ParsesNumbers(cfg, r, d, want);
    SettingsRead(cfg, r, d, sent, want);
    PlaceRead(cfg, r, d, sent, want);
    BuildsArrived(cfg, r, d, sent, want);
  }

  /** No text that reaches the helper is rewritten on the way. */
  predicate VerbatimSettings(cfg: Config, r: Settings) {
    && Expansion.Verbatim(r.leaseName) && Expansion.Verbatim(r.leaseNamespace)
    && (r.enforce == SIGNAL ==> Expansion.Verbatim(r.signalTarget)) && Expansion.Verbatim(r.holder)
    && Expansion.Verbatim(r.workloadKind) && Expansion.Verbatim(r.workloadName)
    && VerbatimPlace(cfg)
  }

  predicate VerbatimPlace(cfg: Config) {
    && Expansion.Verbatim(cfg.clusterId) && Expansion.Verbatim(cfg.stateDir) && Expansion.Verbatim(cfg.apiServer)
    && Expansion.Verbatim(cfg.apiKeyFile) && Expansion.Verbatim(cfg.caBundleFile) && Expansion.Verbatim(cfg.serverName)
  }

  /** What stands for a reference in the value of a variable: anything, since it depends on the cluster. */
  type Others = EnvName -> string -> string

  /** The delivery of a container runtime. */
  function Expanded(vars: Others): Delivery { (n, t) => Expansion.Expand(t, vars(n)) }

  lemma ExpandedPlain(vars: Others)
    ensures PlainArrives(Expanded(vars))
  {
    forall n, t | '$' !in t ensures Expanded(vars)(n, t) == t {
      Expansion.PlainIsVerbatim(t);
      Expansion.VerbatimStays(t, vars(n));
    }
  }

  lemma VerbatimArrives(cfg: Config, r: Settings, d: Downward, sent: Delivery)
    requires ValidSettings(r) && VerbatimSettings(cfg, r) && PlainArrives(sent)
    requires forall n, t :: Expansion.Verbatim(t) ==> sent(n, t) == t
    ensures Arrived(cfg, r, d, sent) == Meant(cfg, r, d)
  {
    assert '$' !in r.mode && '$' !in r.enforce;
  }

  lemma ExpandedArrives(cfg: Config, r: Settings, d: Downward, vars: Others)
    requires ValidSettings(r) && VerbatimSettings(cfg, r)
    ensures Arrived(cfg, r, d, Expanded(vars)) == Meant(cfg, r, d)
  {
    ExpandedPlain(vars);
    forall n, t | Expansion.Verbatim(t) ensures Expanded(vars)(n, t) == t { Expansion.VerbatimStays(t, vars(n)); }
    VerbatimArrives(cfg, r, d, Expanded(vars));
  }

  /** An environment in which every reference is empty. */
  function NoOthers(n: EnvName): string -> string { _ => "" }

  lemma UnchangedIsVerbatim(cfg: Config, r: Settings, d: Downward, sent: Delivery)
    requires Arrived(cfg, r, d, sent) == Intended(cfg, r, d)
    requires forall n, t :: sent(n, t) == t ==> Expansion.Verbatim(t)
    ensures VerbatimSettings(cfg, r)
  {
  }

  lemma ExpandedReceived(cfg: Config, r: Settings, d: Downward, vars: Others)
    requires ValidSettings(r) && r.grace <= Decimal.INT64_MAX
    ensures Received(cfg, r, d, Expanded(vars)) == Some(Arrived(cfg, r, d, Expanded(vars)))
  {
    ExpandedPlain(vars);
    ReceivedIs(cfg, r, d, Expanded(vars));
  }

  /** There, a text that is rewritten shows. */
  lemma RewrittenShows(cfg: Config, r: Settings, d: Downward)
    requires ValidSettings(r) && r.grace <= Decimal.INT64_MAX && !VerbatimSettings(cfg, r)
    ensures Received(cfg, r, d, Expanded(NoOthers)) != Some(Intended(cfg, r, d))
  {
    ExpandedReceived(cfg, r, d, NoOthers);
    if Arrived(cfg, r, d, Expanded(NoOthers)) == Intended(cfg, r, d) {
      forall n, t | Expanded(NoOthers)(n, t) == t ensures Expansion.Verbatim(t) {
        Expansion.RewritingShrinks(t, NoOthers(n));
      }
      UnchangedIsVerbatim(cfg, r, d, Expanded(NoOthers));
    }
  }

  lemma VerbatimReceived(cfg: Config, r: Settings, d: Downward, vars: Others)
    requires ValidSettings(r) && r.grace <= Decimal.INT64_MAX && VerbatimSettings(cfg, r)
    ensures Received(cfg, r, d, Expanded(vars)) == Some(Meant(cfg, r, d))
  {
    ExpandedReceived(cfg, r, d, vars);
    ExpandedArrives(cfg, r, d, vars);
  }

  /** Whatever the other variables are, the helper parses h. */
  ghost predicate AlwaysReceived(cfg: Config, r: Settings, d: Downward, h: Helper) {
    forall vars: Others :: Received(cfg, r, d, Expanded(vars)) == Some(h)
  }

  lemma VerbatimAlwaysReceived(cfg: Config, r: Settings, d: Downward)
    requires ValidSettings(r) && r.grace <= Decimal.INT64_MAX && VerbatimSettings(cfg, r)
    ensures AlwaysReceived(cfg, r, d, Meant(cfg, r, d))
  {
    forall vars: Others ensures Received(cfg, r, d, Expanded(vars)) == Some(Meant(cfg, r, d)) {
      VerbatimReceived(cfg, r, d, vars);
    }
  }

  lemma AlwaysReceivedOnce(cfg: Config, r: Settings, d: Downward, g: Helper, h: Helper)
    requires AlwaysReceived(cfg, r, d, g) && AlwaysReceived(cfg, r, d, h)
    ensures g == h
  {
    assert Received(cfg, r, d, Expanded(NoOthers)) == Some(g);
  }

  lemma RewrittenNotAlways(cfg: Config, r: Settings, d: Downward)
    requires ValidSettings(r) && r.grace <= Decimal.INT64_MAX && !VerbatimSettings(cfg, r)
    ensures !AlwaysReceived(cfg, r, d, Intended(cfg, r, d))
  {
    RewrittenShows(cfg, r, d);
  }

  /**
   The environment round trip: whatever the other variables are, the helper parses exactly the
   settings the webhook resolved, if and only if no text holds an escape or a reference and
   the grace fits 64 bits of nanoseconds.
   */
  lemma HelperReadsBackIff(cfg: Config, r: Settings, d: Downward)
    requires ValidSettings(r) && r.grace <= Decimal.INT64_MAX
    ensures AlwaysReceived(cfg, r, d, Intended(cfg, r, d)) <==> VerbatimSettings(cfg, r) && r.grace <= MAX_SECONDS
  {
    MeantIsIntendedIff(cfg, r, d);
    if VerbatimSettings(cfg, r) {
      VerbatimAlwaysReceived(cfg, r, d);
      if AlwaysReceived(cfg, r, d, Intended(cfg, r, d)) {
        AlwaysReceivedOnce(cfg, r, d, Meant(cfg, r, d), Intended(cfg, r, d));
      }
    } else {
      RewrittenNotAlways(cfg, r, d);
    }
  }

  lemma MeantIsIntendedIff(cfg: Config, r: Settings, d: Downward)
    requires r.grace >= 0
    ensures Meant(cfg, r, d) == Intended(cfg, r, d) <==> r.grace <= MAX_SECONDS
  {
    SecondsSurviveIff(r.grace);
  }

  lemma HelperEnvIs(cfg: Config, p: PodSpec, ns: string, j: nat)
    requires Injection.Admits(cfg, p, ns) && OptedIn(cfg, p, ns)
    requires j < Injection.HelperCount(Resolve(cfg, Injection.Checked(cfg, p), ns).value)
    ensures var q := Injection.Admitted(cfg, p, ns);
            j < |q.inits|
            && q.inits[j].env == Injection.HelperEnv(cfg, Resolve(cfg, Injection.Checked(cfg, p), ns).value)
  {
  }

  /** Both helpers of an admitted Pod parse the settings that were resolved for it, under the same condition. */
  lemma AdmittedHelpersReceive(cfg: Config, p: PodSpec, ns: string, j: nat, d: Downward, vars: Others)
    requires Injection.Admits(cfg, p, ns) && OptedIn(cfg, p, ns)
    requires var r := Resolve(cfg, Injection.Checked(cfg, p), ns).value;
             j < Injection.HelperCount(r) && VerbatimSettings(cfg, r) && r.grace <= MAX_SECONDS
    ensures var q, r := Injection.Admitted(cfg, p, ns), Resolve(cfg, Injection.Checked(cfg, p), ns).value;
            && j < |q.inits|
            && ReceivedFrom(q.inits[j].env, d, Expanded(vars)) == Some(Intended(cfg, r, d))
  {
    var r := Resolve(cfg, Injection.Checked(cfg, p), ns).value;
    HelperEnvIs(cfg, p, ns, j);
    MeantIsIntendedIff(cfg, r, d);
    VerbatimReceived(cfg, r, d, vars);
  }

  /** Whatever else the environment does, the grace arrives exactly up to the bound. */
  lemma GraceSurvivesIff(cfg: Config, r: Settings, d: Downward, vars: Others)
    requires ValidSettings(r) && r.grace <= Decimal.INT64_MAX
    ensures var got := Received(cfg, r, d, Expanded(vars));
            got.Some? && (got.value.grace == r.grace * SECOND <==> r.grace <= MAX_SECONDS)
  {
    ExpandedReceived(cfg, r, d, vars);
    SecondsSurviveIff(r.grace);
  }

  /**
   A runtime gives a reference to an earlier variable that variable's value; the Pod's name comes
   before the holder.
   */
  predicate KnowsPodName(cfg: Config, r: Settings, d: Downward, vars: Others) {
    vars(HolderIdentity)("POD_NAME") == Getenv(Injection.HelperEnv(cfg, r), d, Expanded(vars), PodName)
  }

  /** So a holder that names it arrives as the name of the Pod. */
  lemma ReferenceIsReplaced(cfg: Config, r: Settings, d: Downward, vars: Others)
    requires ValidSettings(r) && r.grace <= Decimal.INT64_MAX && r.holder == "$(POD_NAME)"
             && KnowsPodName(cfg, r, d, vars)
    ensures var got := Received(cfg, r, d, Expanded(vars));
            got.Some? && got.value.holder == d.name
  {
    ExpandedReceived(cfg, r, d, vars);
    ExpandsReference(vars(HolderIdentity));
    ExpandedPlain(vars);
    EnvReads(cfg, r, d, Expanded(vars), PodName);
  }

  lemma ExpandsReference(vars: string -> string)
    ensures Expansion.Expand("$(POD_NAME)", vars) == vars("POD_NAME")
  {
    assert "$(" + "POD_NAME" + ")" + "" == "$(POD_NAME)";
    Expansion.ReferenceExpands("POD_NAME", "", vars);
  }

  /** The helper accepts what it received exactly in these circumstances. */
  lemma HelperStartsIff(cfg: Config, r: Settings, d: Downward)
    requires ValidSettings(r)
    ensures Valid(WithDefaults(Meant(cfg, r, d))) <==>
              && cfg.apiServer != "" && (r.leaseNamespace != "" || d.namespace != "")
              && Identity.ValidIdentity(IdentityOf(Meant(cfg, r, d))) && Wrap(r.grace * SECOND) >= 0
  {
  }

  /** It starts with the settings the webhook resolved exactly in these. */
  lemma HelperStartsAsResolvedIff(cfg: Config, r: Settings, d: Downward)
    requires ValidSettings(r)
    ensures Valid(WithDefaults(Meant(cfg, r, d))) && Meant(cfg, r, d) == Intended(cfg, r, d) <==>
              && cfg.apiServer != "" && (r.leaseNamespace != "" || d.namespace != "")
              && Identity.ValidIdentity(IdentityOf(Meant(cfg, r, d))) && r.grace <= MAX_SECONDS
  {
    HelperStartsIff(cfg, r, d);
    MeantIsIntendedIff(cfg, r, d);
    SecondsSurviveIff(r.grace);
  }

  /** A grace period the webhook admits and the helper then refuses: it wraps to a negative duration. */
  lemma OversizedGraceStopsHelper(cfg: Config, r: Settings, d: Downward)
    requires ValidSettings(r) && r.grace == 10_000_000_000
    ensures !Valid(WithDefaults(Meant(cfg, r, d)))
  {
  }

  /** A grace period that both accept, and that wraps from centuries to a third of a second. */
  lemma OversizedGraceShrinks(cfg: Config, r: Settings, d: Downward)
    requires ValidSettings(r) && r.grace == 18_446_744_074
    requires cfg.apiServer != "" && r.leaseNamespace != "" && Identity.ValidIdentity(IdentityOf(Meant(cfg, r, d)))
    ensures Valid(WithDefaults(Meant(cfg, r, d))) && WithDefaults(Meant(cfg, r, d)).grace == 290_448_384
  {
  }

  // ---------- The holder a Pod runs under ----------

  /** The holder a helper uses with this configuration. */
  function HolderOf(h: Helper): string { Identity.Holder(IdentityOf(WithDefaults(h))) }

  /** What identifies the Pod behind its root, every component behind a colon. */
  function PodPath(r: Settings, d: Downward): string {
    Identity.Piece(r.workloadKind) + Identity.Piece(r.workloadName)
    + if r.mode == "startup-gate"
      then if r.workloadKind == "" && r.workloadName == "" then Identity.Piece(d.name) else ""
      else (if d.name == "" then "" else ":pod:" + d.name) + ":uid:" + d.uid
  }

  lemma HelperIdentity(cfg: Config, r: Settings, d: Downward)
    requires ValidSettings(r)
    ensures IdentityOf(WithDefaults(Intended(cfg, r, d))) ==
            Identity.Config(if r.mode == "startup-gate" then Identity.StartupGate else Identity.RuntimeSingleton,
                            r.holder, cfg.clusterId, d.namespace, d.name, d.uid, r.workloadKind, r.workloadName)
  {
  }

  /**
   The holder of an injected helper: the annotation if there is one; otherwise the cluster id and, behind a
   slash, the namespace, the controlling workload and, in runtime mode, name and UID of the Pod. Without a
   cluster id the namespace comes first.
   */
  lemma HelperHolderIs(cfg: Config, r: Settings, d: Downward)
    requires ValidSettings(r)
    ensures var h := HolderOf(Intended(cfg, r, d));
            if r.holder != "" then h == r.holder
            else if cfg.clusterId != "" then
              h == cfg.clusterId + Identity.Behind(Identity.Piece(d.namespace) + PodPath(r, d))
            else d.namespace != "" ==> h == d.namespace + Identity.Behind(PodPath(r, d))
  {
    HelperIdentity(cfg, r, d);
    var c := IdentityOf(WithDefaults(Intended(cfg, r, d)));
    if r.holder == "" { Identity.RootedHolder(c, PodPath(r, d)); }
  }

  /** The helpers of two runtime Pods that start without an explicit holder never share one. */
  lemma PodsNeverShareHolder(cfg: Config, r: Settings, d: Downward, cfg': Config, r': Settings, d': Downward)
    requires r.mode == RUNTIME && r'.mode == RUNTIME && r.holder == "" && r'.holder == "" && d.uid != d'.uid
    requires Valid(WithDefaults(Intended(cfg, r, d))) && Valid(WithDefaults(Intended(cfg', r', d')))
    ensures HolderOf(Intended(cfg, r, d)) != HolderOf(Intended(cfg', r', d'))
  {
    var a, b := WithDefaults(Intended(cfg, r, d)), WithDefaults(Intended(cfg', r', d'));
    Identity.HoldersDistinct(IdentityOf(a), IdentityOf(b));
  }
}
