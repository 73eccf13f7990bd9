/** The injected liveness probe as the kubelet runs it, against the markers the sidecars of the composed system keep. */
module Probes {
  import opened Wrappers
  import opened PodSpecs
  import opened Injection
  import opened Renewers
  import opened Exclusion
  import Durations
  import Paths

  // ---------- The check command ----------

  /** The modification time of the marker at a path, if there is one. */
  type Markers = string -> Option<int>

  /** What the arguments of the check command ask for. */
  datatype Check = Check(path: Option<string>, maxAge: int)

  /** At most one path, and the age bound as a flag with a value; anything else is refused. */
  function ReadArgs(args: seq<string>, c: Check): Option<Check> {
    if args == [] then Some(c)
    else if args[0] == "--max-age" then
      var age := if |args| < 2 then None else Durations.ParseDuration(args[1]);
      if age.None? then None else ReadArgs(args[2..], c.(maxAge := age.value))
    else if (|args[0]| > 0 && args[0][0] == '-') || c.path.Some? then None
    else ReadArgs(args[1..], c.(path := Some(args[0])))
  }

  /** The verdict of the command; None is a usage error. Without a path the marker is the one in dir. */
  function CheckVerdict(args: seq<string>, dir: string, markers: Markers, now: int): Option<Verdict> {
    if args == [] || args[0] != "check" then None
    else
      var c := ReadArgs(args[1..], Check(None, 0));
      if c.None? then None
      else
        var path := if c.value.path.Some? && c.value.path.value != "" then c.value.path.value else dir + "/healthy";
        Some(MarkerVerdict(markers(path), now, c.value.maxAge))
  }

  /** Whether the kubelet's probe of this container passes: the command must exit without an error. */
  predicate Passes(c: Container, dir: string, markers: Markers, now: int) {
    && c.liveness.Some? && c.liveness.value.handler.Exec? && |c.liveness.value.handler.command| > 0
    && CheckVerdict(c.liveness.value.handler.command[1..], dir, markers, now) == Some(Healthy)
  }

  // ---------- The injected probe ----------

  lemma ReadsFlag(age: string, v: int, c: Check)
    requires Durations.ParseDuration(age) == Some(v)
    ensures ReadArgs(["--max-age", age], c) == Some(c.(maxAge := v))
  {
    assert ["--max-age", age][2..] == [];
  }

  lemma ReadsInjected(path: string, age: string, v: int)
    requires path != "" && path[0] != '-' && Durations.ParseDuration(age) == Some(v)
    ensures ReadArgs([path, "--max-age", age], Check(None, 0)) == Some(Check(Some(path), v))
  {
    assert [path, "--max-age", age][1..] == ["--max-age", age];
    assert path[0] != "--max-age"[0];
    ReadsFlag(age, v, Check(Some(path), 0));
  }

  lemma InjectedVerdict(cfg: Config, r: Settings, dir: string, markers: Markers, now: int)
    requires 0 < r.ttl <= MAX_INT32 && Paths.IsAbs(cfg.stateDir)
    ensures var cmd := FreshnessProbe(cfg, r).handler.command;
            && |cmd| > 0 && cmd[0] == cfg.stateDir + "/check"
            && CheckVerdict(cmd[1..], dir, markers, now) ==
               Some(MarkerVerdict(markers(cfg.stateDir + "/healthy"), now, r.ttl * SECOND))
  {
    var path, age := cfg.stateDir + "/healthy", Durations.DurationText(r.ttl);
    Durations.ParseOfText(r.ttl);
    assert path[0] == '/';
    ReadsInjected(path, age, r.ttl * SECOND);
    var cmd := FreshnessProbe(cfg, r).handler.command;
    assert cmd[1..] == ["check", path, "--max-age", age];
    assert cmd[1..][1..] == [path, "--max-age", age];
  }

  /**
   The probe of every workload container of a runtime Pod that passes the final validation: it runs the installed check
   binary every two seconds, one failure ends the container with a second's grace, and it passes exactly while the
   marker in the state directory is there and no older than the time to live.
   */
  lemma WorkloadProbe(cfg: Config, p: PodSpec, ns: string, i: nat, dir: string, markers: Markers, now: int)
    requires ValidPod(cfg, p, ns) && OptedIn(cfg, p, ns) && Resolve(cfg, p, ns).value.mode == RUNTIME
    requires Paths.IsAbs(cfg.stateDir) && i < |p.containers|
    ensures var r, marker := Resolve(cfg, p, ns).value, markers(cfg.stateDir + "/healthy");
            && p.containers[i].liveness.Some?
            && var probe := p.containers[i].liveness.value;
            && probe.period == 2 && probe.timeout == 1 && probe.success == 1 && probe.failure == 1
            && probe.grace == Some(1)
            && probe.handler.Exec? && |probe.handler.command| > 0
            && probe.handler.command[0] == cfg.stateDir + "/check"
            && (Passes(p.containers[i], dir, markers, now) <==> marker.Some? && now - marker.value <= r.ttl * SECOND)
  {
    assert Gated(cfg, Resolve(cfg, p, ns).value, p.containers[i]);
    InjectedVerdict(cfg, Resolve(cfg, p, ns).value, dir, markers, now);
  }

  // ---------- Against the sidecars ----------

  /** Node i of the world is the sidecar of the Pod: its time to live, and its marker in the state directory. */
  ghost predicate SidecarOf(v: World, i: nat, cfg: Config, r: Settings, markers: Markers) {
    i < |v.nodes| && v.nodes[i].car.ttl == r.ttl * SECOND && markers(cfg.stateDir + "/healthy") == v.nodes[i].car.marker
  }

  /** The Pod is admitted in runtime mode, and c is one of its workload containers. */
  ghost predicate Workload(cfg: Config, p: PodSpec, ns: string, r: Settings, c: nat) {
    && Admits(cfg, p, ns) && OptedIn(cfg, p, ns) && Paths.IsAbs(cfg.stateDir) && c < |p.containers|
    && Resolve(cfg, Checked(cfg, p), ns) == Some(r) && r.mode == RUNTIME
  }

  lemma WorkloadAdmitted(cfg: Config, p: PodSpec, ns: string, r: Settings, c: nat)
    requires Workload(cfg, p, ns, r, c)
    ensures var q := Admitted(cfg, p, ns);
            && ValidPod(cfg, q, ns) && OptedIn(cfg, q, ns) && Resolve(cfg, q, ns) == Some(r) && c < |q.containers|
  {
    AdmittedIsValid(cfg, p, ns);
    SettingsSurvive(cfg, Checked(cfg, p), Admitted(cfg, p, ns), ns);
  }

  lemma FreshMarker(w: World, ms: seq<Move>, i: nat, ttl: int)
    requires Initial(w) && i < |Runs(w, ms).nodes| && Open(Runs(w, ms).nodes[i])
    requires ttl > 0 && Runs(w, ms).nodes[i].car.ttl == ttl * SECOND
    ensures var marker := Runs(w, ms).nodes[i].car.marker;
            marker.Some? && Runs(w, ms).server.clock - marker.value <= ttl * SECOND
  {
    ProbeNeverFailsSpuriously(w, ms, i);
  }

  /** While the sidecar of an admitted Pod keeps its gate open, no workload container of the Pod fails its probe. */
  lemma AdmittedProbePasses(
    w: World, ms: seq<Move>, i: nat, cfg: Config, p: PodSpec, ns: string, r: Settings, c: nat, dir: string,
    markers: Markers)
    requires Initial(w) && SidecarOf(Runs(w, ms), i, cfg, r, markers) && Open(Runs(w, ms).nodes[i])
             && Workload(cfg, p, ns, r, c)
    ensures var q := Admitted(cfg, p, ns);
            c < |q.containers| && Passes(q.containers[c], dir, markers, Runs(w, ms).server.clock)
  {
    WorkloadAdmitted(cfg, p, ns, r, c);
    WorkloadProbe(cfg, Admitted(cfg, p, ns), ns, c, dir, markers, Runs(w, ms).server.clock);
    FreshMarker(w, ms, i, r.ttl);
  }

  /** From one heartbeat after the expiry last reported to it, whatever became of the sidecar, every probe fails. */
  lemma AdmittedProbeFails(
    w: World, ms: seq<Move>, i: nat, cfg: Config, p: PodSpec, ns: string, r: Settings, c: nat, dir: string,
    markers: Markers, at: int)
    requires Initial(w) && SidecarOf(Runs(w, ms), i, cfg, r, markers) && Workload(cfg, p, ns, r, c)
    requires at >= Runs(w, ms).nodes[i].confirmed + Runs(w, ms).nodes[i].car.heartbeat
    ensures var q := Admitted(cfg, p, ns); c < |q.containers| && !Passes(q.containers[c], dir, markers, at)
  {
    WorkloadAdmitted(cfg, p, ns, r, c);
    WorkloadProbe(cfg, Admitted(cfg, p, ns), ns, c, dir, markers, at);
    ProbeFailsAfterDeath(w, ms, i, at);
  }

  /** Run k of a probe that first ran at `first`. */
  function ProbeTime(first: int, period: int, k: nat): int { first + k * period * SECOND }

  /** A probe that runs every two seconds runs within two seconds of any later instant. */
  lemma RunsSoon(first: int, from: int) returns (k: nat)
    requires first <= from
    ensures from <= ProbeTime(first, 2, k) < from + 2 * SECOND
  {
    var d := 2 * SECOND;
    k := (from - first + d - 1) / d;
    assert (from - first + d - 1) % d < d;
  }

  /**
   So a workload whose sidecar died is ended by a probe of its own that runs no later than two seconds after
   the server's expiry plus one heartbeat.
   */
  lemma DeadSidecarEndsWorkload(
    w: World, ms: seq<Move>, i: nat, cfg: Config, p: PodSpec, ns: string, r: Settings, c: nat, dir: string,
    markers: Markers, first: int) returns (k: nat)
    requires Initial(w) && SidecarOf(Runs(w, ms), i, cfg, r, markers) && Workload(cfg, p, ns, r, c)
    requires first <= Runs(w, ms).nodes[i].confirmed + Runs(w, ms).nodes[i].car.heartbeat
    ensures var q, n := Admitted(cfg, p, ns), Runs(w, ms).nodes[i];
            && c < |q.containers| && q.containers[c].liveness.Some?
            && var at := ProbeTime(first, q.containers[c].liveness.value.period, k);
            && n.confirmed + n.car.heartbeat <= at < n.confirmed + n.car.heartbeat + 2 * SECOND
            && !Passes(q.containers[c], dir, markers, at)
  {
    var n := Runs(w, ms).nodes[i];
    k := RunsSoon(first, n.confirmed + n.car.heartbeat);
    WorkloadAdmitted(cfg, p, ns, r, c);
    WorkloadProbe(cfg, Admitted(cfg, p, ns), ns, c, dir, markers, ProbeTime(first, 2, k));
    AdmittedProbeFails(w, ms, i, cfg, p, ns, r, c, dir, markers, ProbeTime(first, 2, k));
  }
}
