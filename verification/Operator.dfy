/**
 The operator's workload epochs as a step system. Status writes, gate removals and
 target patches are optimistic: they carry the resource version they were prepared
 from, are issued in one step and may land much later, or never, while the process
 that issued them has long given up. One lease reconcile runs at a time; the Pod
 reconciler, admission and every other writer interleave freely. UIDs are never
 reused and a terminal Pod stays terminal. Only Pods bound to the one BerthLease
 are modelled, and admission creates those gated.
 */
module Operator {
  import opened Wrappers
  import LeaseRecord

  type Time = LeaseRecord.Time
  type Uid = nat

  const MAX_PERMITTED: nat := 1024

  datatype Phase = Fresh | Active | Stopping

  datatype PermittedPod = PermittedPod(name: string, uid: Uid)

  datatype Identity = Identity(leaseName: string, holder: string, token: int)

  datatype Workload = Workload(
    target: Option<Uid>, phase: Phase, deadline: Option<Time>, id: Identity, pods: seq<PermittedPod>)

  datatype Status = Status(workload: Option<Workload>, currentHolder: string, fencingToken: int)

  datatype Lease = Lease(rv: nat, deleting: bool, status: Status)

  datatype Pod = Pod(name: string, rv: nat, gated: bool, terminal: bool, deleting: bool)

  /** activity: the replica count, or 1 for a CronJob that is not suspended. */
  datatype Target = Target(uid: Uid, rv: nat, activity: nat, fence: Option<nat>)

  const NOBODY: Identity := Identity("", "", 0)

  // ---------- Status transitions ----------

  predicate InPhase(s: Status, p: Phase) { s.workload.Some? && s.workload.value.phase == p }

  predicate ActiveAt(l: Lease, now: Time) {
    && !l.deleting && InPhase(l.status, Active)
    && var w := l.status.workload.value;
       w.deadline.Some? && now < w.deadline.value && w.id.token > 0
  }

  function Opened(w: Workload, id: Identity, deadline: Time): Workload {
    w.(phase := Active, id := id, deadline := Some(deadline))
  }

  function Kept(pods: seq<PermittedPod>, alive: set<Uid>): seq<PermittedPod> {
    if pods == [] then []
    else
      var rest := Kept(pods[..|pods| - 1], alive);
      if pods[|pods| - 1].uid in alive then rest + [pods[|pods| - 1]] else rest
  }

  function Pruned(w: Workload, alive: set<Uid>): Workload { w.(pods := Kept(w.pods, alive)) }

  function Registered(s: Status, p: PermittedPod): Status
    requires s.workload.Some?
  {
    s.(workload := Some(s.workload.value.(pods := s.workload.value.pods + [p])))
  }

  /** Closes admission to new permits; a lease without a workload record takes over the legacy identity. */
  function Closed(s: Status, leaseName: string): Status {
    s.(workload := Some(
         if s.workload.Some? then s.workload.value.(phase := Stopping)
         else Workload(None, Stopping, None, Identity(leaseName, s.currentHolder, s.fencingToken), [])))
  }

  function Reset(s: Status): Status {
    Status(if s.workload.Some? then Some(Workload(s.workload.value.target, Fresh, None, NOBODY, [])) else None, "", 0)
  }

  function Recorded(s: Status, target: Uid): Status {
    s.(workload := Some(Workload(Some(target), Fresh, None, NOBODY, [])))
  }

  /** The identity a release would name. */
  function ReleaseIdentity(s: Status, leaseName: string): Identity {
    if s.workload.Some? then s.workload.value.id else Identity(leaseName, s.currentHolder, s.fencingToken)
  }

  predicate Releasable(id: Identity) { id.holder != "" && id.token > 0 }

  predicate InRegistry(s: Status, uid: Uid) {
    s.workload.Some? && exists i :: 0 <= i < |s.workload.value.pods| && s.workload.value.pods[i].uid == uid
  }

  // ---------- Writes in flight ----------

  /** What a status write is for; carried for the proof, never looked at by a step. */
  datatype Why = Same | Register | Activate | Close | Clear | Record

  datatype Write =
    | PutStatus(rv: nat, why: Why, status: Status)
    | DropFinalizer(rv: nat)
    | Ungate(uid: Uid, rv: nat, admitted: bool)
    | StopTarget(uid: Uid, rv: nat, fence: nat)
    | StartTarget(uid: Uid, rv: nat, born: nat)  // born: the lease version of the activation behind it

  /** A run of permitPod: its reads, then the registration it may be waiting for. */
  datatype Permit = Permit(lease: Option<Lease>, uid: Option<Uid>, pod: Pod, waiting: Option<nat>)

  datatype Pc =
    | Idle
    | Read(l: Lease)
    | Asking(l: Lease, started: Time)
    | Pruning(l: Lease, next: Workload)
    | Activating(write: nat, l: Lease)
    | Activated(l: Lease)
    | MustStop(l: Lease)
    | Closing(write: nat, l: Lease)
    | Stopped(l: Lease)
    | Patching(write: nat, l: Lease)
    | ListingJobs(l: Lease)
    | ListingPods(l: Lease, jobsDone: bool)
    | Drained(l: Lease)
    | Finishing(l: Lease)

  datatype Config = Config(leaseName: string, holder: string, ttl: Time, activity: nat)

  datatype State = State(
    cfg: Config, clock: Time, lease: Option<Lease>, pods: map<Uid, Pod>, used: set<Uid>, jobs: set<Uid>,
    target: Option<Target>, writes: map<nat, Write>, landed: set<nat>, next: nat,
    permits: map<nat, Permit>, pc: Pc, recorded: Identity, sent: seq<Identity>)

  function Init(cfg: Config, clock: Time, legacyHolder: string, legacyToken: int): State {
    State(cfg, clock, Some(Lease(0, false, Status(None, legacyHolder, legacyToken))), map[], {}, {}, None,
          map[], {}, 0, map[], Idle, Identity(cfg.leaseName, legacyHolder, legacyToken), [])
  }

  function Issue(s: State, w: Write): State { s.(writes := s.writes[s.next := w], next := s.next + 1) }

  // ---------- Events ----------

  datatype Answer = NoAnswer | HeldByOther | Ours(token: int, holder: string, expiresAt: Time)

  datatype Event =
    // the world outside
    | Tick(dt: nat)
    | CreatePod(uid: Uid, name: string)
    | FinishPod(uid: Uid) | TouchPod(uid: Uid) | MarkPod(uid: Uid) | RemovePod(uid: Uid)
    | AddJob(uid: Uid) | RemoveJob(uid: Uid)
    | TouchLease | DeleteLease
    | RecordTarget(uid: Uid) | CreateTarget(uid: Uid, activity: nat) | LowerTarget(activity: nat) | RemoveTarget
    // writes in flight
    | Admit(id: nat) | Land(id: nat) | Lose(id: nat)
    // permitPod, run by the Pod reconciler or by the lease reconciler
    | PermitRead(p: nat) | PermitPod(p: nat, uid: Uid) | PermitGo(p: nat, kin: bool)
    | PermitOk(p: nat) | PermitDrop(p: nat)
    // the lease reconciler
    | RecRead | RecCheck(invalid: bool, holderOk: bool, verified: bool) | RecAnswer(a: Answer)
    | RecPrune | RecActivated | RecStart | RecStop | RecClosed | RecStopTarget | RecPatched
    | RecListJobs | RecListPods | RecRelease(ok: bool) | RecFinish | RecAbort

  function WithPod(s: State, uid: Uid, p: Pod): State { s.(pods := s.pods[uid := p.(rv := p.rv + 1)]) }

  function DoPodEvent(s: State, e: Event): State {
    match e
    case CreatePod(uid, name) =>
      if uid in s.used then s
      else s.(pods := s.pods[uid := Pod(name, 0, true, false, false)], used := s.used + {uid})
    case FinishPod(uid) => if uid in s.pods then WithPod(s, uid, s.pods[uid].(terminal := true)) else s
    case TouchPod(uid) => if uid in s.pods then WithPod(s, uid, s.pods[uid]) else s
    case MarkPod(uid) => if uid in s.pods then WithPod(s, uid, s.pods[uid].(deleting := true)) else s
    case RemovePod(uid) => s.(pods := s.pods - {uid})
    case _ => s
  }

  function DoTargetEvent(s: State, e: Event): State {
    match e
    case CreateTarget(uid, activity) =>
      if s.target.Some? || uid in s.used then s
      else s.(target := Some(Target(uid, 0, activity, None)), used := s.used + {uid})
    case LowerTarget(activity) =>
      if s.target.Some? && activity <= s.target.value.activity
      then s.(target := Some(s.target.value.(activity := activity, rv := s.target.value.rv + 1))) else s
    case RemoveTarget => s.(target := None)
    case _ => s
  }

  function DoLeaseEvent(s: State, e: Event): State {
    if s.lease.None? then s
    else
      var l := s.lease.value;
      match e
      case TouchLease => s.(lease := Some(l.(rv := l.rv + 1)))
      case DeleteLease => s.(lease := Some(l.(rv := l.rv + 1, deleting := true)))
      case RecordTarget(uid) =>
        // final CREATE admission of the target: only with no cleanup responsibility
        if l.deleting || s.target.Some?
           || (l.status.workload.Some?
              && (l.status.workload.value.phase != Fresh || l.status.workload.value.pods != [])) then s
        else Issue(s, PutStatus(l.rv, Record, Recorded(l.status, uid)))
      case _ => s
  }

  // ---------- Landing ----------

  function DoAdmit(s: State, id: nat): State {
    if id !in s.writes || !s.writes[id].Ungate? || s.lease.None? then s
    else
      var w := s.writes[id];
      // validatePermit: the lease as it is now must be active and must name this Pod
      if w.uid in s.pods && ActiveAt(s.lease.value, s.clock)
         && PermittedPod(s.pods[w.uid].name, w.uid) in s.lease.value.status.workload.value.pods
      then s.(writes := s.writes[id := w.(admitted := true)]) else s
  }

  function LandStatus(s: State, id: nat, w: Write): State
    requires w.PutStatus?
  {
    if s.lease.Some? && s.lease.value.rv == w.rv then
      s.(lease := Some(Lease(w.rv + 1, s.lease.value.deleting, w.status)), landed := s.landed + {id},
         recorded := if InPhase(w.status, Active) then w.status.workload.value.id else s.recorded)
    else s
  }

  function LandTarget(s: State, id: nat, uid: Uid, rv: nat, t: Target): State {
    if s.target.Some? && s.target.value.uid == uid && s.target.value.rv == rv
    then s.(target := Some(t.(uid := uid, rv := rv + 1)), landed := s.landed + {id}) else s
  }

  function DoLand(s: State, id: nat): State {
    if id !in s.writes then s
    else
      var w := s.writes[id];
      var t := s.(writes := s.writes - {id});
      match w
      case PutStatus(_, _, _) => LandStatus(t, id, w)
      case DropFinalizer(rv) =>
        if s.lease.Some? && s.lease.value.rv == rv && s.lease.value.deleting
        then t.(lease := None, landed := s.landed + {id}) else t
      case Ungate(uid, rv, admitted) =>
        if !admitted then s
        else if uid in s.pods && s.pods[uid].rv == rv then WithPod(t, uid, s.pods[uid].(gated := false)) else t
      case StopTarget(uid, rv, fence) =>
        LandTarget(t, id, uid, rv, Target(uid, rv, 0, Some(fence)))
      case StartTarget(uid, rv, _) =>
        LandTarget(t, id, uid, rv,
            Target(uid, rv, s.cfg.activity, if s.target.Some? then s.target.value.fence else None))
  }

  // ---------- permitPod ----------

  function DoPermit(s: State, e: Event): State {
    match e
    case PermitRead(p) =>
      if s.lease.None? then s
      else if p in s.permits then s.(permits := s.permits[p := s.permits[p].(lease := s.lease)])
      else s.(permits := s.permits[p := Permit(s.lease, None, Pod("", 0, false, false, false), None)])
    case PermitPod(p, uid) =>
      if p in s.permits && uid in s.pods && s.permits[p].waiting.None?
      then s.(permits := s.permits[p := s.permits[p].(uid := Some(uid), pod := s.pods[uid])]) else s
    case PermitGo(p, kin) =>
      if p !in s.permits || s.permits[p].lease.None? || s.permits[p].uid.None? || s.permits[p].waiting.Some? then s
      else
        var l, uid, pod := s.permits[p].lease.value, s.permits[p].uid.value, s.permits[p].pod;
        if !ActiveAt(l, s.clock) || pod.deleting || !kin then s
        else
          var entry := PermittedPod(pod.name, uid);
          if entry in l.status.workload.value.pods then
            if pod.gated then Issue(s, Ungate(uid, pod.rv, false)) else s
          else if !pod.gated || |l.status.workload.value.pods| >= MAX_PERMITTED then s
          else
            Issue(s, PutStatus(l.rv, Register, Registered(l.status, entry)))
            .(permits := s.permits[p := s.permits[p].(waiting := Some(s.next))])
    case PermitOk(p) =>
      if p in s.permits && s.permits[p].waiting.Some? && s.permits[p].waiting.value in s.landed
          && s.permits[p].uid.Some?
      then Issue(s, Ungate(s.permits[p].uid.value, s.permits[p].pod.rv, false)).(permits := s.permits - {p}) else s
    case PermitDrop(p) => s.(permits := s.permits - {p})
    case _ => s
  }

  // ---------- The lease reconciler ----------

  /** The first half of Reconcile: what the stored status alone decides. */
  function Check(l: Lease, now: Time, invalid: bool, holderOk: bool, verified: bool): Pc {
    if l.deleting || InPhase(l.status, Stopping)
       || (InPhase(l.status, Active) && (!ActiveAt(l, now) || !holderOk || invalid)) then MustStop(l)
    else if invalid then MustStop(l)
    else if !verified || l.status.workload.None? then
      if InPhase(l.status, Active) then MustStop(l) else Idle
    else Asking(l, now)
  }

  function Truncated(t: Time): Time { t - t % SECOND }

  /** The Active deadline: the earlier of the caller's own estimate and the server's answer, in whole seconds. */
  function DeadlineFrom(started: Time, ttl: Time, expiresAt: Time): Time {
    Truncated(if started + ttl < expiresAt then started + ttl else expiresAt)
  }

  /** The second half: what the central answer decides. */
  function Decided(cfg: Config, l: Lease, started: Time, now: Time, a: Answer): Pc
    requires l.status.workload.Some?
  {
    var w := l.status.workload.value;
    match a
    case NoAnswer => if w.phase == Active && !ActiveAt(l, now) then MustStop(l) else Idle
    case HeldByOther => MustStop(l)
    case Ours(token, holder, expiresAt) =>
      if token <= 0 || holder != cfg.holder || expiresAt <= now then Idle
      else
        var deadline := DeadlineFrom(started, cfg.ttl, expiresAt);
        if now >= deadline || (w.phase == Active && w.id.token != token) then MustStop(l)
        else Pruning(l, Opened(w, Identity(cfg.leaseName, holder, token), deadline))
  }

  function AliveUids(s: State): set<Uid> { set u | u in s.pods && !s.pods[u].terminal }

  /** stopTarget acts on the admitted incarnation, or on whatever has the name when none was recorded. */
  predicate OurTarget(l: Lease, t: Target) {
    l.status.workload.Some? && l.status.workload.value.target.Some? ==> l.status.workload.value.target.value == t.uid
  }

  /** The patch writes nothing only when the target is stopped and already carries this fence. */
  predicate NeedsStop(s: State, l: Lease) {
    s.target.Some? && OurTarget(l, s.target.value)
    && !(s.target.value.activity == 0 && s.target.value.fence == Some(l.rv))
  }

  function IssueStop(s: State, l: Lease): State
    requires s.target.Some?
  {
    Issue(s, StopTarget(s.target.value.uid, s.target.value.rv, l.rv))
  }

  function DoOpening(s: State, e: Event): State {
    match e
    case RecRead => if s.pc.Idle? && s.lease.Some? then s.(pc := Read(s.lease.value)) else s
    case RecCheck(invalid, holderOk, verified) =>
      if !s.pc.Read? then s
      else
        var l := s.pc.l;
        var pc := Check(l, s.clock, invalid, holderOk, verified);
        // an unadmitted target is stopped as a safeguard; the condition written with it is not modelled
        var t := if pc.Idle? then Issue(s, PutStatus(l.rv, Same, l.status)) else s;
        (if pc.Idle? && NeedsStop(s, l) then IssueStop(t, l) else t).(pc := pc)
    case RecAnswer(a) =>
      if !s.pc.Asking? || s.pc.l.status.workload.None? then s
      else
        var l := s.pc.l;
        var pc := Decided(s.cfg, l, s.pc.started, s.clock, a);
        (if pc.Idle? then Issue(s, PutStatus(l.rv, Same, l.status)) else s).(pc := pc)
    case RecPrune =>
      if !s.pc.Pruning? then s
      else
        var w := Pruned(s.pc.next, AliveUids(s));
        var st := Status(Some(w), w.id.holder, w.id.token);
        Issue(s, PutStatus(s.pc.l.rv, Activate, st))
        .(pc := Activating(s.next, Lease(s.pc.l.rv + 1, s.pc.l.deleting, st)))
    case RecActivated => if s.pc.Activating? && s.pc.write in s.landed then s.(pc := Activated(s.pc.l)) else s
    case RecStart =>
      // the acquire action on the admitted target, then permits, which run on their own
      if !s.pc.Activated? then s
      else
        var uid := if s.pc.l.status.workload.Some? then s.pc.l.status.workload.value.target else None;
        (if s.target.Some? && uid == Some(s.target.value.uid) && s.target.value.activity != s.cfg.activity
         then Issue(s, StartTarget(s.target.value.uid, s.target.value.rv, s.pc.l.rv)) else s).(pc := Idle)
    case _ => s
  }

  function DoStopping(s: State, e: Event): State {
    match e
    case RecStop =>
      if !s.pc.MustStop? then s
      else
        var l := s.pc.l;
        if InPhase(l.status, Stopping) then s.(pc := Stopped(l))
        else
          var st := Closed(l.status, s.cfg.leaseName);
          Issue(s, PutStatus(l.rv, Close, st)).(pc := Closing(s.next, Lease(l.rv + 1, l.deleting, st)))
    case RecClosed => if s.pc.Closing? && s.pc.write in s.landed then s.(pc := Stopped(s.pc.l)) else s
    case RecStopTarget =>
      if !s.pc.Stopped? then s
      else if NeedsStop(s, s.pc.l) then IssueStop(s, s.pc.l).(pc := Patching(s.next, s.pc.l))
      else s.(pc := ListingJobs(s.pc.l))
    case RecPatched => if s.pc.Patching? && s.pc.write in s.landed then s.(pc := ListingJobs(s.pc.l)) else s
    case RecListJobs => if s.pc.ListingJobs? then s.(pc := ListingPods(s.pc.l, s.jobs == {})) else s
    case RecListPods =>
      if !s.pc.ListingPods? then s
      else if s.pc.jobsDone && AliveUids(s) == {} then s.(pc := Drained(s.pc.l)) else s.(pc := Idle)
    case RecRelease(ok) =>
      if !s.pc.Drained? then s
      else
        var id := ReleaseIdentity(s.pc.l.status, s.cfg.leaseName);
        s.(sent := if Releasable(id) then s.sent + [id] else s.sent,
           pc := if ok || !Releasable(id) then Finishing(s.pc.l) else Idle)
    case RecFinish =>
      if !s.pc.Finishing? then s
      else
        var l := s.pc.l;
        Issue(s, if l.deleting then DropFinalizer(l.rv) else PutStatus(l.rv, Clear, Reset(l.status))).(pc := Idle)
    case _ => s
  }

  predicate OnPods(e: Event) { e.CreatePod? || e.FinishPod? || e.TouchPod? || e.MarkPod? || e.RemovePod? }

  predicate OnTarget(e: Event) { e.CreateTarget? || e.LowerTarget? || e.RemoveTarget? }

  predicate OnLease(e: Event) { e.TouchLease? || e.DeleteLease? || e.RecordTarget? }

  predicate Permitting(e: Event) { e.PermitRead? || e.PermitPod? || e.PermitGo? || e.PermitOk? || e.PermitDrop? }

  predicate Opening(e: Event) {
    e.RecRead? || e.RecCheck? || e.RecAnswer? || e.RecPrune? || e.RecActivated? || e.RecStart?
  }

  function Do(s: State, e: Event): State {
    if OnPods(e) then DoPodEvent(s, e)
    else if OnTarget(e) then DoTargetEvent(s, e)
    else if OnLease(e) then DoLeaseEvent(s, e)
    else if Permitting(e) then DoPermit(s, e)
    else if Opening(e) then DoOpening(s, e)
    else
      match e
      case Tick(dt) => s.(clock := s.clock + dt)
      case AddJob(u) => s.(jobs := s.jobs + {u})
      case RemoveJob(u) => s.(jobs := s.jobs - {u})
      case Admit(id) => DoAdmit(s, id)
      case Land(id) => DoLand(s, id)
      case Lose(id) => s.(writes := s.writes - {id})
      case RecAbort => s.(pc := Idle)
      case _ => DoStopping(s, e)
  }

  function Run(s: State, es: seq<Event>): State {
    if es == [] then s else Do(Run(s, es[..|es| - 1]), es[|es| - 1])
  }
}
