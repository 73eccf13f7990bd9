/** Every operator event keeps the invariant. */
module OperatorSteps {
  import opened Wrappers
  import opened Operator
  import opened OperatorFrames
  import opened OperatorInvariant

  // ---------- The lease moves ----------

  /** The lease got a new version; nobody's pending write matches it any more. */
  ghost predicate Bumped(s: State, t: State) {
    && s.lease.Some? && t.lease.Some? && t.lease.value.rv == s.lease.value.rv + 1
    && t.cfg == s.cfg && t.pods == s.pods && t.used == s.used && t.permits == s.permits && t.pc == s.pc
    && t.next == s.next
    && t.target == s.target && s.landed <= t.landed
    && (forall id :: id in t.writes ==> id in s.writes && t.writes[id] == s.writes[id])
  }

  lemma BumpedWrites(s: State, t: State)
    requires Writes(s) && Bumped(s, t)
    ensures Writes(t)
  {
  }

  lemma BumpedUids(s: State, t: State)
    requires Uids(s) && Bumped(s, t)
    ensures Uids(t)
  {
  }

  lemma BumpedStop(s: State, t: State, l: Lease)
    requires Bumped(s, t) && StopBase(s, l) && !LeaseIn(t, Active) && t.recorded == s.recorded
    ensures StopBase(t, l)
  {
  }

  lemma BumpedOpen(s: State, t: State, l: Lease)
    requires Bumped(s, t) && OpenBase(s, l) && LeaseIn(t, Active)
    ensures OpenBase(t, l)
  {
  }

  /** The reconciler's own answered write, if the landing was its own, is established separately. */
  lemma BumpedPc(s: State, t: State)
    requires Bumped(s, t) && Inv(s)
    requires forall l :: StopBase(s, l) ==> !LeaseIn(t, Active) && t.recorded == s.recorded
    requires forall l :: OpenBase(s, l) ==> LeaseIn(t, Active)
    requires s.pc.Closing? && s.pc.write in t.landed ==> StopBase(t, s.pc.l)
    requires s.pc.Activating? && s.pc.write in t.landed ==> OpenBase(t, s.pc.l)
    ensures PcFact(t, t.pc)
  {
  }

  /** Somebody else touched the lease. */
  lemma TouchKeeps(s: State, deleting: bool)
    requires Inv(s) && s.lease.Some?
    ensures Inv(s.(lease := Some(Lease(s.lease.value.rv + 1, deleting, s.lease.value.status))))
  {
    var t := s.(lease := Some(Lease(s.lease.value.rv + 1, deleting, s.lease.value.status)));
    BumpedWrites(s, t);
    BumpedUids(s, t);
    if s.pc.Closing? && s.pc.write in t.landed { BumpedStop(s, t, s.pc.l); }
    if s.pc.Activating? && s.pc.write in t.landed { BumpedOpen(s, t, s.pc.l); }
    BumpedPc(s, t);
    forall u | u in t.pods && Running(t, u) ensures Holds(t, u) { assert Running(s, u); }
    forall id | id in t.writes && Landable(t, t.writes[id]) ensures Holds(t, t.writes[id].uid) {
      assert Landable(s, s.writes[id]);
    }
  }

  // ---------- A status write lands ----------

  predicate Matches(s: State, id: nat) {
    id in s.writes && s.writes[id].PutStatus? && s.lease.Some? && s.lease.value.rv == s.writes[id].rv
  }

  lemma LandedShape(s: State, id: nat)
    requires Ids(s) && Matches(s, id)
    ensures var t, w := DoLand(s, id), s.writes[id];
            && Bumped(s, t) && t.lease.value == Lease(w.rv + 1, s.lease.value.deleting, w.status)
            && t.landed == s.landed + {id} && id !in t.writes
            && t.recorded == if InPhase(w.status, Active) then w.status.workload.value.id else s.recorded
  {
  }

  lemma LandRegistry(s: State, id: nat)
    requires Inv(s) && Matches(s, id)
    ensures Registry(DoLand(s, id))
  {
  }

  lemma LandNamed(s: State, id: nat)
    requires Inv(s) && Matches(s, id)
    ensures var t := DoLand(s, id); t.lease.Some? && Named(t, t.lease.value.status)
  {
  }

  lemma LandPc(s: State, id: nat)
    requires Inv(s) && Matches(s, id)
    ensures PcFact(DoLand(s, id), s.pc)
  {
  }

  lemma LandStatusKeeps(s: State, id: nat)
    requires Inv(s) && Matches(s, id)
    ensures Inv(DoLand(s, id))
  {
    var t := DoLand(s, id);
    LandedShape(s, id);
    LandRegistry(s, id);
    LandNamed(s, id);
    LandPc(s, id);
    BumpedWrites(s, t);
    BumpedUids(s, t);
  }

  // ---------- The other writes land ----------

  lemma DropFinalizerKeeps(s: State, id: nat)
    requires Inv(s) && id in s.writes && s.writes[id].DropFinalizer?
    requires s.lease.Some? && s.lease.value.rv == s.writes[id].rv && s.lease.value.deleting
    ensures Inv(DoLand(s, id))
  {
  }

  lemma UngateKeeps(s: State, id: nat)
    requires Inv(s) && id in s.writes && Landable(s, s.writes[id])
    ensures Inv(DoLand(s, id))
  {
    var t, uid := DoLand(s, id), s.writes[id].uid;
    assert !Quiescent(s);
    assert forall u :: Dead(s, u) ==> Dead(t, u);
    forall j | j in t.writes ensures WriteOk(t, t.writes[j]) { WriteStays(s, t, s.writes[j]); }
    forall u | u in t.pods && Running(t, u) ensures Holds(t, u) { assert u == uid || Running(s, u); }
    forall j | j in t.writes && Landable(t, t.writes[j]) ensures Holds(t, t.writes[j].uid) {
      assert Landable(s, s.writes[j]);
    }
    UngatePc(s, id, t);
  }

  lemma UngatePc(s: State, id: nat, t: State)
    requires Inv(s) && id in s.writes && s.writes[id].Ungate? && !Quiescent(s) && t.lease == s.lease && t.cfg == s.cfg
    requires t.recorded == s.recorded && t.landed == s.landed && t.writes == s.writes - {id}
    ensures PcFact(t, s.pc)
  {
  }

  /** A target patch changes nothing the other facts speak of. */
  ghost predicate Patched(s: State, id: nat, t: State) {
    && id in s.writes && (s.writes[id].StopTarget? || s.writes[id].StartTarget?)
    && t.lease == s.lease && t.cfg == s.cfg && t.recorded == s.recorded && t.pods == s.pods && t.used == s.used
    && t.permits == s.permits && t.pc == s.pc && t.next == s.next && t.writes == s.writes - {id}
    && s.landed <= t.landed <= s.landed + {id} && (t.target.Some? ==> t.target.value.uid in t.used)
  }

  lemma LandIsPatch(s: State, id: nat)
    requires id in s.writes && (s.writes[id].StopTarget? || s.writes[id].StartTarget?)
    requires s.target.Some? ==> s.target.value.uid in s.used
    ensures Patched(s, id, DoLand(s, id))
  {
  }

  lemma PatchKeeps(s: State, id: nat, t: State)
    requires Inv(s) && Patched(s, id, t)
    ensures Inv(t)
  {
    if Quiescent(s) {
      forall u | u in t.pods ensures !Running(t, u) { assert !Running(s, u); }
      forall j | j in t.writes ensures !Landable(t, t.writes[j]) { assert !Landable(s, s.writes[j]); }
    }
    TargetLandPc(s, id, t);
    forall j | j in t.writes ensures WriteOk(t, t.writes[j]) { WriteStays(s, t, s.writes[j]); }
    forall u | u in t.pods && Running(t, u) ensures Holds(t, u) { assert Running(s, u); }
    forall j | j in t.writes && Landable(t, t.writes[j]) ensures Holds(t, t.writes[j].uid) {
      assert Landable(s, s.writes[j]);
    }
  }

  lemma TargetLandPc(s: State, id: nat, t: State)
    requires Inv(s) && Patched(s, id, t) && (Quiescent(s) ==> Quiescent(t))
    ensures PcFact(t, s.pc)
  {
  }

  lemma LandKeeps(s: State, id: nat)
    requires Inv(s)
    ensures Inv(DoLand(s, id))
  {
    if id in s.writes {
      if IsPatch(s.writes[id]) {
        LandIsPatch(s, id);
        PatchKeeps(s, id, DoLand(s, id));
      } else if s.writes[id].Ungate? {
        LandUngateKeeps(s, id);
      } else {
        LandLeaseKeeps(s, id);
      }
    }
  }

  lemma LandLeaseKeeps(s: State, id: nat)
    requires Inv(s) && id in s.writes && (s.writes[id].PutStatus? || s.writes[id].DropFinalizer?)
    ensures Inv(DoLand(s, id))
  {
    DropKeeps(s, id);
    match s.writes[id]
    case PutStatus(_, _, _) => if Matches(s, id) { LandStatusKeeps(s, id); }
    case DropFinalizer(rv) =>
      if s.lease.Some? && s.lease.value.rv == rv && s.lease.value.deleting { DropFinalizerKeeps(s, id); }
  }

  lemma LandUngateKeeps(s: State, id: nat)
    requires Inv(s) && id in s.writes && s.writes[id].Ungate?
    ensures Inv(DoLand(s, id))
  {
    DropKeeps(s, id);
    if Landable(s, s.writes[id]) { UngateKeeps(s, id); }
    else if s.writes[id].admitted { CalmKeeps(s.(writes := s.writes - {id}), DoLand(s, id)); }
  }

  /** Admission lets a gate removal through only for a Pod the active lease already names. */
  lemma AdmitKeeps(s: State, id: nat)
    requires Inv(s)
    ensures Inv(DoAdmit(s, id))
  {
    var t := DoAdmit(s, id);
    if t != s {
      var pods := s.lease.value.status.workload.value.pods;
      var i :| 0 <= i < |pods| && pods[i] == PermittedPod(s.pods[s.writes[id].uid].name, s.writes[id].uid);
      assert pods[i].uid == s.writes[id].uid;
      forall j | j in t.writes ensures WriteOk(t, t.writes[j]) {
        assert WriteOk(s, s.writes[j]);
        AdmittedWrite(s, t, s.writes[j]);
      }
      forall u | u in t.pods && Running(t, u) ensures Holds(t, u) { assert Running(s, u); }
      forall j | j in t.writes && Landable(t, t.writes[j]) ensures Holds(t, t.writes[j].uid) {
        assert j == id || Landable(s, s.writes[j]);
      }
      AdmittedPc(s, t, id);
    }
  }

  lemma AdmittedWrite(s: State, t: State, w: Write)
    requires WriteOk(s, w) && LeaseIn(s, Active) && t.lease == s.lease && t.cfg == s.cfg && t.pods == s.pods
             && t.used == s.used
    ensures WriteOk(t, w)
  {
  }

  lemma AdmittedPc(s: State, t: State, id: nat)
    requires Inv(s) && LeaseIn(s, Active) && id in s.writes && s.writes[id].Ungate?
    requires t == s.(writes := s.writes[id := s.writes[id].(admitted := true)])
    ensures PcFact(t, s.pc)
  {
  }

  // ---------- Permits ----------

  ghost predicate PermitOkIn(s: State, x: Permit) {
    && (x.lease.Some? ==> Current(s, x.lease.value))
    && (x.uid.Some? ==> ReadBefore(s, x.uid.value, x.pod))
  }

  lemma PermitsKeep(s: State, permits: map<nat, Permit>)
    requires Inv(s) && forall p :: p in permits ==> PermitOkIn(s, permits[p])
    ensures Inv(s.(permits := permits))
  {
    var t := s.(permits := permits);
    if Quiescent(s) {
      forall u | u in t.pods ensures !Running(t, u) { assert !Running(s, u); }
      forall j | j in t.writes ensures !Landable(t, t.writes[j]) { assert !Landable(s, s.writes[j]); }
    }
    PcStays(s, t, s.pc);
    forall j | j in t.writes ensures WriteOk(t, t.writes[j]) { WriteStays(s, t, s.writes[j]); }
    forall u | u in t.pods && Running(t, u) ensures Holds(t, u) { assert Running(s, u); }
    forall j | j in t.writes && Landable(t, t.writes[j]) ensures Holds(t, t.writes[j].uid) {
      assert Landable(s, s.writes[j]);
    }
    forall p | p in t.permits ensures PermitOkIn(t, t.permits[p]) { assert PermitOkIn(s, permits[p]); }
  }

  lemma PermitsOk(s: State)
    requires Uids(s)
    ensures forall p :: p in s.permits ==> PermitOkIn(s, s.permits[p])
  {
  }

  lemma PermitGoKeeps(s: State, p: nat, kin: bool)
    requires Inv(s)
    ensures Inv(DoPermit(s, PermitGo(p, kin)))
  {
    var t := DoPermit(s, PermitGo(p, kin));
    if t != s {
      PermitsOk(s);
      var l, uid, pod := s.permits[p].lease.value, s.permits[p].uid.value, s.permits[p].pod;
      if PermittedPod(pod.name, uid) in l.status.workload.value.pods {
        IssueKeeps(s, Ungate(uid, pod.rv, false));
      } else {
        RegisterKeeps(s, p, l, PermittedPod(pod.name, uid));
      }
    }
  }

  lemma RegisterKeeps(s: State, p: nat, l: Lease, entry: PermittedPod)
    requires Inv(s) && p in s.permits && Current(s, l) && InPhase(l.status, Active) && entry.uid in s.used
    requires |l.status.workload.value.pods| < MAX_PERMITTED
    ensures Inv(Issue(s, PutStatus(l.rv, Register, Registered(l.status, entry)))
                .(permits := s.permits[p := s.permits[p].(waiting := Some(s.next))]))
  {
    var w := PutStatus(l.rv, Register, Registered(l.status, entry));
    RegisterOk(s, l, entry);
    IssueKeeps(s, w);
    PermitsOk(Issue(s, w));
    PermitsKeep(Issue(s, w), s.permits[p := s.permits[p].(waiting := Some(s.next))]);
  }

  lemma RegisterOk(s: State, l: Lease, entry: PermittedPod)
    requires Registry(s) && Current(s, l) && InPhase(l.status, Active) && entry.uid in s.used
    requires |l.status.workload.value.pods| < MAX_PERMITTED
    ensures WriteOk(s, PutStatus(l.rv, Register, Registered(l.status, entry)))
  {
  }

  lemma PermitOkKeeps(s: State, p: nat)
    requires Inv(s) && p in s.permits && s.permits[p].uid.Some?
    ensures Inv(Issue(s, Ungate(s.permits[p].uid.value, s.permits[p].pod.rv, false)).(permits := s.permits - {p}))
  {
    PermitsOk(s);
    var w := Ungate(s.permits[p].uid.value, s.permits[p].pod.rv, false);
    IssueKeeps(s, w);
    PermitsOk(Issue(s, w));
    PermitsKeep(Issue(s, w), s.permits - {p});
  }

  lemma PermitReads(s: State, e: Event)
    requires e.PermitRead? || e.PermitPod? || e.PermitDrop?
    requires forall p :: p in s.permits ==> PermitOkIn(s, s.permits[p])
    requires s.pods.Keys <= s.used
    ensures var t := DoPermit(s, e);
            t == s.(permits := t.permits) && forall p :: p in t.permits ==> PermitOkIn(s, t.permits[p])
  {
  }

  lemma PermitReadsKeep(s: State, e: Event)
    requires Inv(s) && (e.PermitRead? || e.PermitPod? || e.PermitDrop?)
    ensures Inv(DoPermit(s, e))
  {
    PermitsOk(s);
    PermitReads(s, e);
    PermitsKeep(s, DoPermit(s, e).permits);
  }

  lemma PermitKeeps(s: State, e: Event)
    requires Inv(s) && Permitting(e)
    ensures Inv(DoPermit(s, e))
  {
    if e.PermitGo? {
      PermitGoKeeps(s, e.p, e.kin);
    } else if e.PermitOk? {
      if e.p in s.permits && s.permits[e.p].uid.Some? { PermitOkKeeps(s, e.p); }
    } else {
      PermitReadsKeep(s, e);
    }
  }

  // ---------- The lease reconciler ----------

  lemma {:induction false} KeptAll(pods: seq<PermittedPod>, alive: set<Uid>)
    ensures |Kept(pods, alive)| <= |pods|
    ensures forall p :: p in pods && p.uid in alive ==> p in Kept(pods, alive)
    ensures forall p :: p in Kept(pods, alive) ==> p in pods && p.uid in alive
  {
    if pods != [] {
      KeptAll(pods[..|pods| - 1], alive);
      assert pods == pods[..|pods| - 1] + [pods[|pods| - 1]];
    }
  }

  /** Pruning forgets only incarnations that cannot execute again. */
  lemma PruneOk(s: State, l: Lease, next: Workload, holder: string, token: int)
    requires Registry(s) && Current(s, l) && !InPhase(l.status, Stopping) && l.status.workload.Some?
    requires next.phase == Active && next.pods == l.status.workload.value.pods
    ensures WriteOk(s, PutStatus(l.rv, Activate, Status(Some(Pruned(next, AliveUids(s))), holder, token)))
  {
    if s.lease.Some? && s.lease.value.rv == l.rv {
      var pods, kept := next.pods, Kept(next.pods, AliveUids(s));
      KeptAll(pods, AliveUids(s));
      forall i | 0 <= i < |pods| ensures pods[i] in kept || Dead(s, pods[i].uid) { assert pods[i] in pods; }
      forall i | 0 <= i < |kept| ensures kept[i].uid in s.used {
        assert kept[i] in pods;
        var j :| 0 <= j < |pods| && pods[j] == kept[i];
      }
    }
  }

  lemma OpeningKeeps(s: State, e: Event)
    requires Inv(s)
    ensures Inv(DoOpening(s, e))
  {
    if e.RecPrune? || e.RecActivated? || e.RecStart? { ActivationKeeps(s, e); } else { DecisionKeeps(s, e); }
  }

  lemma DecisionKeeps(s: State, e: Event)
    requires Inv(s) && !e.RecPrune? && !e.RecActivated? && !e.RecStart?
    ensures Inv(DoOpening(s, e))
  {
    match e
    case RecRead => if s.pc.Idle? && s.lease.Some? { ReadKeeps(s); }
    case RecCheck(invalid, holderOk, verified) => if s.pc.Read? { CheckKeeps(s, invalid, holderOk, verified); }
    case RecAnswer(a) => AnswerKeeps(s, a);
    case _ =>
  }

  lemma ActivationKeeps(s: State, e: Event)
    requires Inv(s) && (e.RecPrune? || e.RecActivated? || e.RecStart?)
    ensures Inv(DoOpening(s, e))
  {
    match e
    case RecPrune => if s.pc.Pruning? { PruneKeeps(s); }
    case RecActivated => if s.pc.Activating? && s.pc.write in s.landed { PcKeeps(s, Activated(s.pc.l)); }
    case RecStart => if s.pc.Activated? { StartKeeps(s); }
  }

  lemma ReadKeeps(s: State)
    requires Inv(s) && s.lease.Some?
    ensures Inv(s.(pc := Read(s.lease.value)))
  {
    var l := s.lease.value;
    forall id | id in s.writes && s.writes[id].PutStatus? && s.writes[id].why == Activate && InPhase(l.status, Stopping)
      ensures s.writes[id].rv < l.rv
    {
      assert WriteOk(s, s.writes[id]);
    }
    PcKeeps(s, Read(l));
  }

  lemma SameKeeps(s: State, l: Lease)
    requires Inv(s) && Current(s, l)
    ensures Inv(Issue(s, PutStatus(l.rv, Same, l.status)))
  {
    IssueKeeps(s, PutStatus(l.rv, Same, l.status));
  }

  /** A target patch and a move to a place where nothing need be known. */
  lemma PatchIssueKeeps(s: State, w: Write, pc: Pc)
    requires Inv(s) && IsPatch(w) && pc.Idle?
    ensures Inv(Issue(s, w).(pc := pc))
  {
    IssueKeeps(s, w);
    PcKeeps(Issue(s, w), pc);
  }

  lemma CheckPc(s: State, invalid: bool, holderOk: bool, verified: bool)
    requires s.pc.Read? && PcFact(s, s.pc)
    ensures PcFact(s, Check(s.pc.l, s.clock, invalid, holderOk, verified))
  {
  }

  /** The safeguard for an unadmitted target, after a status write that changes nothing. */
  lemma SafeguardKeeps(s: State, l: Lease)
    requires Inv(s) && Current(s, l)
    ensures var t := Issue(s, PutStatus(l.rv, Same, l.status));
            Inv((if NeedsStop(s, l) then IssueStop(t, l) else t).(pc := Idle))
  {
    var t := Issue(s, PutStatus(l.rv, Same, l.status));
    SameKeeps(s, l);
    if NeedsStop(s, l) {
      PatchIssueKeeps(t, StopTarget(t.target.value.uid, t.target.value.rv, l.rv), Idle);
    } else {
      PcKeeps(t, Idle);
    }
  }

  lemma CheckKeeps(s: State, invalid: bool, holderOk: bool, verified: bool)
    requires Inv(s) && s.pc.Read?
    ensures Inv(DoOpening(s, RecCheck(invalid, holderOk, verified)))
  {
    var l := s.pc.l;
    var pc := Check(l, s.clock, invalid, holderOk, verified);
    CheckPc(s, invalid, holderOk, verified);
    if pc.Idle? { SafeguardKeeps(s, l); } else { PcKeeps(s, pc); }
  }

  lemma AnswerKeeps(s: State, a: Answer)
    requires Inv(s)
    ensures Inv(DoOpening(s, RecAnswer(a)))
  {
    if s.pc.Asking? && s.pc.l.status.workload.Some? {
      var l := s.pc.l;
      var pc := Decided(s.cfg, l, s.pc.started, s.clock, a);
      if pc.Idle? {
        IssueKeeps(s, PutStatus(l.rv, Same, l.status));
        PcKeeps(Issue(s, PutStatus(l.rv, Same, l.status)), pc);
      } else {
        PcKeeps(s, pc);
      }
    }
  }

  lemma ActivatePending(s: State, l: Lease, st: Status)
    requires Ids(s) && Current(s, l) && InPhase(st, Active)
    ensures PcFact(Issue(s, PutStatus(l.rv, Activate, st)), Activating(s.next, Lease(l.rv + 1, l.deleting, st)))
  {
  }

  lemma ActivateKeeps(s: State, l: Lease, st: Status)
    requires Inv(s) && s.pc.Pruning? && s.pc.l == l && InPhase(st, Active) && WriteOk(s, PutStatus(l.rv, Activate, st))
    ensures Inv(Issue(s, PutStatus(l.rv, Activate, st)).(pc := Activating(s.next, Lease(l.rv + 1, l.deleting, st))))
  {
    var t := Issue(s, PutStatus(l.rv, Activate, st));
    IssueKeeps(s, PutStatus(l.rv, Activate, st));
    ActivatePending(s, l, st);
    PcKeeps(t, Activating(s.next, Lease(l.rv + 1, l.deleting, st)));
  }

  /** The status an activation writes. */
  function ActiveStatus(s: State): Status
    requires s.pc.Pruning?
  {
    var w := Pruned(s.pc.next, AliveUids(s));
    Status(Some(w), w.id.holder, w.id.token)
  }

  lemma PruneStep(s: State)
    requires s.pc.Pruning?
    ensures var l, st := s.pc.l, ActiveStatus(s);
            DoOpening(s, RecPrune) ==
                Issue(s, PutStatus(l.rv, Activate, st)).(pc := Activating(s.next, Lease(l.rv + 1, l.deleting, st)))
  {
  }

  lemma PruneKeeps(s: State)
    requires Inv(s) && s.pc.Pruning?
    ensures Inv(DoOpening(s, RecPrune))
  {
    var st := ActiveStatus(s);
    PruneStep(s);
    PruneOk(s, s.pc.l, s.pc.next, st.currentHolder, st.fencingToken);
    ActivateKeeps(s, s.pc.l, st);
  }

  /** The target patch of a start, if it needs one. */
  function StartPatch(s: State): Option<Write>
    requires s.pc.Activated?
  {
    var uid := if s.pc.l.status.workload.Some? then s.pc.l.status.workload.value.target else None;
    if s.target.Some? && uid == Some(s.target.value.uid) && s.target.value.activity != s.cfg.activity
    then Some(StartTarget(s.target.value.uid, s.target.value.rv, s.pc.l.rv)) else None
  }

  lemma StartStep(s: State)
    requires s.pc.Activated?
    ensures DoOpening(s, RecStart) == if StartPatch(s).Some? then Issue(s, StartPatch(s).value).(pc := Idle)
            else s.(pc := Idle)
  {
  }

  lemma StartKeeps(s: State)
    requires Inv(s) && s.pc.Activated?
    ensures Inv(DoOpening(s, RecStart))
  {
    StartStep(s);
    if StartPatch(s).Some? { PatchIssueKeeps(s, StartPatch(s).value, Idle); } else { PcKeeps(s, Idle); }
  }

  lemma StoppingKeeps(s: State, e: Event)
    requires Inv(s)
    ensures Inv(DoStopping(s, e))
  {
    if e.RecStop? { StopKeeps(s); }
    else if e.RecStopTarget? { if s.pc.Stopped? { StopTargetKeeps(s); } }
    else if e.RecListPods? { if s.pc.ListingPods? { ListKeeps(s); } }
    else if e.RecRelease? { if s.pc.Drained? { ReleaseKeeps(s, e.ok); } }
    else if e.RecFinish? { if s.pc.Finishing? { FinishKeeps(s); } }
    else { ProgressKeeps(s, e); }
  }

  lemma ProgressKeeps(s: State, e: Event)
    requires Inv(s) && !e.RecStop? && !e.RecStopTarget? && !e.RecListPods? && !e.RecRelease? && !e.RecFinish?
    ensures Inv(DoStopping(s, e))
  {
    var t := DoStopping(s, e);
    ProgressStep(s, e, t.pc);
    PcKeeps(s, t.pc);
  }

  lemma ProgressStep(s: State, e: Event, pc: Pc)
    requires PcFact(s, s.pc) && (s.pc.Activating? || s.pc.Closing? || s.pc.Patching? ==> s.pc.write < s.next)
    requires !e.RecStop? && !e.RecStopTarget? && !e.RecListPods? && !e.RecRelease? && !e.RecFinish?
             && pc == DoStopping(s, e).pc
    ensures DoStopping(s, e) == s.(pc := pc) && PcFact(s, pc)
    ensures pc.Activating? || pc.Closing? || pc.Patching? ==> pc.write < s.next
  {
  }

  lemma StopTargetKeeps(s: State)
    requires Inv(s) && s.pc.Stopped?
    ensures Inv(DoStopping(s, RecStopTarget))
  {
    if NeedsStop(s, s.pc.l) {
      var w := StopTarget(s.target.value.uid, s.target.value.rv, s.pc.l.rv);
      IssueKeeps(s, w);
      PcKeeps(Issue(s, w), Patching(s.next, s.pc.l));
    } else {
      PcKeeps(s, ListingJobs(s.pc.l));
    }
  }

  lemma StopKeeps(s: State)
    requires Inv(s)
    ensures Inv(DoStopping(s, RecStop))
  {
    if s.pc.MustStop? {
      var l := s.pc.l;
      if InPhase(l.status, Stopping) {
        PcKeeps(s, Stopped(l));
      } else {
        CloseKeeps(s, l, Closed(l.status, s.cfg.leaseName));
      }
    }
  }

  lemma CloseKeeps(s: State, l: Lease, st: Status)
    requires Inv(s) && s.pc == MustStop(l) && !InPhase(l.status, Stopping) && st == Closed(l.status, s.cfg.leaseName)
    ensures Inv(Issue(s, PutStatus(l.rv, Close, st)).(pc := Closing(s.next, Lease(l.rv + 1, l.deleting, st))))
  {
    IssueKeeps(s, PutStatus(l.rv, Close, st));
    PcKeeps(Issue(s, PutStatus(l.rv, Close, st)), Closing(s.next, Lease(l.rv + 1, l.deleting, st)));
  }

  /** The namespace listing saw every Pod and none was alive: no gate removal can matter any more. */
  lemma NoneAlive(s: State)
    requires AliveUids(s) == {}
    ensures Quiescent(s)
  {
    forall u | u in s.pods ensures !Running(s, u) { assert u !in AliveUids(s); }
    forall j | j in s.writes ensures !Landable(s, s.writes[j]) {
      if s.writes[j].Ungate? && s.writes[j].uid in s.pods { assert s.writes[j].uid !in AliveUids(s); }
    }
  }

  lemma ListKeeps(s: State)
    requires Inv(s) && s.pc.ListingPods?
    ensures Inv(DoStopping(s, RecListPods))
  {
    if s.pc.jobsDone && AliveUids(s) == {} {
      NoneAlive(s);
      PcKeeps(s, Drained(s.pc.l));
    } else {
      PcKeeps(s, Idle);
    }
  }

  lemma ReleaseParts(s: State, ok: bool)
    requires s.pc.Drained?
    ensures var t := DoStopping(s, RecRelease(ok));
            t == s.(sent := t.sent, pc := Finishing(s.pc.l)) || t == s.(sent := t.sent, pc := Idle)
  {
  }

  lemma ReleaseKeeps(s: State, ok: bool)
    requires Inv(s) && s.pc.Drained?
    ensures Inv(DoStopping(s, RecRelease(ok)))
  {
    var t := DoStopping(s, RecRelease(ok));
    ReleaseParts(s, ok);
    FinishingAfter(s);
    PcKeeps(s, Idle);
    SentKeeps(s.(pc := t.pc), t.sent);
  }

  lemma FinishingAfter(s: State)
    requires Inv(s) && s.pc.Drained?
    ensures Inv(s.(pc := Finishing(s.pc.l)))
  {
    PcKeeps(s, Finishing(s.pc.l));
  }

  lemma SentKeeps(s: State, sent: seq<Identity>)
    requires Inv(s)
    ensures Inv(s.(sent := sent))
  {
    CalmKeeps(s, s.(sent := sent));
  }

  lemma FinishKeeps(s: State)
    requires Inv(s) && s.pc.Finishing?
    ensures Inv(DoStopping(s, RecFinish))
  {
    var l := s.pc.l;
    var w := if l.deleting then DropFinalizer(l.rv) else PutStatus(l.rv, Clear, Reset(l.status));
    IssueKeeps(s, w);
    PcKeeps(Issue(s, w), Idle);
  }

  // ---------- Every step, every run ----------

  lemma RecordKeeps(s: State, uid: Uid)
    requires Inv(s) && s.lease.Some?
    requires s.lease.value.status.workload.Some? ==>
               s.lease.value.status.workload.value.phase == Fresh && s.lease.value.status.workload.value.pods == []
    ensures Inv(Issue(s, PutStatus(s.lease.value.rv, Record, Recorded(s.lease.value.status, uid))))
  {
    IssueKeeps(s, PutStatus(s.lease.value.rv, Record, Recorded(s.lease.value.status, uid)));
  }

  lemma LeaseEventStep(s: State, e: Event)
    requires s.lease.Some? && OnLease(e)
    ensures var l, t := s.lease.value, DoLeaseEvent(s, e);
            && (e.TouchLease? ==> t == s.(lease := Some(Lease(l.rv + 1, l.deleting, l.status))))
            && (e.DeleteLease? ==> t == s.(lease := Some(Lease(l.rv + 1, true, l.status))))
            && (e.RecordTarget? ==>
                  t == s
                  || (t == Issue(s, PutStatus(l.rv, Record, Recorded(l.status, e.uid)))
                      && (l.status.workload.Some? ==>
                         l.status.workload.value.phase == Fresh && l.status.workload.value.pods == [])))
  {
  }

  lemma LeaseEventKeeps(s: State, e: Event)
    requires Inv(s) && OnLease(e)
    ensures Inv(DoLeaseEvent(s, e))
  {
    if s.lease.Some? {
      LeaseEventStep(s, e);
      if e.TouchLease? { TouchKeeps(s, s.lease.value.deleting); }
      else if e.DeleteLease? { TouchKeeps(s, true); }
      else if DoLeaseEvent(s, e) != s { RecordKeeps(s, e.uid); }
    }
  }

  lemma WorldKeeps(s: State, e: Event)
    requires Inv(s) && Worldly(e)
    ensures Inv(Do(s, e))
  {
    WorldIsCalm(s, e);
    CalmKeeps(s, Do(s, e));
  }

  lemma LoseKeeps(s: State, id: nat)
    requires Inv(s)
    ensures Inv(Do(s, Lose(id)))
  {
    DropKeeps(s, id);
  }

  lemma AbortStep(s: State)
    ensures Do(s, RecAbort) == s.(pc := Idle)
  {
  }

  lemma IdleKeeps(s: State, t: State)
    requires Inv(s) && t == s.(pc := Idle)
    ensures Inv(t)
  {
    PcKeeps(s, Idle);
  }

  lemma AbortKeeps(s: State)
    requires Inv(s)
    ensures Inv(Do(s, RecAbort))
  {
    AbortStep(s);
    IdleKeeps(s, Do(s, RecAbort));
  }

  lemma LeasePart(s: State, e: Event)
    requires OnLease(e)
    ensures Do(s, e) == DoLeaseEvent(s, e)
  {
  }

  lemma PermitPart(s: State, e: Event)
    requires Permitting(e)
    ensures Do(s, e) == DoPermit(s, e)
  {
  }

  lemma OpeningPart(s: State, e: Event)
    requires Opening(e)
    ensures Do(s, e) == DoOpening(s, e)
  {
  }

  lemma WriteParts(s: State, e: Event)
    ensures e.Admit? ==> Do(s, e) == DoAdmit(s, e.id)
    ensures e.Land? ==> Do(s, e) == DoLand(s, e.id)
  {
  }

  lemma WriteStepKeeps(s: State, e: Event)
    requires Inv(s) && (e.Admit? || e.Land? || e.Lose? || e.RecAbort?)
    ensures Inv(Do(s, e))
  {
    WriteParts(s, e);
    if e.Admit? { AdmitKeeps(s, e.id); }
    else if e.Land? { LandKeeps(s, e.id); }
    else if e.Lose? { LoseKeeps(s, e.id); }
    else { AbortKeeps(s); }
  }

  lemma OpeningStepKeeps(s: State, e: Event)
    requires Inv(s) && (OnLease(e) || Permitting(e) || Opening(e))
    ensures Inv(Do(s, e))
  {
    if OnLease(e) { LeasePart(s, e); LeaseEventKeeps(s, e); }
    else if Permitting(e) { PermitPart(s, e); PermitKeeps(s, e); }
    else { OpeningPart(s, e); OpeningKeeps(s, e); }
  }

  lemma StoppingStepKeeps(s: State, e: Event)
    requires Inv(s) && !Worldly(e) && !OnLease(e) && !Permitting(e) && !Opening(e)
    requires !e.Admit? && !e.Land? && !e.Lose? && !e.RecAbort?
    ensures Inv(Do(s, e))
  {
    StoppingKeeps(s, e);
  }

  lemma StepKeeps(s: State, e: Event)
    requires Inv(s)
    ensures Inv(Do(s, e))
  {
    if Worldly(e) { WorldKeeps(s, e); }
    else if e.Admit? || e.Land? || e.Lose? || e.RecAbort? { WriteStepKeeps(s, e); }
    else if OnLease(e) || Permitting(e) || Opening(e) { OpeningStepKeeps(s, e); }
    else { StoppingStepKeeps(s, e); }
  }

  lemma {:induction false} RunKeeps(s: State, es: seq<Event>)
    requires Inv(s)
    ensures Inv(Run(s, es))
  {
    if es != [] {
      RunKeeps(s, es[..|es| - 1]);
      StepKeeps(Run(s, es[..|es| - 1]), es[|es| - 1]);
    }
  }

  lemma InitOk(cfg: Config, clock: Time, legacyHolder: string, legacyToken: int)
    ensures Inv(Init(cfg, clock, legacyHolder, legacyToken))
  {
  }
}
