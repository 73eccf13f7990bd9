/**
 The stop fence: a committed stop makes every activation patch prepared before it
 fail, and none is prepared again until the lease is Active.
 */
module StopFence {
  import opened Wrappers
  import opened Operator
  import opened OperatorFrames
  import opened OperatorInvariant
  import opened OperatorSteps
  import opened OperatorTheorems

  /** Patches name incarnations that have existed and never run ahead of them. */
  ghost predicate Patches(s: State) {
    && (s.target.Some? ==> s.target.value.uid in s.used)
    && (forall id :: id in s.writes && IsPatch(s.writes[id]) ==> PatchOk(s, s.writes[id]))
  }

  predicate PatchOk(s: State, w: Write)
    requires IsPatch(w)
  {
    w.uid in s.used && (s.target.Some? && s.target.value.uid == w.uid ==> w.rv <= s.target.value.rv)
  }

  predicate Commits(s: State, w: Write) {
    IsPatch(w) && s.target.Some? && s.target.value.uid == w.uid && s.target.value.rv == w.rv
  }

  /** Every stop fence, stored or pending, is from before version n. */
  ghost predicate FencesBelow(s: State, n: nat) {
    && (s.target.Some? && s.target.value.fence.Some? ==> s.target.value.fence.value < n)
    && (forall id :: id in s.writes && s.writes[id].StopTarget? ==> s.writes[id].fence < n)
  }

  /** Every pending activation patch stems from an activation before version n. */
  ghost predicate BornBelow(s: State, n: nat) {
    forall id :: id in s.writes && s.writes[id].StartTarget? ==> s.writes[id].born < n
  }

  /** An activation patch that can still commit is younger than the fence it would pass. */
  ghost predicate Passes(s: State) {
    s.target.Some? && s.target.value.fence.Some? ==>
      forall id :: id in s.writes && s.writes[id].StartTarget? && Commits(s, s.writes[id]) ==>
        s.target.value.fence.value < s.writes[id].born
  }

  ghost predicate PcFence(s: State, pc: Pc) {
    match pc
    case Idle => true
    case Read(l) => FencesBelow(s, l.rv + 1) && BornBelow(s, l.rv + 1)
        && (InPhase(l.status, Stopping) ==> BornBelow(s, l.rv))
    case Asking(l, _) => FencesBelow(s, l.rv + 1) && BornBelow(s, l.rv + 1)
    case Pruning(l, _) => FencesBelow(s, l.rv + 1)
    case MustStop(l) => BornBelow(s, l.rv + 1) && (InPhase(l.status, Stopping) ==> BornBelow(s, l.rv))
    case Activating(_, l) => FencesBelow(s, l.rv)
    case Activated(l) => FencesBelow(s, l.rv)
    case Closing(_, l) => BornBelow(s, l.rv)
    case Stopped(l) => BornBelow(s, l.rv)
    case _ => true
  }

  ghost predicate Fence(s: State) {
    && Patches(s) && Passes(s) && PcFence(s, s.pc)
    && (s.lease.Some? ==>
          && FencesBelow(s, s.lease.value.rv + 1) && BornBelow(s, s.lease.value.rv + 1)
          && (!LeaseIn(s, Active) ==> BornBelow(s, s.lease.value.rv)))
  }

  // ---------- Steps that issue no patch ----------

  /** No new patch, no new fence; the lease stays or moves to a later version. */
  ghost predicate Still(s: State, t: State) {
    && s.used <= t.used && (t.target.Some? ==> t.target.value.uid in t.used)
    && (t.target.Some? && s.target.Some? && t.target.value.uid == s.target.value.uid ==>
          t.target.value.rv >= s.target.value.rv && (t.target.value.rv == s.target.value.rv ==> t.target == s.target))
    && (t.target.Some? && t.target.value.uid in s.used ==> s.target.Some? && t.target.value.uid == s.target.value.uid)
    && (t.target.Some? && t.target.value.fence.Some? ==> s.target.Some? && t.target.value.fence == s.target.value.fence)
    && (forall id :: id in t.writes && IsPatch(t.writes[id]) ==> id in s.writes && t.writes[id] == s.writes[id])
    && (t.lease.Some? ==> s.lease.Some? && (t.lease == s.lease || t.lease.value.rv > s.lease.value.rv))
  }

  predicate Reconciling(e: Event) { !Worldly(e) && !OnLease(e) && !Permitting(e) && !e.Admit? && !e.Land? && !e.Lose? }

  lemma OthersAreStill(s: State, e: Event)
    requires Patches(s) && !Reconciling(e)
    requires e.Land? && e.id in s.writes ==> !Commits(s, s.writes[e.id])
    ensures Still(s, Do(s, e)) && Do(s, e).pc == s.pc
  {
    if OnTarget(e) { TargetIsStill(s, e); }
    else if Worldly(e) { WorldIsStill(s, e); }
    else if e.Land? { LandIsStill(s, e.id); }
    else if OnLease(e) || e.Admit? { LeaseIsStill(s, e); }
    else if Permitting(e) { PermitIsStill(s, e); }
    else { LoseIsStill(s, e.id); }
  }

  lemma WorldIsStill(s: State, e: Event)
    requires Patches(s) && Worldly(e) && !OnTarget(e)
    ensures Still(s, Do(s, e)) && Do(s, e).pc == s.pc
  {
  }

  lemma LeaseIsStill(s: State, e: Event)
    requires Patches(s) && (OnLease(e) || e.Admit?)
    ensures Still(s, Do(s, e)) && Do(s, e).pc == s.pc
  {
    if OnLease(e) { LeaseFrame(s, e); } else { AdmitFrame(s, e.id); }
  }

  lemma PermitIsStill(s: State, e: Event)
    requires Patches(s) && Permitting(e)
    ensures Still(s, Do(s, e)) && Do(s, e).pc == s.pc
  {
    PermitPart(s, e);
    PermitFrame(s, e);
  }

  lemma LoseIsStill(s: State, id: nat)
    requires Patches(s)
    ensures Still(s, Do(s, Lose(id))) && Do(s, Lose(id)).pc == s.pc
  {
  }

  lemma TargetIsStill(s: State, e: Event)
    requires Patches(s) && OnTarget(e)
    ensures Still(s, Do(s, e)) && Do(s, e).pc == s.pc
  {
  }

  lemma LandIsStill(s: State, id: nat)
    requires Patches(s)
    requires id in s.writes ==> !Commits(s, s.writes[id])
    ensures Still(s, Do(s, Land(id))) && Do(s, Land(id)).pc == s.pc
  {
    LandFrame(s, id);
  }

  // ---------- Committing a patch ----------

  /** After a patch committed, every other pending patch of that incarnation is stale. */
  lemma CommitStales(s: State, id: nat)
    requires Patches(s) && id in s.writes && Commits(s, s.writes[id])
    ensures var t := DoLand(s, id);
            && t.target.Some? && t.target.value.uid == s.writes[id].uid && t.target.value.rv == s.target.value.rv + 1
            && (s.writes[id].StopTarget? ==>
               t.target.value.activity == 0 && t.target.value.fence == Some(s.writes[id].fence))
            && (s.writes[id].StartTarget? ==> t.target.value.fence == s.target.value.fence)
            && t.lease == s.lease && t.pc == s.pc && t.used == s.used && t.writes == s.writes - {id}
            && forall j :: j in t.writes && IsPatch(t.writes[j]) && t.writes[j].uid == s.writes[id].uid ==>
                 t.writes[j].rv < t.target.value.rv
  {
  }

  lemma CommitKeeps(s: State, id: nat)
    requires Fence(s) && id in s.writes && Commits(s, s.writes[id])
    ensures Fence(DoLand(s, id))
  {
    var t := DoLand(s, id);
    CommitStales(s, id);
    forall j | j in t.writes && IsPatch(t.writes[j]) ensures PatchOk(t, t.writes[j]) { assert PatchOk(s, s.writes[j]); }
    forall n: nat | FencesBelow(s, n) ensures FencesBelow(t, n) {}
    forall n: nat | BornBelow(s, n) ensures BornBelow(t, n) {}
  }

  // ---------- The reconciler ----------

  /** Moving the program counter, with at most status writes issued on the way. */
  lemma MoveKeeps(s: State, t: State, pc: Pc)
    requires Fence(s) && Still(s, t) && PcFence(s, pc) && t.pc == pc
    ensures Fence(t)
  {
  }

  lemma StopIssued(s: State, w: Write, pc: Pc)
    requires Fence(s) && w.StopTarget? && PatchOk(s, w) && (s.lease.Some? ==> w.fence <= s.lease.value.rv)
    requires pc.Idle? || pc.Patching?
    ensures Fence(Issue(s, w).(pc := pc))
  {
  }

  lemma StartIssued(s: State)
    requires Inv(s) && Fence(s) && s.pc.Activated? && s.target.Some?
    ensures Fence(Issue(s, StartTarget(s.target.value.uid, s.target.value.rv, s.pc.l.rv)).(pc := Idle))
  {
  }

  /** The check of a reconcile, once the status write of the idle branch is issued. */
  lemma CheckStep(s: State, e: Event)
    requires e.RecCheck? && s.pc.Read?
    ensures var l := s.pc.l;
            var pc := Check(l, s.clock, e.invalid, e.holderOk, e.verified);
            var t := if pc.Idle? then Issue(s, PutStatus(l.rv, Same, l.status)) else s;
            DoOpening(s, e) ==
            if pc.Idle? && NeedsStop(s, l)
                then Issue(t, StopTarget(s.target.value.uid, s.target.value.rv, l.rv)).(pc := pc)
            else t.(pc := pc)
  {
  }

  lemma CheckPcFenced(s: State, e: Event)
    requires e.RecCheck? && s.pc.Read? && PcFence(s, s.pc)
    ensures PcFence(s, Check(s.pc.l, s.clock, e.invalid, e.holderOk, e.verified))
  {
  }

  lemma CheckFenced(s: State, e: Event)
    requires Inv(s) && Fence(s) && e.RecCheck? && s.pc.Read?
    ensures Fence(DoOpening(s, e))
  {
    var l := s.pc.l;
    var pc := Check(l, s.clock, e.invalid, e.holderOk, e.verified);
    var t := if pc.Idle? then Issue(s, PutStatus(l.rv, Same, l.status)) else s;
    CheckStep(s, e);
    if pc.Idle? && NeedsStop(s, l) {
      MoveKeeps(s, t, s.pc);
      StopIssued(t, StopTarget(s.target.value.uid, s.target.value.rv, l.rv), pc);
    } else {
      CheckPcFenced(s, e);
      MoveKeeps(s, t.(pc := pc), pc);
    }
  }

  /** Apart from the target patches, reconciler steps are still. */
  lemma ReconcilingIsStill(s: State, e: Event)
    requires Patches(s)
             && (e.RecAnswer? || e.RecPrune? || e.RecActivated? || (Reconciling(e) && !Opening(e) && !e.RecStopTarget?))
    ensures Still(s, Do(s, e))
  {
    InternalFrame(s, e);
  }

  lemma NextPc(s: State, e: Event)
    requires PcFence(s, s.pc) && PcFact(s, s.pc) && (e.RecAnswer? || e.RecPrune? || e.RecActivated?)
    ensures PcFence(s, DoOpening(s, e).pc)
  {
  }

  lemma NextStoppingPc(s: State, e: Event)
    requires PcFence(s, s.pc) && Reconciling(e) && !Opening(e)
    ensures PcFence(s, Do(s, e).pc)
  {
  }

  lemma ReadStepFenced(s: State)
    requires Fence(s)
    ensures Fence(DoOpening(s, RecRead))
  {
  }

  lemma OpeningFenced(s: State, e: Event)
    requires Inv(s) && Fence(s) && Opening(e)
    ensures Fence(DoOpening(s, e))
  {
    if e.RecRead? {
      ReadStepFenced(s);
    } else if e.RecCheck? {
      if s.pc.Read? { CheckFenced(s, e); }
    } else if e.RecStart? {
      StartFenced(s);
    } else {
      MoveFenced(s, e);
    }
  }

  lemma MoveFenced(s: State, e: Event)
    requires Inv(s) && Fence(s) && (e.RecAnswer? || e.RecPrune? || e.RecActivated?)
    ensures Fence(DoOpening(s, e))
  {
    ReconcilingIsStill(s, e);
    NextPc(s, e);
    OpeningPart(s, e);
    MoveKeeps(s, DoOpening(s, e), DoOpening(s, e).pc);
  }

  lemma StartFenced(s: State)
    requires Inv(s) && Fence(s)
    ensures Fence(DoOpening(s, RecStart))
  {
    if s.pc.Activated? {
      MoveKeeps(s, s.(pc := Idle), Idle);
      if s.target.Some? { StartIssued(s); }
    }
  }

  lemma StopTargetFenced(s: State)
    requires Inv(s) && Fence(s) && s.pc.Stopped?
    ensures Fence(DoStopping(s, RecStopTarget))
  {
    if NeedsStop(s, s.pc.l) {
      StopIssued(s, StopTarget(s.target.value.uid, s.target.value.rv, s.pc.l.rv), Patching(s.next, s.pc.l));
    } else {
      MoveKeeps(s, DoStopping(s, RecStopTarget), ListingJobs(s.pc.l));
    }
  }

  lemma StoppingFenced(s: State, e: Event)
    requires Inv(s) && Fence(s) && Reconciling(e) && !Opening(e)
    ensures Fence(Do(s, e))
  {
    if e.RecStopTarget? {
      if s.pc.Stopped? { StopTargetFenced(s); }
    } else {
      ReconcilingIsStill(s, e);
      NextStoppingPc(s, e);
      MoveKeeps(s, Do(s, e), Do(s, e).pc);
    }
  }

  // ---------- Every run ----------

  lemma FenceStep(s: State, e: Event)
    requires Inv(s) && Fence(s)
    ensures Fence(Do(s, e))
  {
    if Reconciling(e) {
      if Opening(e) { OpeningFenced(s, e); } else { StoppingFenced(s, e); }
    } else if e.Land? && e.id in s.writes && Commits(s, s.writes[e.id]) {
      CommitKeeps(s, e.id);
    } else {
      OthersAreStill(s, e);
      MoveKeeps(s, Do(s, e), s.pc);
    }
  }

  lemma {:induction false} FenceRun(s: State, es: seq<Event>)
    requires Inv(s) && Fence(s)
    ensures Inv(Run(s, es)) && Fence(Run(s, es))
  {
    if es != [] {
      FenceRun(s, es[..|es| - 1]);
      StepKeeps(Run(s, es[..|es| - 1]), es[|es| - 1]);
      FenceStep(Run(s, es[..|es| - 1]), es[|es| - 1]);
    }
  }

  // ---------- A stopped target stays stopped ----------

  /** The incarnation is scaled to zero or suspended, and no prepared activation can change that. */
  ghost predicate Shut(s: State, uid: Uid) {
    uid in s.used
    && (s.target.Some? && s.target.value.uid == uid ==>
          && s.target.value.activity == 0
          && forall id :: id in s.writes && s.writes[id].StartTarget? && s.writes[id].uid == uid ==>
             s.writes[id].rv < s.target.value.rv)
  }

  /** Activation patches are prepared only under an active lease. */
  lemma NoStartWhileInactive(s: State, e: Event, id: nat)
    requires Inv(s) && !LeaseIn(s, Active) && id in Do(s, e).writes && Do(s, e).writes[id].StartTarget?
    ensures id in s.writes && s.writes[id] == Do(s, e).writes[id]
  {
    assert !s.pc.Activated?;
    if Worldly(e) { WorldFrame(s, e); }
    else if OnLease(e) { LeaseFrame(s, e); }
    else if e.Land? { LandFrame(s, e.id); }
    else if e.Admit? { AdmitFrame(s, e.id); }
    else { InternalFrame(s, e); }
  }

  /** No step but the commit of an activation raises a target, and none renews its incarnation. */
  ghost predicate Sinks(s: State, t: State, uid: Uid) {
    t.target.Some? && t.target.value.uid == uid ==>
      s.target.Some? && s.target.value.uid == uid && t.target.value.activity == 0
      && t.target.value.rv >= s.target.value.rv
  }

  lemma TargetEventSinks(s: State, e: Event, uid: Uid)
    requires Shut(s, uid) && OnTarget(e)
    ensures Sinks(s, Do(s, e), uid)
  {
  }

  lemma LandSinks(s: State, id: nat, uid: Uid)
    requires Shut(s, uid)
    ensures Sinks(s, Do(s, Land(id)), uid)
  {
  }

  lemma PodEventSinks(s: State, e: Event, uid: Uid)
    requires Shut(s, uid) && Worldly(e) && !OnTarget(e)
    ensures Sinks(s, Do(s, e), uid)
  {
  }

  lemma TargetStep(s: State, e: Event, uid: Uid)
    requires Shut(s, uid)
    ensures s.used <= Do(s, e).used && Sinks(s, Do(s, e), uid)
  {
    if OnTarget(e) { WorldFrame(s, e); TargetEventSinks(s, e, uid); }
    else if Worldly(e) { WorldFrame(s, e); PodEventSinks(s, e, uid); }
    else if OnLease(e) { LeaseFrame(s, e); }
    else if e.Land? { LandFrame(s, e.id); LandSinks(s, e.id, uid); }
    else if e.Admit? { AdmitFrame(s, e.id); }
    else { InternalFrame(s, e); }
  }

  lemma ShutStays(s: State, e: Event, uid: Uid)
    requires Inv(s) && Fence(s) && Shut(s, uid) && !LeaseIn(s, Active)
    ensures Shut(Do(s, e), uid)
  {
    var t := Do(s, e);
    TargetStep(s, e, uid);
    forall id | id in t.writes && t.writes[id].StartTarget? && t.writes[id].uid == uid && t.target.Some?
        && t.target.value.uid == uid
      ensures t.writes[id].rv < t.target.value.rv
    {
      NoStartWhileInactive(s, e, id);
    }
  }

  lemma {:induction false} ShutUntilActive(s: State, es: seq<Event>, uid: Uid)
    requires Inv(s) && Fence(s) && Shut(s, uid) && NeverActive(s, es)
    ensures Shut(Run(s, es), uid)
  {
    if es != [] {
      var b := es[..|es| - 1];
      NeverActivePrefix(s, es);
      ShutUntilActive(s, b, uid);
      FenceRun(s, b);
      assert b[..|b|] == b;
      ShutStays(Run(s, b), es[|es| - 1], uid);
    }
  }

  /** An activation patch of a shut incarnation is refused by the optimistic lock. */
  lemma ShutRefusesActivation(s: State, id: nat)
    requires id in s.writes && s.writes[id].StartTarget? && Shut(s, s.writes[id].uid)
    ensures DoLand(s, id).target == s.target
  {
  }

  /**
   stopTarget is done with the incarnation in the step: a stop patch of it commits while the lease is not
   Active, however late and whoever still waits for it, or a reconcile finds its own fence in place.
   */
  predicate StopsTarget(s: State, e: Event, uid: Uid) {
    && s.target.Some? && s.target.value.uid == uid
    && ((e.Land? && e.id in s.writes && s.writes[e.id].StopTarget? && Commits(s, s.writes[e.id]) && !LeaseIn(s, Active))
        || (e.RecStopTarget? && s.pc.Stopped? && OurTarget(s.pc.l, s.target.value) && !NeedsStop(s, s.pc.l)))
  }

  /** Its own fence is in place: a start that could still commit would have to be younger than this epoch. */
  lemma FenceShuts(s: State)
    requires Inv(s) && Fence(s) && s.pc.Stopped? && s.target.Some? && OurTarget(s.pc.l, s.target.value)
             && !NeedsStop(s, s.pc.l)
    ensures Shut(s, s.target.value.uid) && !LeaseIn(s, Active)
  {
  }

  lemma StopShuts(s: State, e: Event, uid: Uid)
    requires Inv(s) && Fence(s) && StopsTarget(s, e, uid)
    ensures Shut(Do(s, e), uid) && !LeaseIn(Do(s, e), Active)
  {
  }

  /**
   Once stopTarget is done with a target in a stopping epoch, the target stays at zero with respect to
   Berth's own writes until the lease becomes Active again, whatever was in flight.
   */
  lemma StoppedTargetStaysStopped(
    cfg: Config, clock: Time, holder: string, token: int, es: seq<Event>, e: Event, later: seq<Event>, uid: Uid)
    requires StopsTarget(Run(Init(cfg, clock, holder, token), es), e, uid)
    ensures var t := Do(Run(Init(cfg, clock, holder, token), es), e);
            NeverActive(t, later) ==>
              var u := Run(t, later);
              && (u.target.Some? && u.target.value.uid == uid ==> u.target.value.activity == 0)
              && (forall id :: id in u.writes && u.writes[id].StartTarget? && u.writes[id].uid == uid ==>
                 DoLand(u, id).target == u.target)
  {
    var s0 := Init(cfg, clock, holder, token);
    InitOk(cfg, clock, holder, token);
    FenceRun(s0, es);
    var s := Run(s0, es);
    StopShuts(s, e, uid);
    StepKeeps(s, e);
    FenceStep(s, e);
    if NeverActive(Do(s, e), later) {
      ShutUntilActive(Do(s, e), later, uid);
      var u := Run(Do(s, e), later);
      forall id | id in u.writes && u.writes[id].StartTarget? && u.writes[id].uid == uid
        ensures DoLand(u, id).target == u.target
      {
        ShutRefusesActivation(u, id);
      }
    }
  }
}
