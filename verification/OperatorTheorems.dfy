/** What the operator guarantees over every run. */
module OperatorTheorems {
  import opened Wrappers
  import opened Operator
  import opened OperatorFrames
  import opened OperatorInvariant
  import opened OperatorSteps

  /** Every ungated, non-terminal managed Pod is in the durable registry, which never outgrows its bound. */
  lemma RegistryCoversRunningPods(cfg: Config, clock: Time, holder: string, token: int, es: seq<Event>, uid: Uid)
    ensures var s := Run(Init(cfg, clock, holder, token), es);
            && (uid in s.pods && !s.pods[uid].gated && !s.pods[uid].terminal ==>
                  s.lease.Some? && InRegistry(s.lease.value.status, uid))
            && (s.lease.Some? && s.lease.value.status.workload.Some? ==>
                  |s.lease.value.status.workload.value.pods| <= MAX_PERMITTED)
  {
    InitOk(cfg, clock, holder, token);
    RunKeeps(Init(cfg, clock, holder, token), es);
    var s := Run(Init(cfg, clock, holder, token), es);
    if uid in s.pods && !s.pods[uid].gated && !s.pods[uid].terminal { assert Running(s, uid); }
  }

  // ---------- The identity of the last activation ----------

  /** The identity the most recent Active status carried, or the legacy one when there never was any. */
  ghost function LastActivation(s: State, es: seq<Event>): Identity {
    var t := Run(s, es);
    if LeaseIn(t, Active) then t.lease.value.status.workload.value.id
    else if es == [] then s.recorded
    else LastActivation(s, es[..|es| - 1])
  }

  ghost predicate Remembers(s: State) { LeaseIn(s, Active) ==> s.recorded == s.lease.value.status.workload.value.id }

  lemma LandingRecords(s: State, id: nat)
    requires Remembers(s)
    ensures var t := Do(s, Land(id)); Remembers(t) && (!LeaseIn(t, Active) ==> t.recorded == s.recorded)
  {
  }

  lemma RecordedStep(s: State, e: Event)
    requires Remembers(s)
    ensures Remembers(Do(s, e)) && (!LeaseIn(Do(s, e), Active) ==> Do(s, e).recorded == s.recorded)
  {
    if Worldly(e) { WorldFrame(s, e); }
    else if OnLease(e) { LeaseFrame(s, e); }
    else if e.Land? { LandingRecords(s, e.id); }
    else if e.Admit? { AdmitFrame(s, e.id); }
    else { InternalFrame(s, e); }
  }

  lemma {:induction false} RecordedIsLastActivation(s: State, es: seq<Event>)
    requires Remembers(s)
    ensures Remembers(Run(s, es)) && Run(s, es).recorded == LastActivation(s, es)
  {
    if es != [] {
      RecordedIsLastActivation(s, es[..|es| - 1]);
      RecordedStep(Run(s, es[..|es| - 1]), es[|es| - 1]);
    }
  }

  // ---------- Release ----------

  lemma OnlyReleaseSends(s: State, e: Event)
    requires !e.RecRelease?
    ensures Do(s, e).sent == s.sent
  {
    if Worldly(e) { WorldFrame(s, e); }
    else if OnLease(e) { LeaseFrame(s, e); }
    else if e.Land? { LandFrame(s, e.id); }
    else if e.Admit? { AdmitFrame(s, e.id); }
    else { InternalFrame(s, e); }
  }

  /** A landing that starts no Pod: none of the pending gate removals can take effect. */
  lemma QuietLanding(s: State, id: nat)
    requires Quiescent(s)
    ensures Quiescent(Do(s, Land(id)))
  {
  }

  /** Nothing that happens while the lease is not Active starts a Pod. */
  lemma QuiescentStays(s: State, e: Event)
    requires Inv(s) && Quiescent(s) && !LeaseIn(s, Active)
    ensures Quiescent(Do(s, e))
  {
    var t := Do(s, e);
    if Worldly(e) {
      WorldIsCalm(s, e);
      CalmQuiescent(s, t);
    } else if e.Land? {
      QuietLanding(s, e.id);
    } else {
      if OnLease(e) { LeaseFrame(s, e); } else if e.Admit? { AdmitFrame(s, e.id); } else { InternalFrame(s, e); }
      StillQuiescent(s, e, t);
    }
  }

  lemma StillQuiescent(s: State, e: Event, t: State)
    requires Quiescent(s) && t.pods == s.pods
    requires forall id :: id in t.writes ==>
             (id in s.writes && t.writes[id] == s.writes[id]) || !t.writes[id].Ungate? || !t.writes[id].admitted
    ensures Quiescent(t)
  {
  }

  /** The lease is Active at no point of the run. */
  ghost predicate NeverActive(s: State, es: seq<Event>) {
    forall k :: 0 <= k <= |es| ==> !LeaseIn(Run(s, es[..k]), Active)
  }

  lemma NeverActivePrefix(s: State, es: seq<Event>)
    requires es != [] && NeverActive(s, es)
    ensures NeverActive(s, es[..|es| - 1])
  {
    var b := es[..|es| - 1];
    forall k | 0 <= k <= |b| ensures !LeaseIn(Run(s, b[..k]), Active) { assert b[..k] == es[..k]; }
  }

  lemma {:induction false} QuiescentUntilActive(s: State, es: seq<Event>)
    requires Inv(s) && Quiescent(s) && NeverActive(s, es)
    ensures Quiescent(Run(s, es))
  {
    if es != [] {
      var b := es[..|es| - 1];
      NeverActivePrefix(s, es);
      QuiescentUntilActive(s, b);
      RunKeeps(s, b);
      assert b[..|b|] == b;
      QuiescentStays(Run(s, b), es[|es| - 1]);
    }
  }

  /** A Release was sent by this step. */
  predicate Sends(s: State, e: Event) { Do(s, e).sent != s.sent }

  /**
   A central Release is sent only when no managed Pod runs, it names exactly the lease, holder and
   token of the last activation, and no Pod runs afterwards before a later Active epoch.
   */
  lemma ReleaseIsSafe(cfg: Config, clock: Time, holder: string, token: int, es: seq<Event>, e: Event,
      later: seq<Event>, uid: Uid)
    requires Sends(Run(Init(cfg, clock, holder, token), es), e)
    ensures var s0 := Init(cfg, clock, holder, token);
            var s := Run(s0, es);
            var t := Do(s, e);
            && t.sent == s.sent + [LastActivation(s0, es)]
            && !Running(s, uid) && !Running(t, uid) && !LeaseIn(t, Active)
            && (NeverActive(t, later) ==> !Running(Run(t, later), uid))
  {
    var s0 := Init(cfg, clock, holder, token);
    var s := Run(s0, es);
    var t := Do(s, e);
    InitOk(cfg, clock, holder, token);
    RunKeeps(s0, es);
    RecordedIsLastActivation(s0, es);
    if !e.RecRelease? { OnlyReleaseSends(s, e); }
    ReleaseStep(s, e);
    StepKeeps(s, e);
    QuiescentStays(s, e);
    if NeverActive(t, later) { QuiescentUntilActive(t, later); }
  }

  lemma ReleaseStep(s: State, e: Event)
    requires Inv(s) && e.RecRelease? && Sends(s, e)
    ensures Do(s, e).sent == s.sent + [s.recorded] && Quiescent(s) && !LeaseIn(s, Active) && Do(s, e).lease == s.lease
  {
  }
}
