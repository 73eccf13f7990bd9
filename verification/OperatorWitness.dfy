/**
 The operator's guarantees are about something: for every configuration a run in which a Pod
 comes to run and its epoch ends in a Release, and one that takes over a legacy lease.
 */
module OperatorWitness {
  import opened Wrappers
  import opened Operator
  import opened OperatorInvariant

  const CFG := Config("lease", "holder", 10 * SECOND, 1)
  const LEGACY := Status(None, "holder", 1)
  const CLOSED := Closed(LEGACY, "lease")

  function Start(): State { Init(CFG, 0, "holder", 1) }

  /** Deleted, with the reconciler at pc. */
  function Deleted(pc: Pc): State { Start().(lease := Some(Lease(1, true, LEGACY)), pc := pc) }

  /** Closed durably, with the reconciler at pc. */
  function Stopping(pc: Pc): State {
    Start().(lease := Some(Lease(2, true, CLOSED)), landed := {0}, next := 1, pc := pc)
  }

  ghost predicate Reaches(s: State, t: State) { exists es :: Run(s, es) == t }

  lemma One(s: State, e: Event, t: State)
    requires Do(s, e) == t
    ensures Reaches(s, t)
  {
    assert Run(s, []) == s;
    assert [e][..0] == [];
    assert Run(s, [e]) == t;
  }

  lemma {:induction false} RunJoin(s: State, a: seq<Event>, b: seq<Event>)
    ensures Run(s, a + b) == Run(Run(s, a), b)
  {
    if b == [] {
      assert a + b == a;
    } else {
      RunJoin(s, a, b[..|b| - 1]);
      assert (a + b)[..|a + b| - 1] == a + b[..|b| - 1];
    }
  }

  lemma Then(s: State, t: State, u: State)
    requires Reaches(s, t) && Reaches(t, u)
    ensures Reaches(s, u)
  {
    var a, b :| Run(s, a) == t && Run(t, b) == u;
    RunJoin(s, a, b);
    assert Run(s, a + b) == u;
  }

  lemma Step(s: State, t: State, e: Event, u: State)
    requires Reaches(s, t) && Do(t, e) == u
    ensures Reaches(s, u)
  {
    One(t, e, u);
    Then(s, t, u);
  }

  lemma Reads(l: Lease)
    requires l == Lease(1, true, LEGACY)
    ensures Do(Start(), DeleteLease) == Deleted(Idle)
    ensures Do(Deleted(Idle), RecRead) == Deleted(Read(l))
  {
  }

  lemma Checks(l: Lease)
    requires l == Lease(1, true, LEGACY)
    ensures Do(Deleted(Read(l)), RecCheck(false, true, true)) == Deleted(MustStop(l))
  {
  }

  lemma Closes(l: Lease, w: Write, pc: Pc)
    requires l == Lease(1, true, LEGACY) && w == PutStatus(1, Close, CLOSED) && pc == Closing(0, Lease(2, true, CLOSED))
    ensures Do(Deleted(MustStop(l)), RecStop) == Deleted(pc).(writes := map[0 := w], next := 1)
  {
  }

  lemma CloseLands(w: Write, pc: Pc)
    requires w == PutStatus(1, Close, CLOSED)
    ensures Do(Deleted(pc).(writes := map[0 := w], next := 1), Land(0)) == Stopping(pc)
  {
  }

  lemma Stops(l: Lease)
    ensures Do(Stopping(Closing(0, l)), RecClosed) == Stopping(Stopped(l))
    ensures Do(Stopping(Stopped(l)), RecStopTarget) == Stopping(ListingJobs(l))
  {
  }

  lemma Drains(l: Lease)
    ensures Do(Stopping(ListingJobs(l)), RecListJobs) == Stopping(ListingPods(l, true))
    ensures Do(Stopping(ListingPods(l, true)), RecListPods) == Stopping(Drained(l))
  {
  }

  lemma ReachClosing()
    ensures Reaches(Start(), Stopping(Closing(0, Lease(2, true, CLOSED))))
  {
    var s, l, w, pc := Start(), Lease(1, true, LEGACY), PutStatus(1, Close, CLOSED), Closing(0, Lease(2, true, CLOSED));
    assert Run(s, []) == s;
    Reads(l);
    Step(s, s, DeleteLease, Deleted(Idle));
    Step(s, Deleted(Idle), RecRead, Deleted(Read(l)));
    Checks(l);
    Step(s, Deleted(Read(l)), RecCheck(false, true, true), Deleted(MustStop(l)));
    Closes(l, w, pc);
    Step(s, Deleted(MustStop(l)), RecStop, Deleted(pc).(writes := map[0 := w], next := 1));
    CloseLands(w, pc);
    Step(s, Deleted(pc).(writes := map[0 := w], next := 1), Land(0), Stopping(pc));
  }

  lemma ReachDrained()
    ensures Reaches(Start(), Stopping(Drained(Lease(2, true, CLOSED))))
  {
    var s, l := Start(), Lease(2, true, CLOSED);
    ReachClosing();
    Stops(l);
    Step(s, Stopping(Closing(0, l)), RecClosed, Stopping(Stopped(l)));
    Step(s, Stopping(Stopped(l)), RecStopTarget, Stopping(ListingJobs(l)));
    Drains(l);
    Step(s, Stopping(ListingJobs(l)), RecListJobs, Stopping(ListingPods(l, true)));
    Step(s, Stopping(ListingPods(l, true)), RecListPods, Stopping(Drained(l)));
  }

  lemma Releases(l: Lease)
    requires l == Lease(2, true, CLOSED)
    ensures Do(Stopping(Drained(l)), RecRelease(true)).sent == [Identity("lease", "holder", 1)]
  {
  }

  /** A deleted lease is closed, drained and released under the identity it was held with. */
  lemma ReleaseHappens()
    ensures exists es ::
              Do(Run(Start(), es), RecRelease(true)).sent == Run(Start(), es).sent + [Identity("lease", "holder", 1)]
  {
    var s := Stopping(Drained(Lease(2, true, CLOSED)));
    ReachDrained();
    Releases(Lease(2, true, CLOSED));
    var es :| Run(Start(), es) == s;
    assert Do(Run(Start(), es), RecRelease(true)).sent == Run(Start(), es).sent + [Identity("lease", "holder", 1)];
  }

  // ---------- A whole epoch ----------

  /** A configuration, the token the central service answers with, a target and a Pod. */
  datatype Story = Story(cfg: Config, clock: Time, token: int, target: Uid, pod: Uid, name: string) {
    predicate Possible() { cfg.holder != "" && cfg.ttl >= SECOND && cfg.activity > 0 && token > 0 && target != pod }
    function Id(): Identity { Identity(cfg.leaseName, cfg.holder, token) }
    function Deadline(): Time { DeadlineFrom(clock, cfg.ttl, clock + cfg.ttl) }
    function Entry(): PermittedPod { PermittedPod(name, pod) }

    function Admitted(): Status { Status(Some(Workload(Some(target), Fresh, None, NOBODY, [])), "", 0) }
    function Held(pods: seq<PermittedPod>): Status {
      Status(Some(Workload(Some(target), Active, Some(Deadline()), Id(), pods)), cfg.holder, token)
    }
    function Ended(): Status { Closed(Held([Entry()]), cfg.leaseName) }

    function Begin(): State { Init(cfg, clock, "", 0) }

    /** The target is admitted and created, stopped. */
    function Ready(pc: Pc): State {
      State(cfg, clock, Some(Lease(1, false, Admitted())), map[], {target}, {}, Some(Target(target, 0, 0, None)),
            map[], {0}, 1, map[], pc, Identity(cfg.leaseName, "", 0), [])
    }

    /** The ownership is being written. */
    function Claiming(): State {
      Ready(Activating(1, Lease(2, false, Held([])))).(writes := map[1 := PutStatus(1, Activate, Held([]))], next := 2)
    }

    /** The ownership is durable, and the target still stopped. */
    function Owned(pc: Pc): State {
      Ready(pc).(lease := Some(Lease(2, false, Held([]))), landed := {0, 1}, next := 2, recorded := Id())
    }

    /** The target is started, and its Pod created, gated. */
    function Started(permits: map<nat, Permit>): State {
      Owned(Idle).(pods := map[pod := Gated()], used := {target, pod},
          target := Some(Target(target, 1, cfg.activity, None)),
                   landed := {0, 1, 2}, next := 3, permits := permits)
    }

    function Gated(): Pod { Pod(name, 0, true, false, false) }

    /** Permit p is writing the registration of the Pod. */
    function Enrolling(p: Permit): State {
      Started(map[0 := p.(waiting := Some(3))])
      .(writes := map[3 := PutStatus(2, Register, Held([Entry()]))], next := 4)
    }

    /** The Pod is registered. */
    function Named(permits: map<nat, Permit>): State {
      Started(permits).(lease := Some(Lease(3, false, Held([Entry()]))), landed := {0, 1, 2, 3}, next := 4)
    }

    /** The Pod runs. */
    function Runs(): State { Named(map[]).(pods := map[pod := Pod(name, 1, false, false, false)], next := 5) }

    /** The lease is deleted while it does. */
    function Doomed(pc: Pc): State { Runs().(lease := Some(Lease(4, true, Held([Entry()]))), pc := pc) }

    /** The end of the epoch is being written. */
    function Ending(): State {
      Doomed(Closing(5, Lease(5, true, Ended()))).(writes := map[5 := PutStatus(4, Close, Ended())], next := 6)
    }

    /** Closed durably. */
    function Shut(pc: Pc): State {
      Doomed(pc).(lease := Some(Lease(5, true, Ended())), landed := {0, 1, 2, 3, 5}, next := 6)
    }

    /** The target is stopped under the fence, and the Pod has ended. */
    function Over(pc: Pc): State {
      Shut(pc).(target := Some(Target(target, 2, 0, Some(5))), landed := {0, 1, 2, 3, 5, 6}, next := 7,
                pods := map[pod := Pod(name, 2, false, true, false)])
    }
  }

  /** The only write in flight lands on the version it was prepared from. */
  lemma Lands(s: State, id: nat, t: State)
    requires s.writes.Keys == {id} && s.lease.Some? && s.writes[id].PutStatus? && s.writes[id].rv == s.lease.value.rv
    requires t == s.(writes := map[], landed := s.landed + {id},
                     lease := Some(Lease(s.lease.value.rv + 1, s.lease.value.deleting, s.writes[id].status)),
                     recorded := if InPhase(s.writes[id].status, Active) then s.writes[id].status.workload.value.id
                         else s.recorded)
    ensures Reaches(s, t)
  {
    assert s.writes - {id} == map[];
    One(s, Land(id), t);
  }

  /** The only write in flight patches the target it was prepared from. */
  lemma Patches(s: State, id: nat, t: State)
    requires s.writes.Keys == {id} && s.target.Some? && (s.writes[id].StopTarget? || s.writes[id].StartTarget?)
    requires s.writes[id].uid == s.target.value.uid && s.writes[id].rv == s.target.value.rv
    requires var was, w := s.target.value, s.writes[id];
             t == s.(writes := map[], landed := s.landed + {id},
                     target := Some(Target(was.uid, was.rv + 1, if w.StopTarget? then 0 else s.cfg.activity,
                                           if w.StopTarget? then Some(w.fence) else was.fence)))
    ensures Reaches(s, t)
  {
    assert s.writes - {id} == map[];
    One(s, Land(id), t);
  }

  /** The awaited write has landed. */
  lemma MovesOn(s: State, t: State)
    requires (s.pc.Closing? || s.pc.Patching?) && s.pc.write in s.landed
    requires t == s.(pc := if s.pc.Closing? then Stopped(s.pc.l) else ListingJobs(s.pc.l))
    ensures Reaches(s, t)
  {
    One(s, if s.pc.Closing? then RecClosed else RecPatched, t);
  }

  /** Permit p of a gated Pod that the lease it read does not name yet. */
  lemma AsksToRegister(s: State, p: nat, t: State)
    requires s.permits.Keys == {p} && s.permits[p].lease.Some? && s.permits[p].uid.Some? && s.permits[p].waiting.None?
    requires var x := s.permits[p];
             && ActiveAt(x.lease.value, s.clock) && x.pod.gated && !x.pod.deleting
             && x.lease.value.status.workload.value.pods == []
             && var entry := PermittedPod(x.pod.name, x.uid.value);
                t == Issue(s, PutStatus(x.lease.value.rv, Register, Registered(x.lease.value.status, entry)))
                     .(permits := map[p := x.(waiting := Some(s.next))])
    ensures Reaches(s, t)
  {
    var x := s.permits[p].(waiting := Some(s.next));
    assert s.permits[p := x] == map[p := x];
    One(s, PermitGo(p, true), t);
  }

  /** Admission lets the only gate removal in flight through. */
  lemma LetsThrough(s: State, id: nat, t: State)
    requires s.writes.Keys == {id} && s.writes[id].Ungate? && s.writes[id].uid in s.pods && s.lease.Some?
    requires ActiveAt(s.lease.value, s.clock)
             && var w := s.writes[id];
                PermittedPod(s.pods[w.uid].name, w.uid) in s.lease.value.status.workload.value.pods
    requires t == s.(writes := map[id := s.writes[id].(admitted := true)])
    ensures Reaches(s, t)
  {
    assert s.writes[id := s.writes[id].(admitted := true)] == map[id := s.writes[id].(admitted := true)];
    One(s, Admit(id), t);
  }

  /** And it lands on the Pod it was prepared from. */
  lemma LiftsGate(s: State, id: nat, uid: Uid, t: State)
    requires uid in s.pods && s.writes == map[id := Ungate(uid, s.pods[uid].rv, true)]
    requires t == s.(writes := map[], pods := s.pods[uid := s.pods[uid].(gated := false, rv := s.pods[uid].rv + 1)])
    ensures Reaches(s, t)
  {
    assert s.writes - {id} == map[];
    One(s, Land(id), t);
  }

  lemma Records(g: Story)
    ensures Reaches(g.Begin(), g.Begin().(writes := map[0 := PutStatus(0, Record, g.Admitted())], next := 1))
  {
    One(g.Begin(), RecordTarget(g.target),
        g.Begin().(writes := map[0 := PutStatus(0, Record, g.Admitted())], next := 1));
  }

  lemma Creates(g: Story)
    ensures Reaches(g.Begin().(lease := Some(Lease(1, false, g.Admitted())), landed := {0}, next := 1), g.Ready(Idle))
  {
    One(g.Begin().(lease := Some(Lease(1, false, g.Admitted())), landed := {0}, next := 1), CreateTarget(g.target, 0),
        g.Ready(Idle));
  }

  lemma Admits(g: Story)
    requires g.Possible()
    ensures Reaches(g.Begin(), g.Ready(Idle))
  {
    var a := g.Begin().(writes := map[0 := PutStatus(0, Record, g.Admitted())], next := 1);
    var b := g.Begin().(lease := Some(Lease(1, false, g.Admitted())), landed := {0}, next := 1);
    Records(g);
    Lands(a, 0, b);
    Then(g.Begin(), a, b);
    Creates(g);
    Then(g.Begin(), b, g.Ready(Idle));
  }

  lemma Looks(g: Story, l: Lease)
    requires l == Lease(1, false, g.Admitted())
    ensures Reaches(g.Ready(Idle), g.Ready(Read(l)))
  {
    One(g.Ready(Idle), RecRead, g.Ready(Read(l)));
  }

  lemma Asks(g: Story, l: Lease)
    requires l == Lease(1, false, g.Admitted())
    ensures Reaches(g.Ready(Read(l)), g.Ready(Asking(l, g.clock)))
  {
    One(g.Ready(Read(l)), RecCheck(false, true, true), g.Ready(Asking(l, g.clock)));
  }

  lemma Granted(g: Story, l: Lease)
    requires g.Possible() && l == Lease(1, false, g.Admitted())
    ensures Decided(g.cfg, l, g.clock, g.clock, Ours(g.token, g.cfg.holder, g.clock + g.cfg.ttl)) ==
            Pruning(l, g.Held([]).workload.value)
  {
  }

  lemma Wins(g: Story, l: Lease)
    requires g.Possible() && l == Lease(1, false, g.Admitted())
    ensures Reaches(g.Ready(Asking(l, g.clock)), g.Ready(Pruning(l, g.Held([]).workload.value)))
  {
    Granted(g, l);
    One(g.Ready(Asking(l, g.clock)), RecAnswer(Ours(g.token, g.cfg.holder, g.clock + g.cfg.ttl)),
        g.Ready(Pruning(l, g.Held([]).workload.value)));
  }

  lemma Prunes(g: Story, l: Lease)
    requires l == Lease(1, false, g.Admitted())
    ensures Reaches(g.Ready(Pruning(l, g.Held([]).workload.value)), g.Claiming())
  {
    One(g.Ready(Pruning(l, g.Held([]).workload.value)), RecPrune, g.Claiming());
  }

  lemma Activates(g: Story)
    requires g.Possible()
    ensures Reaches(g.Begin(), g.Owned(Activating(1, Lease(2, false, g.Held([])))))
  {
    var l, pc := Lease(1, false, g.Admitted()), Activating(1, Lease(2, false, g.Held([])));
    var a := g.Claiming();
    Admits(g);
    Looks(g, l);
    Then(g.Begin(), g.Ready(Idle), g.Ready(Read(l)));
    Asks(g, l);
    Then(g.Begin(), g.Ready(Read(l)), g.Ready(Asking(l, g.clock)));
    Wins(g, l);
    Then(g.Begin(), g.Ready(Asking(l, g.clock)), g.Ready(Pruning(l, g.Held([]).workload.value)));
    Prunes(g, l);
    Then(g.Begin(), g.Ready(Pruning(l, g.Held([]).workload.value)), a);
    Lands(a, 1, g.Owned(pc));
    Then(g.Begin(), a, g.Owned(pc));
  }

  lemma Acts(g: Story, l: Lease)
    requires l == Lease(2, false, g.Held([]))
    ensures Reaches(g.Owned(Activating(1, l)), g.Owned(Activated(l)))
  {
    One(g.Owned(Activating(1, l)), RecActivated, g.Owned(Activated(l)));
  }

  lemma Scales(g: Story, l: Lease)
    requires g.Possible() && l == Lease(2, false, g.Held([]))
    ensures Reaches(g.Owned(Activated(l)), g.Owned(Idle).(writes := map[2 := StartTarget(g.target, 0, 2)], next := 3))
  {
    One(g.Owned(Activated(l)), RecStart, g.Owned(Idle).(writes := map[2 := StartTarget(g.target, 0, 2)], next := 3));
  }

  lemma Spawns(g: Story)
    requires g.Possible()
    ensures Reaches(g.Owned(Idle).(target := Some(Target(g.target, 1, g.cfg.activity, None)), landed := {0, 1, 2},
            next := 3),
                    g.Started(map[]))
  {
    One(g.Owned(Idle).(target := Some(Target(g.target, 1, g.cfg.activity, None)), landed := {0, 1, 2}, next := 3),
        CreatePod(g.pod, g.name),
        g.Started(map[]));
  }

  lemma Starts(g: Story)
    requires g.Possible()
    ensures Reaches(g.Begin(), g.Started(map[]))
  {
    var l := Lease(2, false, g.Held([]));
    var a := g.Owned(Idle).(writes := map[2 := StartTarget(g.target, 0, 2)], next := 3);
    var b := g.Owned(Idle).(target := Some(Target(g.target, 1, g.cfg.activity, None)), landed := {0, 1, 2}, next := 3);
    Activates(g);
    Acts(g, l);
    Then(g.Begin(), g.Owned(Activating(1, l)), g.Owned(Activated(l)));
    Scales(g, l);
    Then(g.Begin(), g.Owned(Activated(l)), a);
    Patches(a, 2, b);
    Then(g.Begin(), a, b);
    Spawns(g);
    Then(g.Begin(), b, g.Started(map[]));
  }

  lemma ReadsLease(g: Story, p: Permit)
    requires p == Permit(Some(Lease(2, false, g.Held([]))), None, Pod("", 0, false, false, false), None)
    ensures Reaches(g.Started(map[]), g.Started(map[0 := p]))
  {
    One(g.Started(map[]), PermitRead(0), g.Started(map[0 := p]));
  }

  lemma ReadsPod(g: Story, p: Permit)
    requires p.waiting.None?
    ensures Reaches(g.Started(map[0 := p]), g.Started(map[0 := p.(uid := Some(g.pod), pod := g.Gated())]))
  {
    One(g.Started(map[0 := p]), PermitPod(0, g.pod), g.Started(map[0 := p.(uid := Some(g.pod), pod := g.Gated())]));
  }

  lemma Registers(g: Story, p: Permit)
    requires g.Possible() && p == Permit(Some(Lease(2, false, g.Held([]))), Some(g.pod), g.Gated(), None)
    ensures Reaches(g.Started(map[0 := p]), g.Enrolling(p))
  {
    assert [] + [g.Entry()] == [g.Entry()];
    assert Registered(g.Held([]), g.Entry()) == g.Held([g.Entry()]);
    AsksToRegister(g.Started(map[0 := p]), 0, g.Enrolling(p));
  }

  lemma Asked(g: Story, p: Permit, w: Write)
    requires p.uid == Some(g.pod) && p.pod == g.Gated() && p.waiting == Some(3) && w == Ungate(g.pod, 0, false)
    ensures Reaches(g.Named(map[0 := p]), g.Named(map[]).(writes := map[4 := w], next := 5))
  {
    assert map[0 := p] - {0} == map[];
    One(g.Named(map[0 := p]), PermitOk(0), g.Named(map[]).(writes := map[4 := w], next := 5));
  }

  lemma GateRemovalAdmitted(g: Story, w: Write)
    requires g.Possible() && w == Ungate(g.pod, 0, false)
    ensures Reaches(g.Named(map[]).(writes := map[4 := w], next := 5),
                    g.Named(map[]).(writes := map[4 := w.(admitted := true)], next := 5))
  {
    assert g.Held([g.Entry()]).workload.value.pods[0] == g.Entry();
    LetsThrough(g.Named(map[]).(writes := map[4 := w], next := 5), 4,
                g.Named(map[]).(writes := map[4 := w.(admitted := true)], next := 5));
  }

  lemma GateRemoved(g: Story, w: Write)
    requires w == Ungate(g.pod, 0, true)
    ensures Reaches(g.Named(map[]).(writes := map[4 := w], next := 5), g.Runs())
  {
    LiftsGate(g.Named(map[]).(writes := map[4 := w], next := 5), 4, g.pod, g.Runs());
  }

  lemma Enrolls(g: Story)
    requires g.Possible()
    ensures Reaches(g.Begin(),
            g.Named(map[0 := Permit(Some(Lease(2, false, g.Held([]))), Some(g.pod), g.Gated(), Some(3))]))
  {
    var p := Permit(Some(Lease(2, false, g.Held([]))), None, Pod("", 0, false, false, false), None);
    var q := p.(uid := Some(g.pod), pod := g.Gated());
    var r := q.(waiting := Some(3));
    var a := g.Enrolling(q);
    Starts(g);
    ReadsLease(g, p);
    Then(g.Begin(), g.Started(map[]), g.Started(map[0 := p]));
    ReadsPod(g, p);
    Then(g.Begin(), g.Started(map[0 := p]), g.Started(map[0 := q]));
    Registers(g, q);
    Then(g.Begin(), g.Started(map[0 := q]), a);
    Lands(a, 3, g.Named(map[0 := r]));
    Then(g.Begin(), a, g.Named(map[0 := r]));
  }

  /** A Pod comes to run: admitted, activated, registered, permitted. */
  lemma PodRuns(g: Story)
    requires g.Possible()
    ensures Reaches(g.Begin(), g.Runs()) && Running(g.Runs(), g.pod)
  {
    var r, w := Permit(Some(Lease(2, false, g.Held([]))), Some(g.pod), g.Gated(), Some(3)), Ungate(g.pod, 0, false);
    var a, b := g.Named(map[]).(writes := map[4 := w], next := 5),
        g.Named(map[]).(writes := map[4 := w.(admitted := true)], next := 5);
    Enrolls(g);
    Asked(g, r, w);
    Then(g.Begin(), g.Named(map[0 := r]), a);
    GateRemovalAdmitted(g, w);
    Then(g.Begin(), a, b);
    GateRemoved(g, w.(admitted := true));
    Then(g.Begin(), b, g.Runs());
  }

  lemma Deletes(g: Story)
    ensures Reaches(g.Runs(), g.Doomed(Idle))
  {
    One(g.Runs(), DeleteLease, g.Doomed(Idle));
  }

  lemma Notices(g: Story, l: Lease)
    requires l == Lease(4, true, g.Held([g.Entry()]))
    ensures Reaches(g.Doomed(Idle), g.Doomed(Read(l)))
  {
    One(g.Doomed(Idle), RecRead, g.Doomed(Read(l)));
  }

  lemma Decides(g: Story, l: Lease)
    requires l == Lease(4, true, g.Held([g.Entry()]))
    ensures Reaches(g.Doomed(Read(l)), g.Doomed(MustStop(l)))
  {
    One(g.Doomed(Read(l)), RecCheck(false, true, true), g.Doomed(MustStop(l)));
  }

  lemma Shuts(g: Story, l: Lease)
    requires l == Lease(4, true, g.Held([g.Entry()]))
    ensures Reaches(g.Doomed(MustStop(l)), g.Ending())
  {
    One(g.Doomed(MustStop(l)), RecStop, g.Ending());
  }

  lemma ClosesEpoch(g: Story)
    requires g.Possible()
    ensures Reaches(g.Runs(), g.Shut(Closing(5, Lease(5, true, g.Ended()))))
  {
    var l, pc := Lease(4, true, g.Held([g.Entry()])), Closing(5, Lease(5, true, g.Ended()));
    var a := g.Ending();
    Deletes(g);
    Notices(g, l);
    Then(g.Runs(), g.Doomed(Idle), g.Doomed(Read(l)));
    Decides(g, l);
    Then(g.Runs(), g.Doomed(Read(l)), g.Doomed(MustStop(l)));
    Shuts(g, l);
    Then(g.Runs(), g.Doomed(MustStop(l)), a);
    Lands(a, 5, g.Shut(pc));
    Then(g.Runs(), a, g.Shut(pc));
  }

  lemma Confirms(g: Story, l: Lease)
    ensures Reaches(g.Shut(Closing(5, l)), g.Shut(Stopped(l)))
  {
    MovesOn(g.Shut(Closing(5, l)), g.Shut(Stopped(l)));
  }

  lemma Fences(g: Story, l: Lease)
    requires g.Possible() && l == Lease(5, true, g.Ended())
    ensures Reaches(g.Shut(Stopped(l)),
            g.Shut(Patching(6, l)).(writes := map[6 := StopTarget(g.target, 1, 5)], next := 7))
  {
    One(g.Shut(Stopped(l)), RecStopTarget,
        g.Shut(Patching(6, l)).(writes := map[6 := StopTarget(g.target, 1, 5)], next := 7));
  }

  lemma Finishes(g: Story, l: Lease)
    ensures Reaches(g.Over(Patching(6, l)).(pods := g.Shut(Idle).pods), g.Over(Patching(6, l)))
  {
    One(g.Over(Patching(6, l)).(pods := g.Shut(Idle).pods), FinishPod(g.pod), g.Over(Patching(6, l)));
  }

  lemma Patched(g: Story, l: Lease)
    ensures Reaches(g.Over(Patching(6, l)), g.Over(ListingJobs(l)))
  {
    MovesOn(g.Over(Patching(6, l)), g.Over(ListingJobs(l)));
  }

  lemma ListsJobs(g: Story, l: Lease)
    ensures Reaches(g.Over(ListingJobs(l)), g.Over(ListingPods(l, true)))
  {
    One(g.Over(ListingJobs(l)), RecListJobs, g.Over(ListingPods(l, true)));
  }

  lemma NoneAlive(s: State, uid: Uid)
    requires s.pods.Keys == {uid} && s.pods[uid].terminal
    ensures AliveUids(s) == {}
  {
  }

  lemma ListsPods(g: Story, l: Lease)
    ensures Reaches(g.Over(ListingPods(l, true)), g.Over(Drained(l)))
  {
    NoneAlive(g.Over(ListingPods(l, true)), g.pod);
    One(g.Over(ListingPods(l, true)), RecListPods, g.Over(Drained(l)));
  }

  lemma FencesEpoch(g: Story)
    requires g.Possible()
    ensures Reaches(g.Runs(), g.Over(Patching(6, Lease(5, true, g.Ended()))))
  {
    var l := Lease(5, true, g.Ended());
    var a := g.Shut(Patching(6, l)).(writes := map[6 := StopTarget(g.target, 1, 5)], next := 7);
    var b := g.Over(Patching(6, l)).(pods := g.Shut(Idle).pods);
    ClosesEpoch(g);
    Confirms(g, l);
    Then(g.Runs(), g.Shut(Closing(5, l)), g.Shut(Stopped(l)));
    Fences(g, l);
    Then(g.Runs(), g.Shut(Stopped(l)), a);
    Patches(a, 6, b);
    Then(g.Runs(), a, b);
    Finishes(g, l);
    Then(g.Runs(), b, g.Over(Patching(6, l)));
  }

  lemma DrainsEpoch(g: Story)
    requires g.Possible()
    ensures Reaches(g.Runs(), g.Over(Drained(Lease(5, true, g.Ended()))))
  {
    var l := Lease(5, true, g.Ended());
    FencesEpoch(g);
    Patched(g, l);
    Then(g.Runs(), g.Over(Patching(6, l)), g.Over(ListingJobs(l)));
    ListsJobs(g, l);
    Then(g.Runs(), g.Over(ListingJobs(l)), g.Over(ListingPods(l, true)));
    ListsPods(g, l);
    Then(g.Runs(), g.Over(ListingPods(l, true)), g.Over(Drained(l)));
  }

  lemma Releasing(g: Story, l: Lease)
    requires g.Possible() && l == Lease(5, true, g.Ended())
    ensures Do(g.Over(Drained(l)), RecRelease(true)).sent == [g.Id()]
  {
  }

  /**
   A whole epoch, for every configuration: a run in which a Pod runs under the lease, and a
   continuation of it in which the deleted lease is closed, its target stopped under the fence,
   the Pod seen ended, and the identity of the epoch released.
   */
  lemma EpochEndsInRelease(g: Story)
    requires g.Possible()
    ensures Reaches(g.Begin(), g.Runs()) && Running(g.Runs(), g.pod)
    ensures var last := g.Over(Drained(Lease(5, true, g.Ended())));
            Reaches(g.Runs(), last) && last.sent == [] && Do(last, RecRelease(true)).sent == [g.Id()]
  {
    PodRuns(g);
    DrainsEpoch(g);
    Releasing(g, Lease(5, true, g.Ended()));
  }
}
