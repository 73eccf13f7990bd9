/**
 One reconcile as the operator runs it: the lease object is changed in place and every API
 call is an effect, recorded in order. Answers of the API server are parameters.
 */
module Reconcilers {
  import opened Wrappers
  import opened Operator

  // ---------- The lease object ----------

  class WorkloadStatus {
    var target: Option<Uid>
    var phase: Phase
    var deadline: Option<Time>
    var id: Identity
    var pods: seq<PermittedPod>

    constructor (w: Workload)
      ensures Value() == w
    {
      target, phase, deadline, id, pods := w.target, w.phase, w.deadline, w.id, w.pods;
    }

    function Value(): Workload
      reads this
    {
      Workload(target, phase, deadline, id, pods)
    }
  }

  class BerthLease {
    const specName: string
    const specTtl: Time
    var rv: nat
    var deleting: bool
    var workload: WorkloadStatus?
    var currentHolder: string
    var fencingToken: int

    constructor (specName: string, specTtl: Time, l: Lease)
      ensures this.specName == specName && this.specTtl == specTtl && Value() == l
      ensures workload != null ==> fresh(workload)
    {
      this.specName, this.specTtl := specName, specTtl;
      rv, deleting, currentHolder, fencingToken := l.rv, l.deleting, l.status.currentHolder, l.status.fencingToken;
      if l.status.workload.Some? { workload := new WorkloadStatus(l.status.workload.value); } else { workload := null; }
    }

    function Status(): Status
      reads this, workload
    {
      Operator.Status(if workload == null then None else Some(workload.Value()), currentHolder, fencingToken)
    }

    function Value(): Lease
      reads this, workload
    {
      Lease(rv, deleting, Status())
    }
  }

  // ---------- What the API server lists ----------

  datatype PodView = PodView(name: string, uid: Uid, ours: bool, gated: bool, terminal: bool, deleting: bool)

  datatype JobView = JobView(uid: Uid, suspended: bool, deleting: bool)

  datatype Effect =
    | UpdateStatus(status: Status)
    | StopTargetAt(fence: nat)
    | StartTargetOf(target: Option<Uid>)
    | SuspendJob(uid: Uid) | DeleteJob(uid: Uid) | DeletePod(uid: Uid)
    | RemoveGate(uid: Uid)
    | SendRelease(id: Identity)
    | RemoveFinalizer

  /** The registry as a map from names: the last entry of a name counts. */
  function ByName(pods: seq<PermittedPod>): map<string, Uid> {
    if pods == [] then map[] else ByName(pods[..|pods| - 1])[pods[|pods| - 1].name := pods[|pods| - 1].uid]
  }

  /** A listed Pod the lease must account for: bound to it, or registered under its name. */
  predicate Accountable(registry: map<string, Uid>, p: PodView) {
    p.ours || (p.name in registry && registry[p.name] == p.uid)
  }

  function ToDelete(registry: map<string, Uid>, listed: seq<PodView>): seq<Effect> {
    if listed == [] then []
    else
      var rest, p := ToDelete(registry, listed[..|listed| - 1]), listed[|listed| - 1];
      if Accountable(registry, p) && !p.deleting then rest + [DeletePod(p.uid)] else rest
  }

  predicate AllTerminal(registry: map<string, Uid>, listed: seq<PodView>) {
    forall i :: 0 <= i < |listed| && Accountable(registry, listed[i]) ==> listed[i].terminal
  }

  function AliveIn(listed: seq<PodView>): set<Uid> { set i | 0 <= i < |listed| && !listed[i].terminal :: listed[i].uid }

  function ToDrain(jobs: seq<JobView>): seq<Effect> {
    if jobs == [] then []
    else
      var rest, j := ToDrain(jobs[..|jobs| - 1]), jobs[|jobs| - 1];
      if j.deleting then rest else rest + (if j.suspended then [] else [SuspendJob(j.uid)]) + [DeleteJob(j.uid)]
  }

  lemma {:induction false} ToDeletePrefix(registry: map<string, Uid>, listed: seq<PodView>, i: nat)
    requires i <= |listed|
    ensures ToDelete(registry, listed[..i]) <= ToDelete(registry, listed)
    decreases |listed|
  {
    if i == |listed| {
      assert listed[..i] == listed;
    } else {
      ToDeletePrefix(registry, listed[..|listed| - 1], i);
      assert listed[..|listed| - 1][..i] == listed[..i];
    }
  }

  lemma {:induction false} ToDrainPrefix(jobs: seq<JobView>, i: nat)
    requires i <= |jobs|
    ensures ToDrain(jobs[..i]) <= ToDrain(jobs)
    decreases |jobs|
  {
    if i == |jobs| {
      assert jobs[..i] == jobs;
    } else {
      ToDrainPrefix(jobs[..|jobs| - 1], i);
      assert jobs[..|jobs| - 1][..i] == jobs[..i];
    }
  }

  /** The deletion of a listed Pod that the lease must account for and that is not being deleted yet. */
  ghost predicate Deletes(registry: map<string, Uid>, listed: seq<PodView>, e: Effect) {
    exists i :: 0 <= i < |listed| && !listed[i].deleting && e == DeletePod(listed[i].uid)
                && (listed[i].ours || (listed[i].name in registry && registry[listed[i].name] == listed[i].uid))
  }

  /** Exactly those Pods are deleted. */
  lemma {:induction false} ToDeleteIs(registry: map<string, Uid>, listed: seq<PodView>, e: Effect)
    ensures e in ToDelete(registry, listed) <==> Deletes(registry, listed, e)
  {
    if listed != [] {
      var n := |listed| - 1;
      ToDeleteIs(registry, listed[..n], e);
      if Deletes(registry, listed, e)
          && !(e == DeletePod(listed[n].uid) && !listed[n].deleting && Accountable(registry, listed[n])) {
        var i :| 0 <= i < |listed| && !listed[i].deleting && e == DeletePod(listed[i].uid)
                 && (listed[i].ours || (listed[i].name in registry && registry[listed[i].name] == listed[i].uid));
        assert listed[..n][i] == listed[i];
      }
      if Deletes(registry, listed[..n], e) {
        var i :| 0 <= i < n && !listed[..n][i].deleting && e == DeletePod(listed[..n][i].uid)
                 && (listed[..n][i].ours
                    || (listed[..n][i].name in registry && registry[listed[..n][i].name] == listed[..n][i].uid));
        assert listed[i] == listed[..n][i];
      }
    }
  }

  /** The entry at index i is for the name and UID, and no later one is for the name. */
  ghost predicate LastNamed(pods: seq<PermittedPod>, name: string, uid: Uid, i: nat) {
    i < |pods| && pods[i] == PermittedPod(name, uid) && forall j :: i < j < |pods| ==> pods[j].name != name
  }

  /** The last entry of a name counts. */
  lemma {:induction false} ByNameIs(pods: seq<PermittedPod>, name: string, uid: Uid)
    ensures name in ByName(pods) && ByName(pods)[name] == uid <==> exists i :: LastNamed(pods, name, uid, i)
  {
    if pods != [] {
      var init, last := pods[..|pods| - 1], pods[|pods| - 1];
      ByNameIs(init, name, uid);
      LastNamedSnoc(init, last, name, uid);
      assert init + [last] == pods;
    }
  }

  lemma LastNamedSnoc(init: seq<PermittedPod>, last: PermittedPod, name: string, uid: Uid)
    ensures (exists i :: LastNamed(init + [last], name, uid, i)) <==>
              last == PermittedPod(name, uid) || (last.name != name && exists i :: LastNamed(init, name, uid, i))
  {
    var pods := init + [last];
    if i: nat :| LastNamed(init, name, uid, i) {
      if last.name != name {
        assert pods[i] == init[i];
        assert LastNamed(pods, name, uid, i);
      }
    }
    if last == PermittedPod(name, uid) { assert LastNamed(pods, name, uid, |init|); }
    if i: nat :| LastNamed(pods, name, uid, i) {
      if i < |init| {
        assert pods[|init|] == last;
        assert forall j :: i < j < |init| ==> pods[j] == init[j];
        assert LastNamed(init, name, uid, i);
      }
    }
  }

  /** A job not yet deleting is deleted, and unless it is suspended that comes right before. */
  ghost predicate JobDrained(jobs: seq<JobView>, fx: seq<Effect>, i: nat)
    requires i < |jobs|
  {
    !jobs[i].deleting ==>
      exists k :: 0 <= k < |fx| && fx[k] == DeleteJob(jobs[i].uid)
                  && (!jobs[i].suspended ==> k > 0 && fx[k - 1] == SuspendJob(jobs[i].uid))
  }

  /** The effect is for a job that is not deleting, and a suspension for one that is not suspended. */
  ghost predicate ForJob(jobs: seq<JobView>, e: Effect) {
    exists i :: 0 <= i < |jobs| && !jobs[i].deleting
                && (e == DeleteJob(jobs[i].uid) || (e == SuspendJob(jobs[i].uid) && !jobs[i].suspended))
  }

  lemma {:induction false} ToDrainIs(jobs: seq<JobView>)
    ensures forall i :: 0 <= i < |jobs| ==> JobDrained(jobs, ToDrain(jobs), i)
    ensures forall k :: 0 <= k < |ToDrain(jobs)| ==> ForJob(jobs, ToDrain(jobs)[k])
  {
    if jobs != [] {
      var n := |jobs| - 1;
      var rest, fx := ToDrain(jobs[..n]), ToDrain(jobs);
      ToDrainIs(jobs[..n]);
      forall i | 0 <= i < |jobs| ensures JobDrained(jobs, fx, i) {
        if i < n {
          assert JobDrained(jobs[..n], rest, i);
          if !jobs[i].deleting {
            var k :| 0 <= k < |rest| && rest[k] == DeleteJob(jobs[i].uid)
                     && (!jobs[i].suspended ==> k > 0 && rest[k - 1] == SuspendJob(jobs[i].uid));
            assert fx[k] == rest[k] && (k > 0 ==> fx[k - 1] == rest[k - 1]);
          }
        } else if !jobs[n].deleting {
          assert fx[|fx| - 1] == DeleteJob(jobs[n].uid);
          assert !jobs[n].suspended ==> fx[|fx| - 2] == SuspendJob(jobs[n].uid);
        }
      }
      forall k | 0 <= k < |fx| ensures ForJob(jobs, fx[k]) {
        if k < |rest| {
          assert fx[k] == rest[k] && ForJob(jobs[..n], rest[k]);
          var i :| 0 <= i < n && !jobs[..n][i].deleting
                   && (rest[k] == DeleteJob(jobs[..n][i].uid)
                      || (rest[k] == SuspendJob(jobs[..n][i].uid) && !jobs[..n][i].suspended));
          assert jobs[i] == jobs[..n][i];
        } else {
          assert jobs[n] == jobs[|jobs| - 1];
        }
      }
    }
  }

  /** Keeps the registered Pods that are still alive in the listing. */
  method PruneCompleted(l: BerthLease, listed: seq<PodView>)
    modifies l.workload
    ensures l.workload != null ==>
              l.workload.Value() == Pruned(old(l.workload.Value()), AliveIn(listed))
  {
    if l.workload == null || |l.workload.pods| == 0 { return; }
    var alive: set<Uid> := {};
    for i := 0 to |listed|
      invariant alive == set j | 0 <= j < i && !listed[j].terminal :: listed[j].uid
      invariant l.workload.Value() == old(l.workload.Value())
    {
      if !listed[i].terminal { alive := alive + {listed[i].uid}; }
    }
    var kept: seq<PermittedPod> := [];
    var pods := l.workload.pods;
    for i := 0 to |pods|
      invariant kept == Kept(pods[..i], alive)
      invariant l.workload.Value() == old(l.workload.Value())
    {
      assert pods[..i + 1][..i] == pods[..i];
      if pods[i].uid in alive { kept := kept + [pods[i]]; }
    }
    assert pods[..|pods|] == pods;
    l.workload.pods := kept;
  }

  /** Pruning keeps exactly the registered Pods that the listing shows and does not show finished, and all else. */
  lemma PrunedIs(w: Workload, listed: seq<PodView>, e: PermittedPod)
    ensures var v := Pruned(w, AliveIn(listed));
            && v.target == w.target && v.phase == w.phase && v.deadline == w.deadline && v.id == w.id
            && (e in v.pods <==>
                  e in w.pods && exists i :: 0 <= i < |listed| && listed[i].uid == e.uid && !listed[i].terminal)
  {
    KeptIs(w.pods, AliveIn(listed), e);
  }

  lemma {:induction false} KeptIs(pods: seq<PermittedPod>, alive: set<Uid>, e: PermittedPod)
    ensures e in Kept(pods, alive) <==> e in pods && e.uid in alive
  {
    if pods != [] { KeptIs(pods[..|pods| - 1], alive, e); }
  }

  /** The deletion of the Pod at index i is due and fails. */
  ghost predicate PodFails(registry: map<string, Uid>, listed: seq<PodView>, fails: nat -> bool, i: nat) {
    i < |listed| && Accountable(registry, listed[i]) && !listed[i].deleting && fails(i)
  }

  /** Deletes what the lease must account for; done only when all of it is terminal already. */
  method DrainPods(registered: seq<PermittedPod>, listed: seq<PodView>, fails: nat -> bool)
    returns (done: bool, err: bool, fx: seq<Effect>)
    ensures !err ==> fx == ToDelete(ByName(registered), listed) && (done <==> AllTerminal(ByName(registered), listed))
    ensures err ==> !done && fx <= ToDelete(ByName(registered), listed)
    ensures err <==> exists i :: PodFails(ByName(registered), listed, fails, i)
    ensures forall i :: 0 <= i < |fx| ==> fx[i].DeletePod?
  {
    var registry: map<string, Uid> := map[];
    for i := 0 to |registered|
      invariant registry == ByName(registered[..i])
    {
      assert registered[..i + 1][..i] == registered[..i];
      registry := registry[registered[i].name := registered[i].uid];
    }
    assert registered[..|registered|] == registered;
    done, err, fx := true, false, [];
    for i := 0 to |listed|
      invariant fx == ToDelete(registry, listed[..i])
      invariant done <==> AllTerminal(registry, listed[..i])
      invariant forall k: nat :: k < i ==> !PodFails(registry, listed, fails, k)
      invariant forall k :: 0 <= k < |fx| ==> fx[k].DeletePod?
    {
      assert listed[..i + 1][..i] == listed[..i];
      var p := listed[i];
      assert AllTerminal(registry, listed[..i + 1])
             <==> AllTerminal(registry, listed[..i]) && (Accountable(registry, p) ==> p.terminal) by {
        assert listed[..i + 1][i] == p;
        assert forall j :: 0 <= j < i ==> listed[..i + 1][j] == listed[..i][j];
      }
      if !Accountable(registry, p) { continue; }
      if !p.terminal { done := false; }
      if !p.deleting {
        if fails(i) {
          ToDeletePrefix(registry, listed, i);
          assert PodFails(registry, listed, fails, i);
          return false, true, fx;
        }
        fx := fx + [DeletePod(p.uid)];
      }
    }
    assert listed[..|listed|] == listed;
  }

  /** A call for the Job at index i is due and fails. */
  ghost predicate JobFails(jobs: seq<JobView>, updateFails: nat -> bool, deleteFails: nat -> bool, i: nat) {
    i < |jobs| && !jobs[i].deleting && ((!jobs[i].suspended && updateFails(i)) || deleteFails(i))
  }

  /** Suspends and deletes every managed Job; done only when the listing was empty. */
  method DrainJobs(jobs: seq<JobView>, updateFails: nat -> bool, deleteFails: nat -> bool)
    returns (done: bool, err: bool, fx: seq<Effect>)
    ensures !err ==> fx == ToDrain(jobs) && (done <==> jobs == [])
    ensures err ==> !done && fx <= ToDrain(jobs)
    ensures err <==> exists i :: JobFails(jobs, updateFails, deleteFails, i)
    ensures forall i :: 0 <= i < |fx| ==> fx[i].SuspendJob? || fx[i].DeleteJob?
  {
    err, fx := false, [];
    for i := 0 to |jobs|
      invariant fx == ToDrain(jobs[..i])
      invariant forall k: nat :: k < i ==> !JobFails(jobs, updateFails, deleteFails, k)
      invariant forall k :: 0 <= k < |fx| ==> fx[k].SuspendJob? || fx[k].DeleteJob?
    {
      assert jobs[..i + 1][..i] == jobs[..i];
      ToDrainPrefix(jobs, i);
      ToDrainPrefix(jobs, i + 1);
      if jobs[i].deleting { continue; }
      assert JobFails(jobs, updateFails, deleteFails, i) <==> (!jobs[i].suspended && updateFails(i)) || deleteFails(i);
      if !jobs[i].suspended {
        if updateFails(i) { return false, true, fx; }
        fx := fx + [SuspendJob(jobs[i].uid)];
      }
      if deleteFails(i) { return false, true, fx; }
      fx := fx + [DeleteJob(jobs[i].uid)];
    }
    assert jobs[..|jobs|] == jobs;
    done := |jobs| == 0;
  }

  /** The listing shows every bound Pod of the state. */
  ghost predicate Lists(s: State, listed: seq<PodView>) {
    forall u :: u in s.pods ==>
        exists i :: 0 <= i < |listed| && listed[i].uid == u && listed[i].ours
            && listed[i].terminal == s.pods[u].terminal
  }

  /** A drain that is done has seen every bound Pod terminal: the guard of the release step. */
  lemma DrainSeesEveryPod(s: State, registry: map<string, Uid>, listed: seq<PodView>)
    requires Lists(s, listed) && AllTerminal(registry, listed)
    ensures AliveUids(s) == {}
  {
  }

  // ---------- Stopping ----------

  /** What the API server and the central service answer, in the order asked; None and false are errors. */
  datatype StopAnswers = StopAnswers(
    closed: Option<nat>, stopped: bool, jobs: Option<seq<JobView>>, pods: Option<seq<PodView>>, released: bool,
        finished: Option<nat>)

  /** The status the drain works from: closed to new permits. */
  function Closing(s: Status, name: string): Status { if InPhase(s, Stopping) then s else Closed(s, name) }

  predicate DrainedBy(ans: StopAnswers, s: Status) {
    && s.workload.Some? && ans.stopped && ans.jobs == Some([]) && ans.pods.Some?
    && AllTerminal(ByName(s.workload.value.pods), ans.pods.value)
  }

  /** Closes admission to new permits and persists that, unless it is closed already. */
  method CloseAdmission(l: BerthLease, closed: Option<nat>) returns (fx: seq<Effect>, err: bool)
    modifies l, l.workload
    ensures l.Status() == Closing(old(l.Status()), l.specName)
    ensures l.workload != null && (fresh(l.workload) || l.workload == old(l.workload))
    ensures l.deleting == old(l.deleting)
    ensures fx == if InPhase(old(l.Status()), Stopping) then [] else [UpdateStatus(l.Status())]
    ensures err <==> !InPhase(old(l.Status()), Stopping) && closed.None?
    ensures !err ==> l.rv == if InPhase(old(l.Status()), Stopping) then old(l.rv) else closed.value
  {
    fx, err := [], false;
    if l.workload == null {
      l.workload := new WorkloadStatus(Workload(None, Fresh, None,
          Identity(l.specName, l.currentHolder, l.fencingToken), []));
    }
    if l.workload.phase != Stopping {
      l.workload.phase := Stopping;
      fx := [UpdateStatus(l.Status())];
      if closed.None? { return fx, true; }
      l.rv := closed.value;
    }
  }

  /** Forgets the epoch once nothing of it is left; the admitted target stays recorded. */
  method ResetEpoch(l: BerthLease)
    modifies l, l.workload
    ensures l.Status() == Reset(old(l.Status())) && l.workload == old(l.workload) && l.rv == old(l.rv)
            && l.deleting == old(l.deleting)
  {
    if l.workload != null {
      l.workload.phase := Fresh;
      l.workload.pods := [];
      l.workload.id := Identity("", "", 0);
      l.workload.deadline := None;
    }
    l.fencingToken := 0;
    l.currentHolder := "";
  }

  /** An effect that gives up the record of a stopping epoch. */
  predicate Clears(e: Effect, c: Status) { e.RemoveFinalizer? || (e.UpdateStatus? && e.status != c) }

  /** The version the stop is fenced with: that of the durable Stopping status. */
  function FenceOf(s: Status, rv: nat, ans: StopAnswers): nat {
    if InPhase(s, Stopping) then rv else if ans.closed.Some? then ans.closed.value else 0
  }

  /** Close, then stop the target under the fence. */
  function StopPlan(s: Status, name: string, rv: nat, ans: StopAnswers): seq<Effect> {
    (if InPhase(s, Stopping) then [] else [UpdateStatus(Closing(s, name))]) + [StopTargetAt(FenceOf(s, rv, ans))]
  }

  /** The calls of a complete drain, in order: close, stop the target under the fence, drain the Jobs, then the Pods. */
  function DrainPlan(s: Status, name: string, rv: nat, ans: StopAnswers): seq<Effect> {
    var c := Closing(s, name);
    StopPlan(s, name, rv, ans)
    + (if ans.jobs.Some? then ToDrain(ans.jobs.value) else [])
    + if ans.pods.Some? && c.workload.Some? then ToDelete(ByName(c.workload.value.pods), ans.pods.value) else []
  }

  /** The Stopping phase is durable. */
  predicate Shut(s: Status, ans: StopAnswers) { InPhase(s, Stopping) || ans.closed.Some? }

  /** The Jobs are listed, and every call for them succeeds. */
  ghost predicate JobsAnswer(ans: StopAnswers, updateFails: nat -> bool, deleteFails: nat -> bool) {
    ans.jobs.Some? && forall i :: !JobFails(ans.jobs.value, updateFails, deleteFails, i)
  }

  /** The Pods are listed, and every deletion succeeds. */
  ghost predicate PodsAnswer(s: Status, ans: StopAnswers, podFails: nat -> bool) {
    && s.workload.Some? && ans.pods.Some?
    && forall i :: !PodFails(ByName(s.workload.value.pods), ans.pods.value, podFails, i)
  }

  /** Everything up to the Release. It makes the calls of the plan in order, all of them unless one fails. */
  method Drain(l: BerthLease, ans: StopAnswers, updateFails: nat -> bool, deleteFails: nat -> bool,
      podFails: nat -> bool)
    returns (fx: seq<Effect>, done: bool, err: bool)
    modifies l, l.workload
    ensures l.Status() == Closing(old(l.Status()), l.specName) && l.deleting == old(l.deleting)
    ensures l.workload != null && (fresh(l.workload) || l.workload == old(l.workload))
    ensures fx <= DrainPlan(old(l.Status()), l.specName, old(l.rv), ans)
    ensures err <==> !(Shut(old(l.Status()), ans) && ans.stopped && JobsAnswer(ans, updateFails, deleteFails)
                       && PodsAnswer(l.Status(), ans, podFails))
    ensures !err ==>
              fx == DrainPlan(old(l.Status()), l.specName, old(l.rv), ans) && (done <==> DrainedBy(ans, l.Status()))
    ensures Shut(old(l.Status()), ans) ==> StopPlan(old(l.Status()), l.specName, old(l.rv), ans) <= fx
    ensures Shut(old(l.Status()), ans) && ans.stopped && JobsAnswer(ans, updateFails, deleteFails) ==>
              StopPlan(old(l.Status()), l.specName, old(l.rv), ans) + ToDrain(ans.jobs.value) <= fx
    ensures !InPhase(old(l.Status()), Stopping) ==> |fx| > 0 && fx[0] == UpdateStatus(l.Status())
    ensures done ==> !err
  {
    done := false;
    fx, err := CloseAdmission(l, ans.closed);
    if err { return; }
    fx := fx + [StopTargetAt(l.rv)];
    if !ans.stopped || ans.jobs.None? { return fx, false, true; }
    var jobsDone, jobsErr, jobsFx := DrainJobs(ans.jobs.value, updateFails, deleteFails);
    fx := fx + jobsFx;
    if jobsErr || ans.pods.None? { return fx, false, true; }
    var podsDone, podsErr, podsFx := DrainPods(l.workload.pods, ans.pods.value, podFails);
    fx := fx + podsFx;
    return fx, podsDone && jobsDone && !podsErr, podsErr;
  }

  /** Every call of the drain succeeds. */
  ghost predicate Drains(s: Status, name: string, ans: StopAnswers, updateFails: nat -> bool, deleteFails: nat -> bool,
      podFails: nat -> bool)
  {
    && Shut(s, ans) && ans.stopped && JobsAnswer(ans, updateFails, deleteFails)
    && PodsAnswer(Closing(s, name), ans, podFails)
  }

  /** What follows a drain that found nothing alive: the Release if the identity can be released, then the cleanup. */
  function ReleasePlan(was: Lease, name: string, released: bool): seq<Effect> {
    var c, id := Closing(was.status, name), ReleaseIdentity(was.status, name);
    (if Releasable(id) then [SendRelease(id)] else [])
    + if Releasable(id) && !released then []
      else [if was.deleting then RemoveFinalizer else UpdateStatus(Reset(c))]
  }

  /** What stopping the lease was does; drains: every call of the drain succeeds; s is the status afterwards. */
  predicate StopDoes(was: Lease, name: string, ans: StopAnswers, drains: bool, s: Status, fx: seq<Effect>, err: bool) {
    var c, id := Closing(was.status, name), ReleaseIdentity(was.status, name);
    var plan := DrainPlan(was.status, name, was.rv, ans);
    if !drains then s == c && fx <= plan && err
    else if !DrainedBy(ans, c) then s == c && fx == plan && !err
    else
      && s == (if was.deleting || (Releasable(id) && !ans.released) then c else Reset(c))
      && fx == plan + ReleasePlan(was, name, ans.released)
      && (err <==> (Releasable(id) && !ans.released) || ans.finished.None?)
  }

  /** The Release is sent, and the record given up, only where the protocol allows it. */
  predicate ReleasesInOrder(was: Lease, name: string, ans: StopAnswers, fx: seq<Effect>) {
    var c, id := Closing(was.status, name), ReleaseIdentity(was.status, name);
    && (!InPhase(was.status, Stopping) ==> |fx| > 0 && fx[0] == UpdateStatus(c))
    && (forall i :: 0 <= i < |fx| && fx[i].SendRelease? ==>
          && fx[i].id == id && Releasable(id) && Shut(was.status, ans) && DrainedBy(ans, c)
          && StopTargetAt(FenceOf(was.status, was.rv, ans)) in fx[..i])
    && (forall i :: 0 <= i < |fx| && Clears(fx[i], c) ==>
          DrainedBy(ans, c) && (Releasable(id) ==> ans.released && SendRelease(id) in fx[..i]))
  }

  /** No call of the drain releases the lease or gives up its record. */
  lemma PlanKeeps(s: Status, name: string, rv: nat, ans: StopAnswers)
    ensures forall e :: e in DrainPlan(s, name, rv, ans) ==> !e.SendRelease? && !Clears(e, Closing(s, name))
  {
    var c := Closing(s, name);
    if ans.jobs.Some? { ToDrainIs(ans.jobs.value); }
    forall e | e in DrainPlan(s, name, rv, ans) ensures !e.SendRelease? && !Clears(e, c) {
      if ans.pods.Some? && c.workload.Some? { ToDeleteIs(ByName(c.workload.value.pods), ans.pods.value, e); }
    }
  }

  lemma PlanThenRelease(was: Lease, name: string, ans: StopAnswers, plan: seq<Effect>)
    requires plan == DrainPlan(was.status, name, was.rv, ans) && Shut(was.status, ans)
    requires forall e :: e in plan ==> !e.SendRelease? && !Clears(e, Closing(was.status, name))
    requires DrainedBy(ans, Closing(was.status, name))
    ensures ReleasesInOrder(was, name, ans, plan + ReleasePlan(was, name, ans.released))
  {
    var rest := ReleasePlan(was, name, ans.released);
    var fx, id := plan + rest, ReleaseIdentity(was.status, name);
    assert StopPlan(was.status, name, was.rv, ans) <= plan;
    var k := |StopPlan(was.status, name, was.rv, ans)| - 1;
    assert plan[k] == StopPlan(was.status, name, was.rv, ans)[k] == StopTargetAt(FenceOf(was.status, was.rv, ans));
    assert forall i :: 0 <= i < |plan| ==> fx[i] == plan[i];
    forall i | 0 <= i < |fx| && fx[i].SendRelease?
      ensures fx[i].id == id && Releasable(id) && StopTargetAt(FenceOf(was.status, was.rv, ans)) in fx[..i]
    {
      assert fx[..i][k] == plan[k];
    }
    forall i | 0 <= i < |fx| && Clears(fx[i], Closing(was.status, name))
      ensures Releasable(id) ==> ans.released && SendRelease(id) in fx[..i]
    {
      if Releasable(id) { assert fx[..i][|plan|] == rest[0] == SendRelease(id); }
    }
  }

  lemma StopInOrder(was: Lease, name: string, ans: StopAnswers, drains: bool, s: Status, fx: seq<Effect>, err: bool)
    requires StopDoes(was, name, ans, drains, s, fx, err) && (drains ==> Shut(was.status, ans))
    requires !InPhase(was.status, Stopping) ==> |fx| > 0 && fx[0] == UpdateStatus(Closing(was.status, name))
    ensures ReleasesInOrder(was, name, ans, fx)
  {
    PlanKeeps(was.status, name, was.rv, ans);
    var plan := DrainPlan(was.status, name, was.rv, ans);
    if drains && DrainedBy(ans, Closing(was.status, name)) {
      PlanThenRelease(was, name, ans, plan);
    } else {
      assert forall i :: 0 <= i < |fx| ==> fx[i] == plan[i];
    }
  }

  /**
   Stops, drains and releases. A Release is sent only after the Stopping phase is durable, the target is
   stopped under this version's fence and the drain found nothing alive, and it names the identity the
   epoch was recorded under; cleanup state is cleared only after the Release is settled.
   */
  method StopAndRelease(l: BerthLease, ans: StopAnswers, updateFails: nat -> bool, deleteFails: nat -> bool,
      podFails: nat -> bool)
    returns (fx: seq<Effect>, err: bool)
    modifies l, l.workload
    ensures ReleasesInOrder(old(l.Value()), l.specName, ans, fx)
    ensures StopDoes(old(l.Value()), l.specName, ans, Drains(old(l.Status()), l.specName, ans, updateFails, deleteFails,
        podFails), l.Status(), fx, err)
  {
    ghost var was := l.Value();
    ghost var drains := Drains(l.Status(), l.specName, ans, updateFails, deleteFails, podFails);
    var done;
    fx, done, err := Drain(l, ans, updateFails, deleteFails, podFails);
    if done {
      var id := l.workload.id;
      var settled := id.holder == "" || id.token <= 0;
      if !settled {
        fx := fx + [SendRelease(id)];
        settled := ans.released;
      }
      if !settled {
        err := true;
      } else {
        if l.deleting {
          fx := fx + [RemoveFinalizer];
        } else {
          ResetEpoch(l);
          fx := fx + [UpdateStatus(l.Status())];
        }
        err := ans.finished.None?;
      }
    }
    StopInOrder(was, l.specName, ans, drains, l.Status(), fx, err);
  }

  /** The recorded workload, if the lease has one. */
  predicate Marked(s: Status, phase: Phase) { s.workload.Some? && s.workload.value.phase == phase }

  /** The registered Pod of that name, by its last entry, is the listed one. */
  ghost predicate NamedLast(s: Status, p: PodView) {
    s.workload.Some? && exists i :: LastNamed(s.workload.value.pods, p.name, p.uid, i)
  }

  /** Nothing the lease must account for is alive, and the lists that say so are complete. */
  ghost predicate NothingLeft(s: Status, ans: StopAnswers) {
    && ans.jobs == Some([]) && ans.pods.Some?
    && forall i :: 0 <= i < |ans.pods.value| && (ans.pods.value[i].ours || NamedLast(s, ans.pods.value[i])) ==>
         ans.pods.value[i].terminal
  }

  lemma DrainedIff(s: Status, name: string, ans: StopAnswers)
    ensures DrainedBy(ans, Closing(s, name)) <==> ans.stopped && NothingLeft(s, ans)
  {
    var c := Closing(s, name);
    if ans.pods.Some? {
      forall i | 0 <= i < |ans.pods.value|
        ensures Accountable(ByName(c.workload.value.pods), ans.pods.value[i]) <==>
                ans.pods.value[i].ours || NamedLast(s, ans.pods.value[i])
      {
        ByNameIs(c.workload.value.pods, ans.pods.value[i].name, ans.pods.value[i].uid);
      }
    }
  }

  /**
   The Release that stopping sends: it names the recorded identity, or without a workload the one the
   status reports, and it is sent if and only if that identity is complete, the Stopping phase is
   durable, the target stopped, nothing is left alive and no deletion failed.
   */
  lemma ReleasedIff(was: Lease, name: string, ans: StopAnswers, updateFails: nat -> bool, deleteFails: nat -> bool,
      podFails: nat -> bool, s: Status, fx: seq<Effect>, err: bool, id: Identity)
    requires StopDoes(was, name, ans, Drains(was.status, name, ans, updateFails, deleteFails, podFails), s, fx, err)
    ensures SendRelease(id) in fx <==>
              && id == (if was.status.workload.Some? then was.status.workload.value.id
                        else Identity(name, was.status.currentHolder, was.status.fencingToken))
              && id.holder != "" && id.token > 0
              && (Marked(was.status, Stopping) || ans.closed.Some?) && ans.stopped
              && NothingLeft(was.status, ans) && PodsAnswer(Closing(was.status, name), ans, podFails)
    ensures SendRelease(id) in fx ==>
              StopTargetAt(if Marked(was.status, Stopping) then was.rv else ans.closed.value) in fx
  {
    DrainedIff(was.status, name, ans);
    PlanKeeps(was.status, name, was.rv, ans);
    var plan := DrainPlan(was.status, name, was.rv, ans);
    if SendRelease(id) in fx {
      assert SendRelease(id) !in plan;
      assert StopPlan(was.status, name, was.rv, ans) <= plan <= fx;
      var k := |StopPlan(was.status, name, was.rv, ans)| - 1;
      assert fx[k] == StopPlan(was.status, name, was.rv, ans)[k];
    }
  }

  // ---------- Permitting a Pod ----------

  method Contains(pods: seq<PermittedPod>, entry: PermittedPod) returns (found: bool)
    ensures found <==> entry in pods
  {
    for i := 0 to |pods|
      invariant entry !in pods[..i]
    {
      if pods[i].uid == entry.uid && pods[i].name == entry.name { return true; }
    }
    assert pods[..|pods|] == pods;
    return false;
  }

  /** What permitting a Pod under the lease was does, call by call; l is the lease afterwards. */
  predicate PermitDoes(was: Lease, l: Lease, p: PodView, now: Time, kin: bool, registered: Option<nat>,
      ungated: bool, fx: seq<Effect>, err: bool)
  {
    var entry := PermittedPod(p.name, p.uid);
    if !ActiveAt(was, now) || p.deleting then l == was && fx == [] && !err
    else if !p.ours || !kin then l == was && fx == [] && err
    else if entry in was.status.workload.value.pods then
      && l == was
      && fx == (if p.gated then [RemoveGate(p.uid)] else [])
      && (err <==> p.gated && !ungated)
    else if !p.gated || |was.status.workload.value.pods| >= MAX_PERMITTED then l == was && fx == [] && err
    else
      && l == was.(status := Registered(was.status, entry), rv := if registered.Some? then registered.value else was.rv)
      && fx == [UpdateStatus(l.status)] + (if registered.Some? then [RemoveGate(p.uid)] else [])
      && (err <==> registered.None? || !ungated)
  }

  /**
   Permits one Pod: its gate is removed only under an active lease and only once the registry that
   names it is durable; the registry never outgrows its bound.
   */
  method PermitPod(l: BerthLease, p: PodView, now: Time, kin: bool, registered: Option<nat>, ungated: bool)
    returns (fx: seq<Effect>, err: bool)
    modifies l, l.workload
    ensures l.workload == old(l.workload)
    ensures PermitDoes(old(l.Value()), l.Value(), p, now, kin, registered, ungated, fx, err)
    ensures l.Status() == old(l.Status())
            || (l.workload != null && l.Status() == Registered(old(l.Status()), PermittedPod(p.name, p.uid))
                && |old(l.workload.pods)| < MAX_PERMITTED && p.gated && fx != [] && fx[0] == UpdateStatus(l.Status()))
    ensures forall i :: 0 <= i < |fx| && fx[i].RemoveGate? ==>
              && fx[i] == RemoveGate(p.uid) && p.gated && !p.deleting && p.ours && kin && ActiveAt(old(l.Value()), now)
              && l.workload != null && PermittedPod(p.name, p.uid) in l.workload.pods
              && (l.Status() == old(l.Status()) || (registered.Some? && UpdateStatus(l.Status()) in fx[..i]))
  {
    fx, err := [], false;
    if !ActiveAt(l.Value(), now) || p.deleting { return; }
    if !p.ours || !kin { return fx, true; }
    var entry := PermittedPod(p.name, p.uid);
    var found := Contains(l.workload.pods, entry);
    if !found {
      if !p.gated || |l.workload.pods| >= MAX_PERMITTED { return fx, true; }
      l.workload.pods := l.workload.pods + [entry];
      fx := [UpdateStatus(l.Status())];
      if registered.None? { return fx, true; }
      l.rv := registered.value;
    }
    if !p.gated { return; }
    ghost var before := fx;
    fx := fx + [RemoveGate(p.uid)];
    assert fx[..|before|] == before;
    err := !ungated;
  }

  /**
   The gate comes off if and only if the lease is active, the Pod is gated, live and its own, and it is
   on record or can be put there; a Pod newly put there is durable on record first.
   */
  lemma UngatedIff(was: Lease, l: Lease, p: PodView, now: Time, kin: bool, registered: Option<nat>, ungated: bool,
      fx: seq<Effect>, err: bool)
    requires PermitDoes(was, l, p, now, kin, registered, ungated, fx, err)
    ensures RemoveGate(p.uid) in fx <==>
              && ActiveAt(was, now) && p.gated && !p.deleting && p.ours && kin
              && (PermittedPod(p.name, p.uid) in was.status.workload.value.pods
                  || (registered.Some? && |was.status.workload.value.pods| < 1024))
    ensures RemoveGate(p.uid) in fx ==>
              && l.status.workload.Some? && PermittedPod(p.name, p.uid) in l.status.workload.value.pods
              && (l.status == was.status || (fx[0] == UpdateStatus(l.status) && l.rv == registered.value))
  {
  }

  // ---------- Activating ----------

  datatype Opening = Halt | Failed | Live

  /** An Active epoch that has run out, or cannot have a deadline at all. */
  predicate Overdue(l: Lease, now: Time) {
    && l.status.workload.Some? && l.status.workload.value.phase == Active
    && (l.deleting || l.status.workload.value.id.token <= 0 || l.status.workload.value.deadline.None?
        || now >= l.status.workload.value.deadline.value)
  }

  /** No whole second is left of what the answer grants. */
  predicate Spent(started: Time, ttl: Time, expiresAt: Time, now: Time) {
    var end := if started + ttl < expiresAt then started + ttl else expiresAt;
    end - end % SECOND <= now
  }

  /**
   The second half of a reconcile: judge the central answer and, if it grants the lease, record the
   ownership durably before anything is activated. The deadline never lies beyond one time to live
   after the request was sent, nor beyond the expiry the server reported.
   */
  method Activate(l: BerthLease, holder: string, a: Answer, started: Time, now: Time, listed: Option<seq<PodView>>,
      persisted: Option<nat>)
    returns (outcome: Opening, fx: seq<Effect>)
    requires l.workload != null
    modifies l, l.workload
    ensures var pc := Decided(Config(l.specName, holder, l.specTtl, 0), old(l.Value()), started, now, a);
            && (outcome.Halt? <==> pc.MustStop?)
            && (outcome.Live? <==> pc.Pruning? && listed.Some? && persisted.Some?)
            && (pc.Idle? ==> fx == [] && l.Value() == old(l.Value()))
            && (pc.Pruning? && listed.None? ==> fx == [])
            && (pc.Pruning? && listed.Some? ==>
                  && l.workload == old(l.workload) && l.workload.Value() == Pruned(pc.next, AliveIn(listed.value))
                  && l.Status() == Status(Some(l.workload.Value()), l.workload.id.holder, l.workload.id.token)
                  && fx == [UpdateStatus(l.Status())] + if persisted.Some? then [StartTargetOf(l.workload.target)]
                     else [])
    ensures a.HeldByOther? ==> outcome.Halt?
    ensures a.NoAnswer? ==> outcome == if Overdue(old(l.Value()), now) then Halt else Failed
    ensures a.Ours? && (a.token <= 0 || a.holder != holder || a.expiresAt <= now) ==> outcome.Failed?
    ensures a.Ours? && a.token > 0 && a.holder == holder && a.expiresAt > now ==>
              && (outcome.Halt? <==>
                    || Spent(started, l.specTtl, a.expiresAt, now)
                    || (old(l.workload.phase) == Active && old(l.workload.id.token) != a.token))
              && (outcome.Live? ==> l.workload.id == Identity(l.specName, holder, a.token) && l.workload.phase == Active
                                    && l.currentHolder == holder && l.fencingToken == a.token
                                    && l.workload.target == old(l.workload.target) && l.rv == persisted.value)
    ensures l.deleting == old(l.deleting) && (!outcome.Live? ==> l.rv == old(l.rv))
    ensures forall i :: 0 <= i < |fx| && fx[i].StartTargetOf? ==>
              i == 1 && fx[0] == UpdateStatus(l.Status()) && persisted.Some? && InPhase(l.Status(), Active)
    ensures outcome.Live? ==>
              && l.workload.deadline.Some? && now < l.workload.deadline.value <= started + l.specTtl
              && a.Ours? && l.workload.deadline.value <= a.expiresAt
    ensures outcome.Halt? ==> fx == [] && l.Value() == old(l.Value())
  {
    fx := [];
    if a.NoAnswer? { return if l.workload.phase == Active && !ActiveAt(l.Value(), now) then Halt else Failed, fx; }
    if a.HeldByOther? { return Halt, fx; }
    if a.token <= 0 || a.holder != holder || a.expiresAt <= now { return Failed, fx; }
    var deadline := DeadlineFrom(started, l.specTtl, a.expiresAt);
    if now >= deadline { return Halt, fx; }
    var w := l.workload;
    if w.phase == Active && w.id.token != a.token { return Halt, fx; }
    w.phase := Active;
    w.id := Identity(l.specName, a.holder, a.token);
    w.deadline := Some(deadline);
    if listed.None? { return Failed, fx; }
    PruneCompleted(l, listed.value);
    l.currentHolder := a.holder;
    l.fencingToken := a.token;
    fx := [UpdateStatus(l.Status())];
    if persisted.None? { return Failed, fx; }
    l.rv := persisted.value;
    fx := fx + [StartTargetOf(w.target)];
    outcome := Live;
  }

  // ---------- Patching the target ----------

  /** A field of the target's spec, as an accessor finds it. */
  datatype Field<T> = Absent | Malformed | Holds(value: T)

  datatype TargetObject = TargetObject(uid: Uid, rv: nat, suspend: Field<bool>, replicas: Field<int>,
      fence: Option<nat>)

  datatype LeaseAction = LeaseAction(suspend: Option<bool>, replicas: Option<int>)

  /** The fields the action manages can be read. */
  predicate Readable(o: TargetObject, a: LeaseAction) {
    !(a.suspend.Some? && o.suspend.Malformed?) && !(a.replicas.Some? && o.replicas.Malformed?)
  }

  function Wanted(o: TargetObject, a: LeaseAction, fence: Option<nat>): TargetObject {
    o.(suspend := if a.suspend.Some? then Holds(a.suspend.value) else o.suspend,
       replicas := if a.replicas.Some? then Holds(a.replicas.value) else o.replicas,
       fence := if fence.Some? then fence else o.fence)
  }

  /** What others may do to the target between our read and our patch. */
  datatype Edit =
    | Change(suspend: Field<bool>, replicas: Field<int>, fence: Option<nat>)
    | Vanish
    | Appear(uid: Uid, suspend: Field<bool>, replicas: Field<int>)

  function Edited(t: Option<TargetObject>, es: seq<Edit>): Option<TargetObject> {
    if es == [] then t
    else
      var u := Edited(t, es[..|es| - 1]);
      match es[|es| - 1]
      case Change(suspend, replicas, fence) =>
        if u.Some? then Some(TargetObject(u.value.uid, u.value.rv + 1, suspend, replicas, fence)) else u
      case Vanish => None
      case Appear(uid, suspend, replicas) => if u.None? then Some(TargetObject(uid, 0, suspend, replicas, None)) else u
  }

  /** A version names one state of one incarnation, because UIDs are not reused. */
  lemma {:induction false} SameVersionUntouched(t: TargetObject, es: seq<Edit>)
    requires forall i :: 0 <= i < |es| && es[i].Appear? ==> es[i].uid != t.uid
    ensures var u := Edited(Some(t), es);
            u.Some? && u.value.uid == t.uid ==> u.value.rv >= t.rv && (u.value.rv == t.rv ==> u == Some(t))
  {
    if es != [] { SameVersionUntouched(t, es[..|es| - 1]); }
  }

  datatype PatchResult = Done | UidChanged | Unreadable | NoMutation | Conflict | ReadFailed

  class TargetServer {
    var target: Option<TargetObject>

    /**
     The optimistic-lock patch. ref: a target is configured; parses: its API version does; got: the
     read did not fail. With a fence it always leaves the fence on the target, writing even when the
     target is stopped already; a patch commits only on exactly the state it was prepared from.
     */
    method ApplyFencedAction(
      ref: bool, parses: bool, action: Option<LeaseAction>, got: bool, uid: Option<Uid>, fence: Option<nat>,
          between: seq<Edit>)
      returns (r: PatchResult)
      requires target.Some? ==> forall i :: 0 <= i < |between| && between[i].Appear? ==>
               between[i].uid != target.value.uid
      modifies this
      ensures !ref || action.None? ==> r.Done? && target == old(target)
      ensures ref && action.Some? && !(parses && got) ==> r.ReadFailed? && target == old(target)
      ensures ref && action.Some? && parses && got && old(target).None? ==> r.Done? && target == old(target)
      ensures ref && action.Some? && parses && got && old(target).Some? ==>
                var t, a := old(target).value, action.value;
                var want := Wanted(t, a, fence);
                if uid.Some? && uid.value != t.uid then r.UidChanged? && target == old(target)
                else if !Readable(t, a) then r.Unreadable? && target == old(target)
                else if a.suspend.None? && a.replicas.None? then r.NoMutation? && target == old(target)
                else if want == t then r.Done? && target == old(target)
                else if Edited(old(target), between) == old(target)
                    then r.Done? && target == Some(want.(rv := t.rv + 1))
                else r.Conflict? && target == Edited(old(target), between)
    {
      if !ref || action.None? { return Done; }
      if !parses || !got { return ReadFailed; }
      if target.None? { return Done; }
      var orig := target.value;
      if uid.Some? && uid.value != orig.uid { return UidChanged; }
      var obj := orig;
      var mutated, changed := false, false;
      var suspend, replicas := action.value.suspend, action.value.replicas;
      if suspend.Some? {
        mutated := true;
        if obj.suspend.Malformed? { return Unreadable; }
        if obj.suspend.Absent? || obj.suspend.value != suspend.value {
          obj := obj.(suspend := Holds(suspend.value));
          changed := true;
        }
      }
      if replicas.Some? {
        mutated := true;
        if obj.replicas.Malformed? { return Unreadable; }
        if obj.replicas.Absent? || obj.replicas.value != replicas.value {
          obj := obj.(replicas := Holds(replicas.value));
          changed := true;
        }
      }
      if !mutated { return NoMutation; }
      if fence.Some? && obj.fence != fence {
        obj := obj.(fence := fence);
        changed := true;
      }
      if !changed { return Done; }
      SameVersionUntouched(orig, between);
      target := Edited(target, between);
      if target.Some? && target.value.uid == orig.uid && target.value.rv == orig.rv {
        target := Some(obj.(rv := orig.rv + 1));
        return Done;
      }
      return Conflict;
    }
  }

  /** How active a target is: a CronJob unless suspended, anything else by its replicas, one by default. */
  function Activity(cronJob: bool, o: TargetObject): nat {
    if cronJob then if o.suspend == Holds(true) then 0 else 1
    else if o.replicas.Holds? then if o.replicas.value >= 0 then o.replicas.value else 0 else 1
  }

  /** The target as the epoch protocol sees it. */
  function Seen(cronJob: bool, o: TargetObject): Target { Target(o.uid, o.rv, Activity(cronJob, o), o.fence) }

  function StopAction(cronJob: bool): LeaseAction {
    if cronJob then LeaseAction(Some(true), None) else LeaseAction(None, Some(0))
  }

  /**
   The stop action is the protocol's stop: no activity, under the fence, and nothing is written
   exactly when both hold already.
   */
  lemma StopActionStops(cronJob: bool, o: TargetObject, fence: nat)
    requires Readable(o, StopAction(cronJob)) && (o.replicas.Holds? ==> o.replicas.value >= 0)
    ensures var want := Wanted(o, StopAction(cronJob), Some(fence));
            && Seen(cronJob, want) == Seen(cronJob, o).(activity := 0, fence := Some(fence))
            && (want == o <==> Activity(cronJob, o) == 0 && o.fence == Some(fence))
  {
  }

  // ---------- The Pod reconciler ----------

  datatype LeaseView = Gone | Replaced | Stored

  /** Late Pods: deleted when their lease is gone, replaced, deleted or stopping; permitted under an active one. */
  method ReconcilePod(l: BerthLease, view: LeaseView, p: PodView, now: Time, kin: bool, registered: Option<nat>,
      ungated: bool)
    returns (fx: seq<Effect>, err: bool)
    modifies l, l.workload
    ensures !p.ours ==> fx == [] && !err && l.Value() == old(l.Value())
    ensures p.ours && (!view.Stored? || old(l.deleting) || InPhase(old(l.Status()), Stopping)) ==>
            fx == [DeletePod(p.uid)] && !err && l.Value() == old(l.Value())
    ensures p.ours && view.Stored? && !old(l.deleting) && !InPhase(old(l.Status()), Stopping) ==>
            PermitDoes(old(l.Value()), l.Value(), p, now, kin, registered, ungated, fx, err)
    ensures RemoveGate(p.uid) in fx ==> view.Stored? && ActiveAt(old(l.Value()), now) && l.workload != null
                                        && PermittedPod(p.name, p.uid) in l.workload.pods
  {
    fx, err := [], false;
    if !p.ours { return; }
    if !view.Stored? || l.deleting || (l.workload != null && l.workload.phase == Stopping) {
      return [DeletePod(p.uid)], false;
    }
    if !ActiveAt(l.Value(), now) { return; }
    fx, err := PermitPod(l, p, now, kin, registered, ungated);
  }
}
