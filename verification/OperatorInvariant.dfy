/** What every reachable operator state keeps: the durable registry, the epochs and the stop fence. */
module OperatorInvariant {
  import opened Wrappers
  import opened Operator
  import opened OperatorFrames

  // ---------- Vocabulary ----------

  predicate LeaseIn(s: State, p: Phase) { s.lease.Some? && InPhase(s.lease.value.status, p) }

  /** A snapshot with the stored resource version is the stored lease. */
  predicate Current(s: State, l: Lease) {
    s.lease.Some? ==> l.rv <= s.lease.value.rv && (l.rv == s.lease.value.rv ==> l == s.lease.value)
  }

  /** This incarnation can never run again. */
  predicate Dead(s: State, uid: Uid) { uid in s.used && (uid !in s.pods || s.pods[uid].terminal) }

  predicate Running(s: State, uid: Uid) { uid in s.pods && !s.pods[uid].terminal && !s.pods[uid].gated }

  /** An admitted gate removal that would still be accepted. */
  predicate Landable(s: State, w: Write) {
    w.Ungate? && w.admitted && w.uid in s.pods && s.pods[w.uid].rv == w.rv && !s.pods[w.uid].terminal
  }

  /** No managed Pod runs, and none can start without a further permit. */
  ghost predicate Quiescent(s: State) {
    && (forall u :: u in s.pods ==> !Running(s, u))
    && (forall id :: id in s.writes ==> !Landable(s, s.writes[id]))
  }

  predicate Holds(s: State, uid: Uid) { s.lease.Some? && InRegistry(s.lease.value.status, uid) }

  /** The registry names only incarnations that have existed. */
  ghost predicate Enrolled(s: State, st: Status) {
    st.workload.Some? ==>
      forall i :: 0 <= i < |st.workload.value.pods| ==> st.workload.value.pods[i].uid in s.used
  }

  /** Every Pod that runs, or may start to, is in the durable registry, and the registry is bounded. */
  ghost predicate Registry(s: State) {
    && (forall u :: u in s.pods && Running(s, u) ==> Holds(s, u))
    && (forall id :: id in s.writes && Landable(s, s.writes[id]) ==> Holds(s, s.writes[id].uid))
    && (s.lease.Some? && s.lease.value.status.workload.Some? ==>
       |s.lease.value.status.workload.value.pods| <= MAX_PERMITTED)
    && (s.lease.Some? ==> Enrolled(s, s.lease.value.status))
  }

  // ---------- Bookkeeping ----------

  ghost predicate Ids(s: State) {
    && (forall id :: id in s.writes ==> id < s.next && id !in s.landed)
    && (forall id :: id in s.landed ==> id < s.next)
    && (s.pc.Activating? || s.pc.Closing? || s.pc.Patching? ==> s.pc.write < s.next)
  }

  ghost predicate Uids(s: State) {
    && s.pods.Keys <= s.used && (s.target.Some? ==> s.target.value.uid in s.used)
    && (forall id :: id in s.writes && s.writes[id].Ungate? ==>
          s.writes[id].uid in s.used && (s.writes[id].uid in s.pods ==> s.writes[id].rv <= s.pods[s.writes[id].uid].rv))
    && (forall p :: p in s.permits ==>
          var x := s.permits[p];
          (x.lease.Some? ==> Current(s, x.lease.value))
          && (x.uid.Some? ==> ReadBefore(s, x.uid.value, x.pod)))
  }

  /** pod is an earlier read of this incarnation. */
  predicate ReadBefore(s: State, uid: Uid, pod: Pod) { uid in s.used && (uid in s.pods ==> pod.rv <= s.pods[uid].rv) }

  // ---------- Status writes ----------

  /** What a status write that can still land would do to the status it replaces. */
  ghost predicate Justified(s: State, why: Why, cur: Status, st: Status) {
    match why
    case Same => st == cur
    case Register =>
      && InPhase(cur, Active) && st.workload.Some?
      && st == cur.(workload := Some(cur.workload.value.(pods := st.workload.value.pods)))
      && cur.workload.value.pods <= st.workload.value.pods && |st.workload.value.pods| <= MAX_PERMITTED
      && Enrolled(s, st)
    case Activate =>
      && cur.workload.Some? && !InPhase(cur, Stopping) && InPhase(st, Active)
      && |st.workload.value.pods| <= |cur.workload.value.pods| && Enrolled(s, st)
      && (forall i :: 0 <= i < |cur.workload.value.pods| ==>
            cur.workload.value.pods[i] in st.workload.value.pods || Dead(s, cur.workload.value.pods[i].uid))
    case Close => !InPhase(cur, Stopping) && st == Closed(cur, s.cfg.leaseName)
    case Clear => InPhase(cur, Stopping) && Quiescent(s) && st == Reset(cur)
    case Record =>
      && (cur.workload.Some? ==> cur.workload.value.phase == Fresh && cur.workload.value.pods == [])
      && exists uid :: st == Recorded(cur, uid)
  }

  ghost predicate WriteOk(s: State, w: Write) {
    s.lease.Some? ==>
      var l := s.lease.value;
      match w
      case PutStatus(rv, why, st) => rv <= l.rv && (rv == l.rv ==> Justified(s, why, l.status, st))
      case DropFinalizer(rv) => rv <= l.rv && (rv == l.rv ==> InPhase(l.status, Stopping) && Quiescent(s))
      case _ => true
  }

  ghost predicate Writes(s: State) { forall id :: id in s.writes ==> WriteOk(s, s.writes[id]) }

  // ---------- The reconciler's knowledge ----------

  /** Every pending activation is older than version rv. */
  ghost predicate NoActivationSince(s: State, rv: nat) {
    forall id :: id in s.writes && s.writes[id].PutStatus? && s.writes[id].why == Activate ==> s.writes[id].rv < rv
  }

  /** Every pending write that could end an epoch is older than version rv. */
  ghost predicate NoEndingSince(s: State, rv: nat) {
    forall id :: id in s.writes && Ends(s.writes[id]) ==> s.writes[id].rv < rv
  }

  predicate Ends(w: Write) {
    w.DropFinalizer? || (w.PutStatus? && (w.why == Close || w.why == Clear || w.why == Record))
  }

  predicate Named(s: State, st: Status) {
    var id := ReleaseIdentity(st, s.cfg.leaseName);
    Releasable(id) ==> id == s.recorded
  }

  /** The reconciler works from a Stopping lease: nothing can be active before it lets go. */
  ghost predicate StopBase(s: State, l: Lease) {
    && Current(s, l) && InPhase(l.status, Stopping) && !LeaseIn(s, Active)
    && NoActivationSince(s, l.rv) && Named(s, l.status)
  }

  ghost predicate OpenBase(s: State, l: Lease) {
    && Current(s, l) && InPhase(l.status, Active) && LeaseIn(s, Active) && NoEndingSince(s, l.rv)
  }

  /** A status write of the reconciler that has not been answered yet. */
  ghost predicate Pending(s: State, id: nat, why: Why, l: Lease) {
    && l.rv > 0
    && (id in s.writes ==>
          && s.writes[id] == PutStatus(l.rv - 1, why, l.status)
          && (s.lease.Some? && s.lease.value.rv == l.rv - 1 ==> s.lease.value.deleting == l.deleting))
  }

  ghost predicate PcFact(s: State, pc: Pc) {
    match pc
    case Idle => true
    case Read(l) => Current(s, l) && (InPhase(l.status, Stopping) ==> StopBase(s, l))
    case Asking(l, _) => Current(s, l) && !InPhase(l.status, Stopping) && l.status.workload.Some?
    case Pruning(l, next) =>
      && Current(s, l) && !InPhase(l.status, Stopping) && l.status.workload.Some?
      && next.phase == Active && next.pods == l.status.workload.value.pods
    case Activating(id, l) => InPhase(l.status, Active) && Pending(s, id, Activate, l)
        && (id in s.landed ==> OpenBase(s, l))
    case Activated(l) => OpenBase(s, l)
    case MustStop(l) => Current(s, l) && (InPhase(l.status, Stopping) ==> StopBase(s, l))
    case Closing(id, l) => InPhase(l.status, Stopping) && Pending(s, id, Close, l)
        && (id in s.landed ==> StopBase(s, l))
    case Stopped(l) => StopBase(s, l)
    case Patching(_, l) => StopBase(s, l)
    case ListingJobs(l) => StopBase(s, l)
    case ListingPods(l, _) => StopBase(s, l)
    case Drained(l) => StopBase(s, l) && Quiescent(s)
    case Finishing(l) => StopBase(s, l) && Quiescent(s)
  }

  ghost predicate Inv(s: State) {
    && Ids(s) && Uids(s) && Registry(s) && Writes(s) && PcFact(s, s.pc)
    && (s.lease.Some? ==> Named(s, s.lease.value.status))
  }

  // ---------- Steps that leave the lease alone ----------

  /** Pods only came closer to their end, or were created gated. */
  ghost predicate PodsAge(s: State, t: State) {
    && s.used <= t.used && t.pods.Keys <= t.used
    && (forall u :: u in t.pods && u in s.used ==>
          && u in s.pods && s.pods[u].rv <= t.pods[u].rv && (s.pods[u].terminal ==> t.pods[u].terminal)
          && (s.pods[u].gated ==> t.pods[u].gated || t.pods[u].terminal))
    && (forall u :: u in t.pods && u !in s.used ==> t.pods[u].gated)
  }

  /** Everything the reconciler and the writers know stays as it is. */
  ghost predicate Calm(s: State, t: State) {
    && t.lease == s.lease && t.cfg == s.cfg && t.recorded == s.recorded && t.landed == s.landed
    && t.writes == s.writes && t.next == s.next && t.permits == s.permits && t.pc == s.pc
    && PodsAge(s, t) && (t.target.Some? ==> t.target.value.uid in t.used)
  }

  lemma CalmQuiescent(s: State, t: State)
    requires Uids(s) && Calm(s, t) && Quiescent(s)
    ensures Quiescent(t)
  {
  }

  lemma CalmRegistry(s: State, t: State)
    requires Uids(s) && Registry(s) && Calm(s, t)
    ensures Registry(t)
  {
  }

  lemma CalmUids(s: State, t: State)
    requires Uids(s) && Calm(s, t)
    ensures Uids(t)
  {
  }

  /** A pending write stays justified while the lease stays and Pods age. */
  lemma WriteStays(s: State, t: State, w: Write)
    requires WriteOk(s, w) && t.lease == s.lease && t.cfg == s.cfg
    requires s.used <= t.used && forall u :: Dead(s, u) ==> Dead(t, u)
    requires Quiescent(s) ==> Quiescent(t)
    ensures WriteOk(t, w)
  {
  }

  lemma PcStays(s: State, t: State, pc: Pc)
    requires PcFact(s, pc) && t.lease == s.lease && t.cfg == s.cfg && t.recorded == s.recorded
    requires t.writes == s.writes && t.landed == s.landed
    requires Quiescent(s) ==> Quiescent(t)
    ensures PcFact(t, pc)
  {
  }

  lemma CalmKeeps(s: State, t: State)
    requires Inv(s) && Calm(s, t)
    ensures Inv(t)
  {
    CalmRegistry(s, t);
    CalmUids(s, t);
    CalmWrites(s, t);
  }

  lemma CalmWrites(s: State, t: State)
    requires Uids(s) && Writes(s) && PcFact(s, s.pc) && Calm(s, t)
    ensures Writes(t) && PcFact(t, t.pc)
  {
    if Quiescent(s) { CalmQuiescent(s, t); }
    PcStays(s, t, s.pc);
    assert forall u :: Dead(s, u) ==> Dead(t, u);
    forall id | id in t.writes ensures WriteOk(t, t.writes[id]) { WriteStays(s, t, s.writes[id]); }
  }

  lemma PodEventIsCalm(s: State, e: Event)
    requires s.pods.Keys <= s.used && (s.target.Some? ==> s.target.value.uid in s.used)
    ensures Calm(s, DoPodEvent(s, e))
  {
  }

  lemma WorldIsCalm(s: State, e: Event)
    requires s.pods.Keys <= s.used && (s.target.Some? ==> s.target.value.uid in s.used) && Worldly(e)
    ensures Calm(s, Do(s, e))
  {
    PodEventIsCalm(s, e);
  }

  // ---------- Issuing and dropping writes; moving the program counter ----------

  /** A write that the state of the reconciler does not forbid. */
  predicate MayIssue(s: State, w: Write) {
    && (w.PutStatus? && w.why == Activate ==> s.pc.Pruning?)
    && (Ends(w) ==> !s.pc.Activated? && !(s.pc.Activating? && s.pc.write in s.landed))
  }

  lemma IssueQuiescent(s: State, w: Write)
    requires Ids(s) && Quiescent(s) && !Landable(s, w)
    ensures Quiescent(Issue(s, w))
  {
  }

  lemma IssuePc(s: State, w: Write)
    requires Ids(s) && PcFact(s, s.pc) && MayIssue(s, w) && (Quiescent(s) ==> Quiescent(Issue(s, w)))
    ensures PcFact(Issue(s, w), s.pc)
  {
  }

  lemma IssueWrites(s: State, w: Write)
    requires Ids(s) && Writes(s) && WriteOk(s, w) && (Quiescent(s) ==> Quiescent(Issue(s, w)))
    ensures Writes(Issue(s, w))
  {
    var t := Issue(s, w);
    forall id | id in t.writes ensures WriteOk(t, t.writes[id]) {
      if id == s.next { WriteStays(s, t, w); } else { WriteStays(s, t, s.writes[id]); }
    }
  }

  lemma IssueRegistry(s: State, w: Write)
    requires Ids(s) && Registry(s) && !Landable(s, w)
    ensures Registry(Issue(s, w))
  {
    var t := Issue(s, w);
    forall u | u in t.pods && Running(t, u) ensures Holds(t, u) { assert Running(s, u); }
    forall id | id in t.writes && Landable(t, t.writes[id]) ensures Holds(t, t.writes[id].uid) {
      assert id in s.writes && Landable(s, s.writes[id]);
    }
  }

  lemma IssueKeeps(s: State, w: Write)
    requires Inv(s) && WriteOk(s, w) && MayIssue(s, w)
    requires w.Ungate? ==> !w.admitted && w.uid in s.used && (w.uid in s.pods ==> w.rv <= s.pods[w.uid].rv)
    ensures Inv(Issue(s, w))
  {
    assert !Landable(s, w);
    if Quiescent(s) { IssueQuiescent(s, w); }
    IssuePc(s, w);
    IssueWrites(s, w);
    IssueRegistry(s, w);
  }

  lemma DropQuiescent(s: State, id: nat)
    requires Quiescent(s)
    ensures Quiescent(s.(writes := s.writes - {id}))
  {
  }

  lemma DropPc(s: State, id: nat, t: State)
    requires Inv(s) && t == s.(writes := s.writes - {id}) && (Quiescent(s) ==> Quiescent(t))
    ensures PcFact(t, s.pc)
  {
  }

  lemma DropKeeps(s: State, id: nat)
    requires Inv(s)
    ensures Inv(s.(writes := s.writes - {id}))
  {
    var t := s.(writes := s.writes - {id});
    if Quiescent(s) { DropQuiescent(s, id); }
    DropPc(s, id, t);
    forall j | j in t.writes ensures WriteOk(t, t.writes[j]) { WriteStays(s, t, s.writes[j]); }
    forall u | u in t.pods && Running(t, u) ensures Holds(t, u) { assert Running(s, u); }
    forall j | j in t.writes && Landable(t, t.writes[j]) ensures Holds(t, t.writes[j].uid) {
      assert Landable(s, s.writes[j]);
    }
  }

  lemma PcKeeps(s: State, pc: Pc)
    requires Inv(s) && PcFact(s, pc)
    requires pc.Activating? || pc.Closing? || pc.Patching? ==> pc.write < s.next
    ensures Inv(s.(pc := pc))
  {
    var t := s.(pc := pc);
    assert Quiescent(s) ==> Quiescent(t) by {
      if Quiescent(s) {
        forall u | u in t.pods ensures !Running(t, u) { assert !Running(s, u); }
        forall j | j in t.writes ensures !Landable(t, t.writes[j]) { assert !Landable(s, s.writes[j]); }
      }
    }
    PcStays(s, t, pc);
    forall j | j in t.writes ensures WriteOk(t, t.writes[j]) { WriteStays(s, t, s.writes[j]); }
    forall u | u in t.pods && Running(t, u) ensures Holds(t, u) { assert Running(s, u); }
    forall j | j in t.writes && Landable(t, t.writes[j]) ensures Holds(t, t.writes[j].uid) {
      assert Landable(s, s.writes[j]);
    }
  }
}
