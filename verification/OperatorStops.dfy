/**
 When a reconcile must stop its epoch, read off the stored lease and the central answer alone, and what stopping
 then does: the write that closes the lease is issued in the next step, and once it lands nothing is permitted.
 */
module OperatorStops {
  import opened Wrappers
  import opened Operator
  import opened OperatorInvariant

  // ---------- When ----------

  /** The epoch is open and its deadline is still ahead. */
  predicate InForce(l: Lease, now: Time) {
    && l.status.workload.Some? && !l.deleting
    && var w := l.status.workload.value;
       w.phase == Active && w.id.token > 0 && w.deadline.Some? && now < w.deadline.value
  }

  predicate Opened(l: Lease) { l.status.workload.Some? && l.status.workload.value.phase == Active }

  predicate Closing(l: Lease) { l.status.workload.Some? && l.status.workload.value.phase == Stopping }

  lemma ActiveAtIs(l: Lease, now: Time)
    ensures ActiveAt(l, now) <==> InForce(l, now)
  {
  }

  /** What the first look decides: stop, ask the central service, or leave an unadmitted target alone. */
  lemma CheckDecides(s: State, invalid: bool, holderOk: bool, verified: bool)
    requires s.pc.Read?
    ensures var l, pc := s.pc.l, Do(s, RecCheck(invalid, holderOk, verified)).pc;
            var stop := || l.deleting || Closing(l) || invalid
                        || (Opened(l) && (!InForce(l, s.clock) || !holderOk || !verified));
            && (stop <==> pc == MustStop(l))
            && (!stop && verified && l.status.workload.Some? <==> pc == Asking(l, s.clock))
            && (!stop && !(verified && l.status.workload.Some?) <==> pc == Idle)
  {
  }

  /** What the answer decides for a lease that is not stopping. */
  lemma AnswerDecides(s: State, a: Answer)
    requires s.pc.Asking? && s.pc.l.status.workload.Some?
    ensures var l, w, now, pc := s.pc.l, s.pc.l.status.workload.value, s.clock, Do(s, RecAnswer(a)).pc;
            match a
            case HeldByOther => pc == MustStop(l)
            case NoAnswer => pc == if Opened(l) && !InForce(l, now) then MustStop(l) else Idle
            case Ours(token, holder, expiresAt) =>
              var end := if s.pc.started + s.cfg.ttl < expiresAt then s.pc.started + s.cfg.ttl else expiresAt;
              if token <= 0 || holder != s.cfg.holder || expiresAt <= now then pc == Idle
              else if now >= end - end % SECOND || (Opened(l) && w.id.token != token) then pc == MustStop(l)
              else
                && pc.Pruning? && pc.l == l && pc.next == Workload(w.target, Active, Some(end - end % SECOND),
                                                                   Identity(s.cfg.leaseName, holder, token), w.pods)
  {
  }

  /** The deadline of an epoch: the last whole second within the caller's own estimate and the reported expiry. */
  lemma DeadlineIs(started: Time, ttl: Time, expiresAt: Time)
    ensures var d := DeadlineFrom(started, ttl, expiresAt);
            && d % SECOND == 0 && d <= started + ttl && d <= expiresAt
            && (d + SECOND > started + ttl || d + SECOND > expiresAt)
  {
  }

  // ---------- What then ----------

  /** The lease as a stop leaves it: closed to permits, everything else of the epoch kept for the release. */
  function ClosedStatus(s: Status, leaseName: string): Status {
    Status(Some(if s.workload.Some?
                then
                  var w := s.workload.value;
                  Workload(w.target, Stopping, w.deadline, w.id, w.pods)
                else Workload(None, Stopping, None, Identity(leaseName, s.currentHolder, s.fencingToken), [])),
           s.currentHolder, s.fencingToken)
  }

  /** A reconcile that must stop closes the lease at the version it read, unless it is closed already. */
  lemma StopCloses(s: State)
    requires s.pc.MustStop?
    ensures var l, t := s.pc.l, Do(s, RecStop);
            if Closing(l) then t == s.(pc := Stopped(l))
            else
              var st := ClosedStatus(l.status, s.cfg.leaseName);
              t == s.(writes := s.writes[s.next := PutStatus(l.rv, Close, st)], next := s.next + 1,
                      pc := Pc.Closing(s.next, Lease(l.rv + 1, l.deleting, st)))
  {
  }

  /** Such a write can still land exactly while nobody else has written the lease. */
  lemma ClosingLands(s: State, l: Lease)
    requires Ids(s) && s.pc == MustStop(l) && !Closing(l)
    ensures var t := Do(Do(s, RecStop), Land(s.next));
            if s.lease.Some? && s.lease.value.rv == l.rv then
              && t.lease == Some(Lease(l.rv + 1, s.lease.value.deleting, ClosedStatus(l.status, s.cfg.leaseName)))
              && s.next in t.landed && (forall now: Time :: !ActiveAt(t.lease.value, now))
            else t.lease == s.lease && s.next !in t.landed
  {
    StopCloses(s);
    var t := Do(s, RecStop);
    assert t.writes - {s.next} == s.writes - {s.next};
  }

  /**
   A lost lease ends the epoch: in every state of the invariant in which the central service answers that
   somebody else holds it, the next two steps of the reconcile issue the closing write for the version read.
   */
  lemma LostLeaseStops(s: State)
    requires Inv(s) && s.pc.Asking?
    ensures var l, t := s.pc.l, Do(Do(s, RecAnswer(HeldByOther)), RecStop);
            && s.next in t.writes && t.writes[s.next] == PutStatus(l.rv, Close, ClosedStatus(l.status, s.cfg.leaseName))
            && t.pc == Pc.Closing(s.next, Lease(l.rv + 1, l.deleting, ClosedStatus(l.status, s.cfg.leaseName)))
            && t.target == s.target && t.pods == s.pods && t.lease == s.lease && t.sent == s.sent
  {
    AnswerDecides(s, HeldByOther);
    StopCloses(Do(s, RecAnswer(HeldByOther)));
  }

  /** So does an Active lease past its deadline, under another holder, without a verified target or with a bad spec. */
  lemma SpentEpochStops(s: State, invalid: bool, holderOk: bool, verified: bool)
    requires s.pc.Read? && Opened(s.pc.l)
    requires !InForce(s.pc.l, s.clock) || !holderOk || !verified || invalid
    ensures var l, t := s.pc.l, Do(Do(s, RecCheck(invalid, holderOk, verified)), RecStop);
            s.next in t.writes && t.writes[s.next] == PutStatus(l.rv, Close, ClosedStatus(l.status, s.cfg.leaseName))
  {
    CheckDecides(s, invalid, holderOk, verified);
    StopCloses(Do(s, RecCheck(invalid, holderOk, verified)));
  }
}
