/** Which parts of the operator state each kind of step can touch. */
module OperatorFrames {
  import opened Wrappers
  import opened Operator

  predicate IsPatch(w: Write) { w.StopTarget? || w.StartTarget? }

  /** Steps of the reconcilers, which act on the world only through the writes they issue. */
  predicate Internal(e: Event) {
    !OnPods(e) && !OnTarget(e) && !OnLease(e) && !e.Tick? && !e.AddJob? && !e.RemoveJob? && !e.Admit? && !e.Land?
  }

  ghost predicate Outside(s: State, t: State) {
    && t.lease == s.lease && t.recorded == s.recorded && t.pods == s.pods && t.used == s.used && t.target == s.target
    && t.clock == s.clock && t.landed == s.landed && t.cfg == s.cfg
  }

  /** A write present afterwards was there before, or is one this event can issue. */
  ghost predicate Issues(s: State, e: Event, t: State) {
    forall id :: id in t.writes ==> (id in s.writes && t.writes[id] == s.writes[id]) || MayIssueIn(s, e, t.writes[id])
  }

  predicate MayIssueIn(s: State, e: Event, w: Write) {
    match w
    case PutStatus(_, _, _) => true
    case DropFinalizer(_) => e.RecFinish?
    case Ungate(_, _, admitted) => !admitted && Permitting(e)
    case StopTarget(_, _, _) => e.RecCheck? || e.RecStopTarget?
    case StartTarget(_, _, _) => e.RecStart? && s.pc.Activated?
  }

  lemma OpeningIssues(s: State, e: Event)
    requires Opening(e)
    ensures Issues(s, e, DoOpening(s, e))
  {
  }

  lemma OpeningFrame(s: State, e: Event)
    requires Opening(e)
    ensures var t := DoOpening(s, e); Outside(s, t) && Issues(s, e, t) && t.sent == s.sent
  {
    OpeningIssues(s, e);
  }

  lemma StoppingFrame(s: State, e: Event)
    requires !Opening(e) && !Permitting(e)
    ensures var t := DoStopping(s, e); Outside(s, t) && Issues(s, e, t) && (!e.RecRelease? ==> t.sent == s.sent)
  {
  }

  lemma PermitFrame(s: State, e: Event)
    requires Permitting(e)
    ensures var t := DoPermit(s, e); Outside(s, t) && Issues(s, e, t) && t.sent == s.sent && t.pc == s.pc
  {
  }

  lemma InternalFrame(s: State, e: Event)
    requires Internal(e)
    ensures var t := Do(s, e); Outside(s, t) && Issues(s, e, t) && (!e.RecRelease? ==> t.sent == s.sent)
  {
    if Permitting(e) { PermitFrame(s, e); }
    else if Opening(e) { OpeningFrame(s, e); }
    else if !e.Lose? && !e.RecAbort? { StoppingFrame(s, e); }
  }

  predicate Worldly(e: Event) { OnPods(e) || OnTarget(e) || e.Tick? || e.AddJob? || e.RemoveJob? }

  lemma WorldFrame(s: State, e: Event)
    requires Worldly(e)
    ensures var t := Do(s, e);
            && t.lease == s.lease && t.writes == s.writes && t.landed == s.landed && t.next == s.next
            && t.permits == s.permits
            && t.pc == s.pc && t.recorded == s.recorded && t.sent == s.sent && t.cfg == s.cfg && s.used <= t.used
  {
  }

  lemma LeaseFrame(s: State, e: Event)
    requires OnLease(e)
    ensures var t := Do(s, e);
            && t.pods == s.pods && t.used == s.used && t.target == s.target && t.sent == s.sent && t.pc == s.pc
            && t.recorded == s.recorded
            && (forall id :: id in t.writes ==>
               (id in s.writes && t.writes[id] == s.writes[id]) || t.writes[id].PutStatus?)
            && (t.lease == s.lease
                || (s.lease.Some? && t.lease.Some? && t.lease.value.rv == s.lease.value.rv + 1
                   && t.lease.value.status == s.lease.value.status))
  {
  }

  lemma AdmitFrame(s: State, id: nat)
    ensures var t := Do(s, Admit(id));
            && t.sent == s.sent && t.pc == s.pc && t.permits == s.permits && t.next == s.next
            && (t.writes == s.writes
                || (id in s.writes && s.writes[id].Ungate? && s.lease.Some? && ActiveAt(s.lease.value, s.clock)
                    && t.writes == s.writes[id := s.writes[id].(admitted := true)]))
            && Outside(s, t)
  {
  }

  lemma LandFrame(s: State, id: nat)
    ensures var t := Do(s, Land(id));
            && t.sent == s.sent && t.pc == s.pc && t.permits == s.permits && t.next == s.next && t.used == s.used
            && (t.writes == s.writes || t.writes == s.writes - {id})
  {
  }
}
