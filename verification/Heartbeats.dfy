/**
 What a sidecar's heartbeat does in the composed system: a renewal that is answered keeps the gate open,
 a call that fails is ridden out until the deadline, and everything else closes the gate at once.
 */
module Heartbeats {
  import opened Wrappers
  import opened KeyNames
  import opened LeaseRecord
  import opened LeaseRuns
  import opened LeaseInvariant
  import opened LeaseRelease
  import opened LeaseAnswers
  import opened Renewers
  import opened Exclusion

  // ---------- The call a heartbeat makes ----------

  /** The call lasts one heartbeat at most, and never past a confirmed deadline. */
  predicate Bounded(n: Node, now: Time, deadline: Time) {
    && deadline <= now + n.car.heartbeat
    && (n.car.held && n.car.expiresAt.Some? ==> deadline <= n.car.expiresAt.value)
    && (deadline == now + n.car.heartbeat || (n.car.held && n.car.expiresAt == Some(deadline)))
  }

  /**
   Past its deadline a holding sidecar closes; otherwise it renews under its token if it holds, and
   else acquires, gated.
   */
  lemma TickDoes(w: World, i: nat, id: nat)
    requires i < |w.nodes| && w.nodes[i].live && w.nodes[i].wait.None? && id !in w.server.calls
    ensures var n, now := w.nodes[i], w.server.clock;
            var v := Go(w, Tick(i, id));
            && |v.nodes| == |w.nodes| && v == w.(nodes := w.nodes[i := v.nodes[i]], server := v.server)
            && if n.car.held && n.car.expiresAt.Some? && now >= n.car.expiresAt.value then
                 v.server == w.server && v.nodes[i] == n.(car := n.car.(held := false, marker := None))
               else
                 && v.nodes[i].wait.Some? && var p := v.nodes[i].wait.value;
                 && p.id == id && p.started == now && p.renewing == n.car.held && Bounded(n, now, p.deadline)
                 && v.nodes[i] ==
                    n.(wait := Some(p), car := n.car.(marker := if n.car.held then n.car.marker else None))
                 && v.server == Do(w.server, Start(id, if n.car.held
                                                       then Renew(w.key, n.car.holder, n.car.token, WireTtl(n.car.ttl))
                                                       else Acquire(w.key, n.car.holder, WireTtl(n.car.ttl))))
  {
  }

  // ---------- How a heartbeat ends ----------

  /** A refusal, a conflict, or a failure that cannot be ridden out: the gate is shut and the lease given up. */
  lemma LossCloses(w: World, i: nat, m: Move)
    requires i < |w.nodes| && w.nodes[i].live && w.nodes[i].wait.Some? && w.nodes[i].wait.value.renewing
    requires var n, now := w.nodes[i], w.server.clock;
             var p := n.wait.value;
             || m == Fail(i, true)
             || (m == Fail(i, false) && (n.car.expiresAt.None? || now >= n.car.expiresAt.value))
             || (m.Deliver? && m.i == i && p.id in w.server.calls && w.server.calls[p.id].phase.Returned?
                 && w.server.calls[p.id].phase.out.Refused?)
             || (m.Deliver? && m.i == i && p.id in w.server.calls && w.server.calls[p.id].phase.Returned?
                 && w.server.calls[p.id].phase.out.Granted?
                 && (m.done || now >= p.deadline || now >= p.started + n.car.ttl
                     || (n.car.expiresAt.Some? && now >= n.car.expiresAt.value)))
    ensures var v := Go(w, m);
            |v.nodes| == |w.nodes| && !Open(v.nodes[i]) && !v.nodes[i].car.held && v.nodes[i].wait.None?
  {
  }

  /** A failed call before the deadline changes nothing: the workload keeps running. */
  lemma FailureIsRiddenOut(w: World, i: nat)
    requires i < |w.nodes| && Open(w.nodes[i]) && w.nodes[i].wait.Some? && w.nodes[i].wait.value.renewing
    requires w.nodes[i].car.expiresAt.Some? && w.server.clock < w.nodes[i].car.expiresAt.value
    ensures var v := Go(w, Fail(i, false));
            |v.nodes| == |w.nodes| && Open(v.nodes[i]) && v.nodes[i].car == w.nodes[i].car && v.nodes[i].wait.None?
  {
  }

  /** At the deadline the loop itself closes the gate. */
  lemma DeadlineCloses(w: World, i: nat)
    requires i < |w.nodes| && Open(w.nodes[i]) && w.nodes[i].wait.None? && w.nodes[i].car.held
    requires w.nodes[i].car.expiresAt.Some? && w.server.clock >= w.nodes[i].car.expiresAt.value
    ensures var v := Go(w, Timer(i)); |v.nodes| == |w.nodes| && !Open(v.nodes[i]) && !v.nodes[i].car.held
  {
  }

  /** A waiting sidecar whose Acquire fails, is refused or comes too late stays gated. */
  lemma NoGrantStaysShut(w: World, i: nat, m: Move)
    requires i < |w.nodes| && w.nodes[i].live && w.nodes[i].wait.Some? && !w.nodes[i].wait.value.renewing
    requires w.nodes[i].car.marker.None?
    requires var n, now := w.nodes[i], w.server.clock;
             var p := n.wait.value;
             || (m.Fail? && m.i == i)
             || (m.Deliver? && m.i == i && p.id in w.server.calls && w.server.calls[p.id].phase.Returned?
                 && (w.server.calls[p.id].phase.out.Granted? ==>
                       m.done || now >= p.deadline || now >= p.started + n.car.ttl))
    ensures var v := Go(w, m);
            |v.nodes| == |w.nodes| && !Open(v.nodes[i]) && v.nodes[i].car == w.nodes[i].car && v.nodes[i].wait.None?
  {
  }

  /** Restarted, a sidecar resumes a stored positive token of its own but no lifetime, and is gated. */
  lemma RestartIsGated(w: World, i: nat, stored: Option<int>)
    requires i < |w.nodes| && !w.nodes[i].live && !w.nodes[i].ended
    ensures var v := Go(w, Restart(i, stored));
            && |v.nodes| == |w.nodes| && v.nodes[i].live && !Open(v.nodes[i]) && v.nodes[i].car.expiresAt.None?
            && (v.nodes[i].car.held <==> stored.Some? && stored.value > 0)
            && v.nodes[i].car.token == if v.nodes[i].car.held then stored.value else 0
  {
  }

  // ---------- An undisturbed renewal ----------

  /** The node while its renewal is under way. */
  function Renewing(n: Node, id: nat, now: Time): Node {
    n.(wait := Some(Pending(id, now, n.car.RpcDeadline(now), true)))
  }

  lemma StartsRenewal(w: World, i: nat, id: nat, req: Request)
    requires i < |w.nodes| && w.nodes[i].live && w.nodes[i].wait.None? && w.nodes[i].car.held && id !in w.server.calls
    requires w.nodes[i].car.expiresAt.Some? && w.server.clock < w.nodes[i].car.expiresAt.value
    requires WireTtl(w.nodes[i].car.ttl) == w.nodes[i].car.ttl
    requires req == Renew(w.key, w.nodes[i].car.holder, w.nodes[i].car.token, w.nodes[i].car.ttl)
    ensures Go(w, Tick(i, id)) ==
            w.(nodes := w.nodes[i := Renewing(w.nodes[i], id, w.server.clock)], server := Do(w.server, Start(id, req)))
  {
  }

  lemma ServesRenewal(w: World, i: nat, id: nat, req: Request) returns (u: World)
    requires i < |w.nodes| && w.nodes[i].live && w.nodes[i].wait.None? && w.nodes[i].car.held && id !in w.server.calls
    requires w.nodes[i].car.expiresAt.Some? && w.server.clock < w.nodes[i].car.expiresAt.value
    requires WireTtl(w.nodes[i].car.ttl) == w.nodes[i].car.ttl
    requires req == Renew(w.key, w.nodes[i].car.holder, w.nodes[i].car.token, w.nodes[i].car.ttl)
    ensures u == w.(nodes := w.nodes[i := Renewing(w.nodes[i], id, w.server.clock)],
                    server := Run(w.server, Undisturbed(id, req)))
    ensures Runs(w, Acquisition(i, id)) == Go(u, Deliver(i, false))
  {
    RunsAcquisition(w, i, id);
    RunOfFour(w.server, Undisturbed(id, req));
    StartsRenewal(w, i, id, req);
    var a := Go(w, Tick(i, id));
    Serves(a, Get(id));
    var b := Go(a, Serve(Get(id)));
    Serves(b, Choose(id));
    var c := Go(b, Serve(Choose(id)));
    Serves(c, Put(id));
    u := Go(c, Serve(Put(id)));
  }

  lemma HearsRenewal(u: World, i: nat, id: nat, now: Time, token: int)
    requires i < |u.nodes| && u.nodes[i].live && u.nodes[i].car.marker.Some? && id in u.server.calls
             && u.server.clock == now
    requires u.nodes[i].wait.Some? && u.nodes[i].wait.value.renewing && u.nodes[i].wait.value.id == id
    requires u.nodes[i].wait.value.started == now < u.nodes[i].wait.value.deadline
    requires u.nodes[i].car.Configured() && u.nodes[i].car.expiresAt.Some? && now < u.nodes[i].car.expiresAt.value
    requires u.server.calls[id].phase.Returned? && u.server.calls[id].phase.out.Granted?
             && u.server.calls[id].phase.out.token == token
    ensures var v := Go(u, Deliver(i, false));
            && v == u.(nodes := v.nodes) && |v.nodes| == |u.nodes| && Open(v.nodes[i]) && v.nodes[i].wait.None?
            && v.nodes[i].car ==
               u.nodes[i].car.(token := token, expiresAt := Some(now + u.nodes[i].car.ttl), marker := Some(now))
  {
  }

  /** What an open gate's node needs for its renewal to be granted. */
  lemma ReadyToRenew(w: World, i: nat, id: nat)
    requires WorldInv(w) && i < |w.nodes| && Open(w.nodes[i]) && ValidKey(w.key) && ValidHolder(w.nodes[i].car.holder)
    requires w.nodes[i].car.expiresAt.Some? && w.server.clock <= Floor(w.server.kind, w.nodes[i].car.expiresAt.value)
    requires id !in w.server.calls
    ensures var car := w.nodes[i].car;
            && car.held && car.Configured() && WireTtl(car.ttl) == car.ttl
            && HeldAs(w.server, w.key, car.holder, car.token)
            && Extended(w.server, Run(w.server, Undisturbed(id, Renew(w.key, car.holder, car.token, car.ttl))),
                        id, w.key, car.ttl)
  {
    var car := w.nodes[i].car;
    assert NodeOk(w, i);
    TokenStored(w.server, w.key);
    HolderRenews(w.server, id, w.key, car.holder, car.token, car.ttl);
  }

  lemma TokenStored(s: State, k: Key)
    requires Inv(s) && k in s.store
    ensures s.store[k].token >= 1
  {
    assert Lookup(s.store, k) == Latest(s.log, k);
    TokensInRange(s.kind, s.log, k);
  }

  /** The gate of node i can be renewed now. */
  predicate Renewable(v: World, i: nat, id: nat) {
    && i < |v.nodes| && Open(v.nodes[i]) && v.nodes[i].wait.None? && id !in v.server.calls
    && v.nodes[i].car.expiresAt.Some? && v.server.clock < v.nodes[i].car.expiresAt.value
    && v.server.clock <= Floor(v.server.kind, v.nodes[i].car.expiresAt.value)
    && ValidKey(v.key) && ValidHolder(v.nodes[i].car.holder)
  }

  /** From v to u the gate of node i was renewed. */
  predicate Renewed(v: World, u: World, i: nat)
    requires i < |v.nodes|
  {
    && |u.nodes| == |v.nodes| && Open(u.nodes[i]) && u.nodes[i].wait.None?
    && u.nodes[i].car.expiresAt == Some(v.server.clock + v.nodes[i].car.ttl)
    && u.nodes[i].car.token == v.nodes[i].car.token
    && HeldAs(u.server, v.key, v.nodes[i].car.holder, u.nodes[i].car.token)
    && u.server.store[v.key].ExpiresAt() == Floor(v.server.kind, v.server.clock) + v.nodes[i].car.ttl
  }

  lemma Renews(v: World, i: nat, id: nat, req: Request)
    requires Renewable(v, i, id) && v.nodes[i].car.held && v.nodes[i].car.Configured()
    requires WireTtl(v.nodes[i].car.ttl) == v.nodes[i].car.ttl
    requires req == Renew(v.key, v.nodes[i].car.holder, v.nodes[i].car.token, v.nodes[i].car.ttl)
    requires HeldAs(v.server, v.key, v.nodes[i].car.holder, v.nodes[i].car.token)
    requires Extended(v.server, Run(v.server, Undisturbed(id, req)), id, v.key, v.nodes[i].car.ttl)
    ensures Renewed(v, Runs(v, Acquisition(i, id)), i)
  {
    var u := ServesRenewal(v, i, id, req);
    HearsRenewal(u, i, id, v.server.clock, v.nodes[i].car.token);
  }

  /**
   In every reachable world, an open gate whose renewal nobody disturbs stays open, under the same token,
   which the store has too, with a deadline one time to live from now.
   */
  lemma RenewalKeepsOpen(w: World, ms: seq<Move>, i: nat, id: nat)
    requires Initial(w) && Renewable(Runs(w, ms), i, id)
    ensures Renewed(Runs(w, ms), Runs(Runs(w, ms), Acquisition(i, id)), i)
  {
    var v := Runs(w, ms);
    RunsKeep(w, ms);
    ReadyToRenew(v, i, id);
    Renews(v, i, id, Renew(v.key, v.nodes[i].car.holder, v.nodes[i].car.token, v.nodes[i].car.ttl));
  }
}
