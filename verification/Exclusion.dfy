/**
 Any number of sidecars on one key, composed with the server runs: requests may be
 lost, answers may be lost or late, abandoned calls keep running on the server,
 sidecars crash and restart, other clients and garbage collectors interfere.
 One clock is shared and does not go back, and it does not pass a live sidecar's
 deadline while its gate is open, because the loop serves the deadline when due.
 */
module Exclusion {
  import opened Wrappers
  import opened KeyNames
  import opened LeaseRecord
  import opened LeaseRuns
  import opened LeaseInvariant
  import opened Renewers

  /** The lease call a sidecar is waiting for. */
  datatype Pending = Pending(id: nat, started: Time, deadline: Time, renewing: bool)

  /** ended: entered shutdown. confirmed: the expiry the server reported with the last accepted grant. */
  datatype Node = Node(car: Sidecar, wait: Option<Pending>, live: bool, ended: bool, confirmed: Time)

  datatype World = World(server: State, nodes: seq<Node>, key: Key)

  datatype Move =
    | Serve(e: Event)                                // a server micro-step, another client's call, or time
    | Tick(i: nat, id: nat)                          // heartbeat: start a Renew or an Acquire
    | Deliver(i: nat, done: bool)                    // the answer of the pending call arrives
    | Fail(i: nat, conflict: bool)                   // the pending call ends without the server's answer
    | Timer(i: nat)                                  // the expiry timer fires
    | Crash(i: nat)
    | Restart(i: nat, stored: Option<int>)
    | Shutdown(i: nat, id: nat, release: bool)

  predicate Open(n: Node) { n.live && n.car.marker.Some? }

  /**
   Who may call what: a sidecar's holder name is used only with its own time to live, and
   released only after its shutdown. Every other name is free.
   */
  ghost predicate Honest(w: World, req: Request) {
    forall i :: 0 <= i < |w.nodes| && req.key == w.key ==>
      var n := w.nodes[i];
      && ((req.Acquire? || req.Renew?) && req.holder == n.car.holder ==> req.ttl == n.car.ttl)
      && (req.Release? && req.holder == n.car.holder ==> n.ended)
  }

  ghost predicate Allowed(w: World, e: Event) {
    match e
    case Start(_, req) => Honest(w, req)
    case Advance(dt) =>
      forall i :: 0 <= i < |w.nodes| && Open(w.nodes[i]) ==>
        w.nodes[i].car.expiresAt.Some? && w.server.clock + dt <= w.nodes[i].car.expiresAt.value
    case _ => true
  }

  function Heard(out: Outcome): Rpc {
    match out
    case Granted(_, token, _, _) => Reply(true, token)
    case Refused(_, _, _, _) => Reply(false, 0)
    case _ => Error
  }

  function SetNode(w: World, i: nat, n: Node): World
    requires i < |w.nodes|
  {
    w.(nodes := w.nodes[i := n])
  }

  function LeaseCall(w: World, n: Node): Request {
    if n.car.held then Renew(w.key, n.car.holder, n.car.token, WireTtl(n.car.ttl))
    else Acquire(w.key, n.car.holder, WireTtl(n.car.ttl))
  }

  function DoTick(w: World, i: nat, id: nat): World {
    if i >= |w.nodes| || !w.nodes[i].live || w.nodes[i].wait.Some? || id in w.server.calls then w
    else
      var n := w.nodes[i];
      var now := w.server.clock;
      if n.car.held && n.car.PastDeadline(now) then SetNode(w, i, n.(car := n.car.Lose()))
      else
        var car := if n.car.held then n.car else n.car.(marker := None);
        SetNode(w, i, n.(car := car, wait := Some(Pending(id, now, car.RpcDeadline(now), car.held))))
        .(server := DoStart(w.server, id, LeaseCall(w, n)))
  }

  function Finish(n: Node, rpc: Rpc, done: bool, now: Time, expiry: Time): Node
    requires n.wait.Some?
  {
    var p := n.wait.value;
    var car := if p.renewing then n.car.AfterRenew(p.started, rpc, done, now)
               else n.car.AfterReacquire(p.started, rpc, done, now);
    n.(car := car, wait := None, confirmed := if rpc.Reply? && rpc.acquired then expiry else n.confirmed)
  }

  function DoDeliver(w: World, i: nat, done: bool): World {
    if i >= |w.nodes| || !w.nodes[i].live || w.nodes[i].wait.None? then w
    else
      var n := w.nodes[i];
      var p := n.wait.value;
      if p.id !in w.server.calls || !w.server.calls[p.id].phase.Returned? then w
      else
        var out := w.server.calls[p.id].phase.out;
        var now := w.server.clock;
        SetNode(w, i, Finish(n, Heard(out), done || now >= p.deadline, now, if out.Granted? then out.expiresAt else 0))
  }

  function DoFail(w: World, i: nat, conflict: bool): World {
    if i >= |w.nodes| || !w.nodes[i].live || w.nodes[i].wait.None? then w
    else SetNode(w, i, Finish(w.nodes[i], if conflict then Conflict else Error, true, w.server.clock, 0))
  }

  function DoTimer(w: World, i: nat): World {
    if i < |w.nodes| && w.nodes[i].live && w.nodes[i].wait.None? && w.nodes[i].car.held
       && w.nodes[i].car.PastDeadline(w.server.clock)
    then SetNode(w, i, w.nodes[i].(car := w.nodes[i].car.Lose())) else w
  }

  function DoRestart(w: World, i: nat, stored: Option<int>): World {
    if i >= |w.nodes| || w.nodes[i].live || w.nodes[i].ended then w
    else
      var n := w.nodes[i];
      SetNode(w, i, n.(car := n.car.Handoff(Some(n.car.holder), stored), wait := None, live := true))
  }

  function DoShutdown(w: World, i: nat, id: nat, release: bool): World {
    if i >= |w.nodes| || !w.nodes[i].live || id in w.server.calls then w
    else
      var n := w.nodes[i];
      var v := SetNode(w, i, n.(live := false, ended := true, wait := None));
      if release && n.car.held
      then v.(server := DoStart(w.server, id, Release(w.key, n.car.holder, n.car.token)))
      else v
  }

  ghost function Go(w: World, m: Move): World {
    match m
    case Serve(e) => if Allowed(w, e) then w.(server := Do(w.server, e)) else w
    case Tick(i, id) => DoTick(w, i, id)
    case Deliver(i, done) => DoDeliver(w, i, done)
    case Fail(i, conflict) => DoFail(w, i, conflict)
    case Timer(i) => DoTimer(w, i)
    case Crash(i) =>
      if i < |w.nodes| && w.nodes[i].live then SetNode(w, i, w.nodes[i].(live := false, wait := None)) else w
    case Restart(i, stored) => DoRestart(w, i, stored)
    case Shutdown(i, id, release) => DoShutdown(w, i, id, release)
  }

  ghost function Runs(w: World, ms: seq<Move>): World {
    if ms == [] then w else Go(Runs(w, ms[..|ms| - 1]), ms[|ms| - 1])
  }

  /** Sidecars with distinct holders and whole-second times to live, all gated, on an empty store. */
  ghost predicate Initial(w: World) {
    && w.server == Init(w.server.clock, w.server.kind) && Roster(w)
    && forall i :: 0 <= i < |w.nodes| ==> w.nodes[i].wait.None? && w.nodes[i].car.marker.None? && !w.nodes[i].ended
  }

  ghost predicate Roster(w: World) {
    && (forall i :: 0 <= i < |w.nodes| ==> w.nodes[i].car.Configured() && w.nodes[i].car.ttl % SECOND == 0)
    && (forall i, j :: 0 <= i < j < |w.nodes| ==> w.nodes[i].car.holder != w.nodes[j].car.holder)
  }

  // ---------- The invariant ----------

  /** Until instant d the stored record is h's under token t and lasts at least to d. */
  predicate Covered(s: State, k: Key, h: string, t: int, d: Time) {
    s.clock <= d ==> k in s.store && s.store[k].holder == h && s.store[k].token == t && s.store[k].ExpiresAt() >= d
  }

  ghost predicate CallsHonest(w: World) {
    forall id :: id in w.server.calls ==> Honest(w, w.server.calls[id].req)
  }

  ghost predicate TtlKnown(w: World) {
    w.key in w.server.store ==>
      forall i :: 0 <= i < |w.nodes| && w.server.store[w.key].holder == w.nodes[i].car.holder ==>
        w.server.store[w.key].ttl == w.nodes[i].car.ttl
  }

  /** The marker was written during the call that set the deadline, and the server's expiry is no earlier. */
  predicate MarkerOk(n: Node, clock: Time) {
    n.car.marker.Some? ==>
      && n.car.expiresAt.Some?
      && var m, d := n.car.marker.value, n.car.expiresAt.value;
         && d - n.car.ttl <= m < d - n.car.ttl + n.car.heartbeat && m <= clock
         && n.confirmed >= d
  }

  predicate OpenOk(s: State, k: Key, n: Node) {
    Open(n) ==> n.car.held && n.car.expiresAt.Some? && s.clock <= n.car.expiresAt.value
                && Covered(s, k, n.car.holder, n.car.token, Floor(s.kind, n.car.expiresAt.value))
  }

  /** The call belongs to this sidecar: its lease, its name, its time to live. */
  predicate OwnCall(k: Key, n: Node, req: Request) {
    req.key == k && (req.Acquire? || req.Renew?) && req.holder == n.car.holder && req.ttl == n.car.ttl
  }

  predicate WaitOk(s: State, k: Key, n: Node) {
    n.wait.Some? ==>
      var p := n.wait.value;
      && n.live && (p.renewing <==> n.car.held)
      && p.started <= s.clock && p.deadline <= p.started + n.car.heartbeat
      && p.id in s.calls && s.calls[p.id].startedAt == p.started && OwnCall(k, n, s.calls[p.id].req)
      && GrantSafe(s, k, n)
  }

  predicate NodeOk(w: World, i: nat)
    requires i < |w.nodes|
  {
    var n := w.nodes[i];
    MarkerOk(n, w.server.clock) && OpenOk(w.server, w.key, n) && WaitOk(w.server, w.key, n) && (n.ended ==> !n.live)
  }

  ghost predicate WorldInv(w: World) {
    && Inv(w.server) && Roster(w) && CallsHonest(w) && TtlKnown(w)
    && forall i :: 0 <= i < |w.nodes| ==> NodeOk(w, i)
  }

  // ---------- Server steps ----------

  /** What the request behind a commit says about it, as far as a record of h is concerned. */
  predicate CommitHonest(req: Request, prev: Record, c: Commit, h: string) {
    match req
    case Acquire(_, x, ttl) => c.rec.holder == x != "" && c.rec.ttl == ttl && (x == h ==> ttl == prev.ttl)
    case Renew(_, x, _, ttl) => c.rec.holder == x != "" && c.rec.ttl == ttl && (x == h ==> ttl == prev.ttl)
    case Release(_, x, _) => x == prev.holder && x != h
    case Sweep(_, grace) => grace > 0 && c.now >= prev.ExpiresAt() + grace
  }

  /** A commit on a key that h covers to d is an extension by h, and covers it still. */
  lemma CommitCovers(kind: Backend, prev: Record, c: Commit, req: Request, h: string, d: Time)
    requires Legal(kind, Some(prev), c) && prev.renewedAt == Floor(kind, prev.renewedAt)
             && c.rec.renewedAt == Floor(kind, c.now)
    requires prev.holder == h != "" && c.now <= d <= prev.ExpiresAt() && CommitHonest(req, prev, c, h)
    ensures c.rec.holder == h && c.rec.token == prev.token && c.rec.ExpiresAt() >= d
  {
    FloorFacts(kind, prev.renewedAt, c.now);
  }

  /** Coverage survives everything the server can do to the key. */
  lemma CoverageKept(w: World, e: Event, t: State, i: nat, token: int, d: Time)
    requires WorldInv(w) && Inv(t) && Stepped(w.server, e, t) && i < |w.nodes| && !w.nodes[i].ended
    requires Covered(w.server, w.key, w.nodes[i].car.holder, token, d)
    ensures Covered(t, w.key, w.nodes[i].car.holder, token, d)
  {
    var s, k := w.server, w.key;
    KeyStep(s, e, t, k);
    if t.clock <= d && Commits(s, e) && s.calls[e.id].req.key == k {
      CommitByRequest(s, e);
      assert Honest(w, s.calls[e.id].req);
      assert Rounded(s.kind, s.store[k]) == s.store[k];
      CommitCovers(s.kind, s.store[k], t.log[|s.log|], s.calls[e.id].req, w.nodes[i].car.holder, d);
    }
  }

  lemma TtlKept(w: World, e: Event, t: State)
    requires WorldInv(w) && Inv(t) && Stepped(w.server, e, t)
    ensures TtlKnown(w.(server := t))
  {
    var s, k := w.server, w.key;
    KeyStep(s, e, t, k);
    if Commits(s, e) && s.calls[e.id].req.key == k {
      CommitByRequest(s, e);
      assert Honest(w, s.calls[e.id].req);
    }
  }

  /** The server has granted node n's pending call at clock value now: this is what it stored and reported. */
  predicate GrantedAt(n: Node, k: Key, t: State, now: Time) {
    && n.wait.Some? && n.wait.value.started <= now && n.car.ttl % SECOND == 0
    && n.wait.value.id in t.calls && t.calls[n.wait.value.id].phase.Returned?
    && t.calls[n.wait.value.id].phase.out.Granted?
    && t.calls[n.wait.value.id].phase.out.expiresAt == now + n.car.ttl
    && k in t.store && t.store[k].holder == n.car.holder && t.store[k].ExpiresAt() == Floor(t.kind, now) + n.car.ttl
    && t.store[k].token == t.calls[n.wait.value.id].phase.out.token
  }

  /** A sidecar's call that turns out granted was granted by its own commit. */
  lemma GrantStored(w: World, e: Event, t: State, i: nat) returns (now: Time)
    requires WorldInv(w) && Inv(t) && t == Do(w.server, e) && i < |w.nodes| && w.nodes[i].wait.Some?
    requires var id := w.nodes[i].wait.value.id;
             id in w.server.calls && id in t.calls
             && !w.server.calls[id].phase.Returned?
    requires var id := w.nodes[i].wait.value.id; t.calls[id].phase.Returned? && t.calls[id].phase.out.Granted?
    ensures GrantedAt(w.nodes[i], w.key, t, now)
  {
    var n, s, k := w.nodes[i], w.server, w.key;
    var p := n.wait.value;
    assert NodeOk(w, i);
    StepShape(s, e);
    GrantedOnlyByCommit(s, e, p.id);
    CommitByRequest(s, e);
    KeyStep(s, e, t, k);
    now := s.calls[p.id].phase.now;
  }

  /** What a waiting sidecar may count on once its call is granted. */
  predicate GrantSafe(s: State, k: Key, n: Node)
    requires n.wait.Some?
  {
    GrantSafeTo(s, k, n, Floor(s.kind, n.wait.value.started + n.car.ttl))
  }

  predicate GrantSafeTo(s: State, k: Key, n: Node, sure: Time)
    requires n.wait.Some?
  {
    var p := n.wait.value;
    p.id in s.calls && s.calls[p.id].phase.Returned? && s.calls[p.id].phase.out.Granted? ==>
      && Covered(s, k, n.car.holder, s.calls[p.id].phase.out.token, sure)
      && s.calls[p.id].phase.out.expiresAt >= p.started + n.car.ttl
  }

  /** A grant covers its caller's deadline, rounded down, from the moment of its commit. */
  lemma GrantCovers(n: Node, k: Key, t: State, now: Time)
    requires GrantedAt(n, k, t, now)
    ensures GrantSafe(t, k, n)
  {
    GrantOutlasts(t.kind, n.wait.value.started, now, n.car.ttl);
  }

  /** What is stored for a call that started earlier outlasts the caller's deadline, rounded down. */
  lemma GrantOutlasts(kind: Backend, started: Time, now: Time, ttl: Time)
    requires started <= now && ttl % SECOND == 0
    ensures Floor(kind, started + ttl) <= Floor(kind, now) + ttl
  {
    FloorFacts(kind, started, now);
    FloorShift(kind, started, ttl);
  }

  lemma GrantedOnlyByCommit(s: State, e: Event, id: nat)
    requires id in s.calls && !s.calls[id].phase.Returned?
    requires id in Do(s, e).calls && Do(s, e).calls[id].phase.Returned? && Do(s, e).calls[id].phase.out.Granted?
    ensures Commits(s, e) && e.id == id && e == Put(id)
    ensures Do(s, e).calls[id].phase.out == Won(s.calls[id].req, s.calls[id].phase.next)
  {
  }

  lemma OpenKept(w: World, e: Event, i: nat)
    requires WorldInv(w) && Allowed(w, e) && i < |w.nodes| && Inv(Do(w.server, e))
    ensures OpenOk(Do(w.server, e), w.key, w.nodes[i])
  {
    var t, n := Do(w.server, e), w.nodes[i];
    assert NodeOk(w, i);
    if Open(n) {
      StepShape(w.server, e);
      ClockStep(w.server, e);
      CoverageKept(w, e, t, i, n.car.token, Floor(t.kind, n.car.expiresAt.value));
    }
  }

  lemma OldGrantKept(w: World, e: Event, t: State, i: nat)
    requires WorldInv(w) && Inv(t) && Stepped(w.server, e, t) && i < |w.nodes| && w.nodes[i].wait.Some?
             && !w.nodes[i].ended
    requires var id := w.nodes[i].wait.value.id;
             id in w.server.calls && id in t.calls
             && t.calls[id] == w.server.calls[id]
    requires GrantSafe(w.server, w.key, w.nodes[i])
    ensures GrantSafe(t, w.key, w.nodes[i])
  {
    assert t.kind == w.server.kind;
    GrantKeptTo(w, e, t, i, Floor(t.kind, w.nodes[i].wait.value.started + w.nodes[i].car.ttl));
  }

  lemma GrantKeptTo(w: World, e: Event, t: State, i: nat, sure: Time)
    requires WorldInv(w) && Inv(t) && Stepped(w.server, e, t) && i < |w.nodes| && w.nodes[i].wait.Some?
             && !w.nodes[i].ended
    requires var id := w.nodes[i].wait.value.id;
             id in w.server.calls && id in t.calls
             && t.calls[id] == w.server.calls[id]
    requires GrantSafeTo(w.server, w.key, w.nodes[i], sure)
    ensures GrantSafeTo(t, w.key, w.nodes[i], sure)
  {
    var id := w.nodes[i].wait.value.id;
    if t.calls[id].phase.Returned? && t.calls[id].phase.out.Granted? {
      CoverageKept(w, e, t, i, t.calls[id].phase.out.token, sure);
    }
  }

  lemma NewGrantKept(w: World, e: Event, t: State, i: nat)
    requires WorldInv(w) && Inv(t) && t == Do(w.server, e) && i < |w.nodes| && w.nodes[i].wait.Some?
    requires var id := w.nodes[i].wait.value.id;
             id in w.server.calls && id in t.calls
             && !w.server.calls[id].phase.Returned?
    ensures GrantSafe(t, w.key, w.nodes[i])
  {
    var id := w.nodes[i].wait.value.id;
    if t.calls[id].phase.Returned? && t.calls[id].phase.out.Granted? {
      var now := GrantStored(w, e, t, i);
      GrantCovers(w.nodes[i], w.key, t, now);
    }
  }

  /** What a step keeps of a call: everything but its progress, and all of it once it has returned. */
  predicate CallKept(s: State, t: State, id: nat) {
    && id in s.calls && id in t.calls && t.calls[id].req == s.calls[id].req
    && t.calls[id].startedAt == s.calls[id].startedAt
    && (s.calls[id].phase.Returned? ==> t.calls[id] == s.calls[id])
  }

  lemma WaitKept(s: State, t: State, k: Key, n: Node)
    requires WaitOk(s, k, n) && n.wait.Some? && s.clock <= t.clock
    requires CallKept(s, t, n.wait.value.id) && GrantSafe(t, k, n)
    ensures WaitOk(t, k, n)
  {
  }

  lemma NodeKept(w: World, e: Event, i: nat)
    requires WorldInv(w) && Allowed(w, e) && i < |w.nodes| && Inv(Do(w.server, e))
    ensures NodeOk(w.(server := Do(w.server, e)), i)
  {
    var n, t := w.nodes[i], Do(w.server, e);
    assert NodeOk(w, i);
    StepShape(w.server, e);
    OpenKept(w, e, i);
    if n.wait.Some? {
      var id := n.wait.value.id;
      CallsKeep(w.server, e, id);
      if w.server.calls[id].phase.Returned? {
        OldGrantKept(w, e, t, i);
      } else {
        NewGrantKept(w, e, t, i);
      }
      WaitKept(w.server, t, w.key, n);
    }
  }

  lemma ClockStep(s: State, e: Event)
    ensures Do(s, e).clock == if e.Advance? then s.clock + e.dt else s.clock
  {
  }

  lemma ServeKeeps(w: World, e: Event)
    requires WorldInv(w) && Allowed(w, e)
    ensures WorldInv(w.(server := Do(w.server, e)))
  {
    var t := Do(w.server, e);
    StepKeeps(w.server, e);
    StepShape(w.server, e);
    TtlKept(w, e, t);
    forall i | 0 <= i < |w.nodes| ensures NodeOk(w.(server := t), i) { NodeKept(w, e, i); }
    forall id | id in t.calls ensures Honest(w.(server := t), t.calls[id].req) {
      if id in w.server.calls {
        CallsKeep(w.server, e, id);
        assert Honest(w, w.server.calls[id].req);
      } else {
        assert e.Start? && e.id == id;
      }
    }
  }

  // ---------- Sidecar steps ----------

  lemma SetNodeKeeps(w: World, i: nat, n: Node)
    requires WorldInv(w) && i < |w.nodes|
    requires n.car.holder == w.nodes[i].car.holder && n.car.ttl == w.nodes[i].car.ttl
             && n.car.heartbeat == w.nodes[i].car.heartbeat
    requires w.nodes[i].ended ==> n.ended
    requires MarkerOk(n, w.server.clock) && OpenOk(w.server, w.key, n) && WaitOk(w.server, w.key, n)
             && (n.ended ==> !n.live)
    ensures WorldInv(SetNode(w, i, n))
  {
    var v := SetNode(w, i, n);
    forall j | 0 <= j < |v.nodes| ensures NodeOk(v, j) { assert NodeOk(w, j); }
    forall id | id in v.server.calls ensures Honest(v, v.server.calls[id].req) {
      assert Honest(w, w.server.calls[id].req);
    }
    assert forall j :: 0 <= j < |v.nodes| ==>
           v.nodes[j].car.holder == w.nodes[j].car.holder && v.nodes[j].car.ttl == w.nodes[j].car.ttl;
  }

  lemma TickKeeps(w: World, i: nat, id: nat)
    requires WorldInv(w)
    ensures WorldInv(DoTick(w, i, id))
  {
    if !(i >= |w.nodes| || !w.nodes[i].live || w.nodes[i].wait.Some? || id in w.server.calls) {
      var n := w.nodes[i];
      var now := w.server.clock;
      assert NodeOk(w, i);
      if n.car.held && n.car.PastDeadline(now) {
        SetNodeKeeps(w, i, n.(car := n.car.Lose()));
      } else {
        var req := LeaseCall(w, n);
        assert req.ttl == n.car.ttl;
        assert Honest(w, req);
        ServeKeeps(w, Start(id, req));
        var v := w.(server := DoStart(w.server, id, req));
        assert NodeOk(v, i);
        var car := if n.car.held then n.car else n.car.(marker := None);
        SetNodeKeeps(v, i, n.(car := car, wait := Some(Pending(id, now, car.RpcDeadline(now), car.held))));
      }
    }
  }

  predicate Answered(s: State, k: Key, n: Node, token: int, expiry: Time)
    requires n.wait.Some?
  {
    var sure := n.wait.value.started + n.car.ttl;
    Covered(s, k, n.car.holder, token, Floor(s.kind, sure)) && expiry >= sure
  }

  lemma AnswerNode(s: State, k: Key, n: Node, rpc: Rpc, done: bool, expiry: Time, f: Node)
    requires MarkerOk(n, s.clock) && OpenOk(s, k, n) && WaitOk(s, k, n) && n.live && n.wait.Some? && n.car.Configured()
    requires s.clock >= n.wait.value.deadline ==> done
    requires rpc.Reply? && rpc.acquired ==> Answered(s, k, n, rpc.token, expiry)
    requires f == Finish(n, rpc, done, s.clock, expiry)
    ensures MarkerOk(f, s.clock) && OpenOk(s, k, f) && WaitOk(s, k, f)
    ensures f.car.holder == n.car.holder && f.car.ttl == n.car.ttl && f.car.heartbeat == n.car.heartbeat
    ensures f.ended == n.ended && f.live
  {
  }

  lemma AnswerKeeps(w: World, i: nat, rpc: Rpc, done: bool, expiry: Time)
    requires WorldInv(w) && i < |w.nodes| && w.nodes[i].live && w.nodes[i].wait.Some?
    requires w.server.clock >= w.nodes[i].wait.value.deadline ==> done
    requires rpc.Reply? && rpc.acquired ==> Answered(w.server, w.key, w.nodes[i], rpc.token, expiry)
    ensures WorldInv(SetNode(w, i, Finish(w.nodes[i], rpc, done, w.server.clock, expiry)))
  {
    var n, f := w.nodes[i], Finish(w.nodes[i], rpc, done, w.server.clock, expiry);
    assert NodeOk(w, i);
    AnswerNode(w.server, w.key, n, rpc, done, expiry, f);
    SetNodeKeeps(w, i, f);
  }

  lemma ShutdownKeeps(w: World, i: nat, id: nat, release: bool)
    requires WorldInv(w)
    ensures WorldInv(DoShutdown(w, i, id, release))
  {
    if !(i >= |w.nodes| || !w.nodes[i].live || id in w.server.calls) {
      var n := w.nodes[i];
      assert NodeOk(w, i);
      var v := SetNode(w, i, n.(live := false, ended := true, wait := None));
      SetNodeKeeps(w, i, n.(live := false, ended := true, wait := None));
      if release && n.car.held {
        var req := Release(w.key, n.car.holder, n.car.token);
        assert Honest(v, req);
        ServeKeeps(v, Start(id, req));
      }
    }
  }

  lemma MoveKeeps(w: World, m: Move)
    requires WorldInv(w)
    ensures WorldInv(Go(w, m))
  {
    match m
    case Serve(e) => if Allowed(w, e) { ServeKeeps(w, e); }
    case Tick(i, id) => TickKeeps(w, i, id);
    case Deliver(i, done) =>
      if i < |w.nodes| && w.nodes[i].live && w.nodes[i].wait.Some? {
        assert NodeOk(w, i);
        var p := w.nodes[i].wait.value;
        if w.server.calls[p.id].phase.Returned? {
          var out := w.server.calls[p.id].phase.out;
          var late := done || w.server.clock >= p.deadline;
          AnswerKeeps(w, i, Heard(out), late, if out.Granted? then out.expiresAt else 0);
        }
      }
    case Fail(i, conflict) =>
      if i < |w.nodes| && w.nodes[i].live && w.nodes[i].wait.Some? {
        AnswerKeeps(w, i, if conflict then Conflict else Error, true, 0);
      }
    case Timer(i) =>
      if i < |w.nodes| && w.nodes[i].wait.None? {
        assert NodeOk(w, i);
        SetNodeKeeps(w, i, w.nodes[i].(car := w.nodes[i].car.Lose()));
      }
    case Crash(i) =>
      if i < |w.nodes| {
        assert NodeOk(w, i);
        SetNodeKeeps(w, i, w.nodes[i].(live := false, wait := None));
      }
    case Restart(i, stored) =>
      if i < |w.nodes| && !w.nodes[i].live && !w.nodes[i].ended {
        var n := w.nodes[i];
        SetNodeKeeps(w, i, n.(car := n.car.Handoff(Some(n.car.holder), stored), wait := None, live := true));
      }
    case Shutdown(i, id, release) => ShutdownKeeps(w, i, id, release);
  }

  lemma {:induction false} RunsKeep(w: World, ms: seq<Move>)
    requires Initial(w)
    ensures WorldInv(Runs(w, ms))
  {
    if ms == [] {
      assert forall i :: 0 <= i < |w.nodes| ==> NodeOk(w, i);
    } else {
      RunsKeep(w, ms[..|ms| - 1]);
      MoveKeeps(Runs(w, ms[..|ms| - 1]), ms[|ms| - 1]);
    }
  }

  // ---------- The guarantees ----------

  /**
   Two gates can be open together only on a store that keeps microseconds, only between two
   microseconds, and only within the last microsecond before one of the two deadlines.
   */
  lemma GatesOverlapBriefly(w: World, ms: seq<Move>, i: nat, j: nat)
    requires Initial(w) && i != j
    requires var v := Runs(w, ms); i < |v.nodes| && j < |v.nodes| && Open(v.nodes[i]) && Open(v.nodes[j])
    ensures var v := Runs(w, ms);
            var a, b, now := v.nodes[i].car.expiresAt, v.nodes[j].car.expiresAt, v.server.clock;
            && !v.server.kind.Exact? && now != Floor(v.server.kind, now) && a.Some? && b.Some?
            && (a.value - MICROSECOND < now <= a.value || b.value - MICROSECOND < now <= b.value)
  {
    RunsKeep(w, ms);
    OpenTogether(Runs(w, ms), i, j);
  }

  lemma OpenTogether(v: World, i: nat, j: nat)
    requires WorldInv(v) && i != j && i < |v.nodes| && j < |v.nodes| && Open(v.nodes[i]) && Open(v.nodes[j])
    ensures var a, b, now := v.nodes[i].car.expiresAt, v.nodes[j].car.expiresAt, v.server.clock;
            && !v.server.kind.Exact? && now != Floor(v.server.kind, now) && a.Some? && b.Some?
            && (a.value - MICROSECOND < now <= a.value || b.value - MICROSECOND < now <= b.value)
  {
    assert NodeOk(v, i) && NodeOk(v, j);
    assert v.nodes[i].car.holder != v.nodes[j].car.holder;
    var now := v.server.clock;
    assert Floor(v.server.kind, v.nodes[i].car.expiresAt.value) < now
           || Floor(v.server.kind, v.nodes[j].car.expiresAt.value) < now;
    FloorFacts(v.server.kind, now, v.nodes[i].car.expiresAt.value);
    FloorFacts(v.server.kind, now, v.nodes[j].car.expiresAt.value);
    FloorFacts(v.server.kind, v.nodes[i].car.expiresAt.value, 0);
    FloorFacts(v.server.kind, v.nodes[j].car.expiresAt.value, 0);
  }

  /** In every reachable world, at every instant the store can tell from its neighbours, at most one gate is open. */
  lemma AtMostOneOpenGate(w: World, ms: seq<Move>, i: nat, j: nat)
    requires Initial(w)
    requires var v := Runs(w, ms); i < |v.nodes| && j < |v.nodes| && Open(v.nodes[i]) && Open(v.nodes[j])
    requires var v := Runs(w, ms); v.server.clock == Floor(v.server.kind, v.server.clock)
    ensures i == j
  {
    if i != j { GatesOverlapBriefly(w, ms, i, j); }
  }

  /**
   An open gate has the stored lease behind it, under the token its sidecar carries, lasting to the
   local deadline rounded down to the precision of the store: all the time on an exact store,
   otherwise up to that instant.
   */
  lemma OpenGateHoldsLease(w: World, ms: seq<Move>, i: nat)
    requires Initial(w)
    requires var v := Runs(w, ms); i < |v.nodes| && Open(v.nodes[i])
    ensures var v := Runs(w, ms);
            var s, car := v.server, v.nodes[i].car;
            && car.expiresAt.Some? && s.clock <= car.expiresAt.value
            && var sure := Floor(s.kind, car.expiresAt.value);
               && car.expiresAt.value - Unit(s.kind) < sure <= car.expiresAt.value
               && (s.clock <= sure ==>
                    && v.key in s.store && s.store[v.key].holder == car.holder && s.store[v.key].token == car.token
                    && sure <= s.store[v.key].ExpiresAt())
  {
    RunsKeep(w, ms);
    assert NodeOk(Runs(w, ms), i);
  }

  /** While a live sidecar keeps the marker, a probe bounded by one time to live passes. */
  lemma ProbeNeverFailsSpuriously(w: World, ms: seq<Move>, i: nat)
    requires Initial(w)
    requires var v := Runs(w, ms); i < |v.nodes| && Open(v.nodes[i])
    ensures var v := Runs(w, ms);
            var car := v.nodes[i].car;
            MarkerVerdict(car.marker, v.server.clock, car.ttl) == Healthy
  {
    RunsKeep(w, ms);
    assert NodeOk(Runs(w, ms), i);
  }

  /** Whatever state a sidecar dies in, every probe from one heartbeat after the expiry the server reported on fails. */
  lemma ProbeFailsAfterDeath(w: World, ms: seq<Move>, i: nat, at: Time)
    requires Initial(w)
    requires var v := Runs(w, ms); i < |v.nodes| && at >= v.nodes[i].confirmed + v.nodes[i].car.heartbeat
    ensures var v := Runs(w, ms);
            var car := v.nodes[i].car;
            MarkerVerdict(car.marker, at, car.ttl) != Healthy
  {
    RunsKeep(w, ms);
    assert NodeOk(Runs(w, ms), i);
  }

  // ---------- A gate does open, and two can between microseconds ----------

  /** The five moves of an undisturbed acquisition by sidecar i, with call id. */
  function Acquisition(i: nat, id: nat): seq<Move> {
    [Tick(i, id), Serve(Get(id)), Serve(Choose(id)), Serve(Put(id)), Deliver(i, false)]
  }

  lemma {:induction false} RunsJoin(w: World, a: seq<Move>, b: seq<Move>)
    ensures Runs(w, a + b) == Runs(Runs(w, a), b)
  {
    if b == [] {
      assert a + b == a;
    } else {
      var n := |b| - 1;
      RunsJoin(w, a, b[..n]);
      assert (a + b)[..|a + b| - 1] == a + b[..n];
    }
  }

  lemma RunsOne(w: World, m: Move)
    ensures Runs(w, [m]) == Go(w, m)
  {
    assert [m][..0] == [];
  }

  lemma RunsAcquisition(w: World, i: nat, id: nat)
    ensures Runs(w, Acquisition(i, id)) ==
            Go(Go(Go(Go(Go(w, Tick(i, id)), Serve(Get(id))), Serve(Choose(id))), Serve(Put(id))), Deliver(i, false))
  {
    var a := [Tick(i, id)];
    var b := a + [Serve(Get(id))];
    var c := b + [Serve(Choose(id))];
    var d := c + [Serve(Put(id))];
    assert Acquisition(i, id) == d + [Deliver(i, false)];
    RunsOne(w, Tick(i, id));
    RunsJoin(w, a, [Serve(Get(id))]);
    RunsOne(Runs(w, a), Serve(Get(id)));
    RunsJoin(w, b, [Serve(Choose(id))]);
    RunsOne(Runs(w, b), Serve(Choose(id)));
    RunsJoin(w, c, [Serve(Put(id))]);
    RunsOne(Runs(w, c), Serve(Put(id)));
    RunsJoin(w, d, [Deliver(i, false)]);
    RunsOne(Runs(w, d), Deliver(i, false));
  }

  /** Nobody holds the key, and the next token exists. */
  predicate Free(s: State, k: Key) {
    k in s.store ==> s.store[k].Expired(s.clock) && s.store[k].token < MAX_TOKEN && s.store[k].version >= 1
  }

  function NextToken(s: State, k: Key): int { if k in s.store then s.store[k].token + 1 else 1 }

  /** From s to t the server has granted h's call `id` on a free key k. */
  predicate Served(s: State, t: State, id: nat, k: Key, h: string, ttl: Time) {
    && t.clock == s.clock && t.kind == s.kind && t.calls.Keys == s.calls.Keys + {id} && t.calls[id].phase.Returned?
    && t.calls[id].phase.out == Granted(h, NextToken(s, k), s.clock + ttl, s.clock)
    && k in t.store && t.store[k].ttl == ttl && t.store[k].renewedAt == Floor(s.kind, s.clock)
    && t.store[k].token == NextToken(s, k) && t.store[k].version >= 1
  }

  /** The three micro-steps of an Acquire on a free key do that. */
  lemma ServerGrants(s: State, id: nat, k: Key, h: string, ttl: Time)
    requires id !in s.calls && ValidKey(k) && ValidHolder(h) && ttl > 0 && Free(s, k)
    requires k in s.store ==> s.store[k].holder != h || s.store[k].Expired(s.clock)
    ensures Served(s, Do(Do(Do(DoStart(s, id, Acquire(k, h, ttl)), Get(id)), Choose(id)), Put(id)), id, k, h, ttl)
  {
    var next := Record(k, h, ttl, s.clock, s.clock, NextToken(s, k), 0);
    var a := DoStart(s, id, Acquire(k, h, ttl));
    var b := DoGet(a, id);
    assert b.calls[id].phase == Fetched(0, Lookup(s.store, k), |s.log|);
    var c := DoChoose(b, id);
    assert c.calls[id].phase == Putting(0, Lookup(s.store, k), |s.log|, next, s.clock);
  }

  /** An undisturbed acquisition on a free key opens the gate, and changes nothing else a sidecar can see. */
  lemma AcquisitionOpens(w: World, i: nat, id: nat)
    requires i < |w.nodes| && id !in w.server.calls && Free(w.server, w.key) && ValidKey(w.key)
    requires var n := w.nodes[i];
             n.live && n.wait.None? && !n.car.held && n.car.Configured() && n.car.ttl % SECOND == 0
             && ValidHolder(n.car.holder)
    ensures var v, n := Runs(w, Acquisition(i, id)), w.nodes[i];
            && |v.nodes| == |w.nodes| && v.key == w.key
            && (forall j :: 0 <= j < |w.nodes| && j != i ==> v.nodes[j] == w.nodes[j])
            && Open(v.nodes[i]) && v.nodes[i].car.expiresAt == Some(w.server.clock + n.car.ttl)
            && Served(w.server, v.server, id, w.key, n.car.holder, n.car.ttl)
  {
    var u := GrantReady(w, i, id);
    Hears(u, i, id, w.server.clock);
  }

  /** The world before the answer is heard. */
  lemma GrantReady(w: World, i: nat, id: nat) returns (u: World)
    requires i < |w.nodes| && id !in w.server.calls && Free(w.server, w.key) && ValidKey(w.key)
    requires var n := w.nodes[i];
             n.live && n.wait.None? && !n.car.held && n.car.Configured() && n.car.ttl % SECOND == 0
             && ValidHolder(n.car.holder)
    ensures Runs(w, Acquisition(i, id)) == Go(u, Deliver(i, false))
    ensures u.key == w.key && Served(w.server, u.server, id, w.key, w.nodes[i].car.holder, w.nodes[i].car.ttl)
    ensures u.nodes == w.nodes[i := Asking(w.nodes[i], id, w.server.clock)]
  {
    RunsAcquisition(w, i, id);
    var n := w.nodes[i];
    assert WireTtl(n.car.ttl) == n.car.ttl;
    ServerGrants(w.server, id, w.key, n.car.holder, n.car.ttl);
    Asks(w, i, id);
    var a := Go(w, Tick(i, id));
    Serves(a, Get(id));
    var b := Go(a, Serve(Get(id)));
    Serves(b, Choose(id));
    var c := Go(b, Serve(Choose(id)));
    Serves(c, Put(id));
    u := Go(c, Serve(Put(id)));
  }

  function Asking(n: Node, id: nat, now: Time): Node {
    n.(car := n.car.(marker := None), wait := Some(Pending(id, now, now + n.car.heartbeat, false)))
  }

  lemma Asks(w: World, i: nat, id: nat)
    requires i < |w.nodes| && w.nodes[i].live && w.nodes[i].wait.None? && !w.nodes[i].car.held && id !in w.server.calls
    ensures var n := w.nodes[i];
            Go(w, Tick(i, id)) ==
            w.(nodes := w.nodes[i := Asking(n, id, w.server.clock)],
               server := DoStart(w.server, id, Acquire(w.key, n.car.holder, WireTtl(n.car.ttl))))
  {
  }

  lemma Serves(w: World, e: Event)
    requires !e.Start? && !e.Advance?
    ensures Go(w, Serve(e)) == w.(server := Do(w.server, e))
  {
  }

  /** A timely grant opens the gate. */
  lemma Hears(w: World, i: nat, id: nat, now: Time)
    requires i < |w.nodes| && w.nodes[i].live && id in w.server.calls && w.server.clock == now
    requires w.nodes[i].wait == Some(Pending(id, now, now + w.nodes[i].car.heartbeat, false))
             && w.nodes[i].car.Configured()
    requires w.server.calls[id].phase.Returned? && w.server.calls[id].phase.out.Granted?
    ensures var v := Go(w, Deliver(i, false));
            && v == w.(nodes := v.nodes) && |v.nodes| == |w.nodes|
            && (forall j :: 0 <= j < |w.nodes| && j != i ==> v.nodes[j] == w.nodes[j])
            && Open(v.nodes[i]) && v.nodes[i].car.expiresAt == Some(now + w.nodes[i].car.ttl)
  {
  }

  /** From an empty store, an undisturbed acquisition opens the gate of any waiting sidecar. */
  lemma GateOpens(w: World, i: nat)
    requires Initial(w) && i < |w.nodes| && w.nodes[i].live && !w.nodes[i].car.held
    requires ValidKey(w.key) && ValidHolder(w.nodes[i].car.holder)
    ensures i < |Runs(w, Acquisition(i, 0)).nodes| && Open(Runs(w, Acquisition(i, 0)).nodes[i])
  {
    AcquisitionOpens(w, i, 0);
  }

  /** From the call to one nanosecond after the stored lease is over. */
  function Outlived(now: Time, ttl: Time): nat {
    var dt := ttl - now % MICROSECOND + 1;
    if dt >= 0 then dt else 0
  }

  lemma OutlivedTimes(kind: Backend, now: Time, ttl: Time)
    requires !kind.Exact? && ttl > 0 && ttl % SECOND == 0 && now % MICROSECOND != 0
    ensures Floor(kind, now) + ttl < now + Outlived(now, ttl) <= now + ttl
  {
  }

  /** Sidecar i acquires, keeps no contact until its stored lease is over, and sidecar j acquires. */
  function Overlap(w: World, i: nat, j: nat): seq<Move>
    requires i < |w.nodes|
  {
    Acquisition(i, 0) + [Serve(Advance(Outlived(w.server.clock, w.nodes[i].car.ttl)))] + Acquisition(j, 1)
  }

  /** The world after the first acquisition and the wait. */
  lemma FirstOutlived(w: World, i: nat, dt: nat)
    requires Initial(w) && !w.server.kind.Exact? && w.server.clock % MICROSECOND != 0 && ValidKey(w.key)
    requires i < |w.nodes| && w.nodes[i].live && !w.nodes[i].car.held && ValidHolder(w.nodes[i].car.holder)
    requires dt == Outlived(w.server.clock, w.nodes[i].car.ttl)
    ensures var v := Runs(w, Acquisition(i, 0) + [Serve(Advance(dt))]);
            && |v.nodes| == |w.nodes| && v.key == w.key && Open(v.nodes[i]) && Free(v.server, v.key)
            && 1 !in v.server.calls
            && forall j :: 0 <= j < |w.nodes| && j != i ==> v.nodes[j] == w.nodes[j]
  {
    AcquisitionOpens(w, i, 0);
    OutlivedTimes(w.server.kind, w.server.clock, w.nodes[i].car.ttl);
    var v := Runs(w, Acquisition(i, 0));
    Waits(v, i, dt);
    RunsJoin(w, Acquisition(i, 0), [Serve(Advance(dt))]);
    RunsOne(v, Serve(Advance(dt)));
  }

  /** Only i is open, and its deadline is not passed. */
  lemma Waits(w: World, i: nat, dt: nat)
    requires i < |w.nodes| && w.nodes[i].car.expiresAt.Some? && w.server.clock + dt <= w.nodes[i].car.expiresAt.value
    requires forall j :: 0 <= j < |w.nodes| && j != i ==> !Open(w.nodes[j])
    ensures Go(w, Serve(Advance(dt))) == w.(server := Do(w.server, Advance(dt)))
  {
  }

  /**
   The bound is attained: on a microsecond store, two waiting sidecars and a call that starts
   between two microseconds are enough for two open gates.
   */
  lemma TwoGatesOpen(w: World, i: nat, j: nat)
    requires Initial(w) && !w.server.kind.Exact? && w.server.clock % MICROSECOND != 0 && ValidKey(w.key)
    requires i < |w.nodes| && j < |w.nodes| && i != j
    requires w.nodes[i].live && !w.nodes[i].car.held && ValidHolder(w.nodes[i].car.holder)
    requires w.nodes[j].live && !w.nodes[j].car.held && ValidHolder(w.nodes[j].car.holder)
    ensures var v := Runs(w, Overlap(w, i, j)); i < |v.nodes| && j < |v.nodes| && Open(v.nodes[i]) && Open(v.nodes[j])
  {
    var dt := Outlived(w.server.clock, w.nodes[i].car.ttl);
    var first := Acquisition(i, 0) + [Serve(Advance(dt))];
    FirstOutlived(w, i, dt);
    RunsJoin(w, first, Acquisition(j, 1));
    assert Runs(w, first).nodes[j] == w.nodes[j];
    AcquisitionOpens(Runs(w, first), j, 1);
  }
}
