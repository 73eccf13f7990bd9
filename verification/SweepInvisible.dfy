/**
 Garbage collection is invisible: dropping every sweep from a run of atomic
 operations on a key changes no grant, no token and no ceiling error.
 */
module SweepInvisible {
  import opened Wrappers
  import opened KeyNames
  import opened LeaseRecord

  datatype Op = Op(req: Request, now: Time)

  ghost predicate Timed(ops: seq<Op>) {
    && (forall i :: 0 <= i < |ops| ==> ValidRequest(ops[i].req))
    && (forall i, j :: 0 <= i < j < |ops| ==> ops[i].now <= ops[j].now)
  }

  /** The same run with nobody collecting garbage. */
  function WithoutSweeps(ops: seq<Op>): seq<Op> {
    if ops == [] then []
    else if ops[0].req.Sweep? then WithoutSweeps(ops[1..])
    else [ops[0]] + WithoutSweeps(ops[1..])
  }

  /** What the clients are told, sweeps not being clients. */
  function Answers(kind: Backend, rec: Option<Record>, ops: seq<Op>): seq<Outcome>
    decreases |ops|
  {
    if ops == [] then []
    else
      var (next, out) := Atomic(kind, rec, ops[0].req, ops[0].now);
      (if ops[0].req.Sweep? then [] else [out]) + Answers(kind, next, ops[1..])
  }

  /** Differences a client may see: only what a refusal reports, and nil for a release that named another lease. */
  predicate Alike(req: Request, plain: Outcome, swept: Outcome) {
    || plain == swept
    || (req.Renew? && plain.Refused? && swept.Refused?)
    || (req.Release? && plain == Mismatch && swept == Released)
  }

  predicate Similar(plain: Option<Record>, swept: Option<Record>, now: Time) {
    if plain.None? || swept.None? then plain == swept
    else
      && plain.value.token == swept.value.token
      && (|| plain.value == swept.value.(version := plain.value.version)
          || (swept.value.Tombstone() && (plain.value.Tombstone() || plain.value.Expired(now))))
  }

  lemma SweepStep(kind: Backend, plain: Option<Record>, swept: Option<Record>, op: Op, now: Time)
    requires Similar(plain, swept, now) && now <= op.now && op.req.Sweep? && ValidRequest(op.req)
    ensures Similar(plain, Atomic(kind, swept, op.req, op.now).0, op.now)
  {
  }

  lemma ClientStep(kind: Backend, plain: Option<Record>, swept: Option<Record>, op: Op, now: Time)
    requires Similar(plain, swept, now) && now <= op.now && !op.req.Sweep? && ValidRequest(op.req)
    ensures Similar(Atomic(kind, plain, op.req, op.now).0, Atomic(kind, swept, op.req, op.now).0, op.now)
    ensures Alike(op.req, Atomic(kind, plain, op.req, op.now).1, Atomic(kind, swept, op.req, op.now).1)
    ensures op.req.Acquire? ==> Atomic(kind, plain, op.req, op.now).1 == Atomic(kind, swept, op.req, op.now).1
  {
  }

  lemma {:induction false} Simulation(kind: Backend, plain: Option<Record>, swept: Option<Record>, ops: seq<Op>,
      now: Time)
    requires Timed(ops) && Similar(plain, swept, now) && (ops != [] ==> now <= ops[0].now)
    ensures var a, b, client := Answers(kind, plain, WithoutSweeps(ops)), Answers(kind, swept, ops), WithoutSweeps(ops);
            && |a| == |b| == |client|
            && forall i :: 0 <= i < |a| ==>
               Alike(client[i].req, a[i], b[i]) && (client[i].req.Acquire? ==> a[i] == b[i])
    decreases |ops|
  {
    if ops != [] {
      var op, rest := ops[0], ops[1..];
      if op.req.Sweep? {
        SweepStep(kind, plain, swept, op, now);
        Simulation(kind, plain, Atomic(kind, swept, op.req, op.now).0, rest, op.now);
        assert Answers(kind, swept, ops) == Answers(kind, Atomic(kind, swept, op.req, op.now).0, rest);
      } else {
        ClientStep(kind, plain, swept, op, now);
        var (p, po) := Atomic(kind, plain, op.req, op.now);
        var (s, so) := Atomic(kind, swept, op.req, op.now);
        Simulation(kind, p, s, rest, op.now);
        assert WithoutSweeps(ops)[0] == op && WithoutSweeps(ops)[1..] == WithoutSweeps(rest);
        assert Answers(kind, plain, WithoutSweeps(ops)) == [po] + Answers(kind, p, WithoutSweeps(rest));
        assert Answers(kind, swept, ops) == [so] + Answers(kind, s, rest);
      }
    }
  }

  /** Sweeps inserted anywhere in a run change no Acquire answer, no renewal success and no successful release. */
  lemma SweepsAreInvisible(kind: Backend, rec: Option<Record>, ops: seq<Op>)
    requires Timed(ops)
    ensures var a, b, client := Answers(kind, rec, WithoutSweeps(ops)), Answers(kind, rec, ops), WithoutSweeps(ops);
            && |a| == |b| == |client|
            && forall i :: 0 <= i < |a| ==>
               Alike(client[i].req, a[i], b[i]) && (client[i].req.Acquire? ==> a[i] == b[i])
  {
    Simulation(kind, rec, rec, ops, if ops == [] then 0 else ops[0].now);
  }

  /**
   The grace window is needed: a sweep at the very instant of expiry would take a lease its holder
   can still renew.
   */
  lemma ZeroGraceIsVisible(kind: Backend, k: Key, h: string)
    requires h != ""
    ensures var rec := Some(Record(k, h, 10, 0, 0, 1, 1));
            var renew := Renew(k, h, 1, 10);
            && Atomic(kind, rec, renew, 10).1.Granted?
            && Atomic(kind, Atomic(kind, rec, Sweep(k, 0), 10).0, renew, 10).1.Refused?
  {
  }
}
