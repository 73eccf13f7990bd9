/**
 What clients may rely on, over every interleaving from an empty store of any kind:
 fencing tokens and atomicity of reported results.
 */
module LeaseTheorems {
  import opened Wrappers
  import opened KeyNames
  import opened LeaseRecord
  import opened LeaseRuns
  import opened LeaseInvariant

  // ---------- Fencing tokens ----------

  /** How the record of one key may relate to an earlier commit on it. */
  predicate Follows(was: Record, cur: Record) {
    && was.version <= cur.version && was.token <= cur.token
    && (was.token == cur.token ==>
          && (was.Tombstone() ==> cur.Tombstone())
          && (!cur.Tombstone() ==> cur.holder == was.holder && cur.acquiredAt == was.acquiredAt))
  }

  lemma FollowsOn(kind: Backend, was: Record, cur: Record, c: Commit)
    requires Follows(was, cur) && Legal(kind, Some(cur), c)
    ensures Follows(was, c.rec) && was.version < c.rec.version
  {
  }

  lemma {:induction false} LatestFollows(kind: Backend, log: seq<Commit>, i: nat, n: nat)
    requires LegalLog(kind, log) && i < n <= |log|
    ensures Latest(log[..n], log[i].rec.key).Some?
    ensures Follows(log[i].rec, Latest(log[..n], log[i].rec.key).value)
    ensures (exists j :: i < j < n && log[j].rec.key == log[i].rec.key) ==>
              log[i].rec.version < Latest(log[..n], log[i].rec.key).value.version
  {
    assert log[..n][..n - 1] == log[..n - 1];
    if i < n - 1 {
      LatestFollows(kind, log, i, n - 1);
      assert Legal(kind, Latest(log[..n - 1], log[n - 1].rec.key), log[n - 1]);
      if log[n - 1].rec.key == log[i].rec.key {
        FollowsOn(kind, log[i].rec, Latest(log[..n - 1], log[i].rec.key).value, log[n - 1]);
      }
    }
  }

  /**
   Per key, over every run: tokens stay in 1..2^31-1 and never decrease, a fresh
   grant exceeds every earlier token, one token never names two holders or two
   acquisition times, and no version gates two writes.
   */
  lemma FencingTokens(start: Time, kind: Backend, es: seq<Event>, i: nat, j: nat)
    requires var log := Run(Init(start, kind), es).log;
             i < j < |log| && log[i].rec.key == log[j].rec.key
    ensures var log := Run(Init(start, kind), es).log;
            var a, b := log[i].rec, log[j].rec;
            && 1 <= a.token <= b.token <= MAX_TOKEN
            && a.version < b.version
            && (Fresh(Latest(log[..j], b.key), log[j]) ==> a.token < b.token)
            && (a.token == b.token && !a.Tombstone() && !b.Tombstone() ==>
                  a.holder == b.holder && a.acquiredAt == b.acquiredAt)
  {
    RunKeeps(Init(start, kind), es);
    BackendStays(Init(start, kind), es);
    var log := Run(Init(start, kind), es).log;
    LatestFollows(kind, log, i, j + 1);
    LatestFollows(kind, log, i, j);
    assert log[..j + 1][..j] == log[..j];
    assert Legal(kind, Latest(log[..i], log[i].rec.key), log[i]);
    assert Legal(kind, Latest(log[..j], log[j].rec.key), log[j]);
  }

  /** How many commits a log holds on key k. */
  function CommitsOn(log: seq<Commit>, k: Key): nat {
    if log == [] then 0
    else CommitsOn(log[..|log| - 1], k) + if log[|log| - 1].rec.key == k then 1 else 0
  }

  lemma {:induction false} VersionIsCount(kind: Backend, log: seq<Commit>, k: Key)
    requires LegalLog(kind, log)
    ensures VersionOf(Latest(log, k)) == CommitsOn(log, k)
  {
    if log != [] {
      var n := |log| - 1;
      LegalPrefix(kind, log, n);
      VersionIsCount(kind, log[..n], k);
      LegalLast(kind, log);
    }
  }

  /** Every stored version is the number of commits made on its key. */
  lemma VersionsCount(start: Time, kind: Backend, es: seq<Event>, k: Key)
    ensures var s := Run(Init(start, kind), es);
            VersionOf(Lookup(s.store, k)) == CommitsOn(s.log, k)
  {
    RunKeeps(Init(start, kind), es);
    BackendStays(Init(start, kind), es);
    var s := Run(Init(start, kind), es);
    VersionIsCount(kind, s.log, k);
    assert Lookup(s.store, k) == Latest(s.log, k);
  }

  /** No two calls are ever told they hold one key under one token as different holders. */
  lemma OneHolderPerToken(start: Time, kind: Backend, es: seq<Event>, a: nat, b: nat)
    requires var s := Run(Init(start, kind), es);
             && a in s.calls && s.calls[a].phase.Returned? && s.calls[a].phase.out.Granted?
             && b in s.calls && s.calls[b].phase.Returned? && s.calls[b].phase.out.Granted?
             && s.calls[a].req.key == s.calls[b].req.key
             && s.calls[a].phase.out.token == s.calls[b].phase.out.token
    ensures var s := Run(Init(start, kind), es);
            s.calls[a].phase.out.holder == s.calls[b].phase.out.holder
  {
    var s := Run(Init(start, kind), es);
    GrantIsAtomic(start, kind, es, a);
    GrantIsAtomic(start, kind, es, b);
    var i, j := s.calls[a].phase.how.i, s.calls[b].phase.how.i;
    if i < j { FencingTokens(start, kind, es, i, j); }
    if j < i { FencingTokens(start, kind, es, j, i); }
  }

  // ---------- Atomicity of reported results ----------

  /**
   An Acquire or Renew that reports success is one step of the sequential service,
   taken at a commit of its own between its call and its return.
   */
  lemma GrantIsAtomic(start: Time, kind: Backend, es: seq<Event>, id: nat)
    requires var s := Run(Init(start, kind), es);
             id in s.calls && s.calls[id].phase.Returned? && s.calls[id].phase.out.Granted?
    ensures var s := Run(Init(start, kind), es);
            var Call(req, Returned(out, how, at), from, startedAt, _) := s.calls[id];
            && how.ByWrite? && from <= how.i < at <= |s.log|
            && s.log[how.i].id == id && startedAt <= s.log[how.i].now <= s.clock
            && s.log[how.i].rec.key == req.key
            && Atomic(kind, Latest(s.log[..how.i], req.key), req, s.log[how.i].now) == (Some(s.log[how.i].rec), out)
            && (req.Acquire? || req.Renew?) && out.holder == req.holder == s.log[how.i].rec.holder
            && out.token == s.log[how.i].rec.token && out.holder != ""
            && out.expiresAt == s.log[how.i].now + req.ttl
            && s.log[how.i].rec.ExpiresAt() == Floor(kind, s.log[how.i].now) + req.ttl
  {
    RunKeeps(Init(start, kind), es);
    BackendStays(Init(start, kind), es);
    var s := Run(Init(start, kind), es);
    var Call(req, Returned(out, how, at), from, startedAt, _) := s.calls[id];
    assert CallOk(kind, s.log, s.clock, id, s.calls[id]);
    GrantShape(kind, Latest(s.log[..how.i], req.key), req, s.log[how.i]);
  }

  /** What a commit that was answered with a grant stored, and what was reported. */
  lemma GrantShape(kind: Backend, cur: Option<Record>, req: Request, c: Commit)
    requires Legal(kind, cur, c) && Atomic(kind, cur, req, c.now).0 == Some(c.rec)
             && Atomic(kind, cur, req, c.now).1.Granted?
    ensures var out := Atomic(kind, cur, req, c.now).1;
            && (req.Acquire? || req.Renew?) && out.holder == req.holder == c.rec.holder && out.holder != ""
            && out.token == c.rec.token && out.expiresAt == c.now + req.ttl
            && c.rec.ExpiresAt() == Floor(kind, c.now) + req.ttl
  {
  }

  /**
   A refusal was either true of the key during the call, or the call lost a race to another commit,
   or, on shared objects, to edits that left the record alone.
   */
  lemma RefusalIsTrue(start: Time, kind: Backend, es: seq<Event>, id: nat)
    requires var s := Run(Init(start, kind), es);
             id in s.calls && s.calls[id].phase.Returned? && s.calls[id].phase.out.Refused?
    ensures var s := Run(Init(start, kind), es);
            var Call(req, Returned(out, how, at), from, startedAt, crowded) := s.calls[id];
            && from <= at <= |s.log| && (crowded > 0 ==> kind.Shared?)
            && (|| (how.ByRead? && from <= how.i <= at && startedAt <= how.now
                    && Atomic(kind, Latest(s.log[..how.i], req.key), req, how.now) ==
                       (Latest(s.log[..how.i], req.key), out))
                || (how.ByLostRace? && req.Renew? && from <= how.i <= at
                    && (crowded == 0 ==> Others(s.log[how.i..at], req.key, id) >= 1)))
  {
    RunKeeps(Init(start, kind), es);
    BackendStays(Init(start, kind), es);
    var s := Run(Init(start, kind), es);
    assert CallOk(kind, s.log, s.clock, id, s.calls[id]);
  }

  lemma DecisionNeverExhausts(kind: Backend, cur: Option<Record>, req: Request, now: Time)
    ensures Decide(cur, req, now).Answer? ==> !Decide(cur, req, now).out.Exhausted?
    ensures !Atomic(kind, cur, req, now).1.Exhausted?
  {
  }

  /**
   Running out of attempts means eight other commits on the key during the call, less the attempts
   that lost, on shared objects, to edits that left the record alone.
   */
  lemma ExhaustionNeedsEightWrites(start: Time, kind: Backend, es: seq<Event>, id: nat)
    requires var s := Run(Init(start, kind), es);
             id in s.calls && s.calls[id].phase.Returned? && s.calls[id].phase.out == Exhausted
    ensures var s := Run(Init(start, kind), es);
            var Call(req, Returned(out, how, at), from, _, crowded) := s.calls[id];
            && req.Acquire? && from <= at <= |s.log| && (crowded > 0 ==> kind.Shared?)
            && Others(s.log[from..at], req.key, id) + crowded >= 8
  {
    RunKeeps(Init(start, kind), es);
    BackendStays(Init(start, kind), es);
    var s := Run(Init(start, kind), es);
    var Call(req, Returned(out, how, at), from, _, _) := s.calls[id];
    assert CallOk(kind, s.log, s.clock, id, s.calls[id]);
    if how.ByWrite? { DecisionNeverExhausts(kind, Latest(s.log[..how.i], req.key), req, s.log[how.i].now); }
    if how.ByRead? { DecisionNeverExhausts(kind, Latest(s.log[..how.i], req.key), req, how.now); }
  }
}
