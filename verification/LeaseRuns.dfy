/**
 Any number of API-server replicas running Acquire, Renew, Release and garbage
 collection against one compare-and-swap store. Each operation is a call that
 reads the store, reads the clock and writes in three separate micro-steps, so an
 event sequence is an interleaving; calls that nobody waits for any more stay in
 flight. A micro-step that is not possible in a state leaves it unchanged, so
 every event sequence is a run and every run is an event sequence.
 */
module LeaseRuns {
  import opened Wrappers
  import opened KeyNames
  import opened LeaseRecord

  const MAX_ATTEMPTS: nat := 8

  /** Why a call returned what it returned, with positions in the commit log. */
  datatype How =
    | ByWrite(i: nat)             // its own commit is log[i]
    | ByRead(i: nat, now: Time)   // decided from the record current when the log had i commits
    | ByLostRace(i: nat)          // its write lost; the read was taken when the log had i commits
    | ByExhaustion
    | ByFailure
    | ByValidation

  datatype Phase =
    | Calling(failures: nat)
    | Fetched(failures: nat, cur: Option<Record>, seen: nat)
    | Putting(failures: nat, cur: Option<Record>, seen: nat, next: Record, now: Time)
    | Rereading(stale: Record, seen: nat)
    | Returned(out: Outcome, how: How, at: nat)

  /** crowded: how many of its writes were reported as conflicts though the record had not moved. */
  datatype Call = Call(req: Request, phase: Phase, from: nat, startedAt: Time, crowded: nat)

  /** One successful Put: the call it belongs to, the clock value it used, the stored record. */
  datatype Commit = Commit(id: nat, now: Time, rec: Record)

  datatype State = State(kind: Backend, clock: Time, store: map<Key, Record>, calls: map<nat, Call>, log: seq<Commit>)

  datatype Event =
    | Start(id: nat, req: Request)
    | Get(id: nat)
    | GetFails(id: nat)
    | Choose(id: nat)
    | Put(id: nat)
    | PutCrowded(id: nat)              // a conflict over edits that left the record alone
    | PutFails(id: nat, landed: bool)  // the caller sees an error; the write may have landed
    | Advance(dt: nat)

  function Init(clock: Time, kind: Backend): State { State(kind, clock, map[], map[], []) }

  function WithCall(s: State, id: nat, phase: Phase): State
    requires id in s.calls
  {
    s.(calls := s.calls[id := s.calls[id].(phase := phase)])
  }

  function DoStart(s: State, id: nat, req: Request): State {
    if id in s.calls then s
    else
      var phase := if ValidRequest(req) then Calling(0) else Returned(Invalid, ByValidation, |s.log|);
      s.(calls := s.calls[id := Call(req, phase, |s.log|, s.clock, 0)])
  }

  function DoGet(s: State, id: nat): State {
    if id !in s.calls then s
    else
      var c := s.calls[id];
      var cur := Lookup(s.store, c.req.key);
      match c.phase
      case Calling(f) => WithCall(s, id, Fetched(f, cur, |s.log|))
      case Rereading(stale, seen) =>
        WithCall(s, id, Returned(Report(if cur.Some? then cur.value else stale), ByLostRace(seen), |s.log|))
      case _ => s
  }

  function DoGetFails(s: State, id: nat): State {
    if id !in s.calls then s
    else
      match s.calls[id].phase
      case Calling(_) => WithCall(s, id, Returned(Failed, ByFailure, |s.log|))
      case Rereading(stale, seen) => WithCall(s, id, Returned(Report(stale), ByLostRace(seen), |s.log|))
      case _ => s
  }

  function DoChoose(s: State, id: nat): State {
    if id !in s.calls || !s.calls[id].phase.Fetched? then s
    else
      var Call(req, Fetched(f, cur, seen), _, _, _) := s.calls[id];
      match Decide(cur, req, s.clock)
      case Answer(out) => WithCall(s, id, Returned(out, ByRead(seen, s.clock), |s.log|))
      case Write(next) => WithCall(s, id, Putting(f, cur, seen, next, s.clock))
  }

  /** What a call does after its compare-and-swap lost, when the log has n commits. */
  function LossPhase(c: Call, n: nat): Phase
    requires c.phase.Putting?
  {
    var Putting(f, cur, seen, _, _) := c.phase;
    match c.req
    case Acquire(_, _, _) => if f + 1 == MAX_ATTEMPTS then Returned(Exhausted, ByExhaustion, n) else Calling(f + 1)
    case Renew(_, _, _, _) => if cur.Some? then Rereading(cur.value, seen) else c.phase
    case Release(_, _, _) => Returned(Released, ByLostRace(seen), n)
    case Sweep(_, _) => Returned(Skipped, ByLostRace(seen), n)
  }

  function AfterLoss(s: State, id: nat): State
    requires id in s.calls && s.calls[id].phase.Putting?
  {
    WithCall(s, id, LossPhase(s.calls[id], |s.log|))
  }

  function Committed(s: State, id: nat): State
    requires id in s.calls && s.calls[id].phase.Putting?
  {
    var p := s.calls[id].phase;
    var expected := VersionOf(p.cur);
    s.(store := CasPut(s.store, expected, Rounded(s.kind, p.next)),
       log := s.log + [Commit(id, p.now, Stored(s.kind, p.cur, p.next))])
  }

  predicate Wins(s: State, id: nat)
    requires id in s.calls && s.calls[id].phase.Putting?
  {
    var p := s.calls[id].phase;
    CasHolds(s.store, VersionOf(p.cur), p.next.key)
  }

  function DoPut(s: State, id: nat): State {
    if id !in s.calls || !s.calls[id].phase.Putting? then s
    else if Wins(s, id) then
      WithCall(Committed(s, id), id,
               Returned(Won(s.calls[id].req, s.calls[id].phase.next), ByWrite(|s.log|), |s.log| + 1))
    else AfterLoss(s, id)
  }

  /** Only an update of a shared object can lose so; the conflict of a creation is always real. */
  predicate Crowdable(s: State, id: nat) {
    s.kind.Shared? && id in s.calls && s.calls[id].phase.Putting? && s.calls[id].phase.cur.Some? && Wins(s, id)
  }

  function Crowding(c: Call, n: nat): Call
    requires c.phase.Putting?
  {
    c.(phase := LossPhase(c, n), crowded := c.crowded + 1)
  }

  function DoPutCrowded(s: State, id: nat): State {
    if Crowdable(s, id) then s.(calls := s.calls[id := Crowding(s.calls[id], |s.log|)]) else s
  }

  function DoPutFails(s: State, id: nat, landed: bool): State {
    if id !in s.calls || !s.calls[id].phase.Putting? then s
    else
      var t := if landed && Wins(s, id) then Committed(s, id) else s;
      WithCall(t, id, Returned(Failed, ByFailure, |t.log|))
  }

  function Do(s: State, e: Event): State {
    match e
    case Start(id, req) => DoStart(s, id, req)
    case Get(id) => DoGet(s, id)
    case GetFails(id) => DoGetFails(s, id)
    case Choose(id) => DoChoose(s, id)
    case Put(id) => DoPut(s, id)
    case PutCrowded(id) => DoPutCrowded(s, id)
    case PutFails(id, landed) => DoPutFails(s, id, landed)
    case Advance(dt) => s.(clock := s.clock + dt)
  }

  function Run(s: State, es: seq<Event>): State {
    if es == [] then s else Do(Run(s, es[..|es| - 1]), es[|es| - 1])
  }

  // ---------- The commit log ----------

  /** The record of key k after the commits of log. */
  function Latest(log: seq<Commit>, k: Key): Option<Record> {
    if log == [] then None
    else if log[|log| - 1].rec.key == k then Some(log[|log| - 1].rec)
    else Latest(log[..|log| - 1], k)
  }

  predicate Names(cur: Option<Record>, holder: string, token: int) {
    cur.Some? && cur.value.holder == holder && cur.value.token == token
  }

  /** Commits on key k that belong to calls other than id. */
  function Others(log: seq<Commit>, k: Key, id: nat): nat {
    if log == [] then 0
    else
      var c := log[|log| - 1];
      Others(log[..|log| - 1], k, id) + if c.rec.key == k && c.id != id then 1 else 0
  }

  predicate Fresh(prev: Option<Record>, c: Commit) {
    && c.rec.holder != "" && c.rec.acquiredAt == c.rec.renewedAt && c.rec.ttl > 0
    && (prev.None? ==> c.rec.token == 1)
    && (prev.Some? ==>
          (prev.value.Tombstone() || prev.value.Expired(c.now)) && c.rec.token == prev.value.token + 1)
  }

  predicate Extends(prev: Option<Record>, c: Commit) {
    && prev.Some? && c.rec.holder == prev.value.holder != "" && !prev.value.Expired(c.now)
    && c.rec.token == prev.value.token && c.rec.acquiredAt == prev.value.acquiredAt && c.rec.ttl > 0
  }

  predicate Buries(prev: Option<Record>, c: Commit) {
    && prev.Some? && !prev.value.Tombstone() && c.rec.Tombstone() && c.rec.ttl == 0
    && c.rec.token == prev.value.token && c.rec.acquiredAt == prev.value.acquiredAt
  }

  /** The law of one key: how a commit may follow the record before it. */
  predicate Legal(kind: Backend, prev: Option<Record>, c: Commit) {
    && c.rec.version == VersionOf(prev) + 1
    && 1 <= c.rec.token <= MAX_TOKEN
    && c.rec.renewedAt <= c.now < c.rec.renewedAt + Unit(kind)
    && (prev.Some? ==> prev.value.renewedAt <= c.now)
    && (Fresh(prev, c) || Extends(prev, c) || Buries(prev, c))
  }

  ghost predicate LegalLog(kind: Backend, log: seq<Commit>) {
    forall i :: 0 <= i < |log| ==> Legal(kind, Latest(log[..i], log[i].rec.key), log[i])
  }

  // ---------- What every reachable state keeps ----------

  /** The reason given for an outcome is true of the log. */
  ghost predicate Explained(kind: Backend, log: seq<Commit>, id: nat, c: Call)
    requires c.phase.Returned?
  {
    var Returned(out, how, at) := c.phase;
    var k := c.req.key;
    && c.from <= at <= |log| && (c.crowded > 0 ==> c.req.Acquire? || how.ByLostRace?)
    && match how
       case ByWrite(i) =>
         && c.from <= i < at && log[i].id == id && log[i].rec.key == k && c.startedAt <= log[i].now
         && Atomic(kind, Latest(log[..i], k), c.req, log[i].now) == (Some(log[i].rec), out)
       case ByRead(i, now) =>
         c.from <= i <= at && c.startedAt <= now && Decide(Latest(log[..i], k), c.req, now) == Answer(out)
       case ByLostRace(i) =>
         && c.from <= i <= at && (Others(log[i..at], k, id) >= 1 || c.crowded >= 1)
         && (|| (c.req.Renew? && out.Refused?) || (c.req.Sweep? && out == Skipped)
             || (c.req.Release? && out == Released && Names(Latest(log[..i], k), c.req.holder, c.req.token)
                 && (c.crowded >= 1 ==> Latest(log[..at], k) == Latest(log[..i], k))))
       case ByExhaustion =>
         c.req.Acquire? && out == Exhausted && Others(log[c.from..at], k, id) + c.crowded >= MAX_ATTEMPTS
       case ByFailure => out == Failed
       case ByValidation => out == Invalid && !ValidRequest(c.req)
  }

  /** What an unfinished call knows. */
  ghost predicate InFlight(log: seq<Commit>, clock: Time, id: nat, c: Call)
    requires !c.phase.Returned?
  {
    var k := c.req.key;
    && ValidRequest(c.req) && c.from <= |log| && c.startedAt <= clock
    && (forall i :: 0 <= i < |log| ==> log[i].id != id)
    && (c.crowded > 0 ==> c.req.Acquire? || c.phase.Rereading?)
    && match c.phase
       case Calling(f) => f < MAX_ATTEMPTS && Others(log[c.from..], k, id) + c.crowded >= f
       case Fetched(f, cur, seen) =>
         && f < MAX_ATTEMPTS && c.from <= seen <= |log| && cur == Latest(log[..seen], k)
         && Others(log[c.from..seen], k, id) + c.crowded >= f
       case Putting(f, cur, seen, next, now) =>
         && f < MAX_ATTEMPTS && c.from <= seen <= |log| && cur == Latest(log[..seen], k)
         && Others(log[c.from..seen], k, id) + c.crowded >= f
         && Decide(cur, c.req, now) == Write(next)
         && c.startedAt <= now <= clock && (cur.Some? ==> cur.value.renewedAt <= now)
       case Rereading(stale, seen) =>
         c.req.Renew? && c.from <= seen <= |log| && (Others(log[seen..], k, id) >= 1 || c.crowded >= 1)
       case Returned(_, _, _) => false
  }

  ghost predicate CallOk(kind: Backend, log: seq<Commit>, clock: Time, id: nat, c: Call) {
    && (c.crowded > 0 ==> kind.Shared?)
    && if c.phase.Returned? then Explained(kind, log, id, c) else InFlight(log, clock, id, c)
  }

  /** What was stored is not rounded again. */
  ghost predicate StoreRounded(s: State) { forall k :: k in s.store ==> Rounded(s.kind, s.store[k]) == s.store[k] }

  ghost predicate Inv(s: State) {
    && LegalLog(s.kind, s.log)
    && (forall i :: 0 <= i < |s.log| ==> s.log[i].now <= s.clock && s.log[i].id in s.calls)
    && (forall k :: Lookup(s.store, k) == Latest(s.log, k)) && StoreRounded(s)
    && (forall id :: id in s.calls ==> CallOk(s.kind, s.log, s.clock, id, s.calls[id]))
  }

  // ---------- Lemmas about logs ----------

  lemma {:induction false} LatestKey(log: seq<Commit>, k: Key)
    ensures Latest(log, k).Some? ==> Latest(log, k).value.key == k
    ensures Latest(log, k).Some? ==> exists i :: 0 <= i < |log| && log[i].rec == Latest(log, k).value
  {
    if log != [] && log[|log| - 1].rec.key != k {
      LatestKey(log[..|log| - 1], k);
    }
  }

  lemma {:induction false} OthersSplit(log: seq<Commit>, i: nat, k: Key, id: nat)
    requires i <= |log|
    ensures Others(log, k, id) == Others(log[..i], k, id) + Others(log[i..], k, id)
  {
    if i == |log| {
      assert log[..i] == log && log[i..] == [];
    } else {
      var n := |log| - 1;
      OthersSplit(log[..n], i, k, id);
      assert log[..n][..i] == log[..i];
      assert log[..n][i..] == log[i..][..n - i];
    }
  }

  lemma LegalPrefix(kind: Backend, log: seq<Commit>, i: nat)
    requires LegalLog(kind, log) && i <= |log|
    ensures LegalLog(kind, log[..i])
  {
    forall j | 0 <= j < i ensures Legal(kind, Latest(log[..i][..j], log[..i][j].rec.key), log[..i][j]) {
      assert log[..i][..j] == log[..j];
    }
  }

  lemma {:induction false} VersionPositive(kind: Backend, log: seq<Commit>, k: Key)
    requires LegalLog(kind, log)
    ensures VersionOf(Latest(log, k)) >= 0
    ensures Latest(log, k).Some? ==> VersionOf(Latest(log, k)) >= 1
  {
    if log != [] {
      var n := |log| - 1;
      LegalPrefix(kind, log, n);
      VersionPositive(kind, log[..n], k);
    }
  }

  lemma LatestStep(log: seq<Commit>, k: Key)
    requires log != []
    ensures var n := |log| - 1;
            Latest(log, k) == if log[n].rec.key == k then Some(log[n].rec) else Latest(log[..n], k)
  {
  }

  lemma OthersStep(log: seq<Commit>, i: nat, k: Key, id: nat)
    requires i < |log| && log[|log| - 1].id != id
    ensures var n := |log| - 1;
            Others(log[i..], k, id) == Others(log[..n][i..], k, id) + if log[n].rec.key == k then 1 else 0
  {
    var n := |log| - 1;
    assert log[i..][..n - i] == log[..n][i..];
    assert log[i..][n - i] == log[n];
  }

  lemma LegalLast(kind: Backend, log: seq<Commit>)
    requires LegalLog(kind, log) && log != []
    ensures var n := |log| - 1; Legal(kind, Latest(log[..n], log[n].rec.key), log[n])
  {
  }

  /** One more legal commit raises the version of its key by one. */
  lemma VersionStep(kind: Backend, prev: Option<Record>, c: Commit)
    requires Legal(kind, prev, c)
    ensures c.rec.version == VersionOf(prev) + 1
  {
  }

  /** The version of a key is exactly the number of its commits. */
  lemma {:induction false} VersionGrows(kind: Backend, log: seq<Commit>, i: nat, k: Key, id: nat)
    requires LegalLog(kind, log) && i <= |log|
    requires forall j :: i <= j < |log| ==> log[j].id != id
    ensures VersionOf(Latest(log, k)) == VersionOf(Latest(log[..i], k)) + Others(log[i..], k, id)
    ensures Others(log[i..], k, id) == 0 ==> Latest(log, k) == Latest(log[..i], k)
  {
    if i == |log| {
      assert log[..i] == log && log[i..] == [];
    } else {
      var n := |log| - 1;
      LegalPrefix(kind, log, n);
      VersionGrows(kind, log[..n], i, k, id);
      assert log[..n][..i] == log[..i];
      LatestStep(log, k);
      OthersStep(log, i, k, id);
      LegalLast(kind, log);
      VersionStep(kind, Latest(log[..n], log[n].rec.key), log[n]);
    }
  }

  /** Appending commits changes no prefix a call refers to. */
  lemma CallOkExtends(kind: Backend, log: seq<Commit>, x: Commit, clock: Time, id: nat, c: Call)
    requires CallOk(kind, log, clock, id, c)
    requires x.id != id || c.phase.Returned?
    ensures CallOk(kind, log + [x], clock, id, c)
  {
    var log' := log + [x];
    forall i | 0 <= i <= |log| ensures log'[..i] == log[..i] {}
    forall i, j | 0 <= i <= j <= |log| ensures log'[i..j] == log[i..j] {}
    if c.phase.Calling? {
      assert log'[c.from..] == log[c.from..] + [x];
      assert (log[c.from..] + [x])[..|log| - c.from] == log[c.from..];
    }
    if c.phase.Rereading? {
      var seen := c.phase.seen;
      assert log'[seen..] == log[seen..] + [x];
      assert (log[seen..] + [x])[..|log| - seen] == log[seen..];
    }
  }

  lemma WriteKeepsKey(cur: Option<Record>, req: Request, now: Time)
    requires Decide(cur, req, now).Write? && (cur.Some? ==> cur.value.key == req.key)
    ensures Decide(cur, req, now).next.key == req.key
  {
  }

  /** A call that wins its compare-and-swap decided from the record it replaces. */
  lemma WinnerReadCurrent(s: State, id: nat)
    requires Inv(s) && id in s.calls && s.calls[id].phase.Putting?
    ensures s.calls[id].phase.next.key == s.calls[id].req.key
    ensures Wins(s, id) <==> s.calls[id].phase.cur == Latest(s.log, s.calls[id].req.key)
    ensures !Wins(s, id) ==> Others(s.log[s.calls[id].phase.seen..], s.calls[id].req.key, id) >= 1
  {
    var Call(req, p, _, _, _) := s.calls[id];
    var k := req.key;
    assert CallOk(s.kind, s.log, s.clock, id, s.calls[id]);
    assert p.cur == Latest(s.log[..p.seen], k);
    WriteKeepsKey(p.cur, req, p.now) by { LatestKey(s.log[..p.seen], k); }
    VersionGrows(s.kind, s.log, p.seen, k, id);
    VersionPositive(s.kind, s.log, k);
    LegalPrefix(s.kind, s.log, p.seen);
    VersionPositive(s.kind, s.log[..p.seen], k);
    assert Lookup(s.store, k) == Latest(s.log, k);
  }
}
