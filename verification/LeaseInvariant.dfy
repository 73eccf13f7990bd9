/** Every micro-step keeps the invariant of LeaseRuns, so every run does. */
module LeaseInvariant {
  import opened Wrappers
  import opened KeyNames
  import opened LeaseRecord
  import opened LeaseRuns

  /** Every write the server decides on obeys the law of its key. */
  lemma WriteIsLegal(kind: Backend, id: nat, cur: Option<Record>, req: Request, now: Time)
    requires ValidRequest(req) && Decide(cur, req, now).Write?
    requires cur.Some? ==>
             1 <= cur.value.token <= MAX_TOKEN && cur.value.renewedAt <= now && Rounded(kind, cur.value) == cur.value
    ensures Legal(kind, cur, Commit(id, now, Stored(kind, cur, Decide(cur, req, now).next)))
  {
  }

  lemma {:induction false} TokensInRange(kind: Backend, log: seq<Commit>, k: Key)
    requires LegalLog(kind, log)
    ensures Latest(log, k).Some? ==> 1 <= Latest(log, k).value.token <= MAX_TOKEN
  {
    if log != [] {
      LegalPrefix(kind, log, |log| - 1);
      TokensInRange(kind, log[..|log| - 1], k);
    }
  }

  lemma RoundedOnce(kind: Backend, r: Record)
    ensures Rounded(kind, Rounded(kind, r)) == Rounded(kind, r)
  {
  }

  lemma SetCall(s: State, id: nat, c: Call)
    requires Inv(s) && id in s.calls && CallOk(s.kind, s.log, s.clock, id, c)
    ensures Inv(s.(calls := s.calls[id := c]))
  {
  }

  lemma SetPhase(s: State, id: nat, phase: Phase)
    requires Inv(s) && id in s.calls
    requires CallOk(s.kind, s.log, s.clock, id, s.calls[id].(phase := phase))
    ensures Inv(WithCall(s, id, phase))
  {
    SetCall(s, id, s.calls[id].(phase := phase));
  }

  lemma LegalAppend(kind: Backend, log: seq<Commit>, x: Commit)
    requires LegalLog(kind, log) && Legal(kind, Latest(log, x.rec.key), x)
    ensures LegalLog(kind, log + [x])
  {
    var log' := log + [x];
    forall i | 0 <= i < |log'| ensures Legal(kind, Latest(log'[..i], log'[i].rec.key), log'[i]) {
      assert log'[..i] == log[..i];
      assert log[..|log|] == log;
    }
  }

  /** A winning write: the log grows by one lawful commit and the store follows it. */
  lemma CommitKeeps(s: State, id: nat)
    requires Inv(s) && id in s.calls && s.calls[id].phase.Putting? && Wins(s, id)
    ensures var t := Committed(s, id);
            && LegalLog(s.kind, t.log) && (forall k :: Lookup(t.store, k) == Latest(t.log, k)) && StoreRounded(t)
            && t.log[|s.log|] ==
               Commit(id, s.calls[id].phase.now,
                   Stored(s.kind, Latest(s.log, s.calls[id].req.key), s.calls[id].phase.next))
            && t.log[|s.log|].rec.key == s.calls[id].req.key
            && t.log[..|s.log|] == s.log
            && (forall j :: j in s.calls && j != id ==> CallOk(s.kind, t.log, t.clock, j, s.calls[j]))
  {
    var p := s.calls[id].phase;
    var t := Committed(s, id);
    var x := t.log[|s.log|];
    assert CallOk(s.kind, s.log, s.clock, id, s.calls[id]);
    WinnerReadCurrent(s, id);
    TokensInRange(s.kind, s.log, s.calls[id].req.key);
    assert Lookup(s.store, s.calls[id].req.key) == Latest(s.log, s.calls[id].req.key);
    WriteIsLegal(s.kind, id, p.cur, s.calls[id].req, p.now);
    LegalAppend(s.kind, s.log, x);
    RoundedOnce(s.kind, p.next);
    assert t.log[..|s.log|] == s.log;
    forall k ensures Lookup(t.store, k) == Latest(t.log, k) {
      assert Lookup(s.store, k) == Latest(s.log, k);
    }
    forall j | j in s.calls && j != id ensures CallOk(s.kind, t.log, t.clock, j, s.calls[j]) {
      CallOkExtends(s.kind, s.log, x, s.clock, j, s.calls[j]);
    }
  }

  lemma StartKeeps(s: State, id: nat, req: Request)
    requires Inv(s)
    ensures Inv(DoStart(s, id, req))
  {
  }

  lemma LostRaceAt(log: seq<Commit>, i: nat, k: Key, id: nat)
    requires i <= |log| && Others(log[i..], k, id) >= 1
    ensures Others(log[i..|log|], k, id) >= 1
  {
    assert log[i..|log|] == log[i..];
  }

  lemma FetchExplained(kind: Backend, log: seq<Commit>, clock: Time, id: nat, c: Call, cur: Option<Record>)
    requires CallOk(kind, log, clock, id, c) && c.phase.Calling? && cur == Latest(log, c.req.key)
    ensures CallOk(kind, log, clock, id, c.(phase := Fetched(c.phase.failures, cur, |log|)))
  {
    assert log[..|log|] == log && log[c.from..|log|] == log[c.from..];
  }

  lemma RereadExplained(kind: Backend, log: seq<Commit>, clock: Time, id: nat, c: Call, rec: Record)
    requires CallOk(kind, log, clock, id, c) && c.phase.Rereading?
    ensures CallOk(kind, log, clock, id, c.(phase := Returned(Report(rec), ByLostRace(c.phase.seen), |log|)))
  {
    assert log[c.phase.seen..|log|] == log[c.phase.seen..];
  }

  lemma GetKeeps(s: State, id: nat)
    requires Inv(s)
    ensures Inv(DoGet(s, id))
  {
    if id in s.calls {
      var c := s.calls[id];
      var cur := Lookup(s.store, c.req.key);
      assert cur == Latest(s.log, c.req.key);
      match c.phase
      case Calling(f) =>
        FetchExplained(s.kind, s.log, s.clock, id, c, cur);
        SetPhase(s, id, Fetched(f, cur, |s.log|));
      case Rereading(stale, seen) =>
        RereadExplained(s.kind, s.log, s.clock, id, c, if cur.Some? then cur.value else stale);
        SetPhase(s, id, Returned(Report(if cur.Some? then cur.value else stale), ByLostRace(seen), |s.log|));
      case _ =>
    }
  }

  lemma GetFailsKeeps(s: State, id: nat)
    requires Inv(s)
    ensures Inv(DoGetFails(s, id))
  {
    if id in s.calls {
      var c := s.calls[id];
      assert CallOk(s.kind, s.log, s.clock, id, c);
      match c.phase
      case Calling(f) =>
        FailedOk(s.kind, s.log, s.clock, id, c);
        SetPhase(s, id, Returned(Failed, ByFailure, |s.log|));
      case Rereading(stale, seen) =>
        RereadExplained(s.kind, s.log, s.clock, id, c, stale);
        SetPhase(s, id, Returned(Report(stale), ByLostRace(seen), |s.log|));
      case _ =>
    }
  }

  /** The phase a decision moves to is explained. */
  lemma ChoiceExplained(s: State, id: nat)
    requires Inv(s) && id in s.calls && s.calls[id].phase.Fetched?
    ensures id in DoChoose(s, id).calls && DoChoose(s, id) == WithCall(s, id, DoChoose(s, id).calls[id].phase)
    ensures CallOk(s.kind, s.log, s.clock, id, DoChoose(s, id).calls[id])
  {
    assert CallOk(s.kind, s.log, s.clock, id, s.calls[id]);
    LatestKey(s.log[..s.calls[id].phase.seen], s.calls[id].req.key);
  }

  lemma ChooseKeeps(s: State, id: nat)
    requires Inv(s)
    ensures Inv(DoChoose(s, id))
  {
    if id in s.calls && s.calls[id].phase.Fetched? {
      ChoiceExplained(s, id);
      SetPhase(s, id, DoChoose(s, id).calls[id].phase);
    }
  }

  lemma OneMoreLoss(log: seq<Commit>, from: nat, seen: nat, k: Key, id: nat)
    requires from <= seen <= |log| && Others(log[seen..], k, id) >= 1
    ensures Others(log[from..], k, id) >= Others(log[from..seen], k, id) + 1
    ensures log[from..|log|] == log[from..]
  {
    OthersSplit(log[from..], seen - from, k, id);
    assert log[from..][..seen - from] == log[from..seen];
    assert log[from..][seen - from..] == log[seen..];
  }

  /** The phase a losing call moves to is explained. */
  lemma LossExplained(kind: Backend, log: seq<Commit>, clock: Time, id: nat, c: Call)
    requires CallOk(kind, log, clock, id, c) && c.phase.Putting? && Others(log[c.phase.seen..], c.req.key, id) >= 1
    ensures CallOk(kind, log, clock, id, c.(phase := LossPhase(c, |log|)))
  {
    LostRaceAt(log, c.phase.seen, c.req.key, id);
    OneMoreLoss(log, c.from, c.phase.seen, c.req.key, id);
  }

  /** And so is the phase of a call whose conflict left the record where it was. */
  lemma CrowdExplained(kind: Backend, log: seq<Commit>, clock: Time, id: nat, c: Call)
    requires kind.Shared? && !c.phase.Returned? && InFlight(log, clock, id, c) && c.phase.Putting?
    requires c.phase.cur == Latest(log, c.req.key)
    ensures CallOk(kind, log, clock, id, Crowding(c, |log|))
  {
    OthersGrow(log, c.from, c.phase.seen, c.req.key, id);
    assert log[..|log|] == log;
  }

  lemma OthersGrow(log: seq<Commit>, from: nat, seen: nat, k: Key, id: nat)
    requires from <= seen <= |log|
    ensures Others(log[from..], k, id) >= Others(log[from..seen], k, id)
    ensures log[from..|log|] == log[from..]
  {
    OthersSplit(log[from..], seen - from, k, id);
    assert log[from..][..seen - from] == log[from..seen];
  }

  lemma CrowdingOk(s: State, id: nat)
    requires Inv(s) && Crowdable(s, id)
    ensures CallOk(s.kind, s.log, s.clock, id, Crowding(s.calls[id], |s.log|))
  {
    assert CallOk(s.kind, s.log, s.clock, id, s.calls[id]);
    WinnerReadCurrent(s, id);
    CrowdExplained(s.kind, s.log, s.clock, id, s.calls[id]);
  }

  lemma CrowdedKeeps(s: State, id: nat)
    requires Inv(s)
    ensures Inv(DoPutCrowded(s, id))
  {
    if Crowdable(s, id) {
      CrowdingOk(s, id);
      SetCall(s, id, Crowding(s.calls[id], |s.log|));
    }
  }

  lemma LossKeeps(s: State, id: nat)
    requires Inv(s) && id in s.calls && s.calls[id].phase.Putting? && !Wins(s, id)
    ensures Inv(AfterLoss(s, id))
  {
    assert CallOk(s.kind, s.log, s.clock, id, s.calls[id]);
    WinnerReadCurrent(s, id);
    LossExplained(s.kind, s.log, s.clock, id, s.calls[id]);
    SetPhase(s, id, LossPhase(s.calls[id], |s.log|));
  }

  /** A state one commit later, with only the committing call's phase changed, is again good. */
  lemma CommitThen(s: State, id: nat, phase: Phase)
    requires Inv(s) && id in s.calls && s.calls[id].phase.Putting? && Wins(s, id)
    requires CallOk(s.kind, Committed(s, id).log, s.clock, id, s.calls[id].(phase := phase))
    ensures Inv(WithCall(Committed(s, id), id, phase))
  {
    CommitKeeps(s, id);
    assert CallOk(s.kind, s.log, s.clock, id, s.calls[id]);
    var u := WithCall(Committed(s, id), id, phase);
    forall i | 0 <= i < |u.log| ensures u.log[i].now <= u.clock && u.log[i].id in u.calls {
      if i < |s.log| { assert u.log[i] == s.log[i]; }
    }
  }

  lemma WonExplained(s: State, id: nat)
    requires Inv(s) && id in s.calls && s.calls[id].phase.Putting? && Wins(s, id)
    ensures Explained(s.kind, Committed(s, id).log, id, DoPut(s, id).calls[id])
  {
    assert CallOk(s.kind, s.log, s.clock, id, s.calls[id]);
    CommitKeeps(s, id);
    WinnerReadCurrent(s, id);
  }

  lemma PutKeeps(s: State, id: nat)
    requires Inv(s)
    ensures Inv(DoPut(s, id))
  {
    if id in s.calls && s.calls[id].phase.Putting? {
      if Wins(s, id) {
        WonExplained(s, id);
        CommitThen(s, id, Returned(Won(s.calls[id].req, s.calls[id].phase.next), ByWrite(|s.log|), |s.log| + 1));
      } else {
        LossKeeps(s, id);
      }
    }
  }

  /** A call whose write reported an error knows nothing. */
  lemma FailedOk(kind: Backend, log: seq<Commit>, clock: Time, id: nat, c: Call)
    requires c.from <= |log| && c.startedAt <= clock && (c.crowded > 0 ==> kind.Shared? && c.req.Acquire?)
    ensures CallOk(kind, log, clock, id, c.(phase := Returned(Failed, ByFailure, |log|)))
  {
  }

  lemma PutFailsStep(s: State, id: nat, landed: bool)
    requires id in s.calls && s.calls[id].phase.Putting?
    ensures DoPutFails(s, id, landed) ==
            if landed && Wins(s, id)
                then WithCall(Committed(s, id), id, Returned(Failed, ByFailure, |Committed(s, id).log|))
            else WithCall(s, id, Returned(Failed, ByFailure, |s.log|))
  {
  }

  lemma PutFailsKeeps(s: State, id: nat, landed: bool)
    requires Inv(s)
    ensures Inv(DoPutFails(s, id, landed))
  {
    if id in s.calls && s.calls[id].phase.Putting? {
      assert CallOk(s.kind, s.log, s.clock, id, s.calls[id]);
      PutFailsStep(s, id, landed);
      if landed && Wins(s, id) {
        FailedOk(s.kind, Committed(s, id).log, s.clock, id, s.calls[id]);
        CommitThen(s, id, Returned(Failed, ByFailure, |Committed(s, id).log|));
      } else {
        FailedOk(s.kind, s.log, s.clock, id, s.calls[id]);
        SetPhase(s, id, Returned(Failed, ByFailure, |s.log|));
      }
    }
  }

  lemma CallOkLater(kind: Backend, log: seq<Commit>, clock: Time, dt: nat, id: nat, c: Call)
    requires CallOk(kind, log, clock, id, c)
    ensures CallOk(kind, log, clock + dt, id, c)
  {
  }

  lemma CallsOkLater(s: State, dt: nat)
    requires Inv(s)
    ensures forall id :: id in s.calls ==> CallOk(s.kind, s.log, s.clock + dt, id, s.calls[id])
  {
    forall id | id in s.calls ensures CallOk(s.kind, s.log, s.clock + dt, id, s.calls[id]) {
      CallOkLater(s.kind, s.log, s.clock, dt, id, s.calls[id]);
    }
  }

  lemma AdvanceKeeps(s: State, dt: nat)
    requires Inv(s)
    ensures Inv(Do(s, Advance(dt)))
  {
    CallsOkLater(s, dt);
    SetClock(s, s.clock + dt);
  }

  lemma SetClock(s: State, clock: Time)
    requires Inv(s) && s.clock <= clock && forall id :: id in s.calls ==> CallOk(s.kind, s.log, clock, id, s.calls[id])
    ensures Inv(s.(clock := clock))
  {
  }

  lemma StepKeeps(s: State, e: Event)
    requires Inv(s)
    ensures Inv(Do(s, e))
  {
    match e
    case Start(id, req) => StartKeeps(s, id, req);
    case Get(id) => GetKeeps(s, id);
    case GetFails(id) => GetFailsKeeps(s, id);
    case Choose(id) => ChooseKeeps(s, id);
    case Put(id) => PutKeeps(s, id);
    case PutCrowded(id) => CrowdedKeeps(s, id);
    case PutFails(id, landed) => PutFailsKeeps(s, id, landed);
    case Advance(dt) => AdvanceKeeps(s, dt);
  }

  lemma {:induction false} RunKeeps(s: State, es: seq<Event>)
    requires Inv(s)
    ensures Inv(Run(s, es))
  {
    if es != [] {
      RunKeeps(s, es[..|es| - 1]);
      StepKeeps(Run(s, es[..|es| - 1]), es[|es| - 1]);
    }
  }

  lemma {:induction false} BackendStays(s: State, es: seq<Event>)
    ensures Run(s, es).kind == s.kind
  {
    if es != [] { BackendStays(s, es[..|es| - 1]); }
  }

  // ---------- The shape of one event ----------

  predicate Commits(s: State, e: Event) {
    && (e.Put? || (e.PutFails? && e.landed))
    && e.id in s.calls && s.calls[e.id].phase.Putting? && Wins(s, e.id)
  }

  /** All an event can do to the store and to calls other than its own. */
  ghost predicate Stepped(s: State, e: Event, t: State) {
    && s.clock <= t.clock && t.kind == s.kind
    && (if Commits(s, e) then t.log == Committed(s, e.id).log && t.store == Committed(s, e.id).store
        else t.log == s.log && t.store == s.store)
    && (forall j :: j in s.calls && (e.Advance? || e.id != j) ==> j in t.calls && t.calls[j] == s.calls[j])
    && (forall j :: j in t.calls && (e.Advance? || e.id != j) ==> j in s.calls)
  }

  lemma StepShape(s: State, e: Event)
    ensures Stepped(s, e, Do(s, e))
  {
  }

  /** One event either leaves a key alone or puts one lawful commit of a call in flight on it. */
  lemma KeyStep(s: State, e: Event, t: State, k: Key)
    requires Inv(s) && Inv(t) && Stepped(s, e, t)
    ensures Lookup(s.store, k) == Latest(s.log, k) && Lookup(t.store, k) == Latest(t.log, k)
    ensures if Commits(s, e) && s.calls[e.id].req.key == k
            then && |t.log| == |s.log| + 1 && Lookup(t.store, k) == Some(t.log[|s.log|].rec)
                 && t.log[|s.log|] ==
                    Commit(e.id, s.calls[e.id].phase.now, Stored(s.kind, Lookup(s.store, k), s.calls[e.id].phase.next))
                 && Legal(s.kind, Lookup(s.store, k), t.log[|s.log|])
                 && s.calls[e.id].phase.cur == Lookup(s.store, k)
            else Lookup(t.store, k) == Lookup(s.store, k)
  {
    assert Lookup(s.store, k) == Latest(s.log, k);
    if Commits(s, e) {
      CommitKeeps(s, e.id);
      WinnerReadCurrent(s, e.id);
      var x := t.log[|s.log|];
      assert Legal(s.kind, Latest(t.log[..|s.log|], x.rec.key), x);
    }
  }

  predicate AskedFor(req: Request, prev: Option<Record>, next: Record, now: Time) {
    match req
    case Acquire(_, h, ttl) => next.holder == h && next.ttl == ttl
    case Renew(_, h, _, ttl) => next.holder == h && next.ttl == ttl
    case Release(_, h, t) => prev.Some? && prev.value.holder == h && prev.value.token == t && next.holder == ""
    case Sweep(_, grace) => prev.Some? && now >= prev.value.ExpiresAt() + grace && next.holder == ""
  }

  lemma WriteByRequest(cur: Option<Record>, req: Request, now: Time)
    requires ValidRequest(req) && Decide(cur, req, now).Write?
    ensures var next := Decide(cur, req, now).next; AskedFor(req, cur, next, now) && next.renewedAt == now
  {
  }

  /** What a commit does to its key, by the request behind it. */
  lemma CommitByRequest(s: State, e: Event)
    requires Inv(s) && Commits(s, e)
    ensures var Call(req, p, _, startedAt, _) := s.calls[e.id];
            && ValidRequest(req) && p.now <= s.clock && startedAt <= p.now && p.next.renewedAt == p.now
            && AskedFor(req, Lookup(s.store, req.key), p.next, p.now)
  {
    var c := s.calls[e.id];
    assert CallOk(s.kind, s.log, s.clock, e.id, c);
    WinnerReadCurrent(s, e.id);
    assert Lookup(s.store, c.req.key) == Latest(s.log, c.req.key);
    WriteByRequest(c.phase.cur, c.req, c.phase.now);
  }

  /** A call keeps its request and its start, and once returned its answer. */
  lemma CallsKeep(s: State, e: Event, j: nat)
    requires j in s.calls
    ensures j in Do(s, e).calls
    ensures var c, d := s.calls[j], Do(s, e).calls[j];
            c.req == d.req && c.from == d.from && c.startedAt == d.startedAt && (c.phase.Returned? ==> d == c)
  {
  }
}
