/**
 What each operation answers and stores, read off the stored record's fields alone, and what a call
 that nobody disturbs does from every reachable state.
 */
module LeaseAnswers {
  import opened Wrappers
  import opened KeyNames
  import opened LeaseRecord
  import opened LeaseRuns
  import opened LeaseInvariant
  import opened LeaseRelease
  import opened LeaseCrowding

  // ---------- One operation on one record ----------

  /** h has the lease at this instant: the last one of its life counts. */
  predicate Holds(cur: Option<Record>, h: string, now: Time) {
    cur.Some? && cur.value.holder == h && now <= cur.value.renewedAt + cur.value.ttl
  }

  /** Nobody has it. */
  predicate Vacant(cur: Option<Record>, now: Time) {
    cur.Some? ==> cur.value.holder == "" || now > cur.value.renewedAt + cur.value.ttl
  }

  /** The refusal that reports the record in the way. */
  predicate Reports(out: Outcome, r: Record) {
    && out.Refused? && out.holder == r.holder && out.token == r.token && out.acquiredAt == r.acquiredAt
    && out.expiresAt == r.renewedAt + r.ttl
  }

  /**
   Acquire grants exactly on a vacant key below the token ceiling, under the next token, and to the holder itself,
   who keeps token and acquisition time; at the ceiling a vacant key is an error; otherwise it reports the holder.
   */
  lemma AcquireAnswers(kind: Backend, cur: Option<Record>, k: Key, h: string, ttl: Time, now: Time)
    requires h != ""
    ensures var (rec, out) := Atomic(kind, cur, Acquire(k, h, ttl), now);
            var top := cur.Some? && cur.value.token == 0x7fff_ffff;
            && (out.Granted? <==> Holds(cur, h, now) || (Vacant(cur, now) && !top))
            && (out.Ceiling? <==> Vacant(cur, now) && top)
            && (out.Refused? <==> !Holds(cur, h, now) && !Vacant(cur, now))
            && (out.Granted? ==>
                  && out.holder == h && out.expiresAt == now + ttl
                  && out.token ==
                     (if cur.None? then 1 else if Vacant(cur, now) then cur.value.token + 1 else cur.value.token)
                  && out.acquiredAt == (if Vacant(cur, now) then now else cur.value.acquiredAt)
                  && rec == Some(Record(k, h, ttl, Floor(kind, out.acquiredAt), Floor(kind, now), out.token,
                                        if cur.None? then 1 else cur.value.version + 1)))
            && (!out.Granted? ==> rec == cur)
            && (out.Refused? ==> Reports(out, cur.value))
  {
  }

  /** Renew grants exactly to the holder under its token, and changes the times alone. */
  lemma RenewAnswers(kind: Backend, cur: Option<Record>, k: Key, h: string, t: int, ttl: Time, now: Time)
    ensures var (rec, out) := Atomic(kind, cur, Renew(k, h, t, ttl), now);
            && (out.Granted? <==> Holds(cur, h, now) && cur.value.token == t)
            && (out.Refused? <==> !out.Granted?)
            && (out.Granted? ==>
                  && out == Granted(h, t, now + ttl, cur.value.acquiredAt)
                  && rec == Some(Record(cur.value.key, h, ttl, Floor(kind, cur.value.acquiredAt), Floor(kind, now), t,
                                        cur.value.version + 1)))
            && (out.Refused? ==> rec == cur)
            && (out.Refused? && cur.Some? ==> Reports(out, cur.value))
            && (cur.None? ==> out == Refused("", 0, 0, 0))
  {
  }

  /** Release buries exactly the lease it names, expired or not, and is content when nobody holds. */
  lemma ReleaseAnswers(kind: Backend, cur: Option<Record>, k: Key, h: string, t: int, now: Time)
    requires h != ""
    ensures var (rec, out) := Atomic(kind, cur, Release(k, h, t), now);
            var named := cur.Some? && cur.value.holder == h && cur.value.token == t;
            && (out == Mismatch <==> cur.Some? && cur.value.holder != "" && !named)
            && (out == Released <==> out != Mismatch)
            && rec == if named
                      then Some(Record(cur.value.key, "", 0, Floor(kind, cur.value.acquiredAt), Floor(kind, now), t,
                                       cur.value.version + 1))
                      else cur
  {
  }

  /** A sweep buries exactly a lease that has been over for the whole grace window. */
  lemma SweepAnswers(kind: Backend, cur: Option<Record>, k: Key, grace: Time, now: Time)
    ensures var (rec, out) := Atomic(kind, cur, Sweep(k, grace), now);
            var over := cur.Some? && cur.value.holder != "" && now - (cur.value.renewedAt + cur.value.ttl) >= grace;
            && out == (if over then Swept else Skipped)
            && rec == if over
                      then Some(Record(cur.value.key, "", 0, Floor(kind, cur.value.acquiredAt), Floor(kind, now),
                                       cur.value.token, cur.value.version + 1))
                      else cur
  {
  }

  // ---------- A call nobody disturbs ----------

  function Undisturbed(id: nat, req: Request): seq<Event> { [Start(id, req), Get(id), Choose(id), Put(id)] }

  /** The call after its read. */
  function Reading(s: State, req: Request): Call {
    Call(req, Fetched(0, Lookup(s.store, req.key), |s.log|), |s.log|, s.clock, 0)
  }

  lemma StartsAndReads(s: State, id: nat, req: Request)
    requires id !in s.calls && ValidRequest(req)
    ensures Do(Do(s, Start(id, req)), Get(id)) == WithCalls(s, id, Reading(s, req))
  {
    var c := Call(req, Calling(0), |s.log|, s.clock, 0);
    assert Do(s, Start(id, req)) == WithCalls(s, id, c);
    assert WithCalls(s, id, c).calls[id := Reading(s, req)] == s.calls[id := Reading(s, req)];
  }

  function Decided(s: State, req: Request): Call {
    var cur := Lookup(s.store, req.key);
    match Decide(cur, req, s.clock)
    case Answer(out) => Call(req, Returned(out, ByRead(|s.log|, s.clock), |s.log|), |s.log|, s.clock, 0)
    case Write(next) => Call(req, Putting(0, cur, |s.log|, next, s.clock), |s.log|, s.clock, 0)
  }

  lemma Decides(s: State, id: nat, req: Request)
    ensures Do(WithCalls(s, id, Reading(s, req)), Choose(id)) == WithCalls(s, id, Decided(s, req))
  {
    var t := WithCalls(s, id, Reading(s, req));
    assert t.calls[id := Decided(s, req)] == s.calls[id := Decided(s, req)];
  }

  lemma Writes(s: State, id: nat, req: Request, cur: Option<Record>, next: Record)
    requires cur == Lookup(s.store, req.key) && (cur.Some? ==> cur.value.version >= 1)
    requires Decide(cur, req, s.clock) == Write(next) && next.key == req.key
    ensures var u := Do(WithCalls(s, id, Decided(s, req)), Put(id));
            && u.clock == s.clock && u.kind == s.kind && u.calls.Keys == s.calls.Keys + {id}
            && u.calls[id].phase.Returned? && u.calls[id].phase.out == Won(req, next)
            && u.store == s.store[req.key := Stored(s.kind, cur, next)]
  {
    assert Wins(WithCalls(s, id, Decided(s, req)), id);
  }

  /** From s to u one call did what the sequential service does in one step, and nothing else happened. */
  predicate OneStep(s: State, u: State, id: nat, req: Request) {
    && u.clock == s.clock && u.kind == s.kind && u.calls.Keys == s.calls.Keys + {id}
    && u.calls[id].phase.Returned?
    && var (rec, out) := Atomic(s.kind, Lookup(s.store, req.key), req, s.clock);
       && u.calls[id].phase.out == out
       && u.store == if rec.Some? then s.store[req.key := rec.value] else s.store
  }

  /** What a stored record is like in every reachable state. */
  predicate WellKept(kind: Backend, cur: Option<Record>, k: Key) {
    cur.Some? ==> cur.value.key == k && cur.value.version >= 1 && Rounded(kind, cur.value) == cur.value
  }

  lemma StoredWell(s: State, k: Key)
    requires Inv(s)
    ensures WellKept(s.kind, Lookup(s.store, k), k)
  {
    if k in s.store { StoredRecord(s, k); }
  }

  lemma UndisturbedStep(s: State, id: nat, req: Request, cur: Option<Record>)
    requires cur == Lookup(s.store, req.key) && WellKept(s.kind, cur, req.key) && id !in s.calls && ValidRequest(req)
    ensures OneStep(s, Run(s, Undisturbed(id, req)), id, req)
  {
    RunOfFour(s, Undisturbed(id, req));
    StartsAndReads(s, id, req);
    Decides(s, id, req);
    if Decide(cur, req, s.clock).Write? {
      WriteKeepsKey(cur, req, s.clock);
      Writes(s, id, req, cur, Decide(cur, req, s.clock).next);
    } else {
      assert req.key in s.store ==> s.store[req.key := s.store[req.key]] == s.store;
    }
  }

  /** From every reachable state, every operation that is left alone is one step of the sequential service. */
  lemma UndisturbedIsAtomic(s: State, id: nat, req: Request)
    requires Inv(s) && id !in s.calls && ValidRequest(req)
    ensures OneStep(s, Run(s, Undisturbed(id, req)), id, req)
  {
    StoredWell(s, req.key);
    UndisturbedStep(s, id, req, Lookup(s.store, req.key));
  }

  /** What an undisturbed call leaves of the held lease it extends. */
  predicate Extended(s: State, u: State, id: nat, k: Key, ttl: Time)
    requires k in s.store
  {
    var r := s.store[k];
    && id in u.calls && u.calls[id].phase.Returned?
    && u.calls[id].phase.out == Granted(r.holder, r.token, s.clock + ttl, r.acquiredAt)
    && u.clock == s.clock && u.kind == s.kind && u.calls.Keys == s.calls.Keys + {id}
    && u.store == s.store[k := r.(ttl := ttl, renewedAt := Floor(s.kind, s.clock), version := r.version + 1)]
  }

  /** The request is an Acquire or Renew of the record's holder, and not too late. */
  predicate ByHolder(r: Record, req: Request, now: Time) {
    && (req.Acquire? || (req.Renew? && r.token == req.token))
    && r.holder == req.holder && r.holder != "" && !r.Expired(now)
  }

  /** Both extend the record; its acquisition time was rounded when it was first stored. */
  lemma ExtendsRecord(kind: Backend, r: Record, req: Request, now: Time)
    requires ByHolder(r, req, now) && WellKept(kind, Some(r), req.key)
    ensures Atomic(kind, Some(r), req, now) ==
            (Some(r.(ttl := req.ttl, renewedAt := Floor(kind, now), version := r.version + 1)),
             Granted(r.holder, r.token, now + req.ttl, r.acquiredAt))
  {
    if req.Acquire? {
      AcquireAnswers(kind, Some(r), r.key, r.holder, req.ttl, now);
    } else {
      RenewAnswers(kind, Some(r), r.key, r.holder, r.token, req.ttl, now);
    }
  }

  lemma StepExtends(s: State, u: State, id: nat, req: Request)
    requires req.key in s.store && ByHolder(s.store[req.key], req, s.clock)
             && WellKept(s.kind, Lookup(s.store, req.key), req.key)
    requires OneStep(s, u, id, req)
    ensures Extended(s, u, id, req.key, req.ttl)
  {
    ExtendsRecord(s.kind, s.store[req.key], req, s.clock);
  }

  lemma HolderExtends(s: State, id: nat, req: Request)
    requires Inv(s) && id !in s.calls && ValidRequest(req)
    requires req.key in s.store && ByHolder(s.store[req.key], req, s.clock)
    ensures Extended(s, Run(s, Undisturbed(id, req)), id, req.key, req.ttl)
  {
    UndisturbedIsAtomic(s, id, req);
    StoredWell(s, req.key);
    StepExtends(s, Run(s, Undisturbed(id, req)), id, req);
  }

  /** The operator's heartbeat: an Acquire of the holder extends its lease under its token. */
  lemma HolderReacquires(s: State, id: nat, k: Key, h: string, t: int, ttl: Time)
    requires Inv(s) && id !in s.calls && ValidRequest(Acquire(k, h, ttl))
    requires HeldAs(s, k, h, t) && !s.store[k].Expired(s.clock)
    ensures Extended(s, Run(s, Undisturbed(id, Acquire(k, h, ttl))), id, k, ttl)
  {
    HolderExtends(s, id, Acquire(k, h, ttl));
  }

  /** The sidecar's heartbeat: so does a Renew under its token. */
  lemma HolderRenews(s: State, id: nat, k: Key, h: string, t: int, ttl: Time)
    requires Inv(s) && id !in s.calls && ValidRequest(Renew(k, h, t, ttl))
    requires HeldAs(s, k, h, t) && !s.store[k].Expired(s.clock)
    ensures Extended(s, Run(s, Undisturbed(id, Renew(k, h, t, ttl))), id, k, ttl)
  {
    HolderExtends(s, id, Renew(k, h, t, ttl));
  }

  /** An Acquire of anybody on a tombstone below the ceiling is granted the next token. */
  lemma TombstoneIsTaken(s: State, id: nat, k: Key, t: int, other: string, ttl: Time)
    requires Inv(s) && id !in s.calls && HeldAs(s, k, "", t) && t < MAX_TOKEN && ValidRequest(Acquire(k, other, ttl))
    ensures var u := Run(s, Undisturbed(id, Acquire(k, other, ttl)));
            && u.calls.Keys == s.calls.Keys + {id} && u.calls[id].phase.Returned?
            && u.calls[id].phase.out == Granted(other, t + 1, s.clock + ttl, s.clock) && HeldAs(u, k, other, t + 1)
  {
    UndisturbedIsAtomic(s, id, Acquire(k, other, ttl));
    AcquireAnswers(s.kind, Lookup(s.store, k), k, other, ttl, s.clock);
  }

  lemma HolderReleases(s: State, id: nat, k: Key, h: string, t: int)
    requires Inv(s) && id !in s.calls && HeldAs(s, k, h, t) && ValidRequest(Release(k, h, t))
    ensures var u := Run(s, Undisturbed(id, Release(k, h, t)));
            && u.clock == s.clock && u.calls.Keys == s.calls.Keys + {id} && u.calls[id].phase.Returned?
            && u.calls[id].phase.out == Released && HeldAs(u, k, "", t)
  {
    UndisturbedIsAtomic(s, id, Release(k, h, t));
    ReleaseAnswers(s.kind, Lookup(s.store, k), k, h, t, s.clock);
  }

  /** A Release of the holder ends the lease, and the next Acquire of anybody is granted above its token. */
  lemma ReleaseHandsOver(s: State, a: nat, b: nat, k: Key, h: string, t: int, other: string, ttl: Time)
    requires Inv(s) && a !in s.calls && b !in s.calls && a != b && HeldAs(s, k, h, t) && t < MAX_TOKEN
    requires ValidRequest(Release(k, h, t)) && ValidRequest(Acquire(k, other, ttl))
    ensures var u := Run(Run(s, Undisturbed(a, Release(k, h, t))), Undisturbed(b, Acquire(k, other, ttl)));
            && b in u.calls && u.calls[b].phase.Returned?
            && u.calls[b].phase.out == Granted(other, t + 1, s.clock + ttl, s.clock) && HeldAs(u, k, other, t + 1)
  {
    HolderReleases(s, a, k, h, t);
    RunKeeps(s, Undisturbed(a, Release(k, h, t)));
    TombstoneIsTaken(Run(s, Undisturbed(a, Release(k, h, t))), b, k, t, other, ttl);
  }

  /** While h has the lease, everybody else is told so, with its token, its expiry and since when. */
  lemma OthersAreRefused(s: State, id: nat, k: Key, h: string, t: int, other: string, ttl: Time)
    requires Inv(s) && id !in s.calls && ValidRequest(Acquire(k, other, ttl)) && other != h && h != ""
    requires HeldAs(s, k, h, t) && !s.store[k].Expired(s.clock)
    ensures var u := Run(s, Undisturbed(id, Acquire(k, other, ttl)));
            && id in u.calls && u.calls[id].phase.Returned? && Reports(u.calls[id].phase.out, s.store[k])
            && u.store == s.store
  {
    UndisturbedIsAtomic(s, id, Acquire(k, other, ttl));
    AcquireAnswers(s.kind, Lookup(s.store, k), k, other, ttl, s.clock);
    assert s.store[k := s.store[k]] == s.store;
  }
}
