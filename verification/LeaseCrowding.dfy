/**
 What a store of shared objects can do to its callers: a write that loses often enough to edits of
 other fields is reported as a conflict, and the server reads every conflict as a lost race.
 */
module LeaseCrowding {
  import opened Wrappers
  import opened KeyNames
  import opened LeaseRecord
  import opened LeaseRuns
  import opened LeaseInvariant
  import opened LeaseRelease

  /** State s after calls that wrote nothing. */
  function WithCalls(s: State, id: nat, c: Call): State { s.(calls := s.calls[id := c]) }

  /** A pending update from the record that is still stored can be crowded out. */
  lemma Crowds(s: State, id: nat, c: Call)
    requires s.kind.Shared? && c.phase.Putting? && c.phase.cur.Some?
    requires c.phase.next.key in s.store && c.phase.cur.value == s.store[c.phase.next.key]
             && c.phase.cur.value.version >= 1
    ensures Do(WithCalls(s, id, c), PutCrowded(id)) == WithCalls(s, id, Crowding(c, |s.log|))
  {
    var t := WithCalls(s, id, c);
    assert Crowdable(t, id);
    assert t.calls[id := Crowding(c, |s.log|)] == s.calls[id := Crowding(c, |s.log|)];
  }

  lemma StoredRecord(s: State, k: Key)
    requires Inv(s) && k in s.store
    ensures s.store[k].key == k && s.store[k].version >= 1 && 1 <= s.store[k].token
  {
    assert Lookup(s.store, k) == Latest(s.log, k);
    LatestKey(s.log, k);
    VersionPositive(s.kind, s.log, k);
    TokensInRange(s.kind, s.log, k);
  }

  // ---------- Release ----------

  function CrowdedRelease(k: Key, h: string, t: int, id: nat): seq<Event> {
    [Start(id, Release(k, h, t)), Get(id), Choose(id), PutCrowded(id)]
  }

  /**
   From every reachable state in which h holds k under t: a Release(h, t) that is crowded out returns nil
   though nothing was written, so h holds t as before, with no other call of anybody needed.
   */
  lemma CrowdedReleaseLies(s: State, k: Key, h: string, t: int, id: nat)
    requires Inv(s) && s.kind.Shared? && ValidKey(k) && h != "" && id !in s.calls && HeldAs(s, k, h, t)
    ensures var u := Run(s, CrowdedRelease(k, h, t, id));
            && id in u.calls && u.calls[id].phase.Returned? && u.calls[id].phase.out == Released
            && u.log == s.log && u.store == s.store && HeldAs(u, k, h, t)
  {
    RunOfFour(s, CrowdedRelease(k, h, t, id));
    StoredRecord(s, k);
    ReleaseReads(s, k, h, t, id);
    var p := Putting(0, Some(s.store[k]), |s.log|, TombstoneFrom(s.store[k], s.clock), s.clock);
    Crowds(s, id, Call(Release(k, h, t), p, |s.log|, s.clock, 0));
  }

  // ---------- Renew ----------

  function CrowdedRenew(k: Key, h: string, t: int, ttl: Time, id: nat): seq<Event> {
    [Start(id, Renew(k, h, t, ttl)), Get(id), Choose(id), PutCrowded(id)] + [Get(id)]
  }

  /** A Renew of the holder that is crowded out is refused in favour of the holder itself. */
  lemma CrowdedRenewLies(s: State, k: Key, h: string, t: int, ttl: Time, id: nat)
    requires Inv(s) && s.kind.Shared? && ValidRequest(Renew(k, h, t, ttl)) && id !in s.calls
    requires HeldAs(s, k, h, t) && !s.store[k].Expired(s.clock)
    ensures var u := Run(s, CrowdedRenew(k, h, t, ttl, id));
            && id in u.calls && u.calls[id].phase.Returned? && u.calls[id].phase.out == Report(s.store[k])
            && u.log == s.log && u.store == s.store && HeldAs(u, k, h, t)
  {
    var r := Renew(k, h, t, ttl);
    var es := [Start(id, r), Get(id), Choose(id), PutCrowded(id)];
    var p := Putting(0, Some(s.store[k]), |s.log|, s.store[k].(renewedAt := s.clock, ttl := ttl), s.clock);
    var c := Call(r, p, |s.log|, s.clock, 0);
    StoredRecord(s, k);
    RenewReads(s, k, h, t, ttl, id);
    Crowds(s, id, c);
    RunOfFour(s, es);
    RunJoins(s, es, [Get(id)]);
    assert [Get(id)][..0] == [];
    Rereads(s, id, Crowding(c, |s.log|));
  }

  lemma Rereads(s: State, id: nat, c: Call)
    requires c.phase.Rereading? && c.req.key in s.store
    ensures Do(WithCalls(s, id, c), Get(id)) ==
            WithCalls(s, id, c.(phase := Returned(Report(s.store[c.req.key]), ByLostRace(c.phase.seen), |s.log|)))
  {
    var t := WithCalls(s, id, c);
    var d := c.(phase := Returned(Report(s.store[c.req.key]), ByLostRace(c.phase.seen), |s.log|));
    assert t.calls[id := d] == s.calls[id := d];
  }

  // ---------- Acquire ----------

  function Rounds(id: nat, n: nat): seq<Event> {
    if n == 0 then [] else Rounds(id, n - 1) + [Get(id), Choose(id), PutCrowded(id)]
  }

  /** An Acquire that starts in s, after n attempts that were crowded out. */
  function Attempted(s: State, req: Request, n: nat): Call {
    Call(req, if n < MAX_ATTEMPTS then Calling(n) else Returned(Exhausted, ByExhaustion, |s.log|), |s.log|, s.clock, n)
  }

  /** The Acquire would write over the record now stored. */
  predicate WouldWrite(s: State, req: Request) {
    && req.Acquire? && ValidRequest(req) && req.key in s.store
    && s.store[req.key].version >= 1 && Decide(Some(s.store[req.key]), req, s.clock).Write?
  }

  lemma RunOfThree(s: State, a: Event, b: Event, c: Event)
    ensures Run(s, [a, b, c]) == Do(Do(Do(s, a), b), c)
  {
    assert [a, b, c][..2] == [a, b] && [a, b][..1] == [a] && [a][..0] == [];
    assert Run(s, [a]) == Do(s, a);
    assert Run(s, [a, b]) == Do(Do(s, a), b);
  }

  lemma Fetches(s: State, req: Request, id: nat, n: nat)
    requires n < MAX_ATTEMPTS && WouldWrite(s, req)
    ensures Do(WithCalls(s, id, Attempted(s, req, n)), Get(id)) ==
            WithCalls(s, id, Attempted(s, req, n).(phase := Fetched(n, Some(s.store[req.key]), |s.log|)))
  {
    var c := Attempted(s, req, n);
    var d := c.(phase := Fetched(n, Some(s.store[req.key]), |s.log|));
    assert WithCalls(s, id, c).calls[id := d] == s.calls[id := d];
  }

  function Choice(s: State, req: Request, n: nat): Phase
    requires WouldWrite(s, req)
  {
    var cur := Some(s.store[req.key]);
    Putting(n, cur, |s.log|, Decide(cur, req, s.clock).next, s.clock)
  }

  lemma Chooses(s: State, req: Request, id: nat, n: nat)
    requires n < MAX_ATTEMPTS && WouldWrite(s, req)
    ensures var c := Attempted(s, req, n);
            Do(WithCalls(s, id, c.(phase := Fetched(n, Some(s.store[req.key]), |s.log|))), Choose(id)) ==
            WithCalls(s, id, c.(phase := Choice(s, req, n)))
  {
    var c := Attempted(s, req, n);
    var t := WithCalls(s, id, c.(phase := Fetched(n, Some(s.store[req.key]), |s.log|)));
    var d := c.(phase := Choice(s, req, n));
    assert t.calls[id := d] == s.calls[id := d];
  }

  lemma CrowdedRound(s: State, req: Request, id: nat, n: nat)
    requires n < MAX_ATTEMPTS && s.kind.Shared? && WouldWrite(s, req) && s.store[req.key].key == req.key
    ensures Run(WithCalls(s, id, Attempted(s, req, n)), [Get(id), Choose(id), PutCrowded(id)]) ==
            WithCalls(s, id, Attempted(s, req, n + 1))
  {
    RunOfThree(WithCalls(s, id, Attempted(s, req, n)), Get(id), Choose(id), PutCrowded(id));
    Fetches(s, req, id, n);
    Chooses(s, req, id, n);
    WriteKeepsKey(Some(s.store[req.key]), req, s.clock);
    Crowds(s, id, Attempted(s, req, n).(phase := Choice(s, req, n)));
  }

  lemma {:induction false} CrowdedRounds(s: State, req: Request, id: nat, n: nat)
    requires n <= MAX_ATTEMPTS && s.kind.Shared? && WouldWrite(s, req) && s.store[req.key].key == req.key
    ensures Run(WithCalls(s, id, Attempted(s, req, 0)), Rounds(id, n)) == WithCalls(s, id, Attempted(s, req, n))
  {
    if n > 0 {
      CrowdedRounds(s, req, id, n - 1);
      RunJoins(WithCalls(s, id, Attempted(s, req, 0)), Rounds(id, n - 1), [Get(id), Choose(id), PutCrowded(id)]);
      CrowdedRound(s, req, id, n - 1);
    }
  }

  /** An Acquire that could take or extend the lease gives up after eight crowded attempts, with no write by anybody. */
  lemma CrowdedAcquireGivesUp(s: State, req: Request, id: nat)
    requires Inv(s) && s.kind.Shared? && id !in s.calls && WouldWrite(s, req)
    ensures var u := Run(s, [Start(id, req)] + Rounds(id, 8));
            && id in u.calls && u.calls[id].phase.Returned? && u.calls[id].phase.out == Exhausted
            && u.log == s.log && u.store == s.store
  {
    StoredRecord(s, req.key);
    RunJoins(s, [Start(id, req)], Rounds(id, MAX_ATTEMPTS));
    assert [Start(id, req)][..0] == [];
    assert Run(s, [Start(id, req)]) == Do(s, Start(id, req));
    CrowdedRounds(s, req, id, MAX_ATTEMPTS);
  }
}
