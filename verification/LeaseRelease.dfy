/** When a Release that returned nil really means that the caller no longer holds. */
module LeaseRelease {
  import opened Wrappers
  import opened KeyNames
  import opened LeaseRecord
  import opened LeaseRuns
  import opened LeaseInvariant
  import opened LeaseTheorems

  predicate HeldAs(s: State, k: Key, h: string, t: int) {
    k in s.store && s.store[k].holder == h && s.store[k].token == t
  }

  /** No Acquire or Renew by h on k is in flight. */
  ghost predicate Quiet(s: State, k: Key, h: string) {
    forall id ::
      (id in s.calls && !s.calls[id].phase.Returned? && s.calls[id].req.key == k
       && (s.calls[id].req.Acquire? || s.calls[id].req.Renew?)) ==> s.calls[id].req.holder != h
  }

  ghost predicate QuietRun(s: State, es: seq<Event>, k: Key, h: string) {
    forall n :: 0 <= n <= |es| ==> Quiet(Run(s, es[..n]), k, h)
  }

  ghost predicate WasGranted(log: seq<Commit>, k: Key, h: string, t: int) {
    exists g :: 0 <= g < |log| && log[g].rec.key == k && log[g].rec.holder == h && log[g].rec.token == t
  }

  /** Once a granted token is neither held nor still to come, it is gone for good. */
  ghost predicate Gone(s: State, k: Key, h: string, t: int) {
    k in s.store && s.store[k].token >= t && !HeldAs(s, k, h, t)
  }

  lemma GoneStays(s: State, e: Event, u: State, k: Key, h: string, t: int)
    requires Inv(s) && Inv(u) && Stepped(s, e, u) && Gone(s, k, h, t) && h != ""
    ensures Gone(u, k, h, t)
  {
    KeyStep(s, e, u, k);
  }

  lemma {:induction false} GoneForever(s: State, es: seq<Event>, k: Key, h: string, t: int)
    requires Inv(s) && Gone(s, k, h, t) && h != ""
    ensures Gone(Run(s, es), k, h, t)
  {
    if es != [] {
      GoneForever(s, es[..|es| - 1], k, h, t);
      RunKeeps(s, es[..|es| - 1]);
      RunKeeps(s, es);
      StepShape(Run(s, es[..|es| - 1]), es[|es| - 1]);
      GoneStays(Run(s, es[..|es| - 1]), es[|es| - 1], Run(s, es), k, h, t);
    }
  }

  /** What a release in progress is worth while h stays quiet. */
  ghost predicate OnTheWay(s: State, id: nat, k: Key, h: string, t: int) {
    && id in s.calls && s.calls[id].req == Release(k, h, t)
    && k in s.store && s.store[k].token >= t
    && match s.calls[id].phase
       case Fetched(_, cur, _) => cur == Lookup(s.store, k) || !HeldAs(s, k, h, t)
       case Putting(_, cur, _, _, _) => cur == Lookup(s.store, k) || !HeldAs(s, k, h, t)
       case Returned(out, _, _) => out == Released && s.calls[id].crowded == 0 ==> !HeldAs(s, k, h, t)
       case _ => true
  }

  lemma OtherStepKeeps(s: State, e: Event, u: State, id: nat, k: Key, h: string, t: int)
    requires Inv(s) && Inv(u) && Stepped(s, e, u) && OnTheWay(s, id, k, h, t) && Quiet(s, k, h) && h != ""
    requires e.Advance? || e.id != id
    ensures OnTheWay(u, id, k, h, t)
  {
    KeyStep(s, e, u, k);
    if Commits(s, e) && s.calls[e.id].req.key == k {
      WinnerHolder(s, e.id);
    }
  }

  /** A commit names the holder of its call or nobody. */
  lemma WinnerHolder(s: State, id: nat)
    requires Inv(s) && id in s.calls && s.calls[id].phase.Putting?
    ensures var Call(req, p, _, _, _) := s.calls[id];
            if req.Acquire? || req.Renew? then p.next.holder == req.holder else p.next.holder == ""
  {
    assert CallOk(s.kind, s.log, s.clock, id, s.calls[id]);
  }

  lemma OwnStepKeeps(s: State, e: Event, id: nat, k: Key, h: string, t: int)
    requires Inv(s) && Inv(Do(s, e)) && Stepped(s, e, Do(s, e)) && OnTheWay(s, id, k, h, t) && h != ""
    requires !e.Advance? && e.id == id
    ensures OnTheWay(Do(s, e), id, k, h, t)
  {
    assert CallOk(s.kind, s.log, s.clock, id, s.calls[id]);
    KeyStep(s, e, Do(s, e), k);
    if s.calls[id].phase.Putting? {
      WinnerReadCurrent(s, id);
      WinnerHolder(s, id);
    }
  }

  lemma {:induction false} WayKept(s: State, es: seq<Event>, id: nat, k: Key, h: string, t: int)
    requires Inv(s) && OnTheWay(s, id, k, h, t) && QuietRun(s, es, k, h) && h != ""
    ensures OnTheWay(Run(s, es), id, k, h, t)
  {
    if es != [] {
      var n := |es| - 1;
      forall m | 0 <= m <= n ensures Quiet(Run(s, es[..n][..m]), k, h) { assert es[..n][..m] == es[..m]; }
      assert Quiet(Run(s, es[..n]), k, h);
      WayKept(s, es[..n], id, k, h, t);
      RunKeeps(s, es[..n]);
      var u := Run(s, es[..n]);
      StepShape(u, es[n]);
      StepKeeps(u, es[n]);
      if es[n].Advance? || es[n].id != id {
        OtherStepKeeps(u, es[n], Do(u, es[n]), id, k, h, t);
      } else {
        OwnStepKeeps(u, es[n], id, k, h, t);
      }
    }
  }

  /**
   A Release(h, t) of a granted token that returns nil with no Acquire or Renew by h in flight
   meanwhile is final, unless its write was crowded out: in no later state of any continuation
   does h hold t. If it was crowded out, h held t when it returned.
   */
  lemma ReleaseIsFinal(start: Time, kind: Backend, before: seq<Event>, id: nat, k: Key, h: string, t: int,
                       during: seq<Event>, after: seq<Event>)
    requires var s0 := Run(Init(start, kind), before);
             var s1 := Do(s0, Start(id, Release(k, h, t)));
             var s2 := Run(s1, during);
             && id !in s0.calls && WasGranted(s0.log, k, h, t) && QuietRun(s1, during, k, h)
             && id in s2.calls && s2.calls[id].phase.Returned? && s2.calls[id].phase.out == Released
    ensures var s2 := Run(Do(Run(Init(start, kind), before), Start(id, Release(k, h, t))), during);
            && (s2.calls[id].crowded == 0 ==> !HeldAs(Run(s2, after), k, h, t))
            && (s2.calls[id].crowded > 0 ==>
                  kind.Shared? && s2.calls[id].phase.at <= |s2.log|
                  && Names(Latest(s2.log[..s2.calls[id].phase.at], k), h, t))
  {
    var s0 := Run(Init(start, kind), before);
    var s1 := Do(s0, Start(id, Release(k, h, t)));
    var s2 := Run(s1, during);
    RunKeeps(Init(start, kind), before);
    StepKeeps(s0, Start(id, Release(k, h, t)));
    if h == "" {
      InvalidStays(s1, during, id);
    } else {
      TokenReached(s0, k, h, t);
      WayKept(s1, during, id, k, h, t);
      RunKeeps(s1, during);
      if s2.calls[id].crowded == 0 { GoneForever(s2, after, k, h, t); } else { CrowdedStillHeld(s2, id, k, h, t); }
      BackendStays(Init(start, kind), before);
      BackendStays(s1, during);
    }
  }

  lemma CrowdedStillHeld(s: State, id: nat, k: Key, h: string, t: int)
    requires Inv(s) && id in s.calls && s.calls[id].req == Release(k, h, t) && s.calls[id].crowded > 0
    requires s.calls[id].phase.Returned? && s.calls[id].phase.out == Released
    ensures s.kind.Shared? && s.calls[id].phase.how.ByLostRace? && s.calls[id].phase.at <= |s.log|
    ensures Names(Latest(s.log[..s.calls[id].phase.at], k), h, t)
  {
    assert CallOk(s.kind, s.log, s.clock, id, s.calls[id]);
  }

  /** A token once granted is never above the stored one. */
  lemma TokenReached(s: State, k: Key, h: string, t: int)
    requires Inv(s) && WasGranted(s.log, k, h, t)
    ensures k in s.store && s.store[k].token >= t
  {
    var g :| 0 <= g < |s.log| && s.log[g].rec.key == k && s.log[g].rec.holder == h && s.log[g].rec.token == t;
    LatestFollows(s.kind, s.log, g, |s.log|);
    assert s.log[..|s.log|] == s.log;
    assert Lookup(s.store, k) == Latest(s.log, k);
  }

  /** A returned call keeps its answer. */
  lemma {:induction false} InvalidStays(s: State, es: seq<Event>, id: nat)
    requires id in s.calls && s.calls[id].phase.Returned?
    ensures id in Run(s, es).calls && Run(s, es).calls[id] == s.calls[id]
  {
    if es != [] {
      InvalidStays(s, es[..|es| - 1], id);
      CallsKeep(Run(s, es[..|es| - 1]), es[|es| - 1], id);
    }
  }

  // ---------- Exactly when a nil Release is true ----------

  lemma {:induction false} LaterFollows(kind: Backend, log: seq<Commit>, a: nat, n: nat, k: Key)
    requires LegalLog(kind, log) && a <= n <= |log| && Latest(log[..a], k).Some?
    ensures Latest(log[..n], k).Some? && Follows(Latest(log[..a], k).value, Latest(log[..n], k).value)
  {
    if a < n {
      LaterFollows(kind, log, a, n - 1, k);
      assert log[..n][..n - 1] == log[..n - 1];
      assert Legal(kind, Latest(log[..n - 1], log[n - 1].rec.key), log[n - 1]);
    }
  }

  /** The write of the Release lost, and every commit on the key since its read kept h and t in place. */
  ghost predicate LostToOwn(log: seq<Commit>, how: How, at: nat, k: Key, h: string, t: int) {
    how.ByLostRace? && forall j :: how.i <= j < at && j < |log| && log[j].rec.key == k ==> Names(Some(log[j].rec), h, t)
  }

  lemma {:induction false} OwnCommitsKeep(log: seq<Commit>, i: nat, at: nat, k: Key, h: string, t: int)
    requires i <= at <= |log| && Names(Latest(log[..i], k), h, t)
    requires forall j :: i <= j < at && log[j].rec.key == k ==> Names(Some(log[j].rec), h, t)
    ensures Names(Latest(log[..at], k), h, t)
  {
    if i < at {
      OwnCommitsKeep(log, i, at - 1, k, h, t);
      assert log[..at][..at - 1] == log[..at - 1];
    }
  }

  lemma LatestAt(log: seq<Commit>, j: nat)
    requires j < |log|
    ensures Latest(log[..j + 1], log[j].rec.key) == Some(log[j].rec)
  {
  }

  /** A commit between two states that name (h, t) names them too. */
  lemma BetweenNames(kind: Backend, log: seq<Commit>, i: nat, j: nat, at: nat, k: Key, h: string, t: int)
    requires LegalLog(kind, log) && i <= j < at <= |log| && log[j].rec.key == k && h != ""
    requires Names(Latest(log[..i], k), h, t) && Names(Latest(log[..at], k), h, t)
    ensures Names(Some(log[j].rec), h, t)
  {
    LatestAt(log, j);
    LaterFollows(kind, log, i, j + 1, k);
    LaterFollows(kind, log, j + 1, at, k);
    BetweenFollows(Latest(log[..i], k).value, log[j].rec, Latest(log[..at], k).value, h, t);
  }

  lemma BetweenFollows(a: Record, b: Record, c: Record, h: string, t: int)
    requires Follows(a, b) && Follows(b, c) && h != "" && Names(Some(a), h, t) && Names(Some(c), h, t)
    ensures Names(Some(b), h, t)
  {
  }

  /** Once the latest record of a granted token no longer names it, no later one does. */
  lemma NeverAgain(kind: Backend, log: seq<Commit>, a: nat, n: nat, k: Key, h: string, t: int)
    requires LegalLog(kind, log) && a <= n <= |log| && h != "" && Latest(log[..a], k).Some?
    requires Latest(log[..a], k).value.token >= t && !Names(Latest(log[..a], k), h, t)
    ensures !Names(Latest(log[..n], k), h, t)
  {
    LaterFollows(kind, log, a, n, k);
  }

  lemma GrantedBefore(kind: Backend, log: seq<Commit>, from: nat, n: nat, k: Key, h: string, t: int)
    requires LegalLog(kind, log) && from <= n <= |log| && WasGranted(log[..from], k, h, t)
    ensures Latest(log[..n], k).Some? && Latest(log[..n], k).value.token >= t
  {
    var g :| 0 <= g < from && log[..from][g].rec.key == k && log[..from][g].rec.holder == h
        && log[..from][g].rec.token == t;
    LatestFollows(kind, log, g, n);
  }

  /** The key right after the Release decided: gone, unless its write lost to commits of h alone. */
  lemma NamedAtReturn(kind: Backend, log: seq<Commit>, id: nat, c: Call, k: Key, h: string, t: int)
    requires LegalLog(kind, log) && h != "" && c.req == Release(k, h, t) && c.from <= |log|
             && WasGranted(log[..c.from], k, h, t)
    requires c.phase.Returned? && c.phase.out == Released && Explained(kind, log, id, c)
    ensures Names(Latest(log[..c.phase.at], k), h, t) <==> LostToOwn(log, c.phase.how, c.phase.at, k, h, t)
  {
    var Returned(_, how, at) := c.phase;
    match how
    case ByWrite(i) =>
      LatestAt(log, i);
      NeverAgain(kind, log, i + 1, at, k, h, t);
    case ByRead(i, _) =>
      GrantedBefore(kind, log, c.from, i, k, h, t);
      NeverAgain(kind, log, i, at, k, h, t);
    case ByLostRace(i) => NamedAfterLoss(kind, log, i, at, k, h, t);
    case _ =>
  }

  lemma NamedAfterLoss(kind: Backend, log: seq<Commit>, i: nat, at: nat, k: Key, h: string, t: int)
    requires LegalLog(kind, log) && h != "" && i <= at <= |log| && Names(Latest(log[..i], k), h, t)
    ensures Names(Latest(log[..at], k), h, t) <==> LostToOwn(log, ByLostRace(i), at, k, h, t)
  {
    if LostToOwn(log, ByLostRace(i), at, k, h, t) { OwnCommitsKeep(log, i, at, k, h, t); }
    if Names(Latest(log[..at], k), h, t) {
      forall j | i <= j < at && log[j].rec.key == k ensures Names(Some(log[j].rec), h, t) {
        BetweenNames(kind, log, i, j, at, k, h, t);
      }
    }
  }

  lemma GoneSince(s: State, from: nat, at: nat, k: Key, h: string, t: int)
    requires Inv(s) && h != "" && from <= at <= |s.log| && WasGranted(s.log[..from], k, h, t)
             && !Names(Latest(s.log[..at], k), h, t)
    ensures !HeldAs(s, k, h, t)
  {
    GrantedBefore(s.kind, s.log, from, at, k, h, t);
    NeverAgain(s.kind, s.log, at, |s.log|, k, h, t);
    assert s.log[..|s.log|] == s.log;
    assert Lookup(s.store, k) == Latest(s.log, k);
  }

  /** Every commit that names a holder was made by an Acquire or Renew of that holder on that key. */
  ghost predicate Authored(s: State) {
    forall i :: 0 <= i < |s.log| ==> s.log[i].id in s.calls && Authors(s.calls[s.log[i].id].req, s.log[i].rec)
  }

  predicate Authors(req: Request, rec: Record) {
    req.key == rec.key && (rec.holder != "" ==> (req.Acquire? || req.Renew?) && req.holder == rec.holder)
  }

  lemma AuthoredStep(s: State, e: Event)
    requires Inv(s) && Authored(s)
    ensures Authored(Do(s, e))
  {
    var t := Do(s, e);
    StepShape(s, e);
    StepKeeps(s, e);
    forall i | 0 <= i < |t.log| ensures t.log[i].id in t.calls && Authors(t.calls[t.log[i].id].req, t.log[i].rec) {
      if i < |s.log| {
        assert t.log[i] == s.log[i];
        CallsKeep(s, e, s.log[i].id);
      } else {
        CommitByRequest(s, e);
        KeyStep(s, e, t, s.calls[e.id].req.key);
        CallsKeep(s, e, e.id);
        CommitKeeps(s, e.id);
      }
    }
  }

  lemma {:induction false} AuthoredRun(s: State, es: seq<Event>)
    requires Inv(s) && Authored(s)
    ensures Authored(Run(s, es))
  {
    if es != [] {
      AuthoredRun(s, es[..|es| - 1]);
      RunKeeps(s, es[..|es| - 1]);
      AuthoredStep(Run(s, es[..|es| - 1]), es[|es| - 1]);
    }
  }

  /**
   A nil Release of a granted token is true, from its return onward, exactly when its write did
   not lose with h and t in place: to writes of its own holder alone, each an Acquire or Renew
   of that holder, or, on shared objects, crowded out with no write at all.
   */
  lemma ReleaseFinalIff(start: Time, kind: Backend, es: seq<Event>, id: nat, k: Key, h: string, t: int)
    requires var s := Run(Init(start, kind), es);
             && h != "" && id in s.calls && s.calls[id].req == Release(k, h, t) && s.calls[id].phase.Returned?
             && s.calls[id].phase.out == Released && s.calls[id].from <= |s.log|
             && WasGranted(s.log[..s.calls[id].from], k, h, t)
    ensures var s := Run(Init(start, kind), es);
            var Call(_, Returned(_, how, at), _, _, crowded) := s.calls[id];
            && at <= |s.log|
            && (Names(Latest(s.log[..at], k), h, t) <==> LostToOwn(s.log, how, at, k, h, t))
            && (!LostToOwn(s.log, how, at, k, h, t) ==> !HeldAs(s, k, h, t))
            && (LostToOwn(s.log, how, at, k, h, t) ==>
                  && how.i <= at && (crowded == 0 ==> Others(s.log[how.i..at], k, id) >= 1)
                  && forall j :: how.i <= j < at && s.log[j].rec.key == k ==>
                       s.log[j].id in s.calls && Authors(s.calls[s.log[j].id].req, s.log[j].rec))
            && (crowded > 0 ==> kind.Shared? && LostToOwn(s.log, how, at, k, h, t))
  {
    RunKeeps(Init(start, kind), es);
    BackendStays(Init(start, kind), es);
    AuthoredRun(Init(start, kind), es);
    var s := Run(Init(start, kind), es);
    var c := s.calls[id];
    assert CallOk(kind, s.log, s.clock, id, c);
    NamedAtReturn(kind, s.log, id, c, k, h, t);
    if !Names(Latest(s.log[..c.phase.at], k), h, t) { GoneSince(s, c.from, c.phase.at, k, h, t); }
    if c.crowded > 0 { CrowdedStillHeld(s, id, k, h, t); }
  }

  // ---------- Without the side condition the promise fails ----------

  lemma LosingRelease(s: State, id: nat)
    requires id in s.calls && s.calls[id].req.Release? && s.calls[id].phase.Putting? && !Wins(s, id)
    ensures var u := Do(s, Put(id));
            id in u.calls && u.calls[id].phase.Returned? && u.calls[id].phase.out == Released && u.store == s.store
  {
  }

  /** Losing to a write that left (h, t) in place: nil is returned, and h still holds. */
  lemma ReleaseLosesToOwn(s: State, id: nat, k: Key, h: string, t: int)
    requires Inv(s) && id in s.calls && s.calls[id].req == Release(k, h, t) && s.calls[id].phase.Putting?
    requires HeldAs(s, k, h, t) && s.calls[id].phase.cur != Lookup(s.store, k)
    ensures var u := Do(s, Put(id));
            id in u.calls && u.calls[id].phase.Returned? && u.calls[id].phase.out == Released && HeldAs(u, k, h, t)
  {
    WinnerReadCurrent(s, id);
    assert Lookup(s.store, k) == Latest(s.log, k);
    LosingRelease(s, id);
  }

  /** A Release by call a, overtaken between its read and its write by a Renew of the same holder, call b. */
  function Overtaking(k: Key, h: string, t: int, ttl: Time, a: nat, b: nat): seq<Event> {
    [Start(a, Release(k, h, t)), Get(a), Choose(a), Start(b, Renew(k, h, t, ttl)), Get(b), Choose(b), Put(b), Put(a)]
  }

  lemma {:induction false} RunJoins(s: State, es: seq<Event>, fs: seq<Event>)
    ensures Run(s, es + fs) == Run(Run(s, es), fs)
  {
    if fs == [] {
      assert es + fs == es;
    } else {
      var n := |fs| - 1;
      RunJoins(s, es, fs[..n]);
      assert (es + fs)[..|es + fs| - 1] == es + fs[..n];
    }
  }

  lemma RunOfFour(s: State, es: seq<Event>)
    requires |es| == 4
    ensures Run(s, es) == Do(Do(Do(Do(s, es[0]), es[1]), es[2]), es[3])
  {
    assert es[..3][..2] == es[..2] && es[..2][..1] == es[..1] && es[..1][..0] == [];
    assert Run(s, es[..1]) == Do(s, es[0]);
    assert Run(s, es[..2]) == Do(Run(s, es[..1]), es[1]);
    assert Run(s, es[..3]) == Do(Run(s, es[..2]), es[2]);
  }

  /** The Release has read and decided to bury what it read. */
  lemma ReleaseReads(s: State, k: Key, h: string, t: int, a: nat)
    requires ValidKey(k) && h != "" && a !in s.calls && HeldAs(s, k, h, t)
    ensures Do(Do(Do(s, Start(a, Release(k, h, t))), Get(a)), Choose(a)) ==
            var p := Putting(0, Some(s.store[k]), |s.log|, TombstoneFrom(s.store[k], s.clock), s.clock);
            s.(calls := s.calls[a := Call(Release(k, h, t), p, |s.log|, s.clock, 0)])
  {
    var r := Release(k, h, t);
    var s1 := Do(s, Start(a, r));
    assert s1 == s.(calls := s.calls[a := Call(r, Calling(0), |s.log|, s.clock, 0)]);
    var s2 := Do(s1, Get(a));
    assert s2 == s.(calls := s.calls[a := Call(r, Fetched(0, Some(s.store[k]), |s.log|), |s.log|, s.clock, 0)]);
  }

  lemma RenewReads(s: State, k: Key, h: string, t: int, ttl: Time, b: nat)
    requires ValidRequest(Renew(k, h, t, ttl)) && b !in s.calls && HeldAs(s, k, h, t) && !s.store[k].Expired(s.clock)
    ensures var next := s.store[k].(renewedAt := s.clock, ttl := ttl);
            Do(Do(Do(s, Start(b, Renew(k, h, t, ttl))), Get(b)), Choose(b)) ==
            var p := Putting(0, Some(s.store[k]), |s.log|, next, s.clock);
            s.(calls := s.calls[b := Call(Renew(k, h, t, ttl), p, |s.log|, s.clock, 0)])
  {
    var r := Renew(k, h, t, ttl);
    var s1 := Do(s, Start(b, r));
    assert s1 == s.(calls := s.calls[b := Call(r, Calling(0), |s.log|, s.clock, 0)]);
    var s2 := Do(s1, Get(b));
    assert s2 == s.(calls := s.calls[b := Call(r, Fetched(0, Some(s.store[k]), |s.log|), |s.log|, s.clock, 0)]);
  }

  /** The renewal's commit keeps (h, t) and moves the version. */
  lemma RenewCommits(s: State, b: nat, k: Key, h: string, t: int, ttl: Time)
    requires HeldAs(s, k, h, t) && s.store[k].key == k && s.store[k].version >= 1 && b in s.calls
    requires s.calls[b].req.Renew? && s.calls[b].phase.Putting? && s.calls[b].phase.cur == Some(s.store[k])
    requires s.calls[b].phase.next == s.store[k].(renewedAt := s.clock, ttl := ttl)
    ensures var u := Do(s, Put(b));
            && HeldAs(u, k, h, t) && u.store[k].version == s.store[k].version + 1
            && forall j :: j in s.calls && j != b ==> j in u.calls && u.calls[j] == s.calls[j]
  {
  }

  /**
   From every reachable state in which h holds k under t unexpired, for every time to live: a
   Renew of h that commits between the read and the write of a Release(h, t) makes it return
   nil while h still holds t.
   */
  lemma OverlappedReleaseLies(s: State, k: Key, h: string, t: int, ttl: Time, a: nat, b: nat)
    requires Inv(s) && ValidKey(k) && ValidHolder(h) && ttl > 0 && a != b && a !in s.calls && b !in s.calls
    requires HeldAs(s, k, h, t) && !s.store[k].Expired(s.clock)
    ensures var u := Run(s, Overtaking(k, h, t, ttl, a, b));
            a in u.calls && u.calls[a].phase.Returned? && u.calls[a].phase.out == Released && HeldAs(u, k, h, t)
  {
    var es := Overtaking(k, h, t, ttl, a, b);
    var x, y := es[..4], es[4..];
    assert es == x + y;
    RunJoins(s, x, y);
    RunOfFour(s, x);
    RunOfFour(Run(s, x), y);
    assert Lookup(s.store, k) == Latest(s.log, k);
    LatestKey(s.log, k);
    VersionPositive(s.kind, s.log, k);
    TokensInRange(s.kind, s.log, k);
    ReleaseReads(s, k, h, t, a);
    var s3 := Do(Do(Do(s, es[0]), es[1]), es[2]);
    RenewReads(s3, k, h, t, ttl, b);
    var s6 := Do(Do(Do(s3, es[3]), es[4]), es[5]);
    RenewCommits(s6, b, k, h, t, ttl);
    RunKeeps(s, x);
    StepKeeps(Run(s, x), es[4]);
    StepKeeps(Do(Run(s, x), es[4]), es[5]);
    StepKeeps(s6, es[6]);
    ReleaseLosesToOwn(Do(s6, es[6]), a, k, h, t);
  }

  /** Acquire on an empty store, undisturbed. */
  function Acquiring(k: Key, h: string, ttl: Time): seq<Event> {
    [Start(0, Acquire(k, h, ttl)), Get(0), Choose(0), Put(0)]
  }

  lemma AcquiringHolds(start: Time, kind: Backend, k: Key, h: string, ttl: Time)
    requires ValidKey(k) && ValidHolder(h) && ttl >= Unit(kind)
    ensures var s := Run(Init(start, kind), Acquiring(k, h, ttl));
            s.clock == start && s.calls.Keys == {0} && HeldAs(s, k, h, 1) && !s.store[k].Expired(start)
  {
    RunOfFour(Init(start, kind), Acquiring(k, h, ttl));
    var c := Do(Do(Do(Init(start, kind), Start(0, Acquire(k, h, ttl))), Get(0)), Choose(0));
    assert c.calls[0].phase == Putting(0, None, 0, Record(k, h, ttl, start, start, 1, 0), start);
  }

  /** Such runs exist from the empty store, for every key, holder and time to live. */
  lemma ReleaseCanLieWhenOverlapped(start: Time, kind: Backend, k: Key, h: string, ttl: Time)
    requires ValidKey(k) && ValidHolder(h) && ttl >= Unit(kind)
    ensures var s := Run(Init(start, kind), Acquiring(k, h, ttl) + Overtaking(k, h, 1, ttl, 1, 2));
            && 1 in s.calls && s.calls[1].phase.Returned? && s.calls[1].phase.out == Released
            && HeldAs(s, k, h, 1)
  {
    var s := Run(Init(start, kind), Acquiring(k, h, ttl));
    AcquiringHolds(start, kind, k, h, ttl);
    RunKeeps(Init(start, kind), Acquiring(k, h, ttl));
    OverlappedReleaseLies(s, k, h, 1, ttl, 1, 2);
    RunJoins(Init(start, kind), Acquiring(k, h, ttl), Overtaking(k, h, 1, ttl, 1, 2));
  }
}
