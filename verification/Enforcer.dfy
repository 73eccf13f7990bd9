/** Signal enforcement: SIGTERM first, SIGKILL once the grace period has passed, afresh after every release. */
module Enforcers {
  import opened LeaseRecord

  datatype Signal = Term(pid: int) | Kill(pid: int)

  /** What one pass over the process list decides for one process. */
  function Treat(termed: map<int, Time>, pid: int, now: Time, grace: Time): (map<int, Time>, seq<Signal>) {
    if pid !in termed then (termed[pid := now], [Term(pid)])
    else if now - termed[pid] >= grace then (termed, [Kill(pid)])
    else (termed, [])
  }

  function Pass(termed: map<int, Time>, pids: seq<int>, now: Time, grace: Time): (map<int, Time>, seq<Signal>) {
    if pids == [] then (termed, [])
    else
      var n := |pids| - 1;
      var (before, sent) := Pass(termed, pids[..n], now, grace);
      var (after, more) := Treat(before, pids[n], now, grace);
      (after, sent + more)
  }

  /** How one attempt to signal a process ends. */
  datatype Fate = Delivered | Gone | Denied

  /** The attempt at position i, if there is one, is denied. */
  predicate DeniedAt(termed: map<int, Time>, pids: seq<int>, now: Time, grace: Time, fate: nat -> Fate, i: nat)
    requires i < |pids|
  {
    Treat(Pass(termed, pids[..i], now, grace).0, pids[i], now, grace).1 != [] && fate(i) == Denied
  }

  class SignalEnforcer {
    const grace: Time
    const probed: bool  // also toggles the health marker
    var healthy: bool   // the health marker is there
    var termedAt: map<int, Time>
    var sent: seq<Signal>

    constructor (grace: Time, probed: bool, healthy: bool)
      ensures this.grace == grace && this.probed == probed && this.healthy == healthy && termedAt == map[] && sent == []
    {
      this.grace, this.probed, this.healthy, termedAt, sent := grace, probed, healthy, map[], [];
    }

    /**
     removed: the marker could be removed. found: the process list could be read.
     The marker goes first, whatever becomes of the signals; a process that is gone is no error.
     */
    method Hold(removed: bool, found: bool, pids: seq<int>, now: Time, fate: nat -> Fate) returns (ok: bool)
      modifies this
      ensures healthy == (old(healthy) && !(probed && removed))
      ensures (termedAt, sent) ==
              if found then var (t, more) := Pass(old(termedAt), pids, now, grace); (t, old(sent) + more)
              else (old(termedAt), old(sent))
      ensures ok <==> && (probed ==> removed) && found
                      && forall i :: 0 <= i < |pids| ==> !DeniedAt(old(termedAt), pids, now, grace, fate, i)
    {
      ok := true;
      if probed {
        if removed { healthy := false; } else { ok := false; }
      }
      if !found {
        return false;
      }
      var i := 0;
      assert pids[..0] == [];
      while i < |pids|
        invariant 0 <= i <= |pids|
        invariant termedAt == Pass(old(termedAt), pids[..i], now, grace).0
        invariant sent == old(sent) + Pass(old(termedAt), pids[..i], now, grace).1
        invariant healthy == (old(healthy) && !(probed && removed))
        invariant ok
                  <==> (probed ==> removed) && forall j :: 0 <= j < i ==>
                      !DeniedAt(old(termedAt), pids, now, grace, fate, j)
      {
        var pid := pids[i];
        assert pids[..i + 1][..i] == pids[..i];
        assert DeniedAt(old(termedAt), pids, now, grace, fate, i)
          <==> fate(i) == Denied && (pid !in termedAt || now - termedAt[pid] >= grace);
        if pid !in termedAt {
          termedAt := termedAt[pid := now];
          sent := sent + [Term(pid)];
          if fate(i) == Denied { ok := false; }
        } else if now - termedAt[pid] >= grace {
          sent := sent + [Kill(pid)];
          if fate(i) == Denied { ok := false; }
        }
        i := i + 1;
      }
      assert pids[..|pids|] == pids;
    }

    /** saved: the marker could be written. */
    method Release(saved: bool) returns (ok: bool)
      modifies this
      ensures termedAt == map[] && sent == old(sent)
      ensures healthy == (old(healthy) || (probed && saved)) && (ok <==> (probed ==> saved))
    {
      termedAt := map[];
      if probed {
        if saved { healthy := true; }
        return saved;
      }
      return true;
    }
  }

  // ---------- Whole histories ----------

  datatype Act = Hold(pids: seq<int>, now: Time) | Release(now: Time)

  /** A signal tried, or the release that ends a gated episode. */
  datatype Mark = Sent(sig: Signal, at: Time) | Freed(at: Time)

  function Marked(signals: seq<Signal>, now: Time): seq<Mark> {
    if signals == [] then [] else Marked(signals[..|signals| - 1], now) + [Sent(signals[|signals| - 1], now)]
  }

  function Termed(acts: seq<Act>, grace: Time): map<int, Time> {
    if acts == [] then map[]
    else
      var before, a := Termed(acts[..|acts| - 1], grace), acts[|acts| - 1];
      if a.Hold? then Pass(before, a.pids, a.now, grace).0 else map[]
  }

  function History(acts: seq<Act>, grace: Time): seq<Mark> {
    if acts == [] then []
    else
      var before, a := acts[..|acts| - 1], acts[|acts| - 1];
      History(before, grace)
      + if a.Hold? then Marked(Pass(Termed(before, grace), a.pids, a.now, grace).1, a.now) else [Freed(a.now)]
  }

  /** No release lies strictly between two positions. */
  predicate SameEpisode(h: seq<Mark>, i: nat, j: nat) {
    forall k :: i < k < j && k < |h| ==> !h[k].Freed?
  }

  ghost predicate TermedBefore(h: seq<Mark>, j: nat, pid: int, latest: Time) {
    exists i :: 0 <= i < j && i < |h| && h[i].Sent? && h[i].sig == Term(pid) && h[i].at <= latest
        && SameEpisode(h, i, j)
  }

  /** What the escalation table says about the history so far. */
  ghost predicate TableTrue(h: seq<Mark>, termed: map<int, Time>, grace: Time) {
    && (forall pid :: pid in termed ==> TermedAt(h, pid, termed[pid]))
    && (forall i :: 0 <= i < |h| && h[i].Sent? && h[i].sig.Term? && SameEpisode(h, i, |h|) ==> h[i].sig.pid in termed)
    && (forall j :: 0 <= j < |h| && h[j].Sent? && h[j].sig.Kill? ==> TermedBefore(h, j, h[j].sig.pid, h[j].at - grace))
    && (forall i, j :: 0 <= i < j < |h| && h[i].Sent? && h[j].Sent? && h[i].sig.Term? && h[j].sig == h[i].sig ==>
       !SameEpisode(h, i, j))
  }

  ghost predicate TermedAt(h: seq<Mark>, pid: int, at: Time) {
    TermedBefore(h, |h|, pid, at)
  }

  lemma TermedBeforeGrows(h: seq<Mark>, x: Mark, j: nat, pid: int, latest: Time)
    requires TermedBefore(h, j, pid, latest) && j <= |h| && (j == |h| ==> !x.Freed?)
    ensures TermedBefore(h + [x], j, pid, latest)
    ensures j == |h| ==> TermedBefore(h + [x], j + 1, pid, latest)
  {
    var i :| 0 <= i < j && h[i].Sent? && h[i].sig == Term(pid) && h[i].at <= latest && SameEpisode(h, i, j);
    assert (h + [x])[i] == h[i];
    assert SameEpisode(h + [x], i, j);
    if j == |h| { assert SameEpisode(h + [x], i, j + 1); }
  }

  lemma SendKeeps(h: seq<Mark>, termed: map<int, Time>, pid: int, now: Time, grace: Time)
    requires TableTrue(h, termed, grace)
    ensures var (t, more) := Treat(termed, pid, now, grace);
            TableTrue(h + Marked(more, now), t, grace)
  {
    var (t, more) := Treat(termed, pid, now, grace);
    if more == [] {
      assert h + [] == h;
    } else {
      var x := Sent(more[0], now);
      assert more[..0] == [];
      assert Marked(more, now) == [x];
      OneMore(h, termed, t, x, grace);
    }
  }

  lemma OneMore(h: seq<Mark>, termed: map<int, Time>, t: map<int, Time>, x: Mark, grace: Time)
    requires TableTrue(h, termed, grace) && x.Sent?
    requires if x.sig.Term? then x.sig.pid !in termed && t == termed[x.sig.pid := x.at]
             else t == termed && x.sig.pid in termed && x.at - termed[x.sig.pid] >= grace
    ensures TableTrue(h + [x], t, grace)
  {
    var g := h + [x];
    forall pid | pid in t ensures TermedAt(g, pid, t[pid]) {
      if pid in termed && (x.sig.Kill? || pid != x.sig.pid) {
        TermedBeforeGrows(h, x, |h|, pid, termed[pid]);
      } else {
        assert g[|h|] == x && SameEpisode(g, |h|, |g|);
      }
    }
    forall i | 0 <= i < |g| && g[i].Sent? && g[i].sig.Term? && SameEpisode(g, i, |g|) ensures g[i].sig.pid in t {
      if i < |h| {
        assert SameEpisode(h, i, |h|) by { forall k | i < k < |h| ensures !h[k].Freed? { assert g[k] == h[k]; } }
      }
    }
    forall j | 0 <= j < |g| && g[j].Sent? && g[j].sig.Kill? ensures TermedBefore(g, j, g[j].sig.pid, g[j].at - grace) {
      if j < |h| {
        assert h[j] == g[j];
        TermedBeforeGrows(h, x, j, h[j].sig.pid, h[j].at - grace);
      } else {
        TermedBeforeGrows(h, x, |h|, x.sig.pid, termed[x.sig.pid]);
        var i :| 0 <= i < |h| && g[i].Sent? && g[i].sig == Term(x.sig.pid) && g[i].at <= termed[x.sig.pid]
            && SameEpisode(g, i, |h|);
      }
    }
    forall i, j | 0 <= i < j < |g| && g[i].Sent? && g[j].Sent? && g[i].sig.Term? && g[j].sig == g[i].sig
      ensures !SameEpisode(g, i, j)
    {
      if SameEpisode(g, i, j) {
        assert SameEpisode(h, i, j) by { forall k | i < k < j && k < |h| ensures !h[k].Freed? { assert g[k] == h[k]; } }
      }
    }
  }

  lemma {:induction false} PassKeeps(h: seq<Mark>, termed: map<int, Time>, pids: seq<int>, now: Time, grace: Time)
    requires TableTrue(h, termed, grace)
    ensures var (t, sent) := Pass(termed, pids, now, grace);
            TableTrue(h + Marked(sent, now), t, grace)
  {
    if pids == [] {
      assert h + [] == h;
    } else {
      var n := |pids| - 1;
      var (before, sent) := Pass(termed, pids[..n], now, grace);
      var (after, more) := Treat(before, pids[n], now, grace);
      PassKeeps(h, termed, pids[..n], now, grace);
      SendKeeps(h + Marked(sent, now), before, pids[n], now, grace);
      MarkedJoins(sent, more, now);
      assert h + Marked(sent, now) + Marked(more, now) == h + Marked(sent + more, now);
    }
  }

  lemma {:induction false} MarkedJoins(a: seq<Signal>, b: seq<Signal>, now: Time)
    ensures Marked(a + b, now) == Marked(a, now) + Marked(b, now)
  {
    if b == [] {
      assert a + b == a;
    } else {
      MarkedJoins(a, b[..|b| - 1], now);
      assert (a + b)[..|a + b| - 1] == a + b[..|b| - 1];
    }
  }

  lemma FreedKeeps(h: seq<Mark>, termed: map<int, Time>, now: Time, grace: Time)
    requires TableTrue(h, termed, grace)
    ensures TableTrue(h + [Freed(now)], map[], grace)
  {
    var x := Freed(now);
    var g := h + [x];
    assert g[|h|] == x;
    forall j | 0 <= j < |g| && g[j].Sent? && g[j].sig.Kill? ensures TermedBefore(g, j, g[j].sig.pid, g[j].at - grace) {
      assert h[j] == g[j];
      TermedBeforeGrows(h, x, j, h[j].sig.pid, h[j].at - grace);
    }
    forall i, j | 0 <= i < j < |g| && g[i].Sent? && g[j].Sent? && g[i].sig.Term? && g[j].sig == g[i].sig
      ensures !SameEpisode(g, i, j)
    {
      assert h[i] == g[i] && h[j] == g[j];
      if SameEpisode(g, i, j) {
        assert SameEpisode(h, i, j) by { forall k | i < k < j ensures !h[k].Freed? { assert g[k] == h[k]; } }
      }
    }
  }

  lemma {:induction false} HistoryKeeps(acts: seq<Act>, grace: Time)
    ensures TableTrue(History(acts, grace), Termed(acts, grace), grace)
  {
    if acts != [] {
      var before, a := acts[..|acts| - 1], acts[|acts| - 1];
      HistoryKeeps(before, grace);
      if a.Hold? {
        PassKeeps(History(before, grace), Termed(before, grace), a.pids, a.now, grace);
      } else {
        FreedKeeps(History(before, grace), Termed(before, grace), a.now, grace);
      }
    }
  }

  /**
   Over every sequence of Hold and Release: each SIGKILL follows a SIGTERM to the same
   process at least the grace period earlier with no release between.
   */
  lemma KillFollowsTerm(acts: seq<Act>, grace: Time, j: nat)
    requires var h := History(acts, grace); j < |h| && h[j].Sent? && h[j].sig.Kill?
    ensures var h := History(acts, grace);
            exists i :: 0 <= i < j && h[i].Sent? && h[i].sig == Term(h[j].sig.pid) && h[i].at <= h[j].at - grace
                && SameEpisode(h, i, j)
  {
    HistoryKeeps(acts, grace);
    var h := History(acts, grace);
    assert TermedBefore(h, j, h[j].sig.pid, h[j].at - grace);
  }

  /** A process gets at most one SIGTERM per gated episode. */
  lemma OneTermPerEpisode(acts: seq<Act>, grace: Time, i: nat, j: nat)
    requires var h := History(acts, grace);
             i < j < |h| && h[i].Sent? && h[j].Sent? && h[i].sig.Term? && h[j].sig == h[i].sig
    ensures var h := History(acts, grace); exists k :: i < k < j && h[k].Freed?
  {
    HistoryKeeps(acts, grace);
    assert !SameEpisode(History(acts, grace), i, j);
  }

  /** No listed process is spared: the first pass terminates it, every pass after the grace period kills it. */
  lemma {:induction false} EveryProcessTreated(termed: map<int, Time>, pids: seq<int>, now: Time, grace: Time, pid: int)
    requires pid in pids
    ensures var (t, sent) := Pass(termed, pids, now, grace);
            && pid in t && (pid in termed ==> t[pid] == termed[pid])
            && (pid !in termed ==> Term(pid) in sent)
            && (pid in termed && now - termed[pid] >= grace ==> Kill(pid) in sent)
  {
    var n := |pids| - 1;
    PassRemembers(termed, pids[..n], now, grace, pid);
    if pid in pids[..n] {
      EveryProcessTreated(termed, pids[..n], now, grace, pid);
    }
  }

  lemma {:induction false} PassRemembers(termed: map<int, Time>, pids: seq<int>, now: Time, grace: Time, pid: int)
    ensures var t := Pass(termed, pids, now, grace).0;
            && (pid in termed ==> pid in t && t[pid] == termed[pid])
            && (pid !in pids ==> (pid in t ==> pid in termed))
  {
    if pids != [] {
      PassRemembers(termed, pids[..|pids| - 1], now, grace, pid);
    }
  }
}
