/**
 The lease manager and the garbage collector as they are written: loops and early
 returns over a shared store. Each method takes the writes other clients make
 between its micro-steps and the clock values it reads, so its contract speaks
 about every schedule.
 */
module Managers {
  import opened Wrappers
  import opened KeyNames
  import opened LeaseRecord
  import opened MemStores

  const ATTEMPTS: nat := 8

  /** One pass: others run, the record is read, the clock is read, others run, the write is tried. */
  datatype Turn = Turn(beforeGet: seq<Attempt>, now: Time, beforePut: seq<Attempt>)

  /** The store when attempt i reads it, if every earlier attempt of the caller lost. */
  function AtRead(m: map<Key, Record>, turns: seq<Turn>, i: nat): map<Key, Record>
    requires i < |turns|
    decreases i, 0
  {
    Puts(if i == 0 then m else AtWrite(m, turns, i - 1), turns[i].beforeGet)
  }

  function AtWrite(m: map<Key, Record>, turns: seq<Turn>, i: nat): map<Key, Record>
    requires i < |turns|
    decreases i, 1
  {
    Puts(AtRead(m, turns, i), turns[i].beforePut)
  }

  lemma {:induction false} ReadsStayOk(m: map<Key, Record>, turns: seq<Turn>, i: nat, k: Key)
    requires StoreOk(m) && i < |turns|
    ensures StoreOk(AtRead(m, turns, i)) && StoreOk(AtWrite(m, turns, i))
  {
    if i > 0 {
      ReadsStayOk(m, turns, i - 1, k);
    }
    PutsGrow(if i == 0 then m else AtWrite(m, turns, i - 1), turns[i].beforeGet, k);
    PutsGrow(AtRead(m, turns, i), turns[i].beforePut, k);
  }

  /** Others moved the key between the read and the write of attempt i. */
  predicate Overtaken(m: map<Key, Record>, turns: seq<Turn>, i: nat, k: Key)
    requires i < |turns|
  {
    Lookup(AtWrite(m, turns, i), k) != Lookup(AtRead(m, turns, i), k)
  }

  /**
   A grant is one atomic step at the write of attempt n, a refusal is one at its read,
   and exhaustion means that all eight attempts were overtaken; the caller itself
   changes nothing but the record of a grant.
   */
  ghost predicate AcquireExplained(m: map<Key, Record>, turns: seq<Turn>, req: Request, n: nat, out: Outcome,
      after: map<Key, Record>)
    requires |turns| == ATTEMPTS && n < ATTEMPTS
  {
    var k := req.key;
    match out
    case Granted(_, _, _, _) =>
      var pre := AtWrite(m, turns, n);
      var (rec, result) := Atomic(Exact, Lookup(pre, k), req, turns[n].now);
      rec.Some? && result == out && after == pre[k := rec.value]
    case Refused(_, _, _, _) =>
      after == AtRead(m, turns, n) && Atomic(Exact, Lookup(after, k), req, turns[n].now) == (Lookup(after, k), out)
    case Ceiling =>
      after == AtRead(m, turns, n) && Atomic(Exact, Lookup(after, k), req, turns[n].now) == (Lookup(after, k), out)
    case Exhausted =>
      after == AtWrite(m, turns, ATTEMPTS - 1) && forall i :: 0 <= i < ATTEMPTS ==> Overtaken(m, turns, i, k)
    case _ => false
  }

  /** What one attempt does between the stores it reads and writes; None means that it was overtaken. */
  ghost predicate Tried(before: map<Key, Record>, turn: Turn, req: Request, res: Option<Outcome>,
      after: map<Key, Record>) {
    var read := Puts(before, turn.beforeGet);
    var pre := Puts(read, turn.beforePut);
    var k := req.key;
    match res
    case None => after == pre && Lookup(pre, k) != Lookup(read, k)
    case Some(Granted(_, _, _, _)) =>
      var (rec, result) := Atomic(Exact, Lookup(pre, k), req, turn.now);
      rec.Some? && result == res.value && after == pre[k := rec.value]
    case Some(Refused(_, _, _, _)) => after == read
        && Atomic(Exact, Lookup(read, k), req, turn.now) == (Lookup(read, k), res.value)
    case Some(Ceiling) => after == read && Atomic(Exact, Lookup(read, k), req, turn.now) == (Lookup(read, k), res.value)
    case _ => false
  }

  lemma TriedExplains(m: map<Key, Record>, turns: seq<Turn>, i: nat, req: Request, out: Outcome,
      after: map<Key, Record>)
    requires |turns| == ATTEMPTS && i < ATTEMPTS
    requires Tried(if i == 0 then m else AtWrite(m, turns, i - 1), turns[i], req, Some(out), after)
    ensures AcquireExplained(m, turns, req, i, out, after)
  {
  }

  class Manager {
    const store: MemStore

    constructor (store: MemStore)
      ensures this.store == store
    {
      this.store := store;
    }

    /** One pass of the retry loop. */
    method AcquireOnce(key: Key, holder: string, ttl: Time, turn: Turn) returns (res: Option<Outcome>)
      requires StoreOk(store.records)
      modifies store
      ensures Tried(old(store.records), turn, Request.Acquire(key, holder, ttl), res, store.records)
    {
      ghost var req := Request.Acquire(key, holder, ttl);
      PutsGrow(store.records, turn.beforeGet, key);
      store.Interleave(turn.beforeGet);
      var cur := store.Get(key);
      var now := turn.now;
      var expected, token, acquiredAt := 0, 1, now;
      if cur.None? {
      } else if cur.value.holder == holder && !cur.value.Expired(now) {
        expected, token, acquiredAt := cur.value.version, cur.value.token, cur.value.acquiredAt;
      } else if cur.value.Tombstone() || cur.value.Expired(now) {
        if cur.value.token == MAX_TOKEN {
          return Some(Ceiling);
        }
        expected, token := cur.value.version, cur.value.token + 1;
      } else {
        return Some(Refused(cur.value.holder, cur.value.token, cur.value.ExpiresAt(), cur.value.acquiredAt));
      }
      var next := Record(key, holder, ttl, acquiredAt, now, token, 0);
      assert Decide(cur, req, now) == Write(next) && expected == VersionOf(cur);
      VersionNamesRecord(store.records, turn.beforePut, key);
      store.Interleave(turn.beforePut);
      var ok := store.Put(expected, next);
      if ok {
        return Some(Granted(holder, token, next.ExpiresAt(), acquiredAt));
      }
      return None;
    }

    /** What Acquire may answer and leave behind, whatever the schedule. */
    method Acquire(key: Key, holder: string, ttl: Time, turns: seq<Turn>) returns (out: Outcome, ghost n: nat)
      requires StoreOk(store.records) && |turns| == ATTEMPTS
      modifies store
      ensures var req := Request.Acquire(key, holder, ttl);
              if ValidRequest(req)
                  then n < ATTEMPTS && AcquireExplained(old(store.records), turns, req, n, out, store.records)
              else out == Invalid && store.records == old(store.records)
    {
      n := 0;
      if !ValidKey(key) || !ValidHolder(holder) || ttl <= 0 {
        return Invalid, 0;
      }
      ghost var m := store.records;
      var i := 0;
      while i < ATTEMPTS
        invariant 0 <= i <= ATTEMPTS && StoreOk(store.records)
        invariant store.records == if i == 0 then m else AtWrite(m, turns, i - 1)
        invariant forall j :: 0 <= j < i ==> Overtaken(m, turns, j, key)
      {
        ReadsStayOk(m, turns, i, key);
        var tried := AcquireOnce(key, holder, ttl, turns[i]);
        if tried.Some? {
          TriedExplains(m, turns, i, Request.Acquire(key, holder, ttl), tried.value, store.records);
          return tried.value, i;
        }
        assert store.records == AtWrite(m, turns, i) && Overtaken(m, turns, i, key);
        i := i + 1;
      }
      return Exhausted, ATTEMPTS - 1;
    }

    /** The winner is re-read after a lost race; an unreadable winner falls back to the stale record. */
    method Renew(key: Key, holder: string, token: int, ttl: Time, turn: Turn, beforeReread: seq<Attempt>,
        rereadOk: bool)
      returns (out: Outcome)
      requires StoreOk(store.records)
      modifies store
      ensures var req := Request.Renew(key, holder, token, ttl);
              var read := AtRead(old(store.records), [turn], 0);
              var pre := AtWrite(old(store.records), [turn], 0);
              var cur := Lookup(read, key);
              if !ValidRequest(req) then out == Invalid && store.records == old(store.records)
              else if Decide(cur, req, turn.now).Answer? then
                out == Decide(cur, req, turn.now).out && store.records == read
              else if Lookup(pre, key) == cur then
                var (rec, result) := Atomic(Exact, cur, req, turn.now);
                rec.Some? && out == result && out.Granted? && store.records == pre[key := rec.value]
              else
                && store.records == Puts(pre, beforeReread)
                && var seen := Lookup(store.records, key);
                   out == Report(if rereadOk && seen.Some? then seen.value else cur.value)
    {
      if !ValidKey(key) || !ValidHolder(holder) || token <= 0 || ttl <= 0 {
        return Invalid;
      }
      ReadsStayOk(store.records, [turn], 0, key);
      store.Interleave(turn.beforeGet);
      var cur := store.Get(key);
      if cur.None? {
        return Refused("", 0, 0, 0);
      }
      if cur.value.holder != holder || cur.value.token != token || cur.value.Expired(turn.now) {
        return Report(cur.value);
      }
      var next := cur.value.(renewedAt := turn.now, ttl := ttl);
      VersionNamesRecord(store.records, turn.beforePut, key);
      store.Interleave(turn.beforePut);
      var ok := store.Put(cur.value.version, next);
      if !ok {
        store.Interleave(beforeReread);
        var winner := store.Get(key);
        return Report(if rereadOk && winner.Some? then winner.value else cur.value);
      }
      return Granted(holder, next.token, next.ExpiresAt(), next.acquiredAt);
    }

    method Release(key: Key, holder: string, token: int, turn: Turn) returns (out: Outcome)
      requires StoreOk(store.records)
      modifies store
      ensures var req := Request.Release(key, holder, token);
              var read := AtRead(old(store.records), [turn], 0);
              var pre := AtWrite(old(store.records), [turn], 0);
              var cur := Lookup(read, key);
              if !ValidRequest(req) then out == Invalid && store.records == old(store.records)
              else if Decide(cur, req, turn.now).Answer? then
                out == Decide(cur, req, turn.now).out && store.records == read
              else
                && out == Released
                && store.records == if Lookup(pre, key) == cur
                                    then pre[key := Atomic(Exact, cur, req, turn.now).0.value] else pre
    {
      if !ValidKey(key) || holder == "" {
        return Invalid;
      }
      ReadsStayOk(store.records, [turn], 0, key);
      store.Interleave(turn.beforeGet);
      var cur := store.Get(key);
      if cur.None? || cur.value.Tombstone() {
        return Released;
      }
      if cur.value.holder != holder || cur.value.token != token {
        return Mismatch;
      }
      VersionNamesRecord(store.records, turn.beforePut, key);
      store.Interleave(turn.beforePut);
      var _ := store.Put(cur.value.version, TombstoneFrom(cur.value, turn.now));
      return Released;
    }
  }

  // ---------- Garbage collection ----------

  predicate Dead(r: Record, now: Time, grace: Time) {
    !r.Tombstone() && now >= r.ExpiresAt() + grace
  }

  /** The store after a sweep over the scanned records, others(i) running before the i-th is treated. */
  function Collected(m: map<Key, Record>, scanned: seq<Record>, now: Time, grace: Time,
      others: nat -> seq<Attempt>): map<Key, Record>
  {
    if scanned == [] then m
    else
      var n := |scanned| - 1;
      var pre := Puts(Collected(m, scanned[..n], now, grace, others), others(n));
      var r := scanned[n];
      if Dead(r, now, grace) then CasPut(pre, r.version, TombstoneFrom(r, now)) else pre
  }

  /** How many of the scanned records that sweep buried. */
  function Burials(m: map<Key, Record>, scanned: seq<Record>, now: Time, grace: Time,
      others: nat -> seq<Attempt>): nat {
    if scanned == [] then 0
    else
      var n := |scanned| - 1;
      var pre := Puts(Collected(m, scanned[..n], now, grace, others), others(n));
      Burials(m, scanned[..n], now, grace, others)
      + if Dead(scanned[n], now, grace) && CasHolds(pre, scanned[n].version, scanned[n].key) then 1 else 0
  }

  lemma {:induction false} CollectedGrows(m: map<Key, Record>, scanned: seq<Record>, now: Time, grace: Time,
                                         others: nat -> seq<Attempt>, k: Key)
    requires StoreOk(m)
    requires forall i :: 0 <= i < |scanned| ==> scanned[i].version >= 1
    ensures var n := Collected(m, scanned, now, grace, others); StoreOk(n) && Grew(m, n, k)
  {
    if scanned != [] {
      var n := |scanned| - 1;
      CollectedGrows(m, scanned[..n], now, grace, others, k);
      PutsGrow(Collected(m, scanned[..n], now, grace, others), others(n), k);
    }
  }

  /**
   A sweep buries a record exactly when it had been expired for the whole grace window
   and nobody wrote its key since the scan; the token survives, and no other key moves.
   */
  lemma SweepSparesNewerWrites(m: map<Key, Record>, scanned: seq<Record>, now: Time, grace: Time,
                               others: nat -> seq<Attempt>, k: Key)
    requires StoreOk(m) && scanned != []
    requires forall i :: 0 <= i < |scanned| ==> Lookup(m, scanned[i].key) == Some(scanned[i])
    ensures var n := |scanned| - 1;
            var pre := Puts(Collected(m, scanned[..n], now, grace, others), others(n));
            var post := Lookup(Collected(m, scanned, now, grace, others), k);
            var r := scanned[n];
            if k == r.key && Lookup(pre, k) == Some(r) && Dead(r, now, grace)
            then post.Some? && post.value.Tombstone() && post.value.token == r.token
            && post.value.version == r.version + 1
            else post == Lookup(pre, k)
  {
    var n := |scanned| - 1;
    var before := Collected(m, scanned[..n], now, grace, others);
    CollectedGrows(m, scanned[..n], now, grace, others, k);
    PutsGrow(before, others(n), k);
  }

  /** Record i of the scan is dead, and still the one stored when its turn comes. */
  predicate Buries(m: map<Key, Record>, scanned: seq<Record>, now: Time, grace: Time, others: nat -> seq<Attempt>,
      i: nat)
    requires i < |scanned|
  {
    var pre := Puts(Collected(m, scanned[..i], now, grace, others), others(i));
    Dead(scanned[i], now, grace) && Lookup(pre, scanned[i].key) == Some(scanned[i])
  }

  ghost function Buried(m: map<Key, Record>, scanned: seq<Record>, now: Time, grace: Time,
      others: nat -> seq<Attempt>): set<nat>
  {
    set i: nat | i < |scanned| && Buries(m, scanned, now, grace, others, i)
  }

  lemma BuriedSnoc(m: map<Key, Record>, scanned: seq<Record>, now: Time, grace: Time, others: nat -> seq<Attempt>)
    requires scanned != []
    ensures var n := |scanned| - 1;
            var before := Buried(m, scanned[..n], now, grace, others);
            && n !in before
            && Buried(m, scanned, now, grace, others) ==
               if Buries(m, scanned, now, grace, others, n) then before + {n} else before
  {
    var n := |scanned| - 1;
    forall i: nat | i < n
      ensures Buries(m, scanned[..n], now, grace, others, i) <==> Buries(m, scanned, now, grace, others, i)
    {
      assert scanned[..n][..i] == scanned[..i];
    }
  }

  lemma StillScanned(m: map<Key, Record>, scanned: seq<Record>, now: Time, grace: Time, others: nat -> seq<Attempt>)
    requires StoreOk(m) && scanned != []
    requires forall i :: 0 <= i < |scanned| ==> Lookup(m, scanned[i].key) == Some(scanned[i])
    ensures var n := |scanned| - 1;
            var pre := Puts(Collected(m, scanned[..n], now, grace, others), others(n));
            CasHolds(pre, scanned[n].version, scanned[n].key) <==> Lookup(pre, scanned[n].key) == Some(scanned[n])
  {
    var n := |scanned| - 1;
    CollectedGrows(m, scanned[..n], now, grace, others, scanned[n].key);
    PutsGrow(Collected(m, scanned[..n], now, grace, others), others(n), scanned[n].key);
  }

  /** The count is of exactly those. */
  lemma {:induction false} BurialsAre(m: map<Key, Record>, scanned: seq<Record>, now: Time, grace: Time,
                                     others: nat -> seq<Attempt>)
    requires StoreOk(m)
    requires forall i :: 0 <= i < |scanned| ==> Lookup(m, scanned[i].key) == Some(scanned[i])
    ensures Burials(m, scanned, now, grace, others) == |Buried(m, scanned, now, grace, others)|
  {
    if scanned != [] {
      BurialsAre(m, scanned[..|scanned| - 1], now, grace, others);
      BuriedSnoc(m, scanned, now, grace, others);
      StillScanned(m, scanned, now, grace, others);
    }
  }

  /** With nobody else writing, a sweep turns exactly the dead leases it scanned into tombstones under their tokens. */
  lemma {:induction false} QuietSweep(m: map<Key, Record>, scanned: seq<Record>, now: Time, grace: Time,
                                     others: nat -> seq<Attempt>, k: Key)
    requires StoreOk(m) && forall i :: others(i) == []
    requires forall i :: 0 <= i < |scanned| ==> Lookup(m, scanned[i].key) == Some(scanned[i])
    requires forall i, j :: 0 <= i < j < |scanned| ==> scanned[i] != scanned[j]
    ensures Lookup(Collected(m, scanned, now, grace, others), k) ==
            if k in m && m[k] in scanned && m[k].holder != "" && now >= m[k].renewedAt + m[k].ttl + grace
            then Some(Record(k, "", 0, m[k].acquiredAt, now, m[k].token, m[k].version + 1))
            else Lookup(m, k)
  {
    if scanned != [] {
      var n := |scanned| - 1;
      QuietSweep(m, scanned[..n], now, grace, others, k);
      QuietSweep(m, scanned[..n], now, grace, others, scanned[n].key);
      assert scanned == scanned[..n] + [scanned[n]];
    }
  }

  class TTLEnforcer {
    const store: MemStore
    const grace: Time

    constructor (store: MemStore, grace: Time)
      ensures this.store == store && this.grace == EffectiveGrace(grace) && this.grace > 0
    {
      this.store := store;
      this.grace := if grace <= 0 then DEFAULT_GRACE else grace;
    }

    /** One sweep over a snapshot of every record, while other clients keep writing. */
    method Collect(now: Time, others: nat -> seq<Attempt>) returns (swept: nat, ghost scanned: seq<Record>)
      requires StoreOk(store.records)
      modifies store
      ensures forall k :: k in old(store.records) ==> old(store.records)[k] in scanned
      ensures forall i :: 0 <= i < |scanned| ==> Lookup(old(store.records), scanned[i].key) == Some(scanned[i])
      ensures store.records == Collected(old(store.records), scanned, now, grace, others)
      ensures swept == Burials(old(store.records), scanned, now, grace, others)
    {
      var records := store.List();
      scanned := records;
      swept := 0;
      ghost var m := store.records;
      var i := 0;
      assert records[..0] == [];
      while i < |records|
        invariant 0 <= i <= |records| && swept == Burials(m, records[..i], now, grace, others)
        invariant store.records == Collected(m, records[..i], now, grace, others)
      {
        var r := records[i];
        assert records[..i + 1][..i] == records[..i];
        store.Interleave(others(i));
        if !(r.Tombstone() || now < r.ExpiresAt() + grace) {
          var ok := store.Put(r.version, TombstoneFrom(r, now));
          if ok {
            swept := swept + 1;
          }
        }
        i := i + 1;
      }
      assert records[..|records|] == records;
    }
  }
}
