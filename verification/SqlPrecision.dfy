/**
 Backend of the SQL stores: times are truncated to microseconds (SQLite keeps them
 whole) and times to live to milliseconds, while answers report untruncated expiries.
 */
module SqlPrecision {
  import opened Wrappers
  import opened LeaseRecord
  import Operator

  datatype Dialect = Postgres | MySQL | SQLite

  function Truncated(t: Time, unit: Time): Time
    requires unit > 0
  {
    t - t % unit
  }

  function SqlTime(d: Dialect, t: Time): Time { if d == SQLite then t else Truncated(t, MICROSECOND) }

  /** Whole milliseconds, truncated toward zero. */
  function SqlTtl(ttl: Time): Time { if ttl >= 0 then Truncated(ttl, MILLISECOND) else -Truncated(-ttl, MILLISECOND) }

  /** A record as scanned back after it was written. */
  function SqlRounded(d: Dialect, rec: Record): Record {
    rec.(ttl := SqlTtl(rec.ttl), acquiredAt := SqlTime(d, rec.acquiredAt), renewedAt := SqlTime(d, rec.renewedAt))
  }

  function BackendOf(d: Dialect): Backend { if d == SQLite then Exact else Micros }

  /** A SQL store is a store of its dialect's precision for exactly the records with whole-millisecond times to live. */
  lemma SqlPrecisionIff(d: Dialect, rec: Record)
    ensures SqlRounded(d, rec) == Rounded(BackendOf(d), rec) <==> rec.ttl % MILLISECOND == 0
  {
    if rec.ttl < 0 { assert -rec.ttl % MILLISECOND == 0 <==> rec.ttl % MILLISECOND == 0; }
  }

  lemma FloorSteps(t: Time, ttl: Time)
    requires ttl % MILLISECOND == 0
    ensures Truncated(t + ttl, SECOND) <= Truncated(t, MICROSECOND) + ttl
  {
    var s := t + ttl;
    var a := s - s % SECOND;
    assert a % MICROSECOND == 0 && a <= s by {
      assert a == s / SECOND * SECOND;
      assert a == (s / SECOND * 1_000_000) * MICROSECOND;
    }
    var b := a - ttl;
    assert b <= t && b % MICROSECOND == 0 by {
      assert ttl == ttl / MILLISECOND * MILLISECOND;
      assert ttl == (ttl / MILLISECOND * 1_000) * MICROSECOND;
      assert b == (s / SECOND * 1_000_000 - ttl / MILLISECOND * 1_000) * MICROSECOND;
    }
    assert b == b / MICROSECOND * MICROSECOND;
    assert t == t / MICROSECOND * MICROSECOND + t % MICROSECOND;
    assert b / MICROSECOND <= t / MICROSECOND;
  }

  /** The deadline a grant leads to never passes the expiry the store will use, however late the answer. */
  predicate DeadlineHolds(d: Dialect, ttl: Time, started: Time, now: Time) {
    Operator.DeadlineFrom(started, ttl, now + ttl) <= SqlTime(d, now) + SqlTtl(ttl)
  }

  lemma FloorMonotone(a: Time, b: Time)
    requires a <= b
    ensures Truncated(a, MICROSECOND) <= Truncated(b, MICROSECOND) <= b
  {
    assert a == a / MICROSECOND * MICROSECOND + a % MICROSECOND;
    assert b == b / MICROSECOND * MICROSECOND + b % MICROSECOND;
  }

  lemma DeadlineHoldsForWholeMilliseconds(d: Dialect, ttl: Time, started: Time, now: Time)
    requires 0 < ttl && ttl % MILLISECOND == 0 && started <= now
    ensures DeadlineHolds(d, ttl, started, now)
  {
    FloorSteps(started, ttl);
    FloorMonotone(started, now);
  }

  /** It holds for every call exactly when the time to live is whole milliseconds, which whole seconds are. */
  lemma DeadlineHoldsIff(d: Dialect, ttl: Time)
    requires 0 < ttl
    ensures (forall started: Time, now: Time :: 0 <= started <= now ==> DeadlineHolds(d, ttl, started, now))
            <==> ttl % MILLISECOND == 0
  {
    if ttl % MILLISECOND == 0 {
      forall started: Time, now: Time | 0 <= started <= now ensures DeadlineHolds(d, ttl, started, now) {
        DeadlineHoldsForWholeMilliseconds(d, ttl, started, now);
      }
    } else {
      // a call that ends exactly on a second
      var now := (ttl / SECOND + 1) * SECOND - ttl;
      assert now > 0 && now + ttl == (ttl / SECOND + 1) * SECOND;
      assert (now + ttl) % SECOND == 0;
      assert !DeadlineHolds(d, ttl, now, now);
    }
  }

  lemma WholeSeconds(ttl: Time)
    requires ttl % SECOND == 0
    ensures ttl % MILLISECOND == 0
  {
    assert ttl == ttl / SECOND * SECOND;
    assert ttl == (ttl / SECOND * 1_000) * MILLISECOND;
  }

  lemma GrantRecord(cur: Option<Record>, req: Request, now: Time)
    requires req.Acquire? && Atomic(Exact, cur, req, now).1.Granted?
    ensures var (rec, out) := Atomic(Exact, cur, req, now);
            rec.Some? && rec.value.renewedAt == now && rec.value.ttl == req.ttl && out.expiresAt == now + req.ttl
  {
  }

  /** Through the whole operation: what the operator computes from a grant is within the stored record's life. */
  lemma GrantDeadlineWithinStore(d: Dialect, cur: Option<Record>, req: Request, started: Time, now: Time)
    requires req.Acquire? && ValidRequest(req) && req.ttl % SECOND == 0 && started <= now
    requires Atomic(Exact, cur, req, now).1.Granted?
    ensures var (rec, out) := Atomic(Exact, cur, req, now);
            rec.Some? && Operator.DeadlineFrom(started, req.ttl, out.expiresAt) <= SqlRounded(d, rec.value).ExpiresAt()
  {
    WholeSeconds(req.ttl);
    GrantRecord(cur, req, now);
    DeadlineHoldsForWholeMilliseconds(d, req.ttl, started, now);
  }

  /**
   A sidecar does not round its deadline down. Against a store that truncates times it may
   outlive the stored expiry, by less than a microsecond, and exactly when the call started
   after the last microsecond boundary before the server read its clock.
   */
  lemma SidecarDeadlineGap(d: Dialect, ttl: Time, started: Time, now: Time)
    requires 0 < ttl && ttl % MILLISECOND == 0 && started <= now
    ensures started + ttl - (SqlTime(d, now) + SqlTtl(ttl)) < MICROSECOND
    ensures started + ttl > SqlTime(d, now) + SqlTtl(ttl) <==> started > SqlTime(d, now)
    ensures d == SQLite ==> started + ttl <= SqlTime(d, now) + SqlTtl(ttl)
  {
  }
}
