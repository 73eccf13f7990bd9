/**
 The lease record, the version compare-and-swap of the store contract, and the
 decision every server operation takes from one record read and one clock read.
 Times and durations are nanoseconds.
 */
module LeaseRecord {
  import opened Wrappers
  import opened KeyNames

  type Time = int

  const MAX_TOKEN: int := 0x7fff_ffff
  const MAX_HOLDER_BYTES: int := 253

  datatype Record = Record(
    key: Key, holder: string, ttl: Time, acquiredAt: Time, renewedAt: Time, token: int, version: int)
  {
    function ExpiresAt(): Time { renewedAt + ttl }
    predicate Expired(now: Time) { now > ExpiresAt() }
    predicate Tombstone() { holder == "" }
  }

  /**
   What a store keeps of an instant, the nanosecond or the microsecond it falls in, and whether
   its records are Shared objects, whose other fields anybody may edit: a write that keeps
   losing to such edits is reported as a conflict though the record has not moved.
   */
  datatype Backend = Exact | Micros | Shared

  function Unit(kind: Backend): Time { if kind.Exact? then 1 else MICROSECOND }

  function Floor(kind: Backend, t: Time): Time { if kind.Exact? then t else t - t % MICROSECOND }

  lemma FloorFacts(kind: Backend, a: Time, b: Time)
    ensures Floor(kind, a) <= a < Floor(kind, a) + Unit(kind) && Floor(kind, Floor(kind, a)) == Floor(kind, a)
    ensures a <= b ==> Floor(kind, a) <= Floor(kind, b)
  {
  }

  /** Whole seconds pass through the rounding. */
  lemma FloorShift(kind: Backend, a: Time, b: Time)
    requires b % SECOND == 0
    ensures Floor(kind, a + b) == Floor(kind, a) + b
  {
    var q := b / SECOND * 1_000_000;
    assert b == q * MICROSECOND;
    assert (a + q * MICROSECOND) % MICROSECOND == a % MICROSECOND;
  }

  /** A record as it is read back. */
  function Rounded(kind: Backend, r: Record): Record {
    r.(acquiredAt := Floor(kind, r.acquiredAt), renewedAt := Floor(kind, r.renewedAt))
  }

  /** Holder cleared, token kept as the key's high-water mark, reclaimable at once. */
  function TombstoneFrom(cur: Record, now: Time): Record {
    Record(cur.key, "", 0, cur.acquiredAt, now, cur.token, 0)
  }

  function VersionOf(cur: Option<Record>): int {
    if cur.Some? then cur.value.version else 0
  }

  /** The predicate of Store.Put: version 0 means "only create". */
  predicate CasHolds(m: map<Key, Record>, expected: int, key: Key) {
    if expected == 0 then key !in m else key in m && m[key].version == expected
  }

  /** Store.Put on the abstract store. The store owns the version. */
  function CasPut(m: map<Key, Record>, expected: int, rec: Record): map<Key, Record> {
    if CasHolds(m, expected, rec.key) then m[rec.key := rec.(version := expected + 1)] else m
  }

  // ---------- Requests and their answers ----------

  datatype Request =
    | Acquire(key: Key, holder: string, ttl: Time)
    | Renew(key: Key, holder: string, token: int, ttl: Time)
    | Release(key: Key, holder: string, token: int)
    | Sweep(key: Key, grace: Time)  // one record's share of a garbage-collection pass

  datatype Outcome =
    | Granted(holder: string, token: int, expiresAt: Time, acquiredAt: Time)
    | Refused(holder: string, token: int, expiresAt: Time, acquiredAt: Time)
    | Ceiling       // token would pass the int32 ceiling
    | Exhausted     // Acquire lost every one of its attempts
    | Released      // Release returned nil
    | Mismatch      // Release returned ErrConflict
    | Swept | Skipped
    | Invalid       // rejected before the store was read
    | Failed        // the store returned an error other than a conflict

  predicate ValidHolder(holder: string) { 0 < |holder| <= MAX_HOLDER_BYTES }

  predicate ValidRequest(req: Request) {
    match req
    case Acquire(k, h, ttl) => ValidKey(k) && ValidHolder(h) && ttl > 0
    case Renew(k, h, t, ttl) => ValidKey(k) && ValidHolder(h) && t > 0 && ttl > 0
    case Release(k, h, t) => ValidKey(k) && h != ""
    case Sweep(k, grace) => grace > 0
  }

  /** Non-positive grace windows fall back to five minutes. */
  const DEFAULT_GRACE: Time := 300_000_000_000
  function EffectiveGrace(grace: Time): Time { if grace <= 0 then DEFAULT_GRACE else grace }

  function Report(r: Record): Outcome { Refused(r.holder, r.token, r.ExpiresAt(), r.acquiredAt) }

  // ---------- One decision ----------

  datatype Decision = Write(next: Record) | Answer(out: Outcome)

  function DecideAcquire(cur: Option<Record>, key: Key, holder: string, ttl: Time, now: Time): Decision {
    match cur
    case None => Write(Record(key, holder, ttl, now, now, 1, 0))
    case Some(c) =>
      if c.holder == holder && !c.Expired(now) then
        Write(Record(key, holder, ttl, c.acquiredAt, now, c.token, 0))
      else if c.Tombstone() || c.Expired(now) then
        if c.token == MAX_TOKEN then Answer(Ceiling)
        else Write(Record(key, holder, ttl, now, now, c.token + 1, 0))
      else Answer(Report(c))
  }

  function DecideRenew(cur: Option<Record>, holder: string, token: int, ttl: Time, now: Time): Decision {
    match cur
    case None => Answer(Refused("", 0, 0, 0))
    case Some(c) =>
      if c.holder != holder || c.token != token || c.Expired(now) then Answer(Report(c))
      else Write(c.(renewedAt := now, ttl := ttl))
  }

  function DecideRelease(cur: Option<Record>, holder: string, token: int, now: Time): Decision {
    match cur
    case None => Answer(Released)
    case Some(c) =>
      if c.Tombstone() then Answer(Released)
      else if c.holder != holder || c.token != token then Answer(Mismatch)
      else Write(TombstoneFrom(c, now))
  }

  function DecideSweep(cur: Option<Record>, grace: Time, now: Time): Decision {
    match cur
    case None => Answer(Skipped)
    case Some(c) =>
      if c.Tombstone() || now < c.ExpiresAt() + grace then Answer(Skipped)
      else Write(TombstoneFrom(c, now))
  }

  function Decide(cur: Option<Record>, req: Request, now: Time): Decision {
    match req
    case Acquire(k, h, ttl) => DecideAcquire(cur, k, h, ttl, now)
    case Renew(k, h, t, ttl) => DecideRenew(cur, h, t, ttl, now)
    case Release(k, h, t) => DecideRelease(cur, h, t, now)
    case Sweep(k, grace) => DecideSweep(cur, grace, now)
  }

  /** The answer once the write is in the store. */
  function Won(req: Request, next: Record): Outcome {
    match req
    case Acquire(_, _, _) => Granted(next.holder, next.token, next.ExpiresAt(), next.acquiredAt)
    case Renew(_, _, _, _) => Granted(next.holder, next.token, next.ExpiresAt(), next.acquiredAt)
    case Release(_, _, _) => Released
    case Sweep(_, _) => Swept
  }

  function Stored(kind: Backend, cur: Option<Record>, next: Record): Record {
    Rounded(kind, next).(version := VersionOf(cur) + 1)
  }

  /**
   The sequential lease service: the whole operation as one indivisible step on a store
   of the given precision. The answer reports the times as they were before rounding.
   */
  function Atomic(kind: Backend, cur: Option<Record>, req: Request, now: Time): (Option<Record>, Outcome) {
    match Decide(cur, req, now)
    case Answer(out) => (cur, out)
    case Write(next) => (Some(Stored(kind, cur, next)), Won(req, next))
  }
}
