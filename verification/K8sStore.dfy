/**
 The store kept in Kubernetes Lease objects. The object store knows only its own
 resource version, which every writer moves; the Berth record version lives in an
 annotation. Put must offer the version compare-and-swap on top of that.
 */
module K8sStores {
  import opened Wrappers
  import opened KeyNames
  import opened LeaseRecord
  import opened Decimal

  const MANAGED_BY := "berth.skaphos.io/managed-by"
  const BERTH := "berth"
  const TENANT_NS := "berth.skaphos.io/tenant-namespace"
  const LEASE_NAME := "berth.skaphos.io/lease-name"
  const VERSION := "berth.skaphos.io/version"

  const MAX_UPDATES: nat := 4

  datatype Spec = Spec(
    holder: Option<string>, seconds: Option<int>, acquired: Option<Time>, renewed: Option<Time>,
        transitions: Option<int>)

  datatype Lease = Lease(labels: map<string, string>, annotations: map<string, string>, spec: Spec, rv: nat)

  // ---------- Translation ----------

  function Int32(v: int): int { (v + 0x8000_0000) % 0x1_0000_0000 - 0x8000_0000 }

  /** Lease times carry microseconds. */
  function Micro(t: Time): Time { t / MICROSECOND * MICROSECOND }

  /** Whole seconds, truncated toward zero; a tombstone carries none because an explicit zero is rejected. */
  function LeaseSeconds(rec: Record): Option<int> {
    if rec.Tombstone() && rec.ttl == 0 then None
    else Some(Int32(if rec.ttl >= 0 then rec.ttl / SECOND else -(-rec.ttl / SECOND)))
  }

  function SpecOf(rec: Record): Spec {
    Spec(Some(rec.holder), LeaseSeconds(rec), Some(Micro(rec.acquiredAt)), Some(Micro(rec.renewedAt)), Some(rec.token))
  }

  function Marks(rec: Record, version: int): map<string, string> {
    map[TENANT_NS := rec.key.ns, LEASE_NAME := rec.key.name, VERSION := FormatInt(version)]
  }

  function LeaseFromRecord(rec: Record, version: int): Lease {
    Lease(map[MANAGED_BY := BERTH], Marks(rec, version), SpecOf(rec), 0)
  }

  /** Overwrites what Berth owns and repairs its marks; everything else stays. */
  function Applied(l: Lease, rec: Record, version: int): Lease {
    Lease(l.labels[MANAGED_BY := BERTH], l.annotations + Marks(rec, version), SpecOf(rec), l.rv)
  }

  /** Missing or mangled versions read as 1. */
  function VersionFromLease(l: Lease): int {
    var v := if VERSION in l.annotations then ParseInt(l.annotations[VERSION]) else None;
    if v.None? || v.value < 1 then 1 else v.value
  }

  function OrElse<T>(o: Option<T>, d: T): T { if o.Some? then o.value else d }

  function RecordAs(l: Lease, key: Key): Record {
    Record(key, OrElse(l.spec.holder, ""), OrElse(l.spec.seconds, 0) * SECOND, OrElse(l.spec.acquired, 0),
           OrElse(l.spec.renewed, 0), OrElse(l.spec.transitions, 0), VersionFromLease(l))
  }

  function RecordFromLease(l: Lease): Option<Record> {
    if TENANT_NS in l.annotations && LEASE_NAME in l.annotations
    then Some(RecordAs(l, Key(l.annotations[TENANT_NS], l.annotations[LEASE_NAME]))) else None
  }

  /** What survives of a record on its way through a Lease object. */
  function LeaseRounded(rec: Record): Record {
    rec.(ttl := OrElse(LeaseSeconds(rec), 0) * SECOND, acquiredAt := Micro(rec.acquiredAt),
        renewedAt := Micro(rec.renewedAt))
  }

  /** Writing a record onto any object and reading it back gives the record at the stored version. */
  lemma ReadsBack(l: Lease, rec: Record, version: int)
    requires 1 <= version <= INT64_MAX
    ensures RecordFromLease(Applied(l, rec, version)) == Some(LeaseRounded(rec).(version := version))
    ensures RecordFromLease(LeaseFromRecord(rec, version)) == Some(LeaseRounded(rec).(version := version))
    ensures RecordAs(Applied(l, rec, version), rec.key) == LeaseRounded(rec).(version := version)
    ensures RecordAs(LeaseFromRecord(rec, version), rec.key) == LeaseRounded(rec).(version := version)
  {
    ParseOfFormat(version);
    assert Applied(l, rec, version).annotations[VERSION] == FormatInt(version);
    assert LeaseFromRecord(rec, version).annotations[VERSION] == FormatInt(version);
  }

  /**
   For a time to live the API accepts, a Lease object keeps a record as a store of shared objects does
   exactly when the time to live is whole seconds, and whole exactly when its times are
   whole microseconds as well.
   */
  lemma RoundedExactly(rec: Record)
    requires 0 <= rec.ttl <= MAX_TOKEN * SECOND
    ensures LeaseRounded(rec) == Rounded(Shared, rec) <==> rec.ttl % SECOND == 0
    ensures LeaseRounded(rec) == rec <==>
              rec.ttl % SECOND == 0 && rec.acquiredAt % MICROSECOND == 0 && rec.renewedAt % MICROSECOND == 0
  {
  }

  // ---------- The object store and its other writers ----------

  datatype Objects = Objects(named: map<string, Lease>, last: nat)

  /** Some other writer replaces or removes an object: a policy controller, a backup tool, another Berth replica. */
  datatype Edit = Edit(name: string, content: Option<Lease>)

  function Save(o: Objects, name: string, l: Lease): Objects {
    Objects(o.named[name := l.(rv := o.last + 1)], o.last + 1)
  }

  function Edits(o: Objects, es: seq<Edit>): Objects {
    if es == [] then o
    else
      var e, before := es[|es| - 1], Edits(o, es[..|es| - 1]);
      if e.content.Some? then Save(before, e.name, e.content.value)
      else Objects(before.named - {e.name}, before.last + 1)
  }

  ghost predicate ObjectsOk(o: Objects) {
    forall n :: n in o.named ==> o.named[n].rv <= o.last
  }

  /** Resource versions are never reused, so an equal one means an untouched object. */
  lemma {:induction false} EditsMoveVersions(o: Objects, es: seq<Edit>, n: string)
    requires ObjectsOk(o)
    ensures var p := Edits(o, es);
            && ObjectsOk(p) && o.last <= p.last
            && (n in p.named ==> (n in o.named && p.named[n] == o.named[n]) || p.named[n].rv > o.last)
  {
    if es != [] {
      EditsMoveVersions(o, es[..|es| - 1], n);
    }
  }

  lemma SameVersionSameObject(o: Objects, es: seq<Edit>, n: string)
    requires ObjectsOk(o) && n in o.named
    ensures var p := Edits(o, es).named;
            (n in p && p[n].rv == o.named[n].rv) <==> Lookup(p, n) == Some(o.named[n])
  {
    EditsMoveVersions(o, es, n);
  }

  /** Kubernetes refuses a lease duration that is not positive. */
  predicate Acceptable(l: Lease) { l.spec.seconds.Some? ==> l.spec.seconds.value > 0 }

  datatype ApiResult = Ok | AlreadyExists | NotFound | Conflicting | Unprocessable

  class ApiServer {
    var objects: Objects

    constructor ()
      ensures objects == Objects(map[], 0)
    {
      objects := Objects(map[], 0);
    }

    method Create(name: string, l: Lease) returns (r: ApiResult)
      modifies this
      ensures r == if !Acceptable(l) then Unprocessable else if name in old(objects).named then AlreadyExists else Ok
      ensures objects == if r == Ok then Save(old(objects), name, l) else old(objects)
    {
      if !Acceptable(l) {
        return Unprocessable;
      }
      if name in objects.named {
        return AlreadyExists;
      }
      objects := Save(objects, name, l);
      return Ok;
    }

    method Get(name: string) returns (r: Option<Lease>)
      ensures r == Lookup(objects.named, name)
    {
      if name in objects.named {
        return Some(objects.named[name]);
      }
      return None;
    }

    /** Guarded by the resource version the submitted object carries. */
    method Update(name: string, l: Lease) returns (r: ApiResult)
      modifies this
      ensures r == if !Acceptable(l) then Unprocessable
                   else if name !in old(objects).named then NotFound
                   else if old(objects).named[name].rv != l.rv then Conflicting else Ok
      ensures objects == if r == Ok then Save(old(objects), name, l) else old(objects)
    {
      if !Acceptable(l) {
        return Unprocessable;
      }
      if name !in objects.named {
        return NotFound;
      }
      if objects.named[name].rv != l.rv {
        return Conflicting;
      }
      objects := Save(objects, name, l);
      return Ok;
    }

    method Interleave(es: seq<Edit>)
      modifies this
      ensures objects == Edits(old(objects), es)
    {
      var i := 0;
      assert es[..0] == [];
      while i < |es|
        invariant 0 <= i <= |es| && objects == Edits(old(objects), es[..i])
      {
        if es[i].content.Some? {
          objects := Save(objects, es[i].name, es[i].content.value);
        } else {
          objects := Objects(objects.named - {es[i].name}, objects.last + 1);
        }
        assert es[..i + 1][..i] == es[..i];
        i := i + 1;
      }
      assert es[..|es|] == es;
    }
  }

  // ---------- Put ----------

  datatype PutResult = Stored | ErrConflict | ErrOther

  /** The objects when attempt i reads, if all earlier attempts wrote nothing: only other writers moved them. */
  function AtGet(o: Objects, env: nat -> seq<Edit>, i: nat): Objects
    decreases i, 0
  {
    Edits(if i == 0 then o else AtUpdate(o, env, i - 1), env(2 * i))
  }

  function AtUpdate(o: Objects, env: nat -> seq<Edit>, i: nat): Objects
    decreases i, 1
  {
    Edits(AtGet(o, env, i), env(2 * i + 1))
  }

  lemma {:induction false} ObjectsStayOk(o: Objects, env: nat -> seq<Edit>, i: nat, n: string)
    requires ObjectsOk(o)
    ensures ObjectsOk(AtGet(o, env, i)) && ObjectsOk(AtUpdate(o, env, i))
  {
    if i > 0 {
      ObjectsStayOk(o, env, i - 1, n);
    }
    EditsMoveVersions(if i == 0 then o else AtUpdate(o, env, i - 1), env(2 * i), n);
    EditsMoveVersions(AtGet(o, env, i), env(2 * i + 1), n);
  }

  /** The version compare-and-swap holds of the object with this name. */
  predicate VersionHolds(o: Objects, name: string, expected: int) {
    if expected == 0 then name !in o.named else name in o.named && VersionFromLease(o.named[name]) == expected
  }

  /** The version held when attempt i read, and somebody wrote the object before its write. */
  predicate LostUpdate(o: Objects, env: nat -> seq<Edit>, i: nat, name: string, expected: int) {
    && VersionHolds(AtGet(o, env, i), name, expected)
    && Lookup(AtUpdate(o, env, i).named, name) != Lookup(AtGet(o, env, i).named, name)
  }

  /** The objects as attempt i finds them, before anybody else moves. */
  function Before(o: Objects, env: nat -> seq<Edit>, i: nat): Objects {
    if i == 0 then o else AtUpdate(o, env, i - 1)
  }

  /** Kubernetes refuses the object that attempt i would write, whoever else writes. */
  predicate Refused(o: Objects, env: nat -> seq<Edit>, i: nat, expected: int, rec: Record) {
    var read := AtGet(o, env, i).named;
    LeaseName(rec.key) in read && !Acceptable(Applied(read[LeaseName(rec.key)], rec, expected + 1))
  }

  /** The object was there when attempt i read it and is gone when it writes. */
  predicate GoneBefore(o: Objects, env: nat -> seq<Edit>, i: nat, name: string) {
    name in AtGet(o, env, i).named && name !in AtUpdate(o, env, i).named
  }

  /** What a returned Put did, and why it did not do more. n is its last attempt. */
  ghost predicate PutExplained(
    o: Objects, env: nat -> seq<Edit>, cancelled: nat -> bool, expected: int, rec: Record, n: nat, res: PutResult,
    after: Objects)
  {
    var name := LeaseName(rec.key);
    match res
    case Stored =>
      if expected == 0 then
        VersionHolds(AtGet(o, env, 0), name, 0) && after == Save(AtGet(o, env, 0), name, LeaseFromRecord(rec, 1))
      else
        && n < MAX_UPDATES && VersionHolds(AtUpdate(o, env, n), name, expected)
        && after == Save(AtUpdate(o, env, n), name, Applied(AtUpdate(o, env, n).named[name], rec, expected + 1))
    case ErrConflict =>
      || (n < MAX_UPDATES && after == AtGet(o, env, n) && !VersionHolds(after, name, expected))
      || (n == MAX_UPDATES && expected != 0 && after == AtUpdate(o, env, n - 1)
          && forall i :: 0 <= i < n ==> LostUpdate(o, env, i, name, expected))
    case ErrOther =>
      if expected == 0 then !Acceptable(LeaseFromRecord(rec, 1)) && after == AtGet(o, env, 0)
      else
        && n < MAX_UPDATES
        && (|| (cancelled(n) && after == Before(o, env, n))
            || (VersionHolds(AtGet(o, env, n), name, expected) && after == AtUpdate(o, env, n)
                && (Refused(o, env, n, expected, rec) || GoneBefore(o, env, n, name))))
  }

  /** What one pass of the update loop does; None means a resource-version conflict, to be tried again. */
  ghost predicate Attempted(
    before: Objects, name: string, expected: int, rec: Record, beforeGet: seq<Edit>, beforeUpdate: seq<Edit>,
    res: Option<PutResult>, after: Objects) {
    var read := Edits(before, beforeGet);
    var pre := Edits(read, beforeUpdate);
    match res
    case None => after == pre && VersionHolds(read, name, expected)
        && Lookup(pre.named, name) != Lookup(read.named, name)
    case Some(Stored) =>
      && name in pre.named && VersionHolds(pre, name, expected)
      && after == Save(pre, name, Applied(pre.named[name], rec, expected + 1))
    case Some(ErrConflict) => after == read && !VersionHolds(read, name, expected)
    case Some(ErrOther) =>
      && after == pre && VersionHolds(read, name, expected) && name in read.named
      && (!Acceptable(Applied(read.named[name], rec, expected + 1)) || name !in pre.named)
  }

  lemma AttemptExplains(
    o: Objects, env: nat -> seq<Edit>, cancelled: nat -> bool, expected: int, rec: Record, i: nat, res: PutResult,
    after: Objects)
    requires i < MAX_UPDATES && expected != 0
    requires Attempted(
               Before(o, env, i), LeaseName(rec.key), expected, rec, env(2 * i), env(2 * i + 1), Some(res), after)
    ensures PutExplained(o, env, cancelled, expected, rec, i, res, after)
  {
  }

  lemma AttemptLost(o: Objects, env: nat -> seq<Edit>, name: string, expected: int, rec: Record, i: nat, after: Objects)
    requires Attempted(Before(o, env, i), name, expected, rec, env(2 * i), env(2 * i + 1), None, after)
    ensures after == AtUpdate(o, env, i) && LostUpdate(o, env, i, name, expected)
  {
  }

  lemma GivingUpExplains(o: Objects, env: nat -> seq<Edit>, cancelled: nat -> bool, expected: int, rec: Record, i: nat)
    requires i < MAX_UPDATES && expected != 0 && cancelled(i)
    ensures PutExplained(o, env, cancelled, expected, rec, i, ErrOther, Before(o, env, i))
  {
  }

  lemma AllLostExplains(o: Objects, env: nat -> seq<Edit>, cancelled: nat -> bool, expected: int, rec: Record)
    requires expected != 0 && forall i :: 0 <= i < MAX_UPDATES ==> LostUpdate(o, env, i, LeaseName(rec.key), expected)
    ensures PutExplained(o, env, cancelled, expected, rec, MAX_UPDATES, ErrConflict, Before(o, env, MAX_UPDATES))
  {
  }

  class K8sLeaseStore {
    const api: ApiServer

    constructor (api: ApiServer)
      ensures this.api == api
    {
      this.api := api;
    }

    method Attempt(name: string, expected: int, rec: Record, beforeGet: seq<Edit>, beforeUpdate: seq<Edit>)
      returns (res: Option<PutResult>)
      requires ObjectsOk(api.objects) && expected != 0
      modifies api
      ensures Attempted(old(api.objects), name, expected, rec, beforeGet, beforeUpdate, res, api.objects)
    {
      EditsMoveVersions(api.objects, beforeGet, name);
      api.Interleave(beforeGet);
      var cur := api.Get(name);
      if cur.None? || VersionFromLease(cur.value) != expected {
        return Some(ErrConflict);
      }
      SameVersionSameObject(api.objects, beforeUpdate, name);
      api.Interleave(beforeUpdate);
      var updated := api.Update(name, Applied(cur.value, rec, expected + 1));
      match updated
      case Ok => return Some(Stored);
      case Conflicting => return None;
      case _ => return Some(ErrOther);
    }

    /** Attempt i of a Put that began on o and wrote nothing yet. */
    method Pass(ghost o: Objects, i: nat, expected: int, rec: Record, env: nat -> seq<Edit>, cancelled: nat -> bool)
      returns (res: Option<PutResult>)
      requires ObjectsOk(o) && ObjectsOk(api.objects) && api.objects == Before(o, env, i) && i < MAX_UPDATES
               && expected != 0
      modifies api
      ensures res.Some? ==> PutExplained(o, env, cancelled, expected, rec, i, res.value, api.objects)
      ensures res.None? ==> api.objects == Before(o, env, i + 1) && LostUpdate(o, env, i, LeaseName(rec.key), expected)
    {
      if cancelled(i) {
        GivingUpExplains(o, env, cancelled, expected, rec, i);
        return Some(ErrOther);
      }
      res := Attempt(LeaseName(rec.key), expected, rec, env(2 * i), env(2 * i + 1));
      if res.Some? {
        AttemptExplains(o, env, cancelled, expected, rec, i, res.value, api.objects);
      } else {
        AttemptLost(o, env, LeaseName(rec.key), expected, rec, i, api.objects);
      }
    }

    method UpdateLoop(expected: int, rec: Record, env: nat -> seq<Edit>, cancelled: nat -> bool)
      returns (res: PutResult, ghost n: nat)
      requires ObjectsOk(api.objects) && expected != 0
      modifies api
      ensures PutExplained(old(api.objects), env, cancelled, expected, rec, n, res, api.objects)
    {
      ghost var o := api.objects;
      var i := 0;
      while i < MAX_UPDATES
        invariant 0 <= i <= MAX_UPDATES && ObjectsOk(api.objects) && api.objects == Before(o, env, i)
        invariant forall j :: 0 <= j < i ==> LostUpdate(o, env, j, LeaseName(rec.key), expected)
      {
        ObjectsStayOk(o, env, i, LeaseName(rec.key));
        var tried := Pass(o, i, expected, rec, env, cancelled);
        if tried.Some? {
          return tried.value, i;
        }
        i := i + 1;
      }
      AllLostExplains(o, env, cancelled, expected, rec);
      return ErrConflict, i;
    }

    /** env(2i) runs before attempt i reads and env(2i+1) before it writes; cancelled(i) says the caller gave up. */
    method Put(expected: int, rec: Option<Record>, env: nat -> seq<Edit>, cancelled: nat -> bool)
      returns (res: PutResult, ghost n: nat)
      requires ObjectsOk(api.objects)
      modifies api
      ensures rec.None? ==> res == ErrConflict && api.objects == old(api.objects)
      ensures rec.Some? ==> PutExplained(old(api.objects), env, cancelled, expected, rec.value, n, res, api.objects)
    {
      n := 0;
      if rec.None? {
        return ErrConflict, 0;
      }
      if expected == 0 {
        api.Interleave(env(0));
        var created := api.Create(LeaseName(rec.value.key), LeaseFromRecord(rec.value, 1));
        if created == Ok { return Stored, 0; }
        if created == AlreadyExists { return ErrConflict, 0; }
        return ErrOther, 0;
      }
      res, n := UpdateLoop(expected, rec.value, env, cancelled);
    }
  }

  // ---------- Refinement of the version compare-and-swap ----------

  /** The abstract store an object store stands for, on the keys the server accepts. */
  ghost predicate Abstracts(o: Objects, m: map<Key, Record>) {
    && (forall k :: k in m ==> ValidKey(k))
    && forall k :: ValidKey(k) ==>
         Lookup(m, k) == if LeaseName(k) in o.named then Some(RecordAs(o.named[LeaseName(k)], k)) else None
  }

  /** A stored Put is exactly one compare-and-swap on the abstract store at the instant of its winning write. */
  lemma StoredIsOneCas(o: Objects, m: map<Key, Record>, expected: int, rec: Record)
    requires Abstracts(o, m) && ValidKey(rec.key) && 0 <= expected < INT64_MAX
    requires VersionHolds(o, LeaseName(rec.key), expected)
    ensures CasHolds(m, expected, rec.key)
    ensures var name := LeaseName(rec.key);
            var l := if expected == 0 then LeaseFromRecord(rec, 1) else Applied(o.named[name], rec, expected + 1);
            Abstracts(Save(o, name, l), CasPut(m, expected, LeaseRounded(rec)))
  {
    var name := LeaseName(rec.key);
    var l := if expected == 0 then LeaseFromRecord(rec, 1) else Applied(o.named[name], rec, expected + 1);
    ReadsBack(if expected == 0 then l else o.named[name], rec, expected + 1);
    assert Lookup(m, rec.key) == if name in o.named then Some(RecordAs(o.named[name], rec.key)) else None;
    var m' := CasPut(m, expected, LeaseRounded(rec));
    forall k | ValidKey(k)
      ensures Lookup(m', k) == if LeaseName(k) in Save(o, name, l).named
              then Some(RecordAs(Save(o, name, l).named[LeaseName(k)], k)) else None
    {
      LeaseNameInjective(k, rec.key);
      assert Lookup(m, k) == if LeaseName(k) in o.named then Some(RecordAs(o.named[LeaseName(k)], k)) else None;
    }
  }

  /** A reported version conflict is a conflict of the abstract store as well. */
  lemma ConflictIsReal(o: Objects, m: map<Key, Record>, expected: int, key: Key)
    requires Abstracts(o, m) && ValidKey(key)
    ensures VersionHolds(o, LeaseName(key), expected) <==> CasHolds(m, expected, key)
  {
  }

  /** Labels and annotations Berth does not own survive every write, and the managed-by label is always there. */
  lemma ForeignMetadataSurvives(l: Lease, rec: Record, version: int, k: string)
    ensures k != MANAGED_BY ==> Lookup(Applied(l, rec, version).labels, k) == Lookup(l.labels, k)
    ensures k !in {TENANT_NS, LEASE_NAME, VERSION} ==>
            Lookup(Applied(l, rec, version).annotations, k) == Lookup(l.annotations, k)
    ensures Lookup(Applied(l, rec, version).labels, MANAGED_BY) == Some(BERTH)
    ensures Applied(l, rec, version).rv == l.rv
  {
  }

  /** The objects at the instant that decided a Put. */
  function Deciding(o: Objects, env: nat -> seq<Edit>, expected: int, n: nat, res: PutResult): Objects {
    if res.Stored? then if expected == 0 then AtGet(o, env, 0) else AtUpdate(o, env, n)
    else if n < MAX_UPDATES then AtGet(o, env, n)
    else AtUpdate(o, env, n - 1)
  }

  /**
   Put refines the compare-and-swap of the abstract store, whatever other writers do meanwhile: a nil
   result is one successful compare-and-swap at its deciding instant; a conflict leaves what it found,
   and either the compare-and-swap does not hold there or it was an update and all four of its
   attempts were overtaken; and without a nil result the objects hold what others wrote, and nothing else.
   */
  lemma PutRefinesCas(
    o: Objects, env: nat -> seq<Edit>, cancelled: nat -> bool, expected: int, rec: Record, n: nat, res: PutResult,
    after: Objects, m: map<Key, Record>)
    requires PutExplained(o, env, cancelled, expected, rec, n, res, after) && ValidKey(rec.key)
             && 0 <= expected < INT64_MAX
    requires Abstracts(Deciding(o, env, expected, n, res), m)
    ensures res.Stored? ==> CasHolds(m, expected, rec.key) && Abstracts(after, CasPut(m, expected, LeaseRounded(rec)))
    ensures res.ErrConflict? ==>
              && Abstracts(after, m)
              && (!CasHolds(m, expected, rec.key)
                  || (expected >= 1 && n == 4 && forall i :: 0 <= i < 4 ==>
                     LostUpdate(o, env, i, LeaseName(rec.key), expected)))
    ensures !res.Stored? ==> after in {AtGet(o, env, 0), Before(o, env, n), AtGet(o, env, n), AtUpdate(o, env, n)}
  {
    var at := Deciding(o, env, expected, n, res);
    if res.Stored? {
      StoredIsOneCas(at, m, expected, rec);
    } else {
      ConflictIsReal(at, m, expected, rec.key);
    }
  }

  // ---------- What Kubernetes accepts ----------

  /** An object is accepted exactly for a time to live of a whole second or more, or for a tombstone. */
  lemma AcceptableIff(l: Lease, rec: Record, version: int)
    requires 0 <= rec.ttl <= MAX_TOKEN * SECOND
    ensures Acceptable(Applied(l, rec, version)) <==> rec.ttl >= SECOND || (rec.holder == "" && rec.ttl == 0)
    ensures Acceptable(LeaseFromRecord(rec, version)) <==> Acceptable(Applied(l, rec, version))
  {
    assert rec.ttl / SECOND <= MAX_TOKEN;
  }

  /** Whatever the server writes for times to live the API accepts, tombstones included, Kubernetes accepts. */
  lemma ServerWritesAcceptable(cur: Option<Record>, req: Request, now: Time, l: Lease, version: int)
    requires ValidRequest(req) && Decide(cur, req, now).Write?
    requires req.Acquire? || req.Renew? ==> SECOND <= req.ttl <= MAX_TOKEN * SECOND
    ensures var next := Decide(cur, req, now).next;
            Acceptable(Applied(l, next, version)) && Acceptable(LeaseFromRecord(next, version))
  {
    AcceptableIff(l, Decide(cur, req, now).next, version);
  }

  /** Nobody else writes the object with this name. */
  ghost predicate LeftAlone(env: nat -> seq<Edit>, name: string) {
    forall i, j :: 0 <= i && 0 <= j < |env(i)| ==> env(i)[j].name != name
  }

  lemma {:induction false} OtherEdits(o: Objects, es: seq<Edit>, name: string)
    requires forall j :: 0 <= j < |es| ==> es[j].name != name
    ensures Lookup(Edits(o, es).named, name) == Lookup(o.named, name)
  {
    if es != [] { OtherEdits(o, es[..|es| - 1], name); }
  }

  lemma {:induction false} ObjectStays(o: Objects, env: nat -> seq<Edit>, name: string, i: nat)
    requires LeftAlone(env, name)
    ensures Lookup(AtGet(o, env, i).named, name) == Lookup(o.named, name) == Lookup(AtUpdate(o, env, i).named, name)
  {
    if i > 0 { ObjectStays(o, env, name, i - 1); }
    OtherEdits(if i == 0 then o else AtUpdate(o, env, i - 1), env(2 * i), name);
    OtherEdits(AtGet(o, env, i), env(2 * i + 1), name);
  }

  /**
   A Put whose object is left alone, of a record Kubernetes accepts, by a caller that does not give up, stores it
   exactly when the version holds; otherwise it reports a conflict.
   */
  lemma UndisturbedPutStores(
    o: Objects, env: nat -> seq<Edit>, cancelled: nat -> bool, expected: int, rec: Record, n: nat, res: PutResult,
    after: Objects)
    requires PutExplained(o, env, cancelled, expected, rec, n, res, after) && LeftAlone(env, LeaseName(rec.key))
    requires forall i: nat :: !cancelled(i)
    requires 0 <= rec.ttl <= MAX_TOKEN * SECOND && (rec.ttl >= SECOND || (rec.holder == "" && rec.ttl == 0))
    ensures res == if VersionHolds(o, LeaseName(rec.key), expected) then Stored else ErrConflict
  {
    var name := LeaseName(rec.key);
    ObjectStays(o, env, name, 0);
    ObjectStays(o, env, name, n);
    assert !LostUpdate(o, env, 0, name, expected);
    NothingRefused(o, env, n, expected, rec);
  }

  lemma NothingRefused(o: Objects, env: nat -> seq<Edit>, i: nat, expected: int, rec: Record)
    requires 0 <= rec.ttl <= MAX_TOKEN * SECOND && (rec.ttl >= SECOND || (rec.holder == "" && rec.ttl == 0))
    ensures !Refused(o, env, i, expected, rec) && Acceptable(LeaseFromRecord(rec, 1))
  {
    var read := AtGet(o, env, i).named;
    AcceptableIff(LeaseFromRecord(rec, 1), rec, 1);
    if LeaseName(rec.key) in read { AcceptableIff(read[LeaseName(rec.key)], rec, expected + 1); }
  }

  // ---------- Conflicts without a version change ----------

  /** Somebody writes l over the object between every read and the update that follows it. */
  function Relabels(name: string, l: Lease): nat -> seq<Edit> {
    i => if i % 2 == 1 then [Edit(name, Some(l))] else []
  }

  lemma {:induction false} RelabelledAt(o: Objects, name: string, l: Lease, i: nat)
    requires name in o.named && ObjectsOk(o)
    ensures var env := Relabels(name, l);
            var read, pre := AtGet(o, env, i), AtUpdate(o, env, i);
            && read == (if i == 0 then o else AtUpdate(o, env, i - 1)) && ObjectsOk(read)
            && (i > 0 ==> name in read.named && read.named == o.named[name := l.(rv := read.last)])
            && pre == Save(read, name, l) && pre.named == o.named[name := l.(rv := pre.last)]
  {
    var env := Relabels(name, l);
    if i > 0 { RelabelledAt(o, name, l, i - 1); }
    assert env(2 * i) == [] && env(2 * i + 1) == [Edit(name, Some(l))];
    ObjectsStayOk(o, env, i, name);
    assert [Edit(name, Some(l))][..0] == [];
  }

  /**
   The second case of PutRefinesCas is real. Whatever record the object carries, writers that leave its
   annotations and spec alone, before each update, make Put report a conflict while the abstract store
   has not changed and the compare-and-swap holds in it.
   */
  lemma RelabellingConflicts(o: Objects, cancelled: nat -> bool, expected: int, rec: Record, l: Lease,
      m: map<Key, Record>)
    requires ObjectsOk(o) && ValidKey(rec.key) && expected >= 1 && LeaseName(rec.key) in o.named && Abstracts(o, m)
    requires VersionHolds(o, LeaseName(rec.key), expected)
    requires l.annotations == o.named[LeaseName(rec.key)].annotations && l.spec == o.named[LeaseName(rec.key)].spec
    ensures var env := Relabels(LeaseName(rec.key), l);
            var after := AtUpdate(o, env, 3);
            && PutExplained(o, env, cancelled, expected, rec, 4, ErrConflict, after)
            && Abstracts(after, m) && CasHolds(m, expected, rec.key)
  {
    var name := LeaseName(rec.key);
    var env := Relabels(name, l);
    forall i | 0 <= i < MAX_UPDATES ensures LostUpdate(o, env, i, name, expected) { RelabelledAt(o, name, l, i); }
    RelabelledAt(o, name, l, MAX_UPDATES - 1);
    RelabelledAbstracts(o, AtUpdate(o, env, MAX_UPDATES - 1), name, l, m);
    ConflictIsReal(o, m, expected, rec.key);
  }

  lemma RelabelledAbstracts(o: Objects, p: Objects, name: string, l: Lease, m: map<Key, Record>)
    requires name in o.named && Abstracts(o, m) && p.named == o.named[name := l.(rv := p.last)]
    requires l.annotations == o.named[name].annotations && l.spec == o.named[name].spec
    ensures Abstracts(p, m)
  {
  }
}
