/** The in-memory store: a mutex-guarded map with compare-and-swap on the record version. */
module MemStores {
  import opened Wrappers
  import opened KeyNames
  import opened LeaseRecord

  /** A Put made by some other client of the same store. */
  datatype Attempt = Attempt(expected: int, rec: Record)

  function Puts(m: map<Key, Record>, ws: seq<Attempt>): map<Key, Record> {
    if ws == [] then m
    else CasPut(Puts(m, ws[..|ws| - 1]), ws[|ws| - 1].expected, ws[|ws| - 1].rec)
  }

  ghost predicate StoreOk(m: map<Key, Record>) {
    forall k :: k in m ==> m[k].key == k && m[k].version >= 1
  }

  /** A key is as it was, or its version moved past the old one. */
  predicate Grew(m: map<Key, Record>, n: map<Key, Record>, k: Key) {
    Lookup(n, k) == Lookup(m, k) || VersionOf(Lookup(n, k)) > VersionOf(Lookup(m, k))
  }

  lemma {:induction false} PutsGrow(m: map<Key, Record>, ws: seq<Attempt>, k: Key)
    requires StoreOk(m)
    ensures StoreOk(Puts(m, ws)) && Grew(m, Puts(m, ws), k)
  {
    if ws != [] {
      PutsGrow(m, ws[..|ws| - 1], k);
    }
  }

  /** Versions are never reused: a compare-and-swap on a version once read finds the record then read. */
  lemma VersionNamesRecord(m: map<Key, Record>, ws: seq<Attempt>, k: Key)
    requires StoreOk(m)
    ensures CasHolds(Puts(m, ws), VersionOf(Lookup(m, k)), k) <==> Lookup(Puts(m, ws), k) == Lookup(m, k)
  {
    PutsGrow(m, ws, k);
  }

  class MemStore {
    var records: map<Key, Record>

    constructor ()
      ensures records == map[]
    {
      records := map[];
    }

    method Get(key: Key) returns (r: Option<Record>)
      ensures r == Lookup(records, key)
    {
      if key in records {
        r := Some(records[key]);
      } else {
        r := None;
      }
    }

    /** A snapshot of all records, each once, in no particular order. */
    method List() returns (out: seq<Record>)
      requires StoreOk(records)
      ensures forall k :: k in records ==> records[k] in out
      ensures forall i :: 0 <= i < |out| ==> out[i].key in records && records[out[i].key] == out[i]
      ensures forall i, j :: 0 <= i < j < |out| ==> out[i].key != out[j].key
    {
      out := [];
      var left := records.Keys;
      while left != {}
        invariant left <= records.Keys
        invariant forall k :: k in records && k !in left ==> records[k] in out
        invariant forall i :: 0 <= i < |out| ==>
                  out[i].key in records && out[i].key !in left && records[out[i].key] == out[i]
        invariant forall i, j :: 0 <= i < j < |out| ==> out[i].key != out[j].key
        decreases left
      {
        var k :| k in left;
        out := out + [records[k]];
        left := left - {k};
      }
    }

    method Put(expected: int, rec: Record) returns (ok: bool)
      modifies this
      ensures ok <==> CasHolds(old(records), expected, rec.key)
      ensures records == CasPut(old(records), expected, rec)
    {
      var exists_ := rec.key in records;
      if expected == 0 {
        if exists_ {
          return false;
        }
      } else if !exists_ || records[rec.key].version != expected {
        return false;
      }
      records := records[rec.key := rec.(version := expected + 1)];
      return true;
    }

    /** Other clients run between two micro-steps of the current operation. */
    method Interleave(ws: seq<Attempt>)
      modifies this
      ensures records == Puts(old(records), ws)
    {
      var i := 0;
      assert ws[..0] == [];
      while i < |ws|
        invariant 0 <= i <= |ws| && records == Puts(old(records), ws[..i])
      {
        var _ := Put(ws[i].expected, ws[i].rec);
        assert ws[..i + 1][..i] == ws[..i];
        i := i + 1;
      }
      assert ws[..|ws|] == ws;
    }
  }
}
