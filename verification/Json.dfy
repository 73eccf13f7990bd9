/** Unstructured objects and the nested accessors the Kubernetes client library offers for them. */
module Json {
  import opened Wrappers

  datatype Json =
    | Null
    | Bool(bit: bool)
    | Num(number: int)
    | Str(text: string)
    | Arr(items: seq<Json>)
    | Obj(fields: Fields)

  type Fields = map<string, Json>

  /** Missing is not an error; Wrong is: something on the way, or at the end, has another type. */
  datatype Access<T> = Missing | Wrong | Found(value: T)

  function Follow(j: Json, path: seq<string>): Access<Json> {
    if path == [] then Found(j)
    else
      match j
      case Null => Missing
      case Obj(m) => if path[0] in m then Follow(m[path[0]], path[1..]) else Missing
      case _ => Wrong
  }

  function NestedMap(m: Fields, path: seq<string>): Access<Fields> {
    match Follow(Obj(m), path)
    case Missing => Missing
    case Wrong => Wrong
    case Found(j) => if j.Obj? then Found(j.fields) else Wrong
  }

  function NestedSlice(m: Fields, path: seq<string>): Access<seq<Json>> {
    match Follow(Obj(m), path)
    case Missing => Missing
    case Wrong => Wrong
    case Found(j) => if j.Arr? then Found(j.items) else Wrong
  }

  /** The empty string when absent or of another type. */
  function NestedString(m: Fields, path: seq<string>): string {
    var a := Follow(Obj(m), path);
    if a.Found? && a.value.Str? then a.value.text else ""
  }

  /** All values are strings; nulls read as empty strings. */
  predicate Textual(m: Fields) { forall k :: k in m ==> m[k].Str? || m[k].Null? }

  function Texts(m: Fields): map<string, string> {
    map k | k in m :: if m[k].Str? then m[k].text else ""
  }

  function FromTexts(m: map<string, string>): Fields { map k | k in m :: Str(m[k]) }

  /** No entries when absent or malformed. */
  function NestedTexts(m: Fields, path: seq<string>): map<string, string> {
    var a := NestedMap(m, path);
    if a.Found? && Textual(a.value) then Texts(a.value) else map[]
  }

  /** Creates the maps on the way; fails where something else is in the way. */
  function SetNested(m: Fields, path: seq<string>, value: Json): Option<Fields>
    requires path != []
    decreases |path|
  {
    if |path| == 1 then Some(m[path[0] := value])
    else if path[0] in m && !m[path[0]].Obj? then None
    else
      var inner := SetNested(if path[0] in m then m[path[0]].fields else map[], path[1..], value);
      if inner.None? then None else Some(m[path[0] := Obj(inner.value)])
  }

  /** A failure to set is ignored. */
  function SetTexts(m: Fields, path: seq<string>, value: map<string, string>): Fields
    requires path != []
  {
    var r := SetNested(m, path, Obj(FromTexts(value)));
    if r.None? then m else r.value
  }

  /** One step of each accessor, for paths written out. */
  lemma Follow1(m: Fields, a: string)
    ensures Follow(Obj(m), [a]) == if a in m then Found(m[a]) else Missing
  {
  }

  lemma Follow2(m: Fields, a: string, b: string)
    ensures Follow(Obj(m), [a, b]) ==
            if a !in m || m[a].Null? then Missing
            else if !m[a].Obj? then Wrong
            else if b in m[a].fields then Found(m[a].fields[b]) else Missing
  {
    var p := [a, b];
    assert p[1..] == [b];
    if a in m { assert Follow(m[a], p[1..]) == Follow(m[a], [b]); if m[a].Obj? { Follow1(m[a].fields, b); } }
  }

  lemma Set2(m: Fields, a: string, b: string, v: Json)
    ensures SetNested(m, [a, b], v) ==
            if a in m && !m[a].Obj? then None
            else Some(m[a := Obj((if a in m then m[a].fields else map[])[b := v])])
  {
  }

  lemma TextsRoundTrip(m: map<string, string>)
    ensures Textual(FromTexts(m)) && Texts(FromTexts(m)) == m
  {
  }

  // ---------- Laws of the accessors ----------

  /** Following a path in two stretches. */
  lemma {:induction false} FollowSplit(j: Json, p: seq<string>, r: seq<string>)
    ensures Follow(j, p).Found? ==> Follow(j, p + r) == Follow(Follow(j, p).value, r)
  {
    if p == [] {
      assert p + r == r;
    } else {
      assert (p + r)[0] == p[0] && (p + r)[1..] == p[1..] + r;
      if j.Obj? && p[0] in j.fields { FollowSplit(j.fields[p[0]], p[1..], r); }
    }
  }

  /** Writing what is already there changes nothing. */
  lemma {:induction false} SetSame(m: Fields, p: seq<string>, v: Json)
    requires p != [] && Follow(Obj(m), p) == Found(v)
    ensures SetNested(m, p, v) == Some(m)
    decreases |p|
  {
    assert Follow(m[p[0]], p[1..]) == Found(v);
    if |p| == 1 {
      assert p[1..] == [];
      assert m[p[0]] == v;
      assert m[p[0] := v] == m;
    } else {
      assert m[p[0]].Obj?;
      SetSame(m[p[0]].fields, p[1..], v);
      assert m[p[0] := Obj(m[p[0]].fields)] == m;
    }
  }

  /** What was written where an object stood is what is read back, and only the first key's value changed. */
  lemma {:induction false} SetFound(m: Fields, p: seq<string>, v: Json)
    requires p != [] && NestedMap(m, p).Found?
    ensures var r := SetNested(m, p, v);
            && r.Some? && Follow(Obj(r.value), p) == Found(v)
            && p[0] in r.value && r.value == m[p[0] := r.value[p[0]]]
    decreases |p|
  {
    if |p| == 1 {
      assert p[1..] == [];
    } else {
      var inner := m[p[0]];
      assert Follow(inner, p[1..]).Found?;
      assert inner.Obj?;
      SetFound(inner.fields, p[1..], v);
    }
  }

  /** Writing through an object found on the way. */
  lemma {:induction false} SetDeep(m: Fields, p: seq<string>, r: seq<string>, v: Json)
    requires p != [] && r != [] && NestedMap(m, p).Found? && SetNested(NestedMap(m, p).value, r, v).Some?
    ensures SetNested(m, p + r, v) == SetNested(m, p, Obj(SetNested(NestedMap(m, p).value, r, v).value))
    decreases |p|
  {
    assert (p + r)[0] == p[0] && (p + r)[1..] == p[1..] + r;
    if |p| == 1 {
      assert p[1..] == [] && p[1..] + r == r;
      assert Follow(m[p[0]], p[1..]) == Found(m[p[0]]);
      assert |p + r| > 1;
    } else {
      var inner := m[p[0]];
      assert Follow(inner, p[1..]).Found?;
      assert inner.Obj?;
      SetDeep(inner.fields, p[1..], r, v);
    }
  }

  /** A path that leads somewhere leads through objects. */
  lemma {:induction false} FollowPrefix(j: Json, p: seq<string>, r: seq<string>)
    requires r != [] && Follow(j, p + r).Found?
    ensures Follow(j, p).Found? && Follow(j, p).value.Obj?
  {
    if p == [] {
      assert p + r == r;
    } else {
      assert (p + r)[0] == p[0] && (p + r)[1..] == p[1..] + r;
      FollowPrefix(j.fields[p[0]], p[1..], r);
    }
  }

  /** The later of two writes to one path stands. */
  lemma {:induction false} SetAgain(m: Fields, p: seq<string>, v: Json, w: Json)
    requires p != [] && SetNested(m, p, v).Some?
    ensures SetNested(SetNested(m, p, v).value, p, w) == SetNested(m, p, w)
    decreases |p|
  {
    var r := SetNested(m, p, v).value;
    if |p| > 1 {
      SetAgain(if p[0] in m then m[p[0]].fields else map[], p[1..], v, w);
      var inner := SetNested(r[p[0]].fields, p[1..], w);
      if inner.Some? { assert r[p[0] := Obj(inner.value)] == m[p[0] := Obj(inner.value)]; }
    } else {
      assert r[p[0] := w] == m[p[0] := w];
    }
  }
}
