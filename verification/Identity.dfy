/** Holder names: how the helper derives them and which tenant may use them. */
module Identity {
  import opened Wrappers
  import KeyNames
  import LeaseRecord

  datatype Mode = StartupGate | RuntimeSingleton

  datatype Config = Config(
    mode: Mode, explicitHolder: string, clusterID: string, podNamespace: string, podName: string,
    podUID: string, workloadKind: string, workloadName: string)

  const HOLDER_LIMIT: nat := 253

  function NonEmpty(s: string): seq<string> { if s == "" then [] else [s] }

  /** Tenant-owning root first, identity last. */
  function Parts(c: Config): seq<string> {
    NonEmpty(c.clusterID) + NonEmpty(c.podNamespace) + NonEmpty(c.workloadKind) + NonEmpty(c.workloadName) + PodParts(c)
  }

  function PodParts(c: Config): seq<string> {
    match c.mode
    case StartupGate => if c.workloadKind == "" && c.workloadName == "" then NonEmpty(c.podName) else []
    case RuntimeSingleton => (if c.podName != "" then ["pod", c.podName] else []) + ["uid", c.podUID]
  }

  function Join(parts: seq<string>): string {
    if parts == [] then ""
    else if |parts| == 1 then parts[0]
    else parts[0] + ":" + Join(parts[1..])
  }

  function Holder(c: Config): string {
    if c.explicitHolder != "" then c.explicitHolder
    else
      var parts := Parts(c);
      if |parts| <= 1 then Join(parts) else parts[0] + "/" + Join(parts[1..])
  }

  method Add(parts: seq<string>, s: string) returns (r: seq<string>)
    ensures r == parts + NonEmpty(s)
  {
    if s != "" { return parts + [s]; }
    return parts;
  }

  /** The parts are collected one by one; the first becomes the root. */
  method BuildHolder(c: Config) returns (holder: string)
    ensures holder == Holder(c)
  {
    if c.explicitHolder != "" { return c.explicitHolder; }
    var parts := Add([], c.clusterID);
    parts := Add(parts, c.podNamespace);
    parts := Add(parts, c.workloadKind);
    parts := Add(parts, c.workloadName);
    ghost var owner := parts;
    match c.mode {
      case StartupGate =>
        if c.workloadKind == "" && c.workloadName == "" { parts := Add(parts, c.podName); }
      case RuntimeSingleton =>
        if c.podName != "" { parts := parts + ["pod", c.podName]; }
        parts := parts + ["uid", c.podUID];
    }
    assert parts == owner + PodParts(c) == Parts(c);
    if |parts| <= 1 { return Join(parts); }
    return parts[0] + "/" + Join(parts[1..]);
  }

  predicate Space(ch: char) { ch == ' ' || ch == '\t' || ch == '\r' || ch == '\n' }

  predicate Blank(ch: char) {
    || '\t' <= ch <= '\r' || ch == ' ' || ch == '\U{0085}' || ch == '\U{00A0}' || ch == '\U{1680}'
    || '\U{2000}' <= ch <= '\U{200A}' || ch == '\U{2028}' || ch == '\U{2029}' || ch == '\U{202F}' || ch == '\U{205F}'
    || ch == '\U{3000}'
  }

  predicate Trimmed(s: string) { s != "" ==> !Blank(s[0]) && !Blank(s[|s| - 1]) }

  /** The identity checks of configuration validation. */
  predicate ValidIdentity(c: Config) {
    c.mode == RuntimeSingleton && c.explicitHolder == "" ==>
      && c.podUID != ""
      && (forall i :: 0 <= i < |c.podUID| ==> c.podUID[i] != ':' && c.podUID[i] != '/' && !Space(c.podUID[i]))
      && Trimmed(c.podUID)
      && |Holder(c)| <= HOLDER_LIMIT
  }

  /** A derived holder that passes is one the central service accepts; what else is refused is a UID out of shape. */
  lemma ValidIdentityIff(c: Config)
    ensures ValidIdentity(c) <==>
              || c.mode == StartupGate || c.explicitHolder != ""
              || (&& LeaseRecord.ValidHolder(Holder(c)) && c.podUID != "" && Trimmed(c.podUID)
                  && forall i :: 0 <= i < |c.podUID| ==> c.podUID[i] !in {':', '/', ' ', '\t', '\r', '\n'})
  {
    if c.mode == RuntimeSingleton && c.explicitHolder == "" { HolderEndsInUid(c); }
  }

  /** Every UID of the usual letters, digits and dashes will do. */
  lemma UsualUidIsValid(c: Config)
    requires c.podUID != "" && forall i :: 0 <= i < |c.podUID| ==>
             KeyNames.LowerAlnum(c.podUID[i]) || c.podUID[i] == '-'
    requires |Holder(c)| <= 253
    ensures ValidIdentity(c)
  {
  }

  // ---------- The spelling of a holder ----------

  function Piece(s: string): string { if s == "" then "" else ":" + s }

  /** What names the Pod itself. */
  function PodText(c: Config): string {
    match c.mode
    case StartupGate => if c.workloadKind == "" && c.workloadName == "" then Piece(c.podName) else ""
    case RuntimeSingleton => (if c.podName == "" then "" else ":pod:" + c.podName) + ":uid:" + c.podUID
  }

  /** Every component behind a colon. */
  function Text(c: Config): string {
    Piece(c.clusterID) + Piece(c.podNamespace) + Piece(c.workloadKind) + Piece(c.workloadName) + PodText(c)
  }

  function Colons(parts: seq<string>): string {
    if parts == [] then "" else ":" + parts[0] + Colons(parts[1..])
  }

  lemma {:induction false} ColonsConcat(a: seq<string>, b: seq<string>)
    ensures Colons(a + b) == Colons(a) + Colons(b)
  {
    if a == [] {
      assert a + b == b;
    } else {
      assert (a + b)[1..] == a[1..] + b;
      ColonsConcat(a[1..], b);
    }
  }

  lemma {:induction false} ColonsOfJoin(parts: seq<string>)
    requires parts != []
    ensures Colons(parts) == ":" + Join(parts)
  {
    if |parts| > 1 { ColonsOfJoin(parts[1..]); }
  }

  lemma ColonsOfPiece(s: string)
    ensures Colons(NonEmpty(s)) == Piece(s)
  {
    assert NonEmpty(s) != [] ==> NonEmpty(s)[1..] == [];
  }

  lemma ColonsOfPair(a: string, b: string)
    ensures Colons([a, b]) == ":" + a + ":" + b
  {
    assert [a, b][1..] == [b] && [b][1..] == [];
    assert Colons([b]) == ":" + b + Colons([]);
  }

  lemma ColonsOfPod(c: Config)
    ensures Colons(PodParts(c)) == PodText(c)
  {
    match c.mode
    case StartupGate => ColonsOfPiece(c.podName);
    case RuntimeSingleton =>
      ColonsOfPair("uid", c.podUID);
      if c.podName != "" {
        ColonsOfPair("pod", c.podName);
        ColonsConcat(["pod", c.podName], ["uid", c.podUID]);
      } else {
        assert PodParts(c) == ["uid", c.podUID];
      }
  }

  lemma ColonsOfParts(c: Config)
    ensures Colons(Parts(c)) == Text(c)
  {
    var a, b := NonEmpty(c.clusterID), NonEmpty(c.podNamespace);
    var d, e := NonEmpty(c.workloadKind), NonEmpty(c.workloadName);
    ColonsOfPiece(c.clusterID);
    ColonsOfPiece(c.podNamespace);
    ColonsOfPiece(c.workloadKind);
    ColonsOfPiece(c.workloadName);
    ColonsConcat(a, b);
    ColonsConcat(a + b, d);
    ColonsConcat(a + b + d, e);
    ColonsConcat(a + b + d + e, PodParts(c));
    ColonsOfPod(c);
  }

  /** The components after the first, behind a slash. */
  function Behind(rest: string): string { if rest == "" then "" else "/" + rest[1..] }

  lemma JoinedIs(parts: seq<string>)
    requires parts != []
    ensures Colons(parts) == ":" + parts[0] + Colons(parts[1..])
    ensures (if |parts| <= 1 then Join(parts) else parts[0] + "/" + Join(parts[1..])) ==
            parts[0] + Behind(Colons(parts[1..]))
  {
    if |parts| > 1 {
      ColonsOfJoin(parts[1..]);
      assert Colons(parts[1..])[1..] == Join(parts[1..]);
    } else {
      assert parts[1..] == [];
    }
  }

  /** A holder is its root and, behind a slash, the other components; an explicit one is used as it is. */
  lemma HolderSpelled(c: Config) returns (rest: string)
    ensures c.explicitHolder != "" ==> Holder(c) == c.explicitHolder
    ensures c.explicitHolder == "" ==>
              match Root(c)
              case None => Text(c) == "" && Holder(c) == ""
              case Some(root) => Text(c) == ":" + root + rest && Holder(c) == root + Behind(rest)
  {
    ColonsOfParts(c);
    rest := "";
    if Parts(c) != [] {
      JoinedIs(Parts(c));
      rest := Colons(Parts(c)[1..]);
    }
  }

  lemma Cancel(x: string, a: string, b: string)
    requires x + a == x + b
    ensures a == b
  {
    assert a == (x + a)[|x|..] && b == (x + b)[|x|..];
  }

  /** The text in three parts: the possible roots, and what is below them. */
  lemma TextIs(c: Config, below: string)
    requires below == Piece(c.workloadKind) + Piece(c.workloadName) + PodText(c)
    ensures Text(c) == Piece(c.clusterID) + (Piece(c.podNamespace) + below)
  {
  }

  /** The cluster id or, without one, the namespace, and behind a slash what is below. */
  lemma RootedHolder(c: Config, below: string)
    requires c.explicitHolder == "" && below == Piece(c.workloadKind) + Piece(c.workloadName) + PodText(c)
    ensures c.clusterID != "" ==> Holder(c) == c.clusterID + Behind(Piece(c.podNamespace) + below)
    ensures c.clusterID == "" && c.podNamespace != "" ==> Holder(c) == c.podNamespace + Behind(below)
  {
    var rest := HolderSpelled(c);
    TextIs(c, below);
    if c.clusterID != "" {
      RootSameInBothModes(c);
      Cancel(":" + c.clusterID, rest, Piece(c.podNamespace) + below);
    } else if c.podNamespace != "" {
      RootSameInBothModes(c);
      Cancel(":" + c.podNamespace, rest, below);
    }
  }

  /** Behind the gate, the Pods of one workload share its holder. */
  lemma GateHolderShared(a: Config, b: Config)
    requires a.mode == StartupGate && (a.workloadKind != "" || a.workloadName != "")
    requires b == a.(podName := b.podName, podUID := b.podUID)
    ensures Holder(a) == Holder(b)
  {
  }

  // ---------- Distinct Pods, distinct holders ----------

  predicate Separator(ch: char) { ch == ':' || ch == '/' }

  /** s ends in a separator and then tail. */
  predicate EndsIn(s: string, tail: string) {
    |s| > |tail| && s[|s| - |tail|..] == tail && Separator(s[|s| - |tail| - 1])
  }

  lemma {:induction false} JoinEndsIn(parts: seq<string>)
    requires |parts| >= 2
    ensures EndsIn(Join(parts), parts[|parts| - 1])
  {
    if |parts| == 2 {
      assert Join(parts[1..]) == parts[1];
    } else {
      JoinEndsIn(parts[1..]);
      var rest := Join(parts[1..]);
      var s := Join(parts);
      assert s == parts[0] + ":" + rest;
      var tail := parts[|parts| - 1];
      assert s[|s| - |tail|..] == rest[|rest| - |tail|..];
      assert s[|s| - |tail| - 1] == rest[|rest| - |tail| - 1];
    }
  }

  lemma RootedEndsIn(parts: seq<string>)
    requires |parts| >= 2
    ensures EndsIn(parts[0] + "/" + Join(parts[1..]), parts[|parts| - 1])
  {
    var rest, tail := Join(parts[1..]), parts[|parts| - 1];
    var s := parts[0] + "/" + rest;
    if |parts| == 2 {
      assert rest == tail;
    } else {
      JoinEndsIn(parts[1..]);
      assert s[|s| - |tail|..] == rest[|rest| - |tail|..];
      assert s[|s| - |tail| - 1] == rest[|rest| - |tail| - 1];
    }
  }

  lemma PartsEndInUid(c: Config)
    requires c.mode == RuntimeSingleton
    ensures |Parts(c)| >= 2 && Parts(c)[|Parts(c)| - 1] == c.podUID
  {
    var parts, own := Parts(c), PodParts(c);
    assert parts[|parts| - 1] == own[|own| - 1];
  }

  lemma HolderEndsInUid(c: Config)
    requires c.mode == RuntimeSingleton && c.explicitHolder == ""
    ensures EndsIn(Holder(c), c.podUID)
  {
    PartsEndInUid(c);
    RootedEndsIn(Parts(c));
  }

  lemma TailUnique(s: string, a: string, b: string)
    requires EndsIn(s, a) && EndsIn(s, b)
    requires (forall i :: 0 <= i < |a| ==> !Separator(a[i])) && (forall i :: 0 <= i < |b| ==> !Separator(b[i]))
    ensures a == b
  {
  }

  /** Validated runtime configurations of different Pods never derive one holder, whatever else they contain. */
  lemma HoldersDistinct(a: Config, b: Config)
    requires ValidIdentity(a) && a.mode == RuntimeSingleton && a.explicitHolder == ""
    requires ValidIdentity(b) && b.mode == RuntimeSingleton && b.explicitHolder == ""
    requires a.podUID != b.podUID
    ensures Holder(a) != Holder(b)
  {
    HolderEndsInUid(a);
    HolderEndsInUid(b);
    if Holder(a) == Holder(b) {
      TailUnique(Holder(a), a.podUID, b.podUID);
    }
  }

  // ---------- Tenants ----------

  predicate SlashFree(s: string) { '/' !in s }

  /** The tenant policy: a holder is the tenant itself or lies under it. Tenants are non-empty and slash-free. */
  predicate Authorized(tenant: string, holder: string) {
    tenant != "" && SlashFree(tenant) && (holder == tenant || tenant + "/" <= holder)
  }

  /** A holder belongs to at most one tenant. */
  lemma OneTenant(a: string, b: string, holder: string)
    requires Authorized(a, holder) && Authorized(b, holder)
    ensures a == b
  {
    var n, m := |a|, |b|;
    assert forall i :: 0 <= i < n ==> holder[i] == (if holder == a then a else a + "/")[i] == a[i];
    assert forall i :: 0 <= i < m ==> holder[i] == (if holder == b then b else b + "/")[i] == b[i];
    assert n < |holder| ==> holder[n] == (a + "/")[n] == '/';
    assert m < |holder| ==> holder[m] == (b + "/")[m] == '/';
    assert a == holder[..n] == b;
  }

  /** The root every derived holder starts with. */
  function Root(c: Config): Option<string> { if Parts(c) == [] then None else Some(Parts(c)[0]) }

  /** The text before the first slash. */
  function BeforeSlash(s: string): (r: string)
    ensures SlashFree(r) && r <= s && (|r| < |s| ==> s[|r|] == '/')
  {
    if s == "" || s[0] == '/' then "" else [s[0]] + BeforeSlash(s[1..])
  }

  /** Every holder, derived or not, belongs to exactly the tenant named before its first slash, if there is one. */
  lemma HolderOwner(holder: string, tenant: string)
    ensures Authorized(tenant, holder) <==> tenant != "" && tenant == BeforeSlash(holder)
  {
    var owner := BeforeSlash(holder);
    if owner != "" {
      assert owner < holder ==> holder[..|owner| + 1] == owner + "/";
      assert Authorized(owner, holder);
    }
    if Authorized(tenant, holder) && owner != "" { OneTenant(tenant, owner, holder); }
  }

  lemma {:induction false} BeforeSlashJoined(root: string, rest: string)
    ensures BeforeSlash(root + "/" + rest) == BeforeSlash(root)
  {
    var s := root + "/" + rest;
    if root != "" {
      assert s[0] == root[0] && s[1..] == root[1..] + "/" + rest;
      BeforeSlashJoined(root[1..], rest);
    }
  }

  /** A derived holder belongs to exactly the tenant before the first slash of its root: "a" for the root "a/b". */
  lemma DerivedHolderOwner(c: Config, tenant: string)
    requires c.explicitHolder == ""
    ensures Authorized(tenant, Holder(c)) <==> Root(c).Some? && tenant != "" && tenant == BeforeSlash(Root(c).value)
  {
    HolderOwner(Holder(c), tenant);
    if |Parts(c)| > 1 { BeforeSlashJoined(Parts(c)[0], Join(Parts(c)[1..])); }
  }

  /** Both modes share one root: the cluster id when set, otherwise the Pod namespace. */
  lemma RootSameInBothModes(c: Config)
    requires c.clusterID != "" || c.podNamespace != ""
    ensures Root(c) == Some(if c.clusterID != "" then c.clusterID else c.podNamespace)
    ensures Root(c.(mode := StartupGate)) == Root(c.(mode := RuntimeSingleton))
  {
  }
}
