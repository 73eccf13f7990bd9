/**
 Lease keys and their encoding as one object name. DNS label and subdomain
 syntax follow section 2.1 of RFC 1123 as the key validation applies it.
 */
module KeyNames {

  datatype Key = Key(ns: string, name: string)

  const LABEL_MAX: nat := 63
  const SUBDOMAIN_MAX: nat := 253

  predicate LowerAlnum(c: char) { 'a' <= c <= 'z' || '0' <= c <= '9' }

  /** Lower-case alphanumerics and '-', beginning and ending alphanumeric. */
  predicate LabelSyntax(s: string) {
    && |s| > 0
    && LowerAlnum(s[0]) && LowerAlnum(s[|s| - 1])
    && forall i :: 0 <= i < |s| ==> LowerAlnum(s[i]) || s[i] == '-'
  }

  predicate DnsLabel(s: string) { LabelSyntax(s) && |s| <= LABEL_MAX }

  /** The segments between dots; n dots give n + 1 segments. */
  function Segments(s: string): (r: seq<string>)
    ensures |r| > 0
  {
    if s == "" then [""]
    else
      var rest := Segments(s[1..]);
      if s[0] == '.' then [""] + rest else [[s[0]] + rest[0]] + rest[1..]
  }

  predicate DnsSubdomain(s: string) {
    |s| <= SUBDOMAIN_MAX && forall seg :: seg in Segments(s) ==> LabelSyntax(seg)
  }

  predicate ValidKey(k: Key) {
    DnsLabel(k.ns) && DnsSubdomain(k.name) && |k.ns| + 1 + |k.name| <= SUBDOMAIN_MAX
  }

  function LeaseName(k: Key): string { k.ns + "." + k.name }

  /** The first dot always ends the namespace, so no two valid keys share an object. */
  lemma LeaseNameInjective(a: Key, b: Key)
    requires ValidKey(a) && ValidKey(b)
    ensures LeaseName(a) == LeaseName(b) <==> a == b
  {
    if LeaseName(a) == LeaseName(b) {
      var s := LeaseName(a);
      assert s[|a.ns|] == '.' && s[|b.ns|] == '.';
      assert forall i :: 0 <= i < |a.ns| ==> s[i] == a.ns[i];
      assert forall i :: 0 <= i < |b.ns| ==> LeaseName(b)[i] == b.ns[i];
      assert |a.ns| == |b.ns|;
      assert a.ns == s[..|a.ns|] == b.ns;
      assert a.name == s[|a.ns| + 1..] == b.name;
    }
  }

  /** A dot-free prefix and a dot put one segment in front of the others. */
  lemma {:induction false} SegmentsOfJoin(ns: string, name: string)
    requires forall i :: 0 <= i < |ns| ==> ns[i] != '.'
    ensures Segments(ns + "." + name) == [ns] + Segments(name)
  {
    var s := ns + "." + name;
    if ns == "" {
      assert s[1..] == name;
    } else {
      assert s[1..] == ns[1..] + "." + name;
      SegmentsOfJoin(ns[1..], name);
      assert [s[0]] + ns[1..] == ns;
    }
  }

  /** A key is valid if and only if its namespace is a short dot-free prefix of an object name in DNS syntax. */
  lemma ValidKeyIff(k: Key)
    ensures ValidKey(k) <==> |k.ns| <= 63 && '.' !in k.ns && DnsSubdomain(LeaseName(k))
  {
    if '.' !in k.ns {
      SegmentsOfJoin(k.ns, k.name);
      var segs := Segments(LeaseName(k));
      assert segs[0] == k.ns && segs[1..] == Segments(k.name);
      assert forall seg :: seg in Segments(k.name) ==> seg in segs;
    }
  }

  // ---------- DNS syntax, character by character ----------

  /** Alphanumerics everywhere, but between two of them also dashes, or one dot. */
  predicate NameShape(s: string) {
    && |s| > 0 && LowerAlnum(s[0]) && LowerAlnum(s[|s| - 1])
    && (forall i :: 0 <= i < |s| ==> LowerAlnum(s[i]) || s[i] == '-' || s[i] == '.')
    && (forall i :: 0 < i < |s| - 1 && s[i] == '.' ==> LowerAlnum(s[i - 1]) && LowerAlnum(s[i + 1]))
  }

  lemma {:induction false} NoDotOneSegment(s: string)
    requires '.' !in s
    ensures Segments(s) == [s]
  {
    if s != "" {
      NoDotOneSegment(s[1..]);
      assert [s[0]] + s[1..] == s;
    }
  }

  lemma {:induction false} FirstDot(s: string) returns (ns: string, name: string)
    requires '.' in s
    ensures s == ns + "." + name && '.' !in ns
  {
    if s[0] == '.' {
      ns, name := "", s[1..];
    } else {
      ns, name := FirstDot(s[1..]);
      ns := [s[0]] + ns;
    }
  }

  lemma JoinedShape(ns: string, name: string)
    requires LabelSyntax(ns) && NameShape(name)
    ensures NameShape(ns + "." + name)
  {
    var s, n := ns + "." + name, |ns|;
    assert s[..n] == ns && s[n + 1..] == name && s[n] == '.';
    assert forall i :: n < i < |s| ==> s[i] == name[i - n - 1];
  }

  lemma CutShape(ns: string, name: string)
    requires '.' !in ns && NameShape(ns + "." + name)
    ensures LabelSyntax(ns) && NameShape(name)
  {
    var s, n := ns + "." + name, |ns|;
    assert s[n] == '.';
    assert forall i :: 0 <= i < n ==> s[i] == ns[i];
    assert 0 < n < |s| - 1;
    forall i | 0 <= i < |name| ensures name[i] == s[n + 1 + i] { }
    assert LowerAlnum(name[0]) && LowerAlnum(name[|name| - 1]);
    forall i | 0 < i < |name| - 1 && name[i] == '.' ensures LowerAlnum(name[i - 1]) && LowerAlnum(name[i + 1]) {
      assert s[n + 1 + i] == '.';
      assert LowerAlnum(s[n + i]) && LowerAlnum(s[n + 2 + i]);
    }
  }

  /** The syntax of object names, without cutting them into segments. */
  lemma {:induction false} SubdomainIff(s: string)
    ensures (forall seg :: seg in Segments(s) ==> LabelSyntax(seg)) <==> NameShape(s)
    decreases |s|
  {
    if '.' in s {
      var ns, name := FirstDot(s);
      SegmentsOfJoin(ns, name);
      if NameShape(s) { CutShape(ns, name); }
      if LabelSyntax(ns) && NameShape(name) { JoinedShape(ns, name); }
      SubdomainIff(name);
      var segs := Segments(s);
      assert segs[0] == ns && segs[1..] == Segments(name);
      assert forall seg :: seg in segs <==> seg == ns || seg in Segments(name);
    } else {
      NoDotOneSegment(s);
      assert s in Segments(s);
    }
  }

  /** Validation is exact: dropping the label rule for namespaces lets two keys collide. */
  lemma DottedNamespaceCollides()
    ensures var a, b := Key("a.b", "c"), Key("a", "b.c");
            a != b && LeaseName(a) == LeaseName(b) && ValidKey(b) && !ValidKey(a)
  {
    assert "c"[1..] == "";
    assert Segments("c") == [['c'] + ""] + [];
    SegmentsOfJoin("b", "c");
    assert "b" + "." + "c" == "b.c";
    assert "a.b"[1] == '.';
  }
}
