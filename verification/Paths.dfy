/** Slash-separated paths and their lexical cleaning, as Go's path package does it. */
module Paths {

  predicate IsAbs(p: string) { |p| > 0 && p[0] == '/' }

  /** The pieces of p[start..end], scanned up to i so far. */
  function Pieces(p: string, start: nat, i: nat, end: nat): (r: seq<string>)
    requires start <= i <= end <= |p|
    ensures r != []
    decreases end - i
  {
    if i == end then [p[start..i]]
    else if p[i] == '/' then [p[start..i]] + Pieces(p, i + 1, i + 1, end)
    else Pieces(p, start, i + 1, end)
  }

  /** The pieces between slashes, in order. */
  function Split(p: string): seq<string> { Pieces(p, 0, 0, |p|) }

  function Push(stack: seq<string>, seg: string, rooted: bool): seq<string> {
    if seg == "" || seg == "." then stack
    else if seg != ".." then stack + [seg]
    else if stack != [] && stack[|stack| - 1] != ".." then stack[..|stack| - 1]
    else if rooted then stack
    else stack + [".."]
  }

  /** What is left after dropping empty and "." segments and resolving "..". */
  function Resolved(segs: seq<string>, rooted: bool): seq<string> {
    if segs == [] then [] else Push(Resolved(segs[..|segs| - 1], rooted), segs[|segs| - 1], rooted)
  }

  function Join(segs: seq<string>): string {
    if segs == [] then ""
    else if |segs| == 1 then segs[0]
    else Join(segs[..|segs| - 1]) + "/" + segs[|segs| - 1]
  }

  function Clean(p: string): string {
    var rooted := IsAbs(p);
    var out := (if rooted then "/" else "") + Join(Resolved(Split(p), rooted));
    if out == "" then "." else out
  }

  function TrimSlash(p: string): string { if |p| > 0 && p[|p| - 1] == '/' then p[..|p| - 1] else p }

  /** p, once cleaned, is the directory or lies below it. */
  predicate AtOrBelow(dir: string, p: string) {
    Clean(p) == Clean(dir) || TrimSlash(Clean(dir)) + "/" <= Clean(p)
  }

  function LastSlash(p: string): (n: nat)
    ensures n <= |p|
  {
    if p == "" then 0 else if p[|p| - 1] == '/' then |p| else LastSlash(p[..|p| - 1])
  }

  /** Everything up to and including the last slash, cleaned. */
  function Dir(p: string): string { Clean(p[..LastSlash(p)]) }

  function TrimSlashes(p: string): string {
    if |p| > 0 && p[|p| - 1] == '/' then TrimSlashes(p[..|p| - 1]) else p
  }

  /** The last piece. */
  function Base(p: string): string {
    if p == "" then "."
    else
      var q := TrimSlashes(p);
      if q == "" then "/" else q[LastSlash(q)..]
  }

  // ---------- Anything written below an absolute directory is below it ----------

  /** No empty, "." or ".." segment. */
  predicate Plain(segs: seq<string>) {
    forall i :: 0 <= i < |segs| ==> segs[i] != "" && segs[i] != "." && segs[i] != ".."
  }

  lemma Regroup(a: string, x: seq<string>, y: seq<string>)
    ensures [a] + (x + y) == ([a] + x) + y
  {
  }

  /** Every slash cuts the pieces in two. */
  lemma {:induction false} PiecesCut(s: string, start: nat, i: nat, k: nat)
    requires start <= i <= k < |s| && s[k] == '/'
    ensures Pieces(s, start, i, |s|) == Pieces(s, start, i, k) + Pieces(s, k + 1, k + 1, |s|)
    decreases k - i
  {
    if i < k {
      if s[i] == '/' {
        PiecesCut(s, i + 1, i + 1, k);
        Regroup(s[start..i], Pieces(s, i + 1, i + 1, k), Pieces(s, k + 1, k + 1, |s|));
      } else {
        PiecesCut(s, start, i + 1, k);
      }
    }
  }

  /** t occurs in s at offset o; its pieces are found there. */
  lemma {:induction false} PiecesShift(s: string, o: nat, t: string, start: nat, i: nat)
    requires start <= i <= |t| && o + |t| <= |s| && forall j :: 0 <= j < |t| ==> s[o + j] == t[j]
    ensures Pieces(s, o + start, o + i, o + |t|) == Pieces(t, start, i, |t|)
    decreases |t| - i
  {
    assert s[o + start..o + i] == t[start..i];
    if i < |t| {
      assert s[o + i] == t[i];
      if t[i] == '/' { PiecesShift(s, o, t, i + 1, i + 1); } else { PiecesShift(s, o, t, start, i + 1); }
    }
  }

  /** Splitting distributes over every slash. */
  lemma SplitJoined(a: string, b: string)
    ensures Split(a + "/" + b) == Split(a) + Split(b)
  {
    var s := a + "/" + b;
    PiecesCut(s, 0, 0, |a|);
    PiecesShift(s, 0, a, 0, 0);
    PiecesShift(s, |a| + 1, b, 0, 0);
  }

  lemma {:induction false} ResolvedPlain(segs: seq<string>, more: seq<string>, rooted: bool)
    requires Plain(more)
    ensures Resolved(segs + more, rooted) == Resolved(segs, rooted) + more
  {
    if more == [] {
      assert segs + more == segs;
    } else {
      var m := more[..|more| - 1];
      ResolvedPlain(segs, m, rooted);
      var all := segs + more;
      assert all[..|all| - 1] == segs + m;
      assert Resolved(segs, rooted) + more == Resolved(segs, rooted) + m + [more[|more| - 1]];
    }
  }

  lemma RegroupText(a: string, b: string, c: string)
    ensures (a + "/" + b) + "/" + c == a + "/" + (b + "/" + c)
  {
  }

  lemma {:induction false} JoinJoined(a: seq<string>, b: seq<string>)
    requires a != [] && b != []
    ensures Join(a + b) == Join(a) + "/" + Join(b)
  {
    var all := a + b;
    assert all[|all| - 1] == b[|b| - 1];
    if |b| == 1 {
      assert all[..|all| - 1] == a;
    } else {
      JoinJoined(a, b[..|b| - 1]);
      assert all[..|all| - 1] == a + b[..|b| - 1];
      RegroupText(Join(a), Join(b[..|b| - 1]), b[|b| - 1]);
    }
  }

  lemma {:induction false} JoinEnd(segs: seq<string>)
    requires segs != [] && NoSlashEnd(segs)
    ensures Join(segs) != "" && Join(segs)[|Join(segs)| - 1] != '/'
  {
  }

  predicate NoSlashEnd(segs: seq<string>) {
    forall i :: 0 <= i < |segs| ==> segs[i] != "" && segs[i][|segs[i]| - 1] != '/'
  }

  lemma {:induction false} PiecesNoSlash(p: string, start: nat, i: nat, end: nat)
    requires start <= i <= end <= |p| && forall j :: start <= j < i ==> p[j] != '/'
    ensures forall k :: 0 <= k < |Pieces(p, start, i, end)| ==> '/' !in Pieces(p, start, i, end)[k]
    decreases end - i
  {
    if i < end {
      if p[i] == '/' { PiecesNoSlash(p, i + 1, i + 1, end); } else { PiecesNoSlash(p, start, i + 1, end); }
    }
  }

  lemma {:induction false} ResolvedNoSlash(segs: seq<string>, rooted: bool)
    requires forall i :: 0 <= i < |segs| ==> '/' !in segs[i]
    ensures NoSlashEnd(Resolved(segs, rooted))
  {
    if segs != [] { ResolvedNoSlash(segs[..|segs| - 1], rooted); }
  }

  lemma CleanBelow(dir: string, rest: string)
    requires IsAbs(dir) && Plain(Split(rest))
    ensures Clean(dir + "/" + rest) == "/" + Join(Resolved(Split(dir), true) + Split(rest))
  {
    assert (dir + "/" + rest)[0] == dir[0];
    SplitJoined(dir, rest);
    ResolvedPlain(Split(dir), Split(rest), true);
  }

  lemma CleanEnd(dir: string)
    requires IsAbs(dir)
    ensures var stack := Resolved(Split(dir), true);
            TrimSlash(Clean(dir)) == if stack == [] then "" else "/" + Join(stack)
  {
    var stack := Resolved(Split(dir), true);
    PiecesNoSlash(dir, 0, 0, |dir|);
    ResolvedNoSlash(Split(dir), true);
    if stack != [] {
      JoinEnd(stack);
      var d := "/" + Join(stack);
      assert d[|d| - 1] == Join(stack)[|Join(stack)| - 1];
    }
  }

  lemma SlashPrefix(d: string, m: string, q: string)
    requires q == d + "/" + m
    ensures d + "/" <= q
  {
  }

  lemma CleanJoined(dir: string, rest: string)
    requires IsAbs(dir) && Plain(Split(rest))
    ensures Clean(dir + "/" + rest) == TrimSlash(Clean(dir)) + "/" + Join(Split(rest))
  {
    var stack, more := Resolved(Split(dir), true), Split(rest);
    CleanBelow(dir, rest);
    CleanEnd(dir);
    if stack == [] {
      assert stack + more == more;
    } else {
      JoinJoined(stack, more);
      Regroup3(Join(stack), Join(more));
    }
  }

  lemma BelowDirectory(dir: string, rest: string)
    requires IsAbs(dir) && Plain(Split(rest))
    ensures AtOrBelow(dir, dir + "/" + rest)
  {
    CleanJoined(dir, rest);
    SlashPrefix(TrimSlash(Clean(dir)), Join(Split(rest)), Clean(dir + "/" + rest));
  }

  lemma PlainEnd(rest: string)
    requires Plain(Split(rest))
    ensures Join(Split(rest)) != "" && Join(Split(rest))[|Join(Split(rest))| - 1] != '/'
  {
    PiecesNoSlash(rest, 0, 0, |rest|);
    JoinEnd(Split(rest));
  }

  /** What lies at or below a file of a directory lies below the directory, and is not the directory itself. */
  lemma BelowFile(dir: string, rest: string, p: string)
    requires IsAbs(dir) && Plain(Split(rest)) && AtOrBelow(dir + "/" + rest, p)
    ensures AtOrBelow(dir, p) && Clean(p) != Clean(dir)
  {
    var d, q, r := TrimSlash(Clean(dir)), Clean(dir + "/" + rest), Clean(p);
    CleanJoined(dir, rest);
    PlainEnd(rest);
    assert q[|q| - 1] != '/';
    assert q <= r;
    SlashPrefix(d, Join(Split(rest)), q);
    assert r[..|q|][..|d| + 1] == d + "/";
  }

  lemma Regroup3(a: string, b: string)
    ensures "/" + (a + "/" + b) == "/" + a + "/" + b
  {
  }

  // ---------- A directory and a name make the file again ----------

  lemma {:induction false} AfterLastSlash(p: string)
    ensures forall i :: LastSlash(p) <= i < |p| ==> p[i] != '/'
    ensures LastSlash(p) > 0 ==> p[LastSlash(p) - 1] == '/'
  {
    if p != "" && p[|p| - 1] != '/' {
      AfterLastSlash(p[..|p| - 1]);
      assert forall i :: 0 <= i < |p| - 1 ==> p[..|p| - 1][i] == p[i];
    }
  }

  lemma {:induction false} OnePiece(p: string, i: nat)
    requires i <= |p| && forall j :: 0 <= j < |p| ==> p[j] != '/'
    ensures Pieces(p, 0, i, |p|) == [p]
    decreases |p| - i
  {
    if i < |p| { OnePiece(p, i + 1); } else { assert p[0..i] == p; }
  }

  /** An absolute path cut at its last slash. */
  lemma CutAtSlash(p: string) returns (a: string, b: string)
    requires IsAbs(p)
    ensures p == a + "/" + b && p[..LastSlash(p)] == a + "/" && p[LastSlash(p)..] == b && Split(b) == [b]
  {
    AfterLastSlash(p);
    var n := LastSlash(p);
    a, b := p[..n - 1], p[n..];
    OnePiece(b, 0);
  }

  lemma CleanChild(a: string, b: string, stack: seq<string>)
    requires IsAbs(a + "/") && Plain([b]) && Split(b) == [b] && stack == Resolved(Split(a), true)
    ensures TrimSlash(Clean(a + "/")) == (if stack == [] then "" else "/" + Join(stack))
    ensures Clean(a + "/" + b) == "/" + Join(stack + [b])
  {
    assert a + "/" == a + "/" + "";
    SplitJoined(a, "");
    SplitJoined(a, b);
    assert Split("") == [""];
    ResolvedLast(Split(a), "");
    ResolvedLast(Split(a), b);
    CleanEnd(a + "/");
    assert (a + "/" + b)[0] == (a + "/")[0];
  }

  lemma ResolvedLast(segs: seq<string>, seg: string)
    ensures Resolved(segs + [seg], true) == Push(Resolved(segs, true), seg, true)
  {
    assert (segs + [seg])[..|segs|] == segs;
  }

  lemma ChildFound(a: string, b: string)
    requires IsAbs(a + "/") && Plain([b]) && Split(b) == [b]
    ensures TrimSlash(Clean(a + "/")) + "/" + b == Clean(a + "/" + b)
  {
    var stack := Resolved(Split(a), true);
    CleanChild(a, b, stack);
    if stack != [] {
      JoinJoined(stack, [b]);
      Regroup3(Join(stack), b);
    } else {
      assert stack + [b] == [b];
    }
  }

  /** Mounted at its directory under its base name, a file is found at its own cleaned path. */
  lemma FileFound(f: string)
    requires IsAbs(f) && f[|f| - 1] != '/' && Base(f) != "." && Base(f) != ".."
    ensures TrimSlash(Dir(f)) + "/" + Base(f) == Clean(f)
  {
    var a, b := CutAtSlash(f);
    assert TrimSlashes(f) == f;
    assert b != "";
    assert IsAbs(a + "/") by { assert f[0] == (a + "/")[0]; }
    ChildFound(a, b);
  }
}
