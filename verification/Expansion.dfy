/** How a container runtime expands references to other variables in the value of an environment variable. */
module Expansion {

  /** The first closing parenthesis at or after i, or the length of the text. */
  function Closing(t: string, i: nat): (c: nat)
    requires i <= |t|
    ensures i <= c <= |t|
    decreases |t| - i
  {
    if i == |t| || t[i] == ')' then i else Closing(t, i + 1)
  }

  /** "$(name)" becomes what vars gives for the name, "$$" becomes "$", everything else stays. */
  function Expand(t: string, vars: string -> string): string
    decreases |t|
  {
    if |t| <= 1 then t
    else if t[0] != '$' then t[..1] + Expand(t[1..], vars)
    else if t[1] == '$' then "$" + Expand(t[2..], vars)
    else if t[1] == '(' && Closing(t, 2) < |t| then vars(t[2..Closing(t, 2)]) + Expand(t[Closing(t, 2) + 1..], vars)
    else t[..2] + Expand(t[2..], vars)
  }

  /** No escape and no complete reference. */
  predicate Verbatim(t: string)
    decreases |t|
  {
    |t| <= 1
    || if t[0] != '$' then Verbatim(t[1..])
       else t[1] != '$' && !(t[1] == '(' && Closing(t, 2) < |t|) && Verbatim(t[2..])
  }

  lemma {:induction false} VerbatimStays(t: string, vars: string -> string)
    requires Verbatim(t)
    ensures Expand(t, vars) == t
    decreases |t|
  {
    if |t| > 1 {
      if t[0] != '$' { VerbatimStays(t[1..], vars); } else { VerbatimStays(t[2..], vars); }
    }
  }

  /** Where every reference is empty, a text that is rewritten gets shorter. */
  lemma {:induction false} RewritingShrinks(t: string, vars: string -> string)
    requires forall name :: vars(name) == ""
    ensures |Expand(t, vars)| <= |t|
    ensures !Verbatim(t) ==> |Expand(t, vars)| < |t|
    decreases |t|
  {
    if |t| > 1 {
      if t[0] != '$' { RewritingShrinks(t[1..], vars); }
      else if t[1] == '(' && Closing(t, 2) < |t| { RewritingShrinks(t[Closing(t, 2) + 1..], vars); }
      else { RewritingShrinks(t[2..], vars); }
    }
  }

  /** A text reads as written whatever the other variables are exactly when it is verbatim. */
  lemma VerbatimIff(t: string)
    ensures (forall vars: string -> string :: Expand(t, vars) == t) <==> Verbatim(t)
  {
    if Verbatim(t) {
      forall vars: string -> string ensures Expand(t, vars) == t { VerbatimStays(t, vars); }
    } else {
      var vars: string -> string := _ => "";
      RewritingShrinks(t, vars);
      assert Expand(t, vars) != t;
    }
  }

  lemma {:induction false} PlainIsVerbatim(t: string)
    requires '$' !in t
    ensures Verbatim(t)
  {
    if |t| > 1 {
      assert t[0] in t;
      PlainIsVerbatim(t[1..]);
    }
  }

  // ---------- In terms of the text ----------

  /** At index i the text holds "$$", or "$(" with a closing parenthesis somewhere behind. */
  predicate Marked(t: string, i: nat) {
    i + 1 < |t| && t[i] == '$' && (t[i + 1] == '$' || (t[i + 1] == '(' && ')' in t[i + 2..]))
  }

  lemma {:induction false} ClosesIff(t: string, i: nat)
    requires i <= |t|
    ensures Closing(t, i) < |t| <==> ')' in t[i..]
    decreases |t| - i
  {
    if i < |t| {
      assert t[i..] == [t[i]] + t[i + 1..];
      if t[i] != ')' { ClosesIff(t, i + 1); }
    }
  }

  lemma MarkedLater(t: string, n: nat)
    requires n <= |t|
    ensures (exists i :: Marked(t[n..], i)) <==> exists i: nat :: n <= i && Marked(t, i)
  {
    if i: nat :| Marked(t[n..], i) {
      assert t[n..][i + 2..] == t[n + i + 2..];
      assert Marked(t, n + i);
    }
    if i: nat :| n <= i && Marked(t, i) {
      assert t[n..][i - n + 2..] == t[i + 2..];
      assert Marked(t[n..], i - n);
    }
  }

  /** A text is verbatim if and only if it holds no escape and no complete reference anywhere. */
  lemma {:induction false} VerbatimText(t: string)
    ensures Verbatim(t) <==> forall i: nat :: !Marked(t, i)
    decreases |t|
  {
    if |t| > 1 {
      ClosesIff(t, 2);
      if Marked(t, 0) {
      } else if t[0] != '$' {
        VerbatimText(t[1..]);
        MarkedLater(t, 1);
      } else {
        VerbatimText(t[2..]);
        MarkedLater(t, 2);
        assert !Marked(t, 1);
      }
    }
  }

  lemma {:induction false} ClosesAt(t: string, i: nat, c: nat)
    requires i <= c < |t| && t[c] == ')' && forall j :: i <= j < c ==> t[j] != ')'
    ensures Closing(t, i) == c
    decreases c - i
  {
    if i < c { ClosesAt(t, i + 1, c); }
  }

  /** A reference is replaced, and what comes after it is expanded on its own. */
  lemma ReferenceExpands(name: string, rest: string, vars: string -> string)
    requires ')' !in name
    ensures Expand("$(" + name + ")" + rest, vars) == vars(name) + Expand(rest, vars)
  {
    var t, c := "$(" + name + ")" + rest, 2 + |name|;
    assert t[2..c] == name && t[c] == ')' && t[c + 1..] == rest;
    forall j | 2 <= j < c ensures t[j] != ')' { assert t[j] == name[j - 2]; }
    ClosesAt(t, 2, c);
  }

  /** So is an escaped dollar sign. */
  lemma EscapeExpands(rest: string, vars: string -> string)
    ensures Expand("$$" + rest, vars) == "$" + Expand(rest, vars)
  {
    assert ("$$" + rest)[2..] == rest;
  }
}
