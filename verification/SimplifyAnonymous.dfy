/** The in-place rewriting of "(anonymous ..." in symbol names, against a single pass
    from left to right. */
module SimplifyAnonymous {
  import opened Basics

  const MARK: string := "(anonymous "
  const NAMESPACE: string := "namespace"

  predicate MarkAt(s: string, k: nat) {
    k + |MARK| <= |s| && s[k..k + |MARK|] == MARK
  }

  ghost predicate Unmarked(s: string) {
    forall k: nat :: !MarkAt(s, k)
  }

  /** std::string::find of MARK from `i` on. */
  function Find(s: string, i: nat): (r: Option<nat>)
    ensures r.Some? ==> i <= r.value && MarkAt(s, r.value)
    ensures forall k: nat :: i <= k && (r.Some? ==> k < r.value) ==> !MarkAt(s, k)
    decreases |s| - i
  {
    if MarkAt(s, i) then Some(i)
    else if i < |s| then Find(s, i + 1)
    else None
  }

  /** Whether the mark at the start is one of an anonymous namespace. Something must
      follow the word "namespace". */
  predicate NamesNamespace(s: string) {
    |s| - 1 > 19 && s[11..20] == NAMESPACE
  }

  /** The whole rewriting in one pass; what has been put out is never looked at again. */
  function Rewrite(s: string): string {
    if s == [] then []
    else if MarkAt(s, 0) then
      if NamesNamespace(s) then "(anon ns" + Rewrite(s[20..]) else "(anon" + Rewrite(s[10..])
    else [s[0]] + Rewrite(s[1..])
  }

  /** `simplify_anonymous`. */
  method SimplifyAnonymous(original: string) returns (name: string)
    ensures name == Rewrite(original)
  {
    name := original;
    var i := 0;
    while true
      invariant i <= |name|
      invariant Rewrite(original) == name[..i] + Rewrite(name[i..])
      decreases |name| - i
    {
      var found := Find(name, i);
      if found == None {
        AdvanceTo(name, i, |name|);
        assert name[..|name|] + Rewrite(name[|name|..]) == name;
        break;
      }
      AdvanceTo(name, i, found.value);
      i := found.value + 1;
      if |name| - i > 19 && name[i + 10..i + 19] == NAMESPACE {
        NamespaceReplaced(name, i);
        name := name[..i] + "anon ns" + name[i + 19..];
      } else {
        OtherReplaced(name, i);
        name := name[..i] + "anon" + name[i + 9..];
      }
    }
  }

  lemma MarkHas(s: string, k: nat, d: nat)
    requires MarkAt(s, k) && d < |MARK|
    ensures s[k + d] == MARK[d]
  {
  }

  /** No mark starts where a character differs from the one it needs. */
  lemma MismatchAt(s: string, k: nat, d: nat)
    requires d < |MARK| && k + d < |s| && s[k + d] != MARK[d]
    ensures !MarkAt(s, k)
  {
  }

  lemma MarkInSuffix(s: string, i: nat, k: nat)
    requires i <= |s|
    ensures MarkAt(s[i..], k) <==> MarkAt(s, i + k)
  {
  }

  /** Characters before the first mark go out as they are. */
  lemma {:induction false} SkipUnmarked(s: string, k: nat)
    requires k <= |s| && forall j: nat :: j < k ==> !MarkAt(s, j)
    ensures Rewrite(s) == s[..k] + Rewrite(s[k..])
  {
    if k > 0 {
      assert !MarkAt(s, 0);
      forall j: nat | j < k - 1
        ensures !MarkAt(s[1..], j)
      {
        MarkInSuffix(s, 1, j);
      }
      SkipUnmarked(s[1..], k - 1);
      assert s[1..][k - 1..] == s[k..];
      Regroup([s[0]], s[1..][..k - 1], Rewrite(s[k..]));
      assert s[..k] == [s[0]] + s[1..][..k - 1];
    } else {
      assert s[0..] == s;
    }
  }

  /** What the loop has done and what it has left to do stays the same up to the next mark. */
  lemma AdvanceTo(name: string, i: nat, j: nat)
    requires i <= j <= |name| && forall k: nat :: i <= k < j ==> !MarkAt(name, k)
    ensures name[..i] + Rewrite(name[i..]) == name[..j] + Rewrite(name[j..])
  {
    forall k: nat | k < j - i
      ensures !MarkAt(name[i..], k)
    {
      MarkInSuffix(name, i, k);
    }
    SkipUnmarked(name[i..], j - i);
    assert name[i..][j - i..] == name[j..];
    Regroup(name[..i], name[i..][..j - i], Rewrite(name[j..]));
    assert name[..i] + name[i..][..j - i] == name[..j];
  }

  /** A text without parentheses goes out as it is. */
  lemma PlainPrefix(p: string, t: string)
    requires '(' !in p
    ensures Rewrite(p + t) == p + Rewrite(t)
  {
    forall j: nat | j < |p|
      ensures !MarkAt(p + t, j)
    {
      assert (p + t)[j] == p[j] && p[j] in p;
      MismatchAt(p + t, j, 0);
    }
    SkipUnmarked(p + t, |p|);
    assert (p + t)[..|p|] == p && (p + t)[|p|..] == t;
  }

  lemma Replaced(head: string, plain: string, rest: string)
    requires '(' !in plain
    ensures head + (("(" + plain) + Rewrite(rest)) == (head + "(") + Rewrite(plain + rest)
  {
    PlainPrefix(plain, rest);
    Regroup("(", plain, Rewrite(rest));
    Regroup(head, "(", plain + Rewrite(rest));
  }

  /** And when a mark before `i` is replaced. */
  lemma NamespaceReplaced(name: string, i: nat)
    requires 0 < i <= |name| && MarkAt(name, i - 1)
    requires |name| - i > 19 && name[i + 10..i + 19] == NAMESPACE
    ensures var next := name[..i] + "anon ns" + name[i + 19..];
            name[..i - 1] + Rewrite(name[i - 1..]) == next[..i] + Rewrite(next[i..])
  {
    var at, next := name[i - 1..], name[..i] + "anon ns" + name[i + 19..];
    MarkInSuffix(name, i - 1, 0);
    SliceOfSuffix(name, i - 1, 11, 20);
    MarkHas(name, i - 1, 0);
    Replaced(name[..i - 1], "anon ns", at[20..]);
    assert next[i..] == "anon ns" + at[20..] && next[..i] == name[..i - 1] + "(";
  }

  lemma OtherReplaced(name: string, i: nat)
    requires 0 < i <= |name| && MarkAt(name, i - 1)
    requires !(|name| - i > 19 && name[i + 10..i + 19] == NAMESPACE)
    ensures var next := name[..i] + "anon" + name[i + 9..];
            name[..i - 1] + Rewrite(name[i - 1..]) == next[..i] + Rewrite(next[i..])
  {
    var at, next := name[i - 1..], name[..i] + "anon" + name[i + 9..];
    MarkInSuffix(name, i - 1, 0);
    if |name| - i > 19 {
      SliceOfSuffix(name, i - 1, 11, 20);
    }
    SliceOfSuffix(name, i - 1, 0, 10);
    MarkHas(name, i - 1, 0);
    Replaced(name[..i - 1], "anon", at[10..]);
    assert next[i..] == "anon" + at[10..] && next[..i] == name[..i - 1] + "(";
  }

  // ----- what the rewriting promises -----

  /** A start without parentheses is in the output only if it was in the input. */
  lemma {:induction false} StartsAlike(s: string, p: string)
    requires '(' !in p && p <= Rewrite(s)
    ensures p <= s
  {
    if p != [] {
      assert p[0] == Rewrite(s)[0] && p[0] in p;
      assert !MarkAt(s, 0) && Rewrite(s)[1..] == Rewrite(s[1..]);
      StartsAlike(s[1..], p[1..]);
      assert p == [p[0]] + p[1..] && s == [s[0]] + s[1..];
    }
  }

  /** Where the first character goes out alone, a mark needs the input to have it. */
  lemma MarkComesFromInput(s: string)
    requires s != [] && MarkAt([s[0]] + Rewrite(s[1..]), 0)
    ensures MarkAt(s, 0)
  {
    var out := [s[0]] + Rewrite(s[1..]);
    assert out[0..|MARK|] == MARK;
    assert out[0] == MARK[0] && MARK[1..] <= Rewrite(s[1..]) by {
      assert out[1..|MARK|] == MARK[1..];
    }
    StartsAlike(s[1..], MARK[1..]);
    assert s[0..|MARK|] == MARK;
  }

  lemma PrependKeepsUnmarked(p: string, t: string)
    requires Unmarked(t) && forall k: nat :: k < |p| ==> !MarkAt(p + t, k)
    ensures Unmarked(p + t)
  {
    forall k: nat
      ensures !MarkAt(p + t, k)
    {
      if |p| <= k {
        assert (p + t)[|p|..] == t;
        MarkInSuffix(p + t, |p|, k - |p|);
      }
    }
  }

  /** Nothing is left to rewrite. */
  lemma {:induction false} OutputIsUnmarked(s: string)
    ensures Unmarked(Rewrite(s))
  {
    if s == [] {
    } else if MarkAt(s, 0) {
      var p, t := if NamesNamespace(s) then "(anon ns" else "(anon", if NamesNamespace(s) then s[20..] else s[10..];
      OutputIsUnmarked(t);
      assert s[10] == MARK[10] by {
        assert s[0..|MARK|][10] == s[10];
      }
      forall k: nat | k < |p|
        ensures !MarkAt(p + Rewrite(t), k)
      {
        if k == 0 {
          if !NamesNamespace(s) {
            assert t[0] == ' ' && !MarkAt(t, 0) by {
              MismatchAt(t, 0, 0);
            }
          }
          MismatchAt(p + Rewrite(t), 0, 5);
        } else {
          MismatchAt(p + Rewrite(t), k, 0);
        }
      }
      PrependKeepsUnmarked(p, Rewrite(t));
    } else {
      OutputIsUnmarked(s[1..]);
      var p := [s[0]];
      assert Rewrite(s) == p + Rewrite(s[1..]);
      if MarkAt(p + Rewrite(s[1..]), 0) {
        MarkComesFromInput(s);
      }
      PrependKeepsUnmarked(p, Rewrite(s[1..]));
    }
  }

  lemma UnmarkedIsFixed(s: string)
    requires Unmarked(s)
    ensures Rewrite(s) == s
  {
    SkipUnmarked(s, |s|);
    assert s[|s|..] == "" && s[..|s|] == s;
  }

  /** A name is left alone exactly when it has no mark. */
  lemma FixedIffUnmarked(s: string)
    ensures Rewrite(s) == s <==> Unmarked(s)
  {
    OutputIsUnmarked(s);
    if Unmarked(s) {
      UnmarkedIsFixed(s);
    }
  }

  lemma RewritingTwiceIsRewritingOnce(s: string)
    ensures Rewrite(Rewrite(s)) == Rewrite(s)
  {
    OutputIsUnmarked(s);
    UnmarkedIsFixed(Rewrite(s));
  }

  // ----- in terms of the texts -----

  /** Exactly which texts are marks. */
  lemma MarkIsText(s: string, k: nat)
    ensures MarkAt(s, k) <==> k + 11 <= |s| && s[k..k + 11] == "(anonymous "
  {
  }

  lemma AnonSpace(t: string)
    ensures "(anon" + Rewrite(" " + t) == "(anon " + Rewrite(t)
  {
    PlainPrefix(" ", t);
    Regroup("(anon", " ", Rewrite(t));
    assert "(anon" + " " == "(anon ";
  }

  lemma SpaceInMark(s: string)
    requires MarkAt(s, 0)
    ensures s[10..] == " " + s[11..]
  {
    MarkHas(s, 0, 10);
  }

  /** What a mark and what follows it become. Something must follow the word "namespace". */
  lemma MarkBecomes(s: string)
    requires MarkAt(s, 0)
    ensures Rewrite(s) ==
            if |s| > 20 && s[11..20] == "namespace" then "(anon ns" + Rewrite(s[20..]) else "(anon " + Rewrite(s[11..])
  {
    SpaceInMark(s);
    AnonSpace(s[11..]);
  }

  lemma PartsOfConcat(a: string, b: string)
    ensures (a + b)[0..|a|] == a && (a + b)[|a|..] == b
  {
  }

  lemma AnonymousText(rest: string)
    ensures Rewrite("(anonymous " + rest) ==
            if |rest| > 9 && rest[..9] == "namespace" then "(anon ns" + Rewrite(rest[9..])
            else "(anon " + Rewrite(rest)
  {
    var s := "(anonymous " + rest;
    PartsOfConcat("(anonymous ", rest);
    MarkIsText(s, 0);
    MarkBecomes(s);
    if |rest| > 9 {
      SliceOfSuffix(s, 11, 0, 9);
      assert s[11..][0..9] == rest[..9] && s[11..][9..] == rest[9..];
    }
  }

  lemma NamespaceTexts()
    ensures "(anonymous " + ("namespace" + ")") == "(anonymous namespace)" && "(anon ns" + ")" == "(anon ns)"
    ensures "(anonymous " + "namespace" == "(anonymous namespace" && "(anon " + "namespace" == "(anon namespace"
  {
  }

  lemma WordAndRest(word: string, rest: string)
    requires word == "namespace" && rest != ""
    ensures Rewrite("(anonymous " + (word + rest)) == "(anon ns" + Rewrite(rest)
  {
    PartsOfConcat(word, rest);
    AnonymousText(word + rest);
  }

  /** The anonymous namespace becomes "(anon ns)", whatever follows it. */
  lemma ClosedNamespace(rest: string)
    ensures Rewrite("(anonymous namespace)" + rest) == "(anon ns)" + Rewrite(rest)
  {
    NamespaceTexts();
    WordAndRest("namespace", ")" + rest);
    PlainPrefix(")", rest);
    Regroup("(anon ns", ")", Rewrite(rest));
    Regroup("namespace", ")", rest);
    Regroup("(anonymous ", "namespace" + ")", rest);
  }

  lemma WordAlone(word: string)
    requires word == "namespace"
    ensures Rewrite("(anonymous " + word) == "(anon " + word
  {
    AnonymousText(word);
    PlainPrefix(word, "");
    assert word + "" == word;
  }

  /** But not at the very end of a name, where its parenthesis is missing. */
  lemma OpenNamespace()
    ensures Rewrite("(anonymous namespace") == "(anon namespace"
  {
    NamespaceTexts();
    WordAlone("namespace");
  }
}
