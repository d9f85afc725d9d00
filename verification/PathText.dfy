// What canonicalizing shows for a path in a text, and which texts it reads as
// documents.
module PathText {
  import opened Wrappers
  import opened Text
  import opened Json
  import opened Placeholders
  import opened Canonicalize
  import opened TextStability
  import opened Stability

  // ---- Paths ----

  /** g is the root with every backslash made a slash. */
  predicate IsFlipOf(g: string, root: string) {
    |g| == |root| && forall i :: 0 <= i < |root| ==> g[i] == if root[i] == '\\' then '/' else root[i]
  }

  lemma FlippedIs(c: Canonicalizer, g: string)
    requires IsFlipOf(g, c.root)
    ensures g == c.Flipped()
  {
    forall i | 0 <= i < |g| ensures g[i] == c.Flipped()[i] {
      FlippedAt(c.root, i);
    }
  }

  /** A safe canonicalizer leaves neither the root, nor the root with slashes, nor the temp directory in any text. */
  lemma PathsAreGone(c: Canonicalizer, t: string, g: string)
    requires Safe(c) && IsFlipOf(g, c.root)
    ensures c.root != "" ==> !Contains(NormalizeString(c, t), c.root) && !Contains(NormalizeString(c, t), g)
    ensures c.tmp != "" ==> !Contains(NormalizeString(c, t), c.tmp)
  {
    FlippedIs(c, g);
    StringReachesNormal(c, t);
    assert c.root != "" ==> c.root in c.Paths() && g in c.Paths();
    assert c.tmp != "" ==> c.tmp in c.Paths();
  }

  /** Text in which no copy of the pattern can start is passed over. */
  lemma PassesOver(x: string, y: string, pat: string, sub: string)
    requires pat != "" && Separate(pat, x)
    ensures ReplaceAll(x + y, pat, sub) == x + ReplaceAll(y, pat, sub)
  {
    forall i | 0 <= i < |x| ensures !OccursAt(x + y, pat, i) {
      SpanFromPlaceholder(x, y, pat, i);
    }
    ReplaceSkips(x, y, pat, sub);
  }

  /** None of the paths can start in the placeholder. */
  ghost predicate ClearOf(c: Canonicalizer, sub: string) {
    && (c.root != "" ==> Separate(c.Flipped(), sub) && Separate(c.root, sub))
    && (c.tmp != "" ==> Separate(c.tmp, sub))
  }

  lemma FlipPassesOver(c: Canonicalizer, x: string, y: string)
    requires c.root != "" ==> Separate(c.Flipped(), x)
    ensures AfterFlipped(c, x + y) == x + AfterFlipped(c, y)
  {
    if c.root != "" {
      PassesOver(x, y, c.Flipped(), WORKSPACE);
    }
  }

  lemma TmpPassesOver(c: Canonicalizer, x: string, y: string)
    requires c.tmp != "" ==> Separate(c.tmp, x)
    ensures AfterTmp(c, x + y) == x + AfterTmp(c, y)
  {
    if c.tmp != "" {
      PassesOver(x, y, c.tmp, TMP);
    }
  }

  /** The root, wherever it lies, even in the temp directory, shows as $WORKSPACE, and what follows it as it would alone. */
  lemma RootShows(c: Canonicalizer, rest: string)
    requires c.root != "" && ClearOf(c, "$WORKSPACE")
    ensures NormalizeString(c, c.root + rest) == "$WORKSPACE" + NormalizeString(c, rest)
  {
    ReplaceLeading(rest, c.root, WORKSPACE);
    FlipPassesOver(c, WORKSPACE, AfterRoot(c, rest));
    TmpPassesOver(c, WORKSPACE, AfterFlipped(c, AfterRoot(c, rest)));
  }

  /** So does the root with slashes, where no backslash follows it. */
  lemma FlippedRootShows(c: Canonicalizer, g: string, rest: string)
    requires c.root != "" && IsFlipOf(g, c.root) && ClearOf(c, "$WORKSPACE") && '\\' !in rest
    ensures NormalizeString(c, g + rest) == "$WORKSPACE" + NormalizeString(c, rest)
  {
    FlippedIs(c, g);
    if g == c.root {
      RootShows(c, rest);
    } else {
      RootIsNotFlipped(c, g);
      assert '\\' !in g + rest;
      NoBackslash(g + rest, c.root);
      NoBackslash(rest, c.root);
      ReplaceNothing(g + rest, c.root, WORKSPACE);
      ReplaceNothing(rest, c.root, WORKSPACE);
      ReplaceLeading(rest, g, WORKSPACE);
      TmpPassesOver(c, WORKSPACE, AfterFlipped(c, rest));
    }
  }

  lemma RootIsNotFlipped(c: Canonicalizer, g: string)
    requires IsFlipOf(g, c.root) && g != c.root
    ensures '\\' in c.root && '\\' !in g
  {
    var i :| 0 <= i < |g| && g[i] != c.root[i];
    assert c.root[i] in c.root;
  }

  /** The temp directory shows as $TMP where no root can start in it. */
  lemma TmpShows(c: Canonicalizer, rest: string)
    requires c.tmp != "" && (c.root != "" ==> Separate(c.root, c.tmp) && Separate(c.Flipped(), c.tmp))
    ensures NormalizeString(c, c.tmp + rest) == "$TMP" + NormalizeString(c, rest)
  {
    if c.root != "" {
      PassesOver(c.tmp, rest, c.root, WORKSPACE);
    }
    FlipPassesOver(c, c.tmp, AfterRoot(c, rest));
    ReplaceLeading(AfterFlipped(c, AfterRoot(c, rest)), c.tmp, TMP);
  }

  // ---- Which texts are read as documents ----

  /** White space by its Unicode code point. */
  predicate IsBlank(c: char) {
    var n := c as int;
    || n in {9, 10, 11, 12, 13, 32, 133, 160, 5760} || 8192 <= n <= 8202 || n in {8232, 8233, 8239, 8287, 12288}
  }

  predicate AllBlank(s: string) {
    forall i :: 0 <= i < |s| ==> IsBlank(s[i])
  }

  lemma BlankIsSpace(c: char)
    ensures IsBlank(c) <==> IsSpace(c)
  {
  }

  lemma {:induction false} TrimFront(a: string, t: string)
    requires AllBlank(a)
    ensures TrimSpace(a + t) == TrimSpace(t)
  {
    if a == "" {
      assert a + t == t;
    } else {
      BlankIsSpace(a[0]);
      assert (a + t)[0] == a[0] && (a + t)[1..] == a[1..] + t;
      TrimFront(a[1..], t);
    }
  }

  lemma {:induction false} TrimBack(s: string, b: string)
    requires AllBlank(b) && s != "" && !IsBlank(s[0]) && !IsBlank(s[|s| - 1])
    ensures TrimSpace(s + b) == s
  {
    var t := s + b;
    BlankIsSpace(s[0]);
    assert t[0] == s[0];
    if b == "" {
      BlankIsSpace(s[|s| - 1]);
      assert t == s;
    } else {
      var n := |b| - 1;
      BlankIsSpace(b[n]);
      assert t[|t| - 1] == b[n] && t[..|t| - 1] == s + b[..n];
      TrimBack(s, b[..n]);
    }
  }

  /** Trimming cuts white space at both ends, all of it, and nothing else. */
  lemma TrimMeans(a: string, s: string, b: string)
    requires AllBlank(a) && AllBlank(b)
    requires s != "" ==> !IsBlank(s[0]) && !IsBlank(s[|s| - 1])
    ensures TrimSpace(a + s + b) == s
  {
    var rest := s + b;
    assert a + s + b == a + rest;
    TrimFront(a, rest);
    TrimBlank(s, b);
  }

  lemma TrimBlank(s: string, b: string)
    requires AllBlank(b) && (s != "" ==> !IsBlank(s[0]) && !IsBlank(s[|s| - 1]))
    ensures TrimSpace(s + b) == s
  {
    if s == "" {
      assert s + b == b + s;
      TrimFront(b, s);
    } else {
      TrimBack(s, b);
    }
  }

  /** A container written by the codec, with any white space around it, is read as that container. */
  lemma ContainerIsRead(k: Codec, a: string, v: Json, b: string)
    requires Lawful(k) && Readable(v) && (v.Obj? || v.Arr?) && AllBlank(a) && AllBlank(b)
    ensures NestedDoc(k, a + k.marshal(v) + b) == Some(v)
  {
    LawFramed(k, v);
    TrimMeans(a, k.marshal(v), b);
    NestedMarshal(k, v);
    assert "{" <= k.marshal(v) || "[" <= k.marshal(v);
  }

  /** Text whose first character that is no white space opens no container is not read as a document. */
  lemma OtherTextIsNotRead(k: Codec, a: string, t: string)
    requires AllBlank(a) && t != "" && !IsBlank(t[0]) && t[0] != '{' && t[0] != '['
    ensures NestedDoc(k, a + t).None?
  {
    var n := TextEnd(t);
    assert a + t == a + t[..n] + t[n..];
    TrimMeans(a, t[..n], t[n..]);
  }

  lemma TextEnd(t: string) returns (n: nat)
    requires t != "" && !IsBlank(t[0])
    ensures 0 < n <= |t| && !IsBlank(t[n - 1]) && AllBlank(t[n..])
  {
    n := |t|;
    while IsBlank(t[n - 1])
      invariant 0 < n <= |t| && AllBlank(t[n..])
      decreases n
    {
      n := n - 1;
    }
  }

  /** A string that holds a container is rewritten as that container, written afresh; any other as text. */
  lemma StringsAreRewritten(k: Codec, c: Canonicalizer, t: string)
    requires Lawful(k)
    ensures NormalizeValue(k, c, Str(t))
         == match NestedDoc(k, t)
            case Some(w) => Str(k.marshal(NormalizeValue(k, c, w)))
            case None => Str(NormalizeString(c, t))
  {
    NestedIsSmaller(k, t);
  }
}
