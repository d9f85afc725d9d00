// When rewriting a text's paths is stable: the exact condition on a workspace
// root and a temp directory.
module TextStability {
  import opened Text
  import opened Placeholders
  import opened Canonicalize

  /** None of the paths c rewrites contains a $. */
  ghost predicate DollarFree(c: Canonicalizer) {
    forall p :: p in c.Paths() ==> '$' !in p
  }

  ghost predicate AvoidsText(c: Canonicalizer, t: string) {
    forall p :: p in c.Paths() ==> !Contains(t, p)
  }

  /** Rewriting a text is idle exactly when the text mentions no path. */
  lemma StringFixedIffAvoided(c: Canonicalizer, t: string)
    requires DollarFree(c)
    ensures NormalizeString(c, t) == t <==> AvoidsText(c, t)
  {
    var t1 := AfterRoot(c, t);
    var t2 := AfterFlipped(c, t1);
    if c.root != "" {
      assert c.root in c.Paths() && c.Flipped() in c.Paths();
      PassFixes(t, c.root, WORKSPACE);
      PassFixes(t1, c.Flipped(), WORKSPACE);
    }
    if c.tmp != "" {
      assert c.tmp in c.Paths();
      PassFixes(t2, c.tmp, TMP);
    }
  }

  // ---- Slash-flipped roots ----

  lemma {:induction false} FlippedAt(s: string, i: nat)
    requires i < |s|
    ensures |ReplaceAll(s, "\\", "/")| == |s|
    ensures ReplaceAll(s, "\\", "/")[i] == if s[i] == '\\' then '/' else s[i]
  {
    FlipKeepsLength(s);
    FlipKeepsLength(s[1..]);
    if i > 0 {
      FlippedAt(s[1..], i - 1);
    }
  }

  lemma FlipLaws(r: string)
    ensures '\\' !in ReplaceAll(r, "\\", "/")
    ensures '\\' !in r ==> ReplaceAll(r, "\\", "/") == r
    ensures forall n :: 0 <= n <= |r| && '\\' !in r[..n] ==> |ReplaceAll(r, "\\", "/")| == |r| && ReplaceAll(r, "\\", "/")[..n] == r[..n]
  {
    var f := ReplaceAll(r, "\\", "/");
    FlipKeepsLength(r);
    forall i | 0 <= i < |r| ensures f[i] == if r[i] == '\\' then '/' else r[i] {
      FlippedAt(r, i);
    }
    forall n | 0 <= n <= |r| && '\\' !in r[..n] ensures f[..n] == r[..n] {
      assert forall i :: 0 <= i < n ==> r[i] == r[..n][i] && r[..n][i] in r[..n];
    }
    if '\\' !in r {
      assert forall i :: 0 <= i < |r| ==> r[i] in r;
      assert f == r;
    }
  }

  /** A root overlaps $WORKSPACE only where its flipped form does. */
  lemma FlippedSeparates(c: Canonicalizer)
    requires Separate(c.Flipped(), WORKSPACE)
    ensures Separate(c.root, WORKSPACE)
  {
    FlipLaws(c.root);
    assert '\\' !in WORKSPACE;
    if Contains(WORKSPACE, c.root) && '\\' in c.root {
      NoBackslash(WORKSPACE, c.root);
    }
    forall n ensures !Straddles(c.root, WORKSPACE, n) {
      if Straddles(c.root, WORKSPACE, n) {
        assert c.root[..n] == WORKSPACE[|WORKSPACE| - n..];
        assert c.Flipped()[..n] == c.root[..n];
        assert Straddles(c.Flipped(), WORKSPACE, n);
      }
    }
  }

  // ---- Safe canonicalizers ----

  /** The root overlaps $WORKSPACE nowhere. */
  ghost predicate RootApart(c: Canonicalizer) {
    c.root == "" || Separate(c.Flipped(), WORKSPACE)
  }

  ghost predicate AvoidsRoots(c: Canonicalizer, t: string) {
    c.root != "" ==> !Contains(t, c.root) && !Contains(t, c.Flipped())
  }

  /** $TMP followed by the rest of q can come of a text that holds no root, and holds q. */
  ghost predicate TmpMeets(c: Canonicalizer, q: string) {
    exists n: nat :: Meets(q, TMP, n) && !Contains(q[n..], c.tmp) && AvoidsRoots(c, c.tmp + q[n..])
  }

  ghost predicate TmpApart(c: Canonicalizer) {
    c.tmp == "" || forall q :: q in c.Paths() ==> !TmpMeets(c, q)
  }

  /** Paths free of $ that their placeholders cannot bring back. */
  ghost predicate Safe(c: Canonicalizer) {
    DollarFree(c) && RootApart(c) && TmpApart(c)
  }

  /** The first two passes leave no root. */
  lemma RootsGone(c: Canonicalizer, t: string)
    requires DollarFree(c) && RootApart(c)
    ensures AvoidsRoots(c, AfterFlipped(c, AfterRoot(c, t)))
  {
    var t1 := AfterRoot(c, t);
    if c.root != "" {
      assert c.root in c.Paths() && c.Flipped() in c.Paths();
      FlippedSeparates(c);
      PassLeavesNone(t, c.root, c.root, WORKSPACE);
      if c.Flipped() != c.root {
        PassLeavesNone(t1, c.Flipped(), c.Flipped(), WORKSPACE);
        PassLeavesNone(t1, c.Flipped(), c.root, WORKSPACE);
      }
    }
  }

  lemma PartAvoids(t: string, p: string, q: string)
    requires Contains(t, p) && !Contains(t, q)
    ensures !Contains(p, q)
  {
    var i :| OccursAt(t, p, i);
    var x, y := t[..i], t[i + |p|..];
    assert t == x + (p + y);
    if Contains(p, q) {
      var j :| OccursAt(p, q, j);
      OccursInHead(p, y, q, j);
      OccursInTail(x, p + y, q, i + j);
    }
  }

  /** The last pass leaves a path only where $TMP meets it. */
  lemma TmpPassLeaves(c: Canonicalizer, t: string, q: string)
    requires DollarFree(c) && c.tmp != "" && q in c.Paths() && AvoidsRoots(c, t)
    requires Contains(AfterTmp(c, t), q)
    ensures TmpMeets(c, q)
  {
    assert c.tmp in c.Paths() && q != "";
    BroughtInWhere(t, c.tmp, q, TMP);
    var n: nat :| ComesOf(t, c.tmp, q, TMP, n);
    if c.root != "" {
      PartAvoids(t, c.tmp + q[n..], c.root);
      PartAvoids(t, c.tmp + q[n..], c.Flipped());
    }
  }

  /** The passes of a safe canonicalizer leave no path. */
  lemma StringReachesNormal(c: Canonicalizer, t: string)
    requires Safe(c)
    ensures AvoidsText(c, NormalizeString(c, t))
  {
    var t2 := AfterFlipped(c, AfterRoot(c, t));
    RootsGone(c, t);
    forall q | q in c.Paths() ensures !Contains(NormalizeString(c, t), q) {
      if c.tmp != "" && Contains(AfterTmp(c, t2), q) {
        TmpPassLeaves(c, t2, q);
      }
    }
  }

  // ---- The exact condition ----

  /** Rewriting a rewritten text changes nothing, whatever the text was. */
  ghost predicate Idempotent(c: Canonicalizer) {
    forall t :: NormalizeString(c, NormalizeString(c, t)) == NormalizeString(c, t)
  }

  /** A text in which $TMP brings q back. */
  lemma TmpBringsBack(c: Canonicalizer, q: string) returns (t: string)
    requires DollarFree(c) && c.tmp != "" && q in c.Paths() && TmpMeets(c, q)
    ensures Contains(NormalizeString(c, t), q)
  {
    var n: nat :| Meets(q, TMP, n) && !Contains(q[n..], c.tmp) && AvoidsRoots(c, c.tmp + q[n..]);
    t := c.tmp + q[n..];
    RootPassesIdle(c, t);
    ReplaceLeading(q[n..], c.tmp, TMP);
    ReplaceNothing(q[n..], c.tmp, TMP);
    MeetsHolds(q, TMP, n);
  }

  lemma RootPassesIdle(c: Canonicalizer, t: string)
    requires AvoidsRoots(c, t)
    ensures AfterFlipped(c, AfterRoot(c, t)) == t
  {
    if c.root != "" {
      ReplaceNothing(t, c.root, WORKSPACE);
      ReplaceNothing(t, c.Flipped(), WORKSPACE);
    }
  }

  /** Wherever the root overlaps $WORKSPACE, the temp directory stands in what comes of it. */
  ghost predicate TmpCutsOverlaps(c: Canonicalizer) {
    c.tmp != "" && forall n: nat :: Meets(c.Flipped(), WORKSPACE, n) ==> Contains(WORKSPACE + c.Flipped()[n..], c.tmp)
  }

  /** A text in which $WORKSPACE brings the root back. */
  lemma RootBroughtBack(c: Canonicalizer) returns (t: string)
    requires DollarFree(c) && !RootApart(c) && !TmpCutsOverlaps(c)
    ensures Contains(NormalizeString(c, t), c.Flipped()) && c.Flipped() in c.Paths()
  {
    var f := c.Flipped();
    SeparateIffNeverMeets(f, WORKSPACE);
    var n: nat :| Meets(f, WORKSPACE, n) && (c.tmp == "" || !Contains(WORKSPACE + f[n..], c.tmp));
    t := f + f[n..];
    FlippedReplaced(c, f[n..]);
    if c.tmp != "" {
      ReplaceNothing(WORKSPACE + f[n..], c.tmp, TMP);
    }
    MeetsHolds(f, WORKSPACE, n);
  }

  lemma FlippedReplaced(c: Canonicalizer, rest: string)
    requires c.root != "" && |rest| < |c.root| && forall ch :: ch in rest ==> ch in c.Flipped()
    ensures AfterFlipped(c, AfterRoot(c, c.Flipped() + rest)) == WORKSPACE + rest
  {
    var f := c.Flipped();
    FlipLaws(c.root);
    assert !Contains(rest, f);
    ReplaceLeading(rest, f, WORKSPACE);
    ReplaceNothing(rest, f, WORKSPACE);
    if f != c.root {
      NoBackslash(f + rest, c.root);
      ReplaceNothing(f + rest, c.root, WORKSPACE);
    }
  }

  lemma NoBackslash(t: string, r: string)
    requires '\\' !in t && '\\' in r
    ensures !Contains(t, r)
  {
    var j :| 0 <= j < |r| && r[j] == '\\';
    AbsentByChar(t, r, j);
  }

  /**
   * The exact condition for rewriting to be idempotent on all texts: the root does
   * not overlap $WORKSPACE, and $TMP brings no path back. It covers every
   * canonicalizer but those whose temp directory cuts each overlap there is.
   */
  lemma IdempotentIffSafe(c: Canonicalizer)
    requires DollarFree(c) && (RootApart(c) || !TmpCutsOverlaps(c))
    ensures Idempotent(c) <==> Safe(c)
  {
    if Safe(c) {
      forall t ensures NormalizeString(c, NormalizeString(c, t)) == NormalizeString(c, t) {
        StringReachesNormal(c, t);
        StringFixedIffAvoided(c, NormalizeString(c, t));
      }
    } else {
      var t;
      if !RootApart(c) {
        t := RootBroughtBack(c);
      } else {
        var q :| q in c.Paths() && TmpMeets(c, q);
        t := TmpBringsBack(c, q);
      }
      StringFixedIffAvoided(c, NormalizeString(c, t));
      assert NormalizeString(c, NormalizeString(c, t)) != NormalizeString(c, t);
    }
  }

  lemma ContainedIn(t: string, p: string, q: string)
    requires Contains(t, p) && Contains(p, q)
    ensures Contains(t, q)
  {
    if !Contains(t, q) {
      PartAvoids(t, p, q);
    }
  }

  /** With a temp directory inside the root, a rewritten text holds a path only if $TMP meets the temp directory. */
  lemma UnderTmpAvoids(c: Canonicalizer, t: string)
    requires DollarFree(c) && c.tmp != "" && Contains(c.root, c.tmp) && '\\' !in c.root
    requires Separate(c.tmp, TMP)
    ensures AvoidsText(c, NormalizeString(c, t))
  {
    FlipLaws(c.root);
    assert c.tmp in c.Paths();
    PassLeavesNone(AfterFlipped(c, AfterRoot(c, t)), c.tmp, c.tmp, TMP);
    if Contains(NormalizeString(c, t), c.root) {
      ContainedIn(NormalizeString(c, t), c.root, c.tmp);
    }
  }

  /** $TMP brings the temp directory back after a text that holds no root. */
  ghost predicate TmpRecurs(c: Canonicalizer) {
    exists n: nat :: Meets(c.tmp, TMP, n) && !Contains(c.tmp + c.tmp[n..], c.root)
  }

  /**
   * A workspace that lies in the temp directory, whether or not its root overlaps
   * $WORKSPACE: rewriting is idempotent when the temp directory is separate from
   * $TMP, and is not when $TMP brings it back without completing the root.
   */
  lemma UnderTmpIdempotent(c: Canonicalizer)
    requires DollarFree(c) && c.tmp != "" && Contains(c.root, c.tmp) && '\\' !in c.root
    ensures Separate(c.tmp, TMP) ==> Idempotent(c)
    ensures TmpRecurs(c) ==> !Idempotent(c)
  {
    FlipLaws(c.root);
    assert c.tmp in c.Paths();
    if Separate(c.tmp, TMP) {
      forall t ensures NormalizeString(c, NormalizeString(c, t)) == NormalizeString(c, t) {
        UnderTmpAvoids(c, t);
        StringFixedIffAvoided(c, NormalizeString(c, t));
      }
    }
    if n: nat :| Meets(c.tmp, TMP, n) && !Contains(c.tmp + c.tmp[n..], c.root) {
      var t := TmpBringsBack(c, c.tmp);
      StringFixedIffAvoided(c, NormalizeString(c, t));
      assert NormalizeString(c, NormalizeString(c, t)) != NormalizeString(c, t);
    }
  }

  /** A Windows drive as root: normalizing "E::" once more changes it again. */
  lemma DriveLetterUnstable(c: Canonicalizer)
    requires c.root == "E:" && c.tmp == ""
    ensures NormalizeString(c, "E::") == "$WORKSPACE:"
    ensures NormalizeString(c, "$WORKSPACE:") != "$WORKSPACE:"
  {
    FlipLaws(c.root);
    DriveLetterBreaksStability();
  }
}
