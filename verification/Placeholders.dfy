// When replacing a path by a placeholder such as $WORKSPACE is a stable
// operation, and where a pass can leave a path or bring one in: the base of replay
// in another workspace.
module Placeholders {
  import opened Text

  /** The last n characters of sub are the first n of pat. */
  predicate Straddles(pat: string, sub: string, n: int) {
    0 < n <= |sub| && sub[|sub| - n..] <= pat
  }

  /** No copy of pat can appear inside sub, or start there and run past its end. */
  ghost predicate Separate(pat: string, sub: string) {
    && !Contains(sub, pat)
    && forall n :: !Straddles(pat, sub, n)
  }

  /** sub opens with a $ and holds no other. */
  predicate IsPlaceholder(sub: string) {
    |sub| > 0 && sub[0] == '$' && '$' !in sub[1..]
  }

  /** A $-free prefix of a rewritten text was there before the rewriting. */
  lemma {:induction false} PrefixSurvives(x: string, s: string, pat: string, sub: string)
    requires pat != "" && IsPlaceholder(sub) && '$' !in x
    requires x <= ReplaceAll(s, pat, sub)
    ensures x <= s
  {
    if s != "" && x != "" {
      assert x[0] == ReplaceAll(s, pat, sub)[0] && x[0] in x;
      if pat <= s {
        assert false;
      } else {
        assert x[1..] <= ReplaceAll(s[1..], pat, sub);
        PrefixSurvives(x[1..], s[1..], pat, sub);
      }
    }
  }

  /**
   * After a pass, no occurrence of a separate $-free text is left or created,
   * whether it is the text just replaced or one that was absent before.
   */
  lemma {:induction false} PassLeavesNone(s: string, pat: string, q: string, sub: string)
    requires pat != "" && q != "" && '$' !in q && IsPlaceholder(sub) && Separate(q, sub)
    requires q == pat || !Contains(s, q)
    ensures !Contains(ReplaceAll(s, pat, sub), q)
  {
    var out := ReplaceAll(s, pat, sub);
    forall i ensures !OccursAt(out, q, i) {
      if s != "" && OccursAt(out, q, i) {
        PrefixOccurs(s, pat);
        PrefixOccurs(s, q);
        if pat <= s {
          var rest := s[|pat|..];
          assert s == pat + rest;
          AbsentInTail(pat, rest, q);
          if i < |sub| {
            SpanFromPlaceholder(sub, ReplaceAll(rest, pat, sub), q, i);
          } else {
            OccursInTail(sub, ReplaceAll(rest, pat, sub), q, i);
            PassLeavesNone(rest, pat, q, sub);
            assert false;
          }
        } else if i == 0 {
          PrefixOccurs(out, q);
          PrefixSurvives(q, s, pat, sub);
          assert false;
        } else {
          assert s == [s[0]] + s[1..];
          AbsentInTail([s[0]], s[1..], q);
          OccursInTail([s[0]], ReplaceAll(s[1..], pat, sub), q, i);
          PassLeavesNone(s[1..], pat, q, sub);
          assert false;
        }
      }
    }
  }

  lemma AbsentInTail(x: string, y: string, q: string)
    ensures !Contains(x + y, q) ==> !Contains(y, q)
  {
    if Contains(y, q) {
      var i :| OccursAt(y, q, i);
      OccursInTail(x, y, q, i + |x|);
      assert OccursAt(x + y, q, i + |x|);
    }
  }

  /** A separate text never starts inside a placeholder. */
  lemma SpanFromPlaceholder(sub: string, y: string, q: string, i: int)
    requires Separate(q, sub) && 0 <= i < |sub|
    ensures !OccursAt(sub + y, q, i)
  {
    if i + |q| <= |sub| {
      OccursInHead(sub, y, q, i);
    } else if OccursAt(sub + y, q, i) {
      var n := |sub| - i;
      assert sub[|sub| - n..] == (sub + y)[i..i + |q|][..n] == q[..n];
      assert Straddles(q, sub, n);
      assert false;
    }
  }

  /** A $-free text is left alone by a pass exactly where it does not occur. */
  lemma PassFixes(s: string, pat: string, sub: string)
    requires pat != "" && '$' !in pat && IsPlaceholder(sub)
    ensures ReplaceAll(s, pat, sub) == s <==> !Contains(s, pat)
    ensures Count(ReplaceAll(s, pat, sub), '$') >= Count(s, '$')
    ensures Contains(s, pat) ==> Count(ReplaceAll(s, pat, sub), '$') > Count(s, '$')
  {
    ReplaceCounts(s, pat, sub, '$');
    if !Contains(s, pat) {
      ReplaceNothing(s, pat, sub);
    }
  }

  /**
   * The exact condition under which one pass is idempotent on every text: the
   * replaced path is separate from the placeholder. A drive such as "E:" is
   * not, because $WORKSPACE ends in E.
   */
  lemma PassIdempotentIffSeparate(pat: string, sub: string)
    requires pat != "" && '$' !in pat && IsPlaceholder(sub)
    ensures (forall s :: ReplaceAll(ReplaceAll(s, pat, sub), pat, sub) == ReplaceAll(s, pat, sub))
            <==> Separate(pat, sub)
  {
    if Separate(pat, sub) {
      forall s ensures ReplaceAll(ReplaceAll(s, pat, sub), pat, sub) == ReplaceAll(s, pat, sub) {
        PassLeavesNone(s, pat, pat, sub);
        ReplaceNothing(ReplaceAll(s, pat, sub), pat, sub);
      }
    } else {
      var s := NotIdempotent(pat, sub);
      var t := ReplaceAll(s, pat, sub);
      PassFixes(t, pat, sub);
      assert ReplaceAll(ReplaceAll(s, pat, sub), pat, sub) != ReplaceAll(s, pat, sub);
    }
  }

  lemma NotIdempotent(pat: string, sub: string) returns (s: string)
    requires pat != "" && '$' !in pat && IsPlaceholder(sub) && !Separate(pat, sub)
    ensures Contains(ReplaceAll(s, pat, sub), pat)
  {
    if Contains(sub, pat) {
      s := pat + "";
      ReplaceLeading("", pat, sub);
      assert sub + "" == sub;
    } else {
      var n :| Straddles(pat, sub, n);
      var rest := pat[n..];
      s := pat + rest;
      ReplaceLeading(rest, pat, sub);
      ReplaceNothing(rest, pat, sub);
      assert (sub + rest)[|sub| - n..|sub| - n + |pat|] == sub[|sub| - n..] + rest == pat;
      assert OccursAt(sub + rest, pat, |sub| - n);
    }
  }

  // ---- Where a pass brings in a text that was not there ----

  /** q can stand partly in sub, with its first n characters there. */
  ghost predicate Meets(q: string, sub: string, n: nat) {
    n <= |q| && ((n == |q| && Contains(sub, q)) || Straddles(q, sub, n))
  }

  lemma SeparateIffNeverMeets(q: string, sub: string)
    ensures Separate(q, sub) <==> forall n: nat :: !Meets(q, sub, n)
  {
    if Contains(sub, q) {
      assert Meets(q, sub, |q|);
    }
    if n :| Straddles(q, sub, n) {
      assert Meets(q, sub, n);
    }
  }

  /** Where q meets sub, sub and the rest of q hold q. */
  lemma MeetsHolds(q: string, sub: string, n: nat)
    requires Meets(q, sub, n)
    ensures Contains(sub + q[n..], q)
  {
    if Straddles(q, sub, n) {
      var at := |sub| - n;
      assert (sub + q[n..])[at..at + |q|] == sub[at..] + q[n..] == q;
      assert OccursAt(sub + q[n..], q, at);
    } else {
      var i :| OccursAt(sub, q, i);
      OccursInHead(sub, q[n..], q, i);
    }
  }

  /** A $-free prefix of a rewritten text holds no copy of what was replaced. */
  lemma {:induction false} PrefixAvoids(x: string, s: string, pat: string, sub: string)
    requires pat != "" && IsPlaceholder(sub) && '$' !in x
    requires x <= ReplaceAll(s, pat, sub)
    ensures !Contains(x, pat)
  {
    PrefixSurvives(x, s, pat, sub);
    forall i ensures !OccursAt(x, pat, i) {
      if OccursAt(x, pat, i) {
        assert x[0] == ReplaceAll(s, pat, sub)[0] && x[0] in x;
        PrefixOccurs(x, pat);
        if pat <= s {
          assert false;
        } else {
          assert x == [x[0]] + x[1..];
          assert x[1..] <= ReplaceAll(s[1..], pat, sub);
          OccursInTail([x[0]], x[1..], pat, i);
          PrefixAvoids(x[1..], s[1..], pat, sub);
          assert false;
        }
      }
    }
  }

  lemma ContainsInTail(x: string, y: string, q: string)
    requires Contains(y, q)
    ensures Contains(x + y, q)
  {
    AbsentInTail(x, y, q);
  }

  /** q meets the placeholder, and what follows there of q followed a replaced copy of pat in s. */
  ghost predicate ComesOf(s: string, pat: string, q: string, sub: string, n: nat) {
    Meets(q, sub, n) && Contains(s, pat + q[n..]) && !Contains(q[n..], pat)
  }

  /**
   * If a pass leaves or brings in a $-free q that was absent or is what was
   * replaced, then q meets the placeholder, and what follows there of q followed a
   * replaced copy before the pass.
   */
  lemma {:induction false} BroughtInWhere(s: string, pat: string, q: string, sub: string)
    requires pat != "" && q != "" && '$' !in q && IsPlaceholder(sub)
    requires q == pat || !Contains(s, q)
    requires Contains(ReplaceAll(s, pat, sub), q)
    ensures exists n: nat :: ComesOf(s, pat, q, sub, n)
  {
    var i :| OccursAt(ReplaceAll(s, pat, sub), q, i);
    PrefixOccurs(s, pat);
    if pat <= s {
      var rest := s[|pat|..];
      assert s == pat + rest;
      AbsentInTail(pat, rest, q);
      if i < |sub| {
        BroughtInHere(rest, pat, q, sub, i);
      } else {
        OccursInTail(sub, ReplaceAll(rest, pat, sub), q, i);
        BroughtInWhere(rest, pat, q, sub);
        var n: nat :| ComesOf(rest, pat, q, sub, n);
        ContainsInTail(pat, rest, pat + q[n..]);
        assert ComesOf(s, pat, q, sub, n);
      }
    } else {
      var rest := s[1..];
      assert s == [s[0]] + rest;
      AbsentInTail([s[0]], rest, q);
      NotAtStart(s, pat, q, sub, i);
      OccursInTail([s[0]], ReplaceAll(rest, pat, sub), q, i);
      BroughtInWhere(rest, pat, q, sub);
      var n: nat :| ComesOf(rest, pat, q, sub, n);
      ContainsInTail([s[0]], rest, pat + q[n..]);
      assert ComesOf(s, pat, q, sub, n);
    }
  }

  lemma NotAtStart(s: string, pat: string, q: string, sub: string, i: int)
    requires pat != "" && q != "" && '$' !in q && IsPlaceholder(sub)
    requires q == pat || !Contains(s, q)
    requires !(pat <= s) && OccursAt(ReplaceAll(s, pat, sub), q, i)
    ensures s != "" && i > 0
  {
    if i == 0 {
      PrefixOccurs(ReplaceAll(s, pat, sub), q);
      PrefixSurvives(q, s, pat, sub);
      PrefixOccurs(s, q);
    }
  }

  /** q, standing across the edge of x and y, is the end of x and the start of y. */
  lemma AcrossTheEdge(x: string, y: string, q: string, i: nat)
    requires i < |x| < i + |q| && OccursAt(x + y, q, i)
    ensures x[i..] == q[..|x| - i] && q[|x| - i..] <= y
  {
    var n, m := |x| - i, i + |q| - |x|;
    assert (x + y)[i..i + |q|] == x[i..] + y[..m];
    assert q == x[i..] + y[..m];
    assert q[n..] == y[..m];
  }

  lemma BroughtInHere(rest: string, pat: string, q: string, sub: string, i: nat)
    requires pat != "" && q != "" && '$' !in q && IsPlaceholder(sub)
    requires i < |sub| && OccursAt(sub + ReplaceAll(rest, pat, sub), q, i)
    ensures exists n: nat :: ComesOf(pat + rest, pat, q, sub, n)
  {
    var after := ReplaceAll(rest, pat, sub);
    if i + |q| <= |sub| {
      OccursInHead(sub, after, q, i);
      FollowsPattern(rest, pat, q, |q|);
      assert ComesOf(pat + rest, pat, q, sub, |q|);
    } else {
      var n := |sub| - i;
      AcrossTheEdge(sub, after, q, i);
      assert Straddles(q, sub, n);
      PrefixSurvives(q[n..], rest, pat, sub);
      PrefixAvoids(q[n..], rest, pat, sub);
      FollowsPattern(rest, pat, q, n);
      assert ComesOf(pat + rest, pat, q, sub, n);
    }
  }

  lemma FollowsPattern(rest: string, pat: string, q: string, n: nat)
    requires n <= |q| && q[n..] <= rest
    ensures Contains(pat + rest, pat + q[n..])
  {
    var m := |q| - n;
    assert rest == q[n..] + rest[m..];
    assert (pat + rest)[0..|pat| + m] == pat + q[n..];
    assert OccursAt(pat + rest, pat + q[n..], 0);
  }

  /** A Windows drive breaks stability: normalizing "E::" twice changes it twice. */
  lemma {:induction false} DriveLetterBreaksStability()
    ensures !Separate("E:", "$WORKSPACE")
    ensures ReplaceAll("E::", "E:", "$WORKSPACE") == "$WORKSPACE:"
    ensures ReplaceAll("$WORKSPACE:", "E:", "$WORKSPACE") != "$WORKSPACE:"
  {
    var sub := "$WORKSPACE";
    assert Straddles("E:", sub, 1);
    assert "E::"[2..] == ":";
    ReplaceLeading(":", "E:", sub);
    assert "E:" + ":" == "E::";
    assert ReplaceAll("", "E:", sub) == "";
    assert !("E:" <= ":");
    assert ReplaceAll(":", "E:", sub) == ":" + "";
    assert sub + ":" == "$WORKSPACE:";
    assert "$WORKSPACE:"[9..11] == "E:";
    assert OccursAt("$WORKSPACE:", "E:", 9);
    PassFixes("$WORKSPACE:", "E:", sub);
  }
}
