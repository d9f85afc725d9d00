// Text operations the repository takes from Go's strings package, with the
// facts about occurrences, replacement and counting that the canonicalizer and
// the redactor rest on.
module Text {

  /** p stands in s at position i. */
  predicate OccursAt(s: string, p: string, i: int) {
    0 <= i && i + |p| <= |s| && s[i..i + |p|] == p
  }

  /** p stands somewhere in s. */
  ghost predicate Contains(s: string, p: string) {
    exists i :: OccursAt(s, p, i)
  }

  /** strings.ReplaceAll for a nonempty pat: leftmost matches, never overlapping. */
  function ReplaceAll(s: string, pat: string, sub: string): string
    requires pat != ""
  {
    if s == "" then ""
    else if pat <= s then sub + ReplaceAll(s[|pat|..], pat, sub)
    else [s[0]] + ReplaceAll(s[1..], pat, sub)
  }

  lemma PrefixOccurs(s: string, p: string)
    ensures p <= s <==> OccursAt(s, p, 0)
  {
    if p <= s {
      assert s[0..|p|] == p;
    }
  }

  /** Occurrences in x + y that start at or past |x| are the occurrences in y. */
  lemma OccursInTail(x: string, y: string, p: string, i: int)
    requires |x| <= i
    ensures OccursAt(x + y, p, i) <==> OccursAt(y, p, i - |x|)
  {
    if i + |p| <= |x| + |y| {
      assert (x + y)[i..i + |p|] == y[i - |x|..i - |x| + |p|];
    }
  }

  /** Occurrences that end inside x do not see what follows x. */
  lemma OccursInHead(x: string, y: string, p: string, i: int)
    requires i + |p| <= |x|
    ensures OccursAt(x + y, p, i) <==> OccursAt(x, p, i)
  {
    if 0 <= i {
      assert (x + y)[i..i + |p|] == x[i..i + |p|];
    }
  }

  /** An occurrence shows each of its characters. */
  lemma OccursChar(s: string, p: string, i: int, j: int)
    requires OccursAt(s, p, i) && 0 <= j < |p|
    ensures s[i + j] == p[j]
  {
    assert s[i..i + |p|][j] == p[j];
  }

  /** A text that lacks one of a pattern's characters lacks the pattern. */
  lemma AbsentByChar(s: string, m: string, j: nat)
    requires j < |m| && m[j] !in s
    ensures !Contains(s, m)
  {
    if Contains(s, m) {
      var i :| OccursAt(s, m, i);
      OccursChar(s, m, i, j);
    }
  }

  /** A text without the pattern is returned unchanged. */
  lemma {:induction false} ReplaceNothing(s: string, pat: string, sub: string)
    requires pat != "" && !Contains(s, pat)
    ensures ReplaceAll(s, pat, sub) == s
  {
    if s != "" {
      PrefixOccurs(s, pat);
      assert s == [s[0]] + s[1..];
      if Contains(s[1..], pat) {
        var i :| OccursAt(s[1..], pat, i);
        OccursInTail([s[0]], s[1..], pat, i + 1);
      }
      ReplaceNothing(s[1..], pat, sub);
    }
  }

  /** A stretch in which no occurrence starts is copied. */
  lemma {:induction false} ReplaceSkips(x: string, y: string, pat: string, sub: string)
    requires pat != ""
    requires forall i :: 0 <= i < |x| ==> !OccursAt(x + y, pat, i)
    ensures ReplaceAll(x + y, pat, sub) == x + ReplaceAll(y, pat, sub)
  {
    if x == "" {
      assert x + y == y;
    } else {
      var s := x + y;
      PrefixOccurs(s, pat);
      assert !OccursAt(s, pat, 0);
      assert s[1..] == x[1..] + y;
      assert s == [s[0]] + s[1..];
      forall i | 0 <= i < |x[1..]| ensures !OccursAt(x[1..] + y, pat, i) {
        OccursInTail([s[0]], s[1..], pat, i + 1);
      }
      ReplaceSkips(x[1..], y, pat, sub);
      assert x == [s[0]] + x[1..];
      assert [s[0]] + (x[1..] + ReplaceAll(y, pat, sub)) == x + ReplaceAll(y, pat, sub);
    }
  }

  /** A leading occurrence is replaced. */
  lemma ReplaceLeading(y: string, pat: string, sub: string)
    requires pat != ""
    ensures ReplaceAll(pat + y, pat, sub) == sub + ReplaceAll(y, pat, sub)
  {
    assert pat <= pat + y;
    assert (pat + y)[|pat|..] == y;
  }

  function Count(s: string, c: char): nat {
    if s == "" then 0 else (if s[0] == c then 1 else 0) + Count(s[1..], c)
  }

  lemma {:induction false} CountConcat(x: string, y: string, c: char)
    ensures Count(x + y, c) == Count(x, c) + Count(y, c)
  {
    if x == "" {
      assert x + y == y;
    } else {
      assert (x + y)[1..] == x[1..] + y;
      CountConcat(x[1..], y, c);
    }
  }

  lemma {:induction false} CountAbsent(s: string, c: char)
    requires c !in s
    ensures Count(s, c) == 0
  {
    if s != "" {
      CountAbsent(s[1..], c);
    }
  }

  /** Replacing c-free text by text with a c never lowers the count of c. */
  lemma {:induction false} ReplaceCounts(s: string, pat: string, sub: string, c: char)
    requires pat != "" && c !in pat && Count(sub, c) > 0
    ensures Count(ReplaceAll(s, pat, sub), c) >= Count(s, c)
    ensures Contains(s, pat) ==> Count(ReplaceAll(s, pat, sub), c) > Count(s, c)
  {
    if s != "" {
      PrefixOccurs(s, pat);
      if pat <= s {
        var rest := s[|pat|..];
        assert s == pat + rest;
        CountConcat(pat, rest, c);
        CountAbsent(pat, c);
        CountConcat(sub, ReplaceAll(rest, pat, sub), c);
        ReplaceCounts(rest, pat, sub, c);
      } else {
        ReplaceCounts(s[1..], pat, sub, c);
        assert s == [s[0]] + s[1..];
        if Contains(s, pat) {
          var i :| OccursAt(s, pat, i);
          assert i != 0;
          OccursInTail([s[0]], s[1..], pat, i);
          assert Contains(s[1..], pat);
        }
        CountConcat([s[0]], s[1..], c);
        CountConcat([s[0]], ReplaceAll(s[1..], pat, sub), c);
      }
    }
  }
}
