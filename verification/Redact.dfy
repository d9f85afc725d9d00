// internal/sandbox/process.go: masking secret-shaped text in command output, one
// pass for each marker, with what a pass does to a text, to a word, and to the
// masks of other passes.
module Redact {
  import opened Text

  predicate IsTokenChar(c: char) {
    'a' <= c <= 'z' || 'A' <= c <= 'Z' || '0' <= c <= '9' || c == '-' || c == '_'
  }

  predicate AllToken(s: string) {
    forall i :: 0 <= i < |s| ==> IsTokenChar(s[i])
  }

  /** A marker is a nonempty stretch of token characters. */
  predicate IsMarker(m: string) {
    m != "" && AllToken(m)
  }

  type Marker = m: string | IsMarker(m) witness "k"

  const MARKERS: seq<Marker> := ["sk-", "ghp_", "github_pat_", "xoxb-"]

  /** s is empty or starts outside a token. */
  predicate StartsApart(s: string) {
    s == "" || !IsTokenChar(s[0])
  }

  /** How many token characters s starts with. */
  function TokenRun(s: string): (n: nat)
    ensures n <= |s|
  {
    if StartsApart(s) then 0 else 1 + TokenRun(s[1..])
  }

  lemma {:induction false} TokenRunStops(s: string)
    ensures AllToken(s[..TokenRun(s)]) && StartsApart(s[TokenRun(s)..])
  {
    if !StartsApart(s) {
      TokenRunStops(s[1..]);
      var n := TokenRun(s[1..]);
      assert s[1..][n..] == s[n + 1..];
      assert s[..n + 1] == [s[0]] + s[1..][..n];
    }
  }

  /** strings.Index for a nonempty pattern. */
  function Index(s: string, p: string): (i: int)
    requires p != ""
    ensures i < 0 || i + |p| <= |s|
  {
    if |s| < |p| then -1
    else if OccursAt(s, p, 0) then 0
    else
      var i := Index(s[1..], p);
      if i < 0 then -1 else i + 1
  }

  /** Where the first occurrence is, if there is one. */
  lemma {:induction false} IndexIsFirst(s: string, p: string)
    requires p != ""
    ensures Index(s, p) < 0 <==> !Contains(s, p)
    ensures Index(s, p) >= 0 ==> OccursAt(s, p, Index(s, p))
    ensures forall k :: 0 <= k < Index(s, p) ==> !OccursAt(s, p, k)
  {
    if |s| >= |p| && !OccursAt(s, p, 0) {
      IndexIsFirst(s[1..], p);
      OccursShifted(s, p);
      if Contains(s[1..], p) {
        var k :| OccursAt(s[1..], p, k);
        assert OccursAt(s, p, k + 1);
      }
    }
  }

  lemma OccursShifted(s: string, p: string)
    requires s != ""
    ensures forall k :: 1 <= k ==> (OccursAt(s, p, k) <==> OccursAt(s[1..], p, k - 1))
  {
    assert s == [s[0]] + s[1..];
    forall k | 1 <= k ensures OccursAt(s, p, k) <==> OccursAt(s[1..], p, k - 1) {
      OccursInTail([s[0]], s[1..], p, k);
    }
  }

  /** What is left after the first marker and the token that follows it. */
  function Rest(s: string, m: string): (r: string)
    requires m != "" && Index(s, m) >= 0
    ensures |r| < |s|
  {
    DropToken(s[Index(s, m) + |m|..])
  }

  function DropToken(s: string): (r: string)
    ensures |r| <= |s|
  {
    s[TokenRun(s)..]
  }

  /** One marker's pass over s. */
  function Pass(s: string, m: string): string
    requires m != ""
    decreases |s|
  {
    if Index(s, m) < 0 then s
    else (s[..Index(s, m)] + m + "***") + Pass(Rest(s, m), m)
  }

  function RedactAll(s: string, ms: seq<Marker>): string
    decreases |ms|
  {
    if ms == [] then s else RedactAll(Pass(s, ms[0]), ms[1..])
  }

  lemma Assoc(a: string, b: string, c: string)
    ensures a + b + c == a + (b + c)
  {
  }

  lemma Regroup(w: string, a: string, b: string, c: string, d: string)
    ensures w + (a + b + c + d) == w + a + b + c + d
  {
    Assoc(w, a + b + c, d);
    Assoc(w, a + b, c);
    Assoc(w, a, b);
  }

  /** The program's scan to the end of the token rest starts with. */
  method SkipToken(rest: string) returns (end: nat)
    ensures end == TokenRun(rest)
  {
    end := 0;
    while end < |rest| && IsTokenChar(rest[end])
      invariant 0 <= end <= |rest| && AllToken(rest[..end])
    {
      end := end + 1;
    }
    RunIs(rest, end);
  }

  /** The pass as the program makes it, shrinking the text it has left. */
  method RedactMarker(text: string, marker: string) returns (out: string)
    requires marker != ""
    ensures out == Pass(text, marker)
  {
    var s, b := text, "";
    while true
      invariant Pass(text, marker) == b + Pass(s, marker)
      decreases |s|
    {
      var idx := Index(s, marker);
      if idx < 0 {
        return b + s;
      }
      ghost var before := b;
      b := b + s[..idx];
      b := b + marker;
      var rest := s[idx + |marker|..];
      var end := SkipToken(rest);
      b := b + "***";
      PassUnfolds(before, s, marker, rest, end);
      s := rest[end..];
    }
  }

  lemma PassUnfolds(b: string, s: string, m: string, rest: string, end: nat)
    requires m != "" && Index(s, m) >= 0
    requires rest == s[Index(s, m) + |m|..] && end == TokenRun(rest)
    ensures b + Pass(s, m) == b + s[..Index(s, m)] + m + "***" + Pass(rest[end..], m)
  {
    PassAt(s, m, Index(s, m), rest, end);
    Regroup(b, s[..Index(s, m)], m, "***", Pass(rest[end..], m));
  }

  lemma PassAt(s: string, m: string, i: nat, rest: string, end: nat)
    requires m != "" && Index(s, m) == i && i + |m| <= |s|
    requires rest == s[i + |m|..] && end == TokenRun(rest)
    ensures Pass(s, m) == s[..i] + m + "***" + Pass(rest[end..], m)
  {
    RestIs(s, m, i, rest, end);
  }

  lemma RestIs(s: string, m: string, i: nat, rest: string, end: nat)
    requires m != "" && Index(s, m) == i && i + |m| <= |s|
    requires rest == s[i + |m|..] && end == TokenRun(rest)
    ensures Rest(s, m) == rest[end..]
  {
  }

  lemma {:induction false} RunIs(s: string, n: nat)
    requires n <= |s| && AllToken(s[..n]) && StartsApart(s[n..])
    ensures n == TokenRun(s)
  {
    if n > 0 {
      assert s[0] == s[..n][0];
      assert s[1..][..n - 1] == s[..n][1..] && s[1..][n - 1..] == s[n..];
      RunIs(s[1..], n - 1);
    }
  }

  method RedactSecrets(s: string) returns (out: string)
    ensures out == RedactAll(s, MARKERS)
  {
    out := s;
    var k := 0;
    while k < |MARKERS|
      invariant 0 <= k <= |MARKERS|
      invariant RedactAll(s, MARKERS) == RedactAll(out, MARKERS[k..])
    {
      out := RedactMarker(out, MARKERS[k]);
      k := k + 1;
    }
  }

  /** The pass, read as a text cut at its first marker and the token after that. */
  lemma PassCut(x: string, m: string, t: string, y: string)
    requires m != "" && AllToken(t) && StartsApart(y)
    requires forall k :: 0 <= k < |x| ==> !OccursAt(x + m + t + y, m, k)
    ensures Index(x + m + t + y, m) == |x|
    ensures Pass(x + m + t + y, m) == x + m + "***" + Pass(y, m)
  {
    var s := x + m + t + y;
    assert s[|x|..|x| + |m|] == m;
    FirstOccurrence(s, m, |x|);
    var rest := s[|x| + |m|..];
    assert rest == t + y;
    assert rest[..|t|] == t && rest[|t|..] == y;
    RunIs(rest, |t|);
    assert s[..|x|] == x;
    PassAt(s, m, |x|, rest, |t|);
  }

  lemma FirstOccurrence(s: string, m: string, i: int)
    requires m != "" && OccursAt(s, m, i) && forall k :: 0 <= k < i ==> !OccursAt(s, m, k)
    ensures Index(s, m) == i
  {
    IndexIsFirst(s, m);
    assert Contains(s, m);
  }

  lemma Pieces(s: string, m: string, i: nat, n: nat)
    requires OccursAt(s, m, i) && i + |m| + n <= |s|
    ensures var rest := s[i + |m|..];
            s == s[..i] + m + rest[..n] + rest[n..]
  {
    var rest := s[i + |m|..];
    assert s == s[..i] + m + rest;
    Assoc(s[..i] + m, rest[..n], rest[n..]);
    assert rest == rest[..n] + rest[n..];
  }

  /** s is cut at its first marker and the token after that. */
  ghost predicate IsCut(s: string, m: string, x: string, t: string, y: string)
    requires m != ""
  {
    && s == x + m + t + y && AllToken(t) && StartsApart(y) && |y| < |s|
    && |x| == Index(s, m) && (forall k :: 0 <= k < |x| ==> !OccursAt(s, m, k))
    && Pass(s, m) == x + m + "***" + Pass(y, m)
  }

  /** Text with a marker in it has such a cut. */
  lemma Cut(s: string, m: string)
    requires m != "" && Contains(s, m)
    ensures exists x, t, y :: IsCut(s, m, x, t, y)
  {
    IndexIsFirst(s, m);
    var i := Index(s, m);
    var rest := s[i + |m|..];
    TokenRunStops(rest);
    var n := TokenRun(rest);
    Pieces(s, m, i, n);
    PassAt(s, m, i, rest, n);
    assert IsCut(s, m, s[..i], rest[..n], rest[n..]);
  }

  lemma PassNone(s: string, m: string)
    requires m != "" && !Contains(s, m)
    ensures Pass(s, m) == s
  {
    IndexIsFirst(s, m);
  }

  // ---- Every marker is masked ----

  /** Each m in s is followed by three stars, and no token follows those. */
  ghost predicate Masked(s: string, m: string) {
    forall i :: OccursAt(s, m, i) ==> "***" <= s[i + |m|..] && StartsApart(s[i + |m| + 3..])
  }

  lemma PassStartsApart(s: string, m: string)
    requires IsMarker(m) && StartsApart(s)
    ensures StartsApart(Pass(s, m))
  {
    IndexIsFirst(s, m);
    if Index(s, m) == 0 {
      OccursChar(s, m, 0, 0);
    }
  }

  lemma MaskedTail(x: string, y: string, m: string)
    requires Masked(x + y, m)
    ensures Masked(y, m)
  {
    forall i | OccursAt(y, m, i) ensures "***" <= y[i + |m|..] && StartsApart(y[i + |m| + 3..]) {
      OccursInTail(x, y, m, i + |x|);
      assert (x + y)[i + |x| + |m|..] == y[i + |m|..];
      assert (x + y)[i + |x| + |m| + 3..] == y[i + |m| + 3..];
    }
  }

  /** Masked at one place survives putting stars where a token ended. */
  lemma MaskedBeforeCut(x: string, mk: string, rest: string, tail: string, m: string, i: int)
    requires IsMarker(mk) && IsMarker(m) && StartsApart(tail)
    requires OccursAt(x + mk, m, i)
    requires i + |m| == |x + mk|
             || ("***" <= (x + mk + rest)[i + |m|..] && StartsApart((x + mk + rest)[i + |m| + 3..]))
    ensures var out := x + mk + "***" + tail;
            "***" <= out[i + |m|..] && StartsApart(out[i + |m| + 3..])
  {
    var h := x + mk;
    var out := h + "***" + tail;
    var e := i + |m|;
    if e == |h| {
      assert out[e..] == "***" + tail;
      assert out[e + 3..] == tail;
    } else {
      StarsBefore(x, mk, rest, e);
      assert out == h + ("***" + tail);
      assert out[e..][..3] == h[e..e + 3] == (h + rest)[e..][..3];
      assert out[e + 3..][0] == h[e + 3] == (h + rest)[e + 3..][0];
    }
  }

  /** Stars before the end of a marker that no token character follows all stand before the marker. */
  lemma StarsBefore(x: string, mk: string, rest: string, e: int)
    requires IsMarker(mk) && 0 <= e < |x + mk|
    requires "***" <= (x + mk + rest)[e..] && StartsApart((x + mk + rest)[e + 3..])
    ensures e + 3 < |x|
  {
    var was := x + mk + rest;
    var at := if e >= |x| then e else |x|;
    assert was[at] == mk[at - |x|];
    assert IsTokenChar(was[at]);
    assert e + 3 < |was| ==> was[e + 3..][0] == was[e + 3];
    if at < e + 3 {
      StarAt(was, e, at);
    }
  }

  lemma StarAt(s: string, e: nat, at: nat)
    requires e <= at < e + 3 && e <= |s| && "***" <= s[e..]
    ensures at < |s| && s[at] == '*'
  {
    assert s[at] == s[e..][at - e] == "***"[at - e];
  }

  /**
   * A marker's pass leaves that marker masked, and keeps masked every other
   * marker that already was.
   */
  lemma {:induction false} PassMasks(s: string, mk: string, m: string)
    requires IsMarker(mk) && IsMarker(m)
    requires m == mk || Masked(s, m)
    ensures Masked(Pass(s, mk), m)
    decreases |s|
  {
    if Contains(s, mk) {
      Cut(s, mk);
      var x, t, y :| IsCut(s, mk, x, t, y);
      assert s == (x + mk + t) + y;
      if m != mk {
        MaskedTail(x + mk + t, y, m);
      }
      PassMasks(y, mk, m);
      PassStartsApart(y, mk);
      Assoc(x + mk, t, y);
      MaskedParts(s, x, mk, t + y, Pass(y, mk), m);
    } else {
      PassNone(s, mk);
    }
  }

  lemma MaskedParts(s: string, x: string, mk: string, rest: string, done: string, m: string)
    requires IsMarker(mk) && IsMarker(m)
    requires s == x + mk + rest && StartsApart(done) && Masked(done, m)
    requires forall j :: 0 <= j < |x| ==> !OccursAt(s, mk, j)
    requires m == mk || Masked(s, m)
    ensures Masked(x + mk + "***" + done, m)
  {
    var out := x + mk + "***" + done;
    forall k | OccursAt(out, m, k) ensures "***" <= out[k + |m|..] && StartsApart(out[k + |m| + 3..]) {
      MaskedAt(s, x, mk, rest, done, m, k);
    }
  }

  lemma StarsNotInMarker(h: string, done: string, m: string, k: int, at: int)
    requires IsMarker(m) && |h| <= at < |h| + 3 && k <= at < k + |m|
    ensures !OccursAt(h + "***" + done, m, k)
  {
    var out := h + "***" + done;
    assert out[at] == '*';
    if OccursAt(out, m, k) {
      OccursChar(out, m, k, at - k);
    }
  }

  lemma MaskedAt(s: string, x: string, mk: string, rest: string, done: string, m: string, k: int)
    requires IsMarker(mk) && IsMarker(m)
    requires s == x + mk + rest && StartsApart(done) && Masked(done, m)
    requires forall j :: 0 <= j < |x| ==> !OccursAt(s, mk, j)
    requires m == mk || Masked(s, m)
    requires OccursAt(x + mk + "***" + done, m, k)
    ensures var out := x + mk + "***" + done;
            "***" <= out[k + |m|..] && StartsApart(out[k + |m| + 3..])
  {
    var h := x + mk;
    var out := h + "***" + done;
    if k >= |h| + 3 {
      assert out == (h + "***") + done;
      OccursInTail(h + "***", done, m, k);
      assert out[k + |m|..] == done[k - |h| - 3 + |m|..];
      assert out[k + |m| + 3..] == done[k - |h| + |m|..];
    } else if k + |m| > |h| {
      var at := if k >= |h| then k else |h|;
      StarsNotInMarker(h, done, m, k, at);
      assert false;
    } else {
      assert out == h + ("***" + done);
      OccursInHead(h, "***" + done, m, k);
      OccursInHead(h, rest, m, k);
      MaskedBeforeCut(x, mk, rest, done, m, k);
    }
  }

  lemma {:induction false} AllMasked(s: string, ms: seq<Marker>, m: string)
    requires IsMarker(m) && (m in ms || Masked(s, m))
    ensures Masked(RedactAll(s, ms), m)
    decreases |ms|
  {
    if ms != [] {
      if m == ms[0] || Masked(s, m) {
        PassMasks(s, ms[0], m);
      }
      AllMasked(Pass(s, ms[0]), ms[1..], m);
    }
  }

  /** Redacted output shows no secret: each marker is followed by the mask and no token after it. */
  lemma RedactedIsMasked(s: string, m: string)
    requires m in MARKERS
    ensures Masked(RedactAll(s, MARKERS), m)
  {
    AllMasked(s, MARKERS, m);
  }

  // ---- Redaction works word by word ----

  lemma OccursAcross(x: string, y: string, m: string, k: int)
    requires IsMarker(m) && StartsApart(y) && OccursAt(x + y, m, k)
    ensures k + |m| <= |x| || k >= |x|
  {
    if k < |x| < k + |m| {
      OccursChar(x + y, m, k, |x| - k);
    }
  }

  /** Text is redacted independently on the two sides of a place where no token is cut. */
  lemma {:induction false} PassSplits(x: string, y: string, m: string)
    requires IsMarker(m) && StartsApart(y)
    ensures Pass(x + y, m) == Pass(x, m) + Pass(y, m)
    decreases |x|
  {
    if Contains(x, m) {
      Cut(x, m);
      var u, t, v :| IsCut(x, m, u, t, v);
      PassSplits(v, y, m);
      CutMore(u, m, t, v, y);
      PassCut(u, m, t, v + y);
      Assoc(u + m + "***", Pass(v, m), Pass(y, m));
    } else {
      forall k | 0 <= k < |x| ensures !OccursAt(x + y, m, k) {
        if OccursAt(x + y, m, k) {
          OccursAcross(x, y, m, k);
          OccursInHead(x, y, m, k);
        }
      }
      PassSkips(x, y, m);
      PassNone(x, m);
    }
  }

  lemma CutMore(u: string, m: string, t: string, v: string, y: string)
    requires forall k :: 0 <= k < |u| ==> !OccursAt(u + m + t + v, m, k)
    ensures forall k :: 0 <= k < |u| ==> !OccursAt(u + m + t + (v + y), m, k)
    ensures u + m + t + v + y == u + m + t + (v + y)
  {
    var h := u + m;
    assert u + m + t + v == h + (t + v);
    assert u + m + t + (v + y) == h + (t + (v + y));
    forall k | 0 <= k < |u| ensures !OccursAt(u + m + t + (v + y), m, k) {
      OccursInHead(h, t + v, m, k);
      OccursInHead(h, t + (v + y), m, k);
    }
  }

  /** A stretch in which the marker does not start is copied. */
  lemma PassSkips(x: string, y: string, m: string)
    requires m != "" && forall k :: 0 <= k < |x| ==> !OccursAt(x + y, m, k)
    ensures Pass(x + y, m) == x + Pass(y, m)
  {
    if Contains(y, m) {
      Cut(y, m);
      var u, t, v :| IsCut(y, m, u, t, v);
      CutLater(x, u, m, t, v);
      PassCut(x + u, m, t, v);
      Regroup(x, u, m, "***", Pass(v, m));
    } else {
      if Contains(x + y, m) {
        var k :| OccursAt(x + y, m, k);
        OccursInTail(x, y, m, k);
      }
      PassNone(x + y, m);
      PassNone(y, m);
    }
  }

  lemma CutLater(x: string, u: string, m: string, t: string, v: string)
    requires forall k :: 0 <= k < |x| ==> !OccursAt(x + (u + m + t + v), m, k)
    requires forall k :: 0 <= k < |u| ==> !OccursAt(u + m + t + v, m, k)
    ensures forall k :: 0 <= k < |x + u| ==> !OccursAt((x + u) + m + t + v, m, k)
    ensures x + (u + m + t + v) == (x + u) + m + t + v
  {
    var y := u + m + t + v;
    assert x + y == (x + u) + m + t + v;
    forall k | 0 <= k < |x + u| ensures !OccursAt((x + u) + m + t + v, m, k) {
      if k >= |x| {
        OccursInTail(x, y, m, k);
      }
    }
  }

  lemma {:induction false} RedactSplits(x: string, y: string, ms: seq<Marker>)
    requires StartsApart(y)
    ensures RedactAll(x + y, ms) == RedactAll(x, ms) + RedactAll(y, ms)
    decreases |ms|
  {
    if ms != [] {
      PassSplits(x, y, ms[0]);
      PassStartsApart(y, ms[0]);
      RedactSplits(Pass(x, ms[0]), Pass(y, ms[0]), ms[1..]);
    }
  }

  predicate Stars(s: string) {
    forall i :: 0 <= i < |s| ==> s[i] == '*'
  }

  /** e is where the marker that is complete first in w ends. */
  ghost predicate FirstMarkerEnd(w: string, ms: seq<Marker>, e: int) {
    && (exists k, i :: 0 <= k < |ms| && OccursAt(w, ms[k], i) && i + |ms[k]| == e)
    && (forall k, i :: 0 <= k < |ms| && OccursAt(w, ms[k], i) ==> e <= i + |ms[k]|)
  }

  /** All of w, or w up to its first complete marker. */
  ghost predicate CutAt(w: string, ms: seq<Marker>, e: int) {
    if NoMarker(w, ms) then e == |w| else FirstMarkerEnd(w, ms, e)
  }

  ghost predicate NoMarker(s: string, ms: seq<Marker>) {
    forall k :: 0 <= k < |ms| ==> !Contains(s, ms[k])
  }

  lemma TokenGoesOn(h: string, y: string)
    requires AllToken(h + y) && y != ""
    ensures !StartsApart(y)
  {
    assert (h + y)[|h|] == y[0];
  }

  /** The first m in w ends at cut. */
  ghost predicate EndsFirst(w: string, m: string, cut: int) {
    |m| <= cut <= |w| && OccursAt(w, m, cut - |m|) && forall k :: 0 <= k < cut - |m| ==> !OccursAt(w, m, k)
  }

  /** One pass over a word: its first marker and stars for all that follows. */
  lemma PassToken(w: string, m: string)
    requires IsMarker(m) && AllToken(w) && Contains(w, m)
    ensures exists cut :: EndsFirst(w, m, cut) && Pass(w, m) == w[..cut] + "***"
  {
    Cut(w, m);
    var x, t, y :| IsCut(w, m, x, t, y);
    if y != "" {
      TokenGoesOn(x + m + t, y);
    }
    var cut := |x| + |m|;
    assert w[..cut] == x + m;
    assert w[|x|..cut] == m;
    PassNone(y, m);
    assert EndsFirst(w, m, cut);
  }

  /** The pass leaves the mask a word already ends in. */
  lemma PassOverStars(w: string, st: string, m: string)
    requires IsMarker(m) && Stars(st)
    ensures Pass(w + st, m) == Pass(w, m) + st
  {
    PassSplits(w, st, m);
    if Contains(st, m) {
      var k :| OccursAt(st, m, k);
      OccursChar(st, m, k, 0);
    }
    PassNone(st, m);
  }

  /** Redacting w followed by st leaves w up to its first complete marker, and stars, more of them if w was cut. */
  ghost predicate CutTo(w: string, st: string, out: string, ms: seq<Marker>, e: int) {
    && CutAt(w, ms, e) && 0 <= e <= |out| && e <= |w| && out[..e] == w[..e] && Stars(out[e..])
    && if NoMarker(w, ms) then out[e..] == st else |out[e..]| >= |st| + 3
  }

  /**
   * What is left of a word, as a cut and the stars after it: nothing past the end
   * of the marker that ends first can be seen, whichever marker that is and
   * whatever follows it.
   */
  lemma {:induction false} WordIsCut(w: string, st: string, ms: seq<Marker>)
    requires AllToken(w) && Stars(st)
    ensures exists e :: CutTo(w, st, RedactAll(w + st, ms), ms, e)
    decreases |ms|, 1
  {
    if ms == [] {
      assert (w + st)[|w|..] == st && (w + st)[..|w|] == w[..|w|];
      assert NoMarker(w, ms);
      assert CutTo(w, st, RedactAll(w + st, ms), ms, |w|);
    } else {
      PassOverStars(w, st, ms[0]);
      if Contains(w, ms[0]) {
        CutWord(w, st, ms);
        var e :| CutTo(w, st, RedactAll(Pass(w, ms[0]) + st, ms[1..]), ms, e);
        assert CutTo(w, st, RedactAll(w + st, ms), ms, e);
      } else {
        PassNone(w, ms[0]);
        WordIsCut(w, st, ms[1..]);
        var e :| CutTo(w, st, RedactAll(w + st, ms[1..]), ms[1..], e);
        CutAgain(w, ms, e);
        assert CutTo(w, st, RedactAll(w + st, ms), ms, e);
      }
    }
  }

  lemma {:induction false} CutWord(w: string, st: string, ms: seq<Marker>)
    requires ms != [] && AllToken(w) && Stars(st) && Contains(w, ms[0])
    ensures exists e :: CutTo(w, st, RedactAll(Pass(w, ms[0]) + st, ms[1..]), ms, e)
    decreases |ms|, 0
  {
    PassToken(w, ms[0]);
    var cut :| EndsFirst(w, ms[0], cut) && Pass(w, ms[0]) == w[..cut] + "***";
    WordIsCut(w[..cut], "***" + st, ms[1..]);
    Assoc(w[..cut], "***", st);
    var out := RedactAll(Pass(w, ms[0]) + st, ms[1..]);
    var e :| CutTo(w[..cut], "***" + st, out, ms[1..], e);
    CutEarlier(w, ms, cut, e);
    assert w[..cut][..e] == w[..e];
    assert CutTo(w, st, out, ms, e);
  }

  lemma CutAgain(w: string, ms: seq<Marker>, e: int)
    requires ms != [] && !Contains(w, ms[0])
    ensures NoMarker(w, ms) <==> NoMarker(w, ms[1..])
    ensures CutAt(w, ms[1..], e) ==> CutAt(w, ms, e)
  {
    if FirstMarkerEnd(w, ms[1..], e) {
      var k, i :| 0 <= k < |ms[1..]| && OccursAt(w, ms[1..][k], i) && i + |ms[1..][k]| == e;
      assert OccursAt(w, ms[k + 1], i);
      forall j, l | 0 <= j < |ms| && OccursAt(w, ms[j], l) ensures e <= l + |ms[j]| {
        assert j > 0;
        assert ms[j] == ms[1..][j - 1];
      }
    }
    if NoMarker(w, ms[1..]) {
      forall k | 0 <= k < |ms| ensures !Contains(w, ms[k]) {
        if k > 0 {
          assert ms[k] == ms[1..][k - 1];
        }
      }
    }
  }

  lemma CutEarlier(w: string, ms: seq<Marker>, cut: int, e: int)
    requires ms != [] && 0 <= cut - |ms[0]| && cut <= |w| && OccursAt(w, ms[0], cut - |ms[0]|)
    requires forall k :: 0 <= k < cut - |ms[0]| ==> !OccursAt(w, ms[0], k)
    requires CutAt(w[..cut], ms[1..], e)
    ensures !NoMarker(w, ms) && CutAt(w, ms, e)
  {
    var v := w[..cut];
    assert w == v + w[cut..];
    assert Contains(w, ms[0]);
    forall k, i | 0 <= k < |ms| && OccursAt(w, ms[k], i) ensures e <= i + |ms[k]| {
      if k > 0 && i + |ms[k]| < cut {
        OccursInHead(v, w[cut..], ms[k], i);
        assert ms[k] == ms[1..][k - 1];
        assert OccursAt(v, ms[1..][k - 1], i);
        assert Contains(v, ms[1..][k - 1]);
      } else if !NoMarker(v, ms[1..]) {
        assert e <= cut;
      }
    }
    if !NoMarker(v, ms[1..]) {
      var k, i :| 0 <= k < |ms[1..]| && OccursAt(v, ms[1..][k], i) && i + |ms[1..][k]| == e;
      OccursInHead(v, w[cut..], ms[k + 1], i);
      assert OccursAt(w, ms[k + 1], i);
    }
  }

  /**
   * Two words that agree up to the end of their first complete marker redact to
   * that shared text and nothing else but stars.
   */
  lemma {:induction false} SecretsDoNotShow(w1: string, w2: string, e: nat, ms: seq<Marker>)
    requires AllToken(w1) && AllToken(w2) && e <= |w1| && e <= |w2|
    requires FirstMarkerEnd(w1, ms, e) && FirstMarkerEnd(w2, ms, e) && w1[..e] == w2[..e]
    ensures var out1, out2 := RedactAll(w1, ms), RedactAll(w2, ms);
            e <= |out1| && e <= |out2| && out1[..e] == out2[..e] == w1[..e] && Stars(out1[e..] + out2[e..])
  {
    WordIsCut(w1, "", ms);
    WordIsCut(w2, "", ms);
    assert w1 + "" == w1 && w2 + "" == w2;
    var e1 :| CutTo(w1, "", RedactAll(w1, ms), ms, e1);
    var e2 :| CutTo(w2, "", RedactAll(w2, ms), ms, e2);
    FirstEndUnique(w1, ms, e, e1);
    FirstEndUnique(w2, ms, e, e2);
  }

  lemma FirstEndUnique(w: string, ms: seq<Marker>, e: int, f: int)
    requires FirstMarkerEnd(w, ms, e)
    ensures !NoMarker(w, ms)
    ensures FirstMarkerEnd(w, ms, f) ==> e == f
  {
    var k, i :| 0 <= k < |ms| && OccursAt(w, ms[k], i) && i + |ms[k]| == e;
    assert Contains(w, ms[k]);
  }

  // ---- When redaction leaves text alone ----

  lemma {:induction false} PassStars(s: string, m: string)
    requires IsMarker(m)
    ensures Count(Pass(s, m), '*') >= Count(s, '*')
    ensures Contains(s, m) ==> Count(Pass(s, m), '*') > Count(s, '*')
    ensures !Contains(s, m) ==> Pass(s, m) == s
    decreases |s|
  {
    if Contains(s, m) {
      Cut(s, m);
      var x, t, y :| IsCut(s, m, x, t, y);
      var h := x + m;
      CountConcat(h + t, y, '*');
      CountConcat(h, t, '*');
      CountAbsent(t, '*');
      CountConcat(h + "***", Pass(y, m), '*');
      CountConcat(h, "***", '*');
      CountConcat("*", "**", '*');
      PassStars(y, m);
    } else {
      PassNone(s, m);
    }
  }

  lemma {:induction false} RedactStars(s: string, ms: seq<Marker>)
    ensures NoMarker(s, ms) ==> RedactAll(s, ms) == s
    ensures Count(RedactAll(s, ms), '*') >= Count(s, '*')
    ensures !NoMarker(s, ms) ==> Count(RedactAll(s, ms), '*') > Count(s, '*')
    decreases |ms|
  {
    if ms != [] {
      PassStars(s, ms[0]);
      RedactStars(Pass(s, ms[0]), ms[1..]);
      if !Contains(s, ms[0]) {
        CutAgain(s, ms, 0);
      }
    }
  }

  /** Text comes back unchanged exactly when it holds no marker. */
  lemma UnchangedIffNoMarker(s: string)
    ensures RedactAll(s, MARKERS) == s <==> NoMarker(s, MARKERS)
  {
    RedactStars(s, MARKERS);
  }

  lemma PassKeepsAMarker(s: string, mk: Marker, ms: seq<Marker>)
    requires mk in ms && !NoMarker(s, ms)
    ensures !NoMarker(Pass(s, mk), ms)
  {
    if Contains(s, mk) {
      Cut(s, mk);
      var x, t, y :| IsCut(s, mk, x, t, y);
      var out := Pass(s, mk);
      assert out == x + mk + ("***" + Pass(y, mk)) by {
        Assoc(x + mk, "***", Pass(y, mk));
      }
      assert out[|x|..|x| + |mk|] == mk;
      assert OccursAt(out, mk, |x|);
    } else {
      PassNone(s, mk);
    }
  }

  lemma {:induction false} RedactKeepsAMarker(s: string, passes: seq<Marker>, ms: seq<Marker>)
    requires !NoMarker(s, ms) && forall k :: 0 <= k < |passes| ==> passes[k] in ms
    ensures !NoMarker(RedactAll(s, passes), ms)
    decreases |passes|
  {
    if passes != [] {
      PassKeepsAMarker(s, passes[0], ms);
      RedactKeepsAMarker(Pass(s, passes[0]), passes[1..], ms);
    }
  }

  /**
   * Redacting again changes nothing exactly when the original text holds no
   * marker: masked text still holds its marker and gets a second mask.
   */
  lemma IdempotentIffNoMarker(s: string)
    ensures RedactAll(RedactAll(s, MARKERS), MARKERS) == RedactAll(s, MARKERS) <==> NoMarker(s, MARKERS)
  {
    UnchangedIffNoMarker(s);
    UnchangedIffNoMarker(RedactAll(s, MARKERS));
    if !NoMarker(s, MARKERS) {
      RedactKeepsAMarker(s, MARKERS, MARKERS);
    }
  }

  /** One marker text whose second redaction changes what the first one left. */
  lemma SecondMask() returns (s: string)
    ensures s == "sk-a" && RedactAll(RedactAll(s, MARKERS), MARKERS) != RedactAll(s, MARKERS)
  {
    s := "sk-a";
    var m := MARKERS[0];
    assert s[0..|m|] == m;
    assert OccursAt(s, m, 0);
    assert Contains(s, MARKERS[0]);
    IdempotentIffNoMarker(s);
  }
}
