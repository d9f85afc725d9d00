// Redaction of whole texts: a text is redacted word by word, two texts that differ
// in secrets only show the same, and what stands in the place of one secret in a
// text.
module RedactTexts {
  import opened Text
  import opened Redact

  /** Characters outside tokens, and the token that follows them. */
  datatype Part = Part(sep: string, word: string)

  function TextOf(ps: seq<Part>): string {
    if ps == [] then "" else TextOf(ps[..|ps| - 1]) + (ps[|ps| - 1].sep + ps[|ps| - 1].word)
  }

  predicate NoToken(s: string) {
    forall i :: 0 <= i < |s| ==> !IsTokenChar(s[i])
  }

  /** Parts of a text: only the first may do without a separator. */
  predicate Proper(ps: seq<Part>) {
    forall i :: 0 <= i < |ps| ==> NoToken(ps[i].sep) && AllToken(ps[i].word) && (i > 0 ==> ps[i].sep != "")
  }

  lemma WordGrows(ps: seq<Part>, c: char)
    requires Proper(ps) && ps != [] && IsTokenChar(c)
    ensures var m := |ps| - 1;
            var more := ps[..m] + [Part(ps[m].sep, ps[m].word + [c])];
            Proper(more) && TextOf(more) == TextOf(ps) + [c]
  {
    var m := |ps| - 1;
    var front, p := TextOf(ps[..m]), ps[m];
    var more := ps[..m] + [Part(p.sep, p.word + [c])];
    assert more[..m] == ps[..m];
    assert front + (p.sep + (p.word + [c])) == front + (p.sep + p.word) + [c];
  }

  lemma PartAdded(ps: seq<Part>, c: char)
    requires Proper(ps) && (IsTokenChar(c) ==> ps == [])
    ensures var more := ps + [if IsTokenChar(c) then Part("", [c]) else Part([c], "")];
            Proper(more) && TextOf(more) == TextOf(ps) + [c]
  {
    var last := if IsTokenChar(c) then Part("", [c]) else Part([c], "");
    assert (ps + [last])[..|ps|] == ps && last.sep + last.word == [c];
  }

  lemma {:induction false} EveryTextHasParts(s: string) returns (ps: seq<Part>)
    ensures Proper(ps) && TextOf(ps) == s
  {
    if s == "" {
      ps := [];
    } else {
      var n := |s| - 1;
      assert s == s[..n] + [s[n]];
      ps := EveryTextHasParts(s[..n]);
      if IsTokenChar(s[n]) && ps != [] {
        WordGrows(ps, s[n]);
        ps := ps[..|ps| - 1] + [Part(ps[|ps| - 1].sep, ps[|ps| - 1].word + [s[n]])];
      } else {
        PartAdded(ps, s[n]);
        ps := ps + [if IsTokenChar(s[n]) then Part("", [s[n]]) else Part([s[n]], "")];
      }
    }
  }

  /** Characters outside tokens pass through. */
  lemma {:induction false} CharKept(c: char, y: string, ms: seq<Marker>)
    requires !IsTokenChar(c)
    ensures RedactAll([c] + y, ms) == [c] + RedactAll(y, ms)
    decreases |ms|
  {
    if ms != [] {
      if OccursAt([c] + y, ms[0], 0) {
        OccursChar([c] + y, ms[0], 0, 0);
      }
      PassSkips([c], y, ms[0]);
      CharKept(c, Pass(y, ms[0]), ms[1..]);
    }
  }

  lemma {:induction false} SepKept(sep: string, y: string, ms: seq<Marker>)
    requires NoToken(sep)
    ensures RedactAll(sep + y, ms) == sep + RedactAll(y, ms)
  {
    if sep == "" {
      assert sep + y == y && sep + RedactAll(y, ms) == RedactAll(y, ms);
    } else {
      SepKept(sep[1..], y, ms);
      CharKept(sep[0], sep[1..] + y, ms);
      assert sep + y == [sep[0]] + (sep[1..] + y);
      assert sep + RedactAll(y, ms) == [sep[0]] + (sep[1..] + RedactAll(y, ms));
    }
  }

  /** A text is redacted part by part. */
  lemma PartKept(ps: seq<Part>, ms: seq<Marker>)
    requires Proper(ps) && ps != []
    ensures RedactAll(TextOf(ps), ms)
         == RedactAll(TextOf(ps[..|ps| - 1]), ms) + (ps[|ps| - 1].sep + RedactAll(ps[|ps| - 1].word, ms))
  {
    var front, last := TextOf(ps[..|ps| - 1]), ps[|ps| - 1];
    SepKept(last.sep, last.word, ms);
    if |ps| > 1 {
      RedactSplits(front, last.sep + last.word, ms);
    } else {
      assert front == "" && RedactAll("", ms) == "" by {
        EmptyKept(ms);
      }
      assert front + (last.sep + last.word) == last.sep + last.word;
    }
  }

  lemma {:induction false} EmptyKept(ms: seq<Marker>)
    ensures RedactAll("", ms) == ""
    decreases |ms|
  {
    if ms != [] {
      PassNone("", ms[0]);
      EmptyKept(ms[1..]);
    }
  }

  function WithoutStars(s: string): string {
    if s == "" then "" else (if s[0] == '*' then "" else [s[0]]) + WithoutStars(s[1..])
  }

  lemma {:induction false} WithoutStarsConcat(x: string, y: string)
    ensures WithoutStars(x + y) == WithoutStars(x) + WithoutStars(y)
  {
    if x == "" {
      assert x + y == y;
    } else {
      assert (x + y)[1..] == x[1..] + y;
      WithoutStarsConcat(x[1..], y);
    }
  }

  lemma {:induction false} StarsVanish(s: string)
    requires Stars(s)
    ensures WithoutStars(s) == ""
  {
    if s != "" {
      StarsVanish(s[1..]);
    }
  }

  /** The words are equal, or agree up to the end of their first complete marker. */
  ghost predicate DifferInSecret(w1: string, w2: string, ms: seq<Marker>) {
    w1 == w2
    || exists e: nat :: e <= |w1| && e <= |w2| && FirstMarkerEnd(w1, ms, e) && FirstMarkerEnd(w2, ms, e) && w1[..e] == w2[..e]
  }

  lemma WordsShowAlike(w1: string, w2: string, ms: seq<Marker>)
    requires AllToken(w1) && AllToken(w2) && DifferInSecret(w1, w2, ms)
    ensures WithoutStars(RedactAll(w1, ms)) == WithoutStars(RedactAll(w2, ms))
  {
    if w1 != w2 {
      var e: nat :| e <= |w1| && e <= |w2| && FirstMarkerEnd(w1, ms, e) && FirstMarkerEnd(w2, ms, e) && w1[..e] == w2[..e];
      SecretsDoNotShow(w1, w2, e, ms);
      HeadShows(RedactAll(w1, ms), RedactAll(w2, ms), e);
    }
  }

  lemma HeadShows(x: string, y: string, e: nat)
    requires e <= |x| && e <= |y| && x[..e] == y[..e] && Stars(x[e..] + y[e..])
    ensures WithoutStars(x) == WithoutStars(y)
  {
    assert forall i :: 0 <= i < |x[e..]| ==> x[e..][i] == (x[e..] + y[e..])[i];
    assert forall i :: 0 <= i < |y[e..]| ==> y[e..][i] == (x[e..] + y[e..])[|x[e..]| + i];
    StarsVanish(x[e..]);
    StarsVanish(y[e..]);
    WithoutStarsConcat(x[..e], x[e..]);
    WithoutStarsConcat(y[..e], y[e..]);
    assert x == x[..e] + x[e..] && y == y[..e] + y[e..];
  }

  /** The same separators, and words that differ in secrets only. */
  ghost predicate TextsDifferInSecrets(ps: seq<Part>, qs: seq<Part>, ms: seq<Marker>) {
    && |ps| == |qs|
    && forall i :: 0 <= i < |ps| ==> ps[i].sep == qs[i].sep && DifferInSecret(ps[i].word, qs[i].word, ms)
  }

  /** Texts that differ in secrets only are redacted to the same text, apart from the number of stars. */
  lemma {:induction false} SecretsDoNotShowInTexts(ps: seq<Part>, qs: seq<Part>, ms: seq<Marker>)
    requires Proper(ps) && Proper(qs) && TextsDifferInSecrets(ps, qs, ms)
    ensures WithoutStars(RedactAll(TextOf(ps), ms)) == WithoutStars(RedactAll(TextOf(qs), ms))
  {
    if ps != [] {
      var n := |ps| - 1;
      SecretsDoNotShowInTexts(ps[..n], qs[..n], ms);
      PartShows(ps, ms);
      PartShows(qs, ms);
      WordsShowAlike(ps[n].word, qs[n].word, ms);
    }
  }

  lemma PartShows(ps: seq<Part>, ms: seq<Marker>)
    requires Proper(ps) && ps != []
    ensures WithoutStars(RedactAll(TextOf(ps), ms))
         == WithoutStars(RedactAll(TextOf(ps[..|ps| - 1]), ms))
            + (WithoutStars(ps[|ps| - 1].sep) + WithoutStars(RedactAll(ps[|ps| - 1].word, ms)))
  {
    var last := ps[|ps| - 1];
    PartKept(ps, ms);
    WithoutStarsConcat(RedactAll(TextOf(ps[..|ps| - 1]), ms), last.sep + RedactAll(last.word, ms));
    WithoutStarsConcat(last.sep, RedactAll(last.word, ms));
  }

  // ---- One secret in a text ----

  /** A letter, a digit, a dash or an underscore, by its ASCII code. */
  predicate Secretive(c: char) {
    var n := c as int;
    97 <= n <= 122 || 65 <= n <= 90 || 48 <= n <= 57 || n == 45 || n == 95
  }

  predicate Announces(m: string) {
    m == "sk-" || m == "ghp_" || m == "github_pat_" || m == "xoxb-"
  }

  /** No marker stands inside another, and none is listed twice. */
  ghost predicate Apart(ms: seq<Marker>) {
    && (forall j, k, i :: 0 <= j < |ms| && 0 <= k < |ms| && OccursAt(ms[j], ms[k], i) ==> j == k)
  }

  lemma MarkerIs(m: string) returns (k: nat)
    requires Announces(m)
    ensures k < |MARKERS| && MARKERS[k] == m
  {
    k := if m == "sk-" then 0 else if m == "ghp_" then 1 else if m == "github_pat_" then 2 else 3;
  }

  lemma MarkersApart()
    ensures Apart(MARKERS)
  {
    forall j, k, i | 0 <= j < |MARKERS| && 0 <= k < |MARKERS| && OccursAt(MARKERS[j], MARKERS[k], i) ensures j == k {
      OccursChar(MARKERS[j], MARKERS[k], i, 0);
      OccursChar(MARKERS[j], MARKERS[k], i, 1);
    }
  }

  lemma FirstEndOf(ms: seq<Marker>, k: nat, t: string, e: int)
    requires Apart(ms) && k < |ms| && FirstMarkerEnd(ms[k] + t, ms, e)
    ensures e == |ms[k]|
  {
    assert OccursAt(ms[k] + t, ms[k], 0);
    var j, i :| 0 <= j < |ms| && OccursAt(ms[k] + t, ms[j], i) && i + |ms[j]| == e;
    OccursInHead(ms[k], t, ms[j], i);
  }

  /** A word that begins with a marker is left with that marker and stars. */
  lemma SecretCut(ms: seq<Marker>, k: nat, t: string)
    requires Apart(ms) && k < |ms| && AllToken(ms[k] + t)
    ensures exists stars :: IsCutToStars(ms[k] + t, ms, ms[k], stars)
  {
    var w := ms[k] + t;
    var out := RedactAll(w, ms);
    assert OccursAt(w, ms[k], 0);
    assert w + "" == w;
    WordIsCut(w, "", ms);
    var e :| CutTo(w, "", out, ms, e);
    FirstEndOf(ms, k, t, e);
    assert out == out[..e] + out[e..] && w[..e] == ms[k];
    assert IsCutToStars(w, ms, ms[k], out[e..]);
  }

  ghost predicate IsCutToStars(w: string, ms: seq<Marker>, m: string, stars: string) {
    Stars(stars) && |stars| >= 3 && RedactAll(w, ms) == m + stars
  }

  lemma CharApart(front: string, c: char, w: string, ms: seq<Marker>)
    requires !IsTokenChar(c)
    ensures RedactAll(front + [c] + w, ms) == RedactAll(front + [c], ms) + RedactAll(w, ms)
  {
    assert front + [c] + w == front + ([c] + w);
    RedactSplits(front, [c] + w, ms);
    CharKept(c, w, ms);
    RedactSplits(front, [c], ms);
    CharAlone(c, ms);
    Assoc(RedactAll(front, ms), [c], RedactAll(w, ms));
  }

  lemma CharAlone(c: char, ms: seq<Marker>)
    requires !IsTokenChar(c)
    ensures RedactAll([c], ms) == [c]
  {
    assert [c] + "" == [c];
    CharKept(c, "", ms);
    EmptyKept(ms);
  }

  /** Text on both sides of a word is redacted on its own. */
  lemma WordApart(x: string, w: string, y: string, ms: seq<Marker>)
    requires (x == "" || !IsTokenChar(x[|x| - 1])) && StartsApart(y)
    ensures RedactAll(x + w + y, ms) == RedactAll(x, ms) + RedactAll(w, ms) + RedactAll(y, ms)
  {
    RedactSplits(x + w, y, ms);
    if x == "" {
      EmptyKept(ms);
      assert x + w == w && "" + RedactAll(w, ms) == RedactAll(w, ms);
    } else {
      assert x == x[..|x| - 1] + [x[|x| - 1]];
      CharApart(x[..|x| - 1], x[|x| - 1], w, ms);
    }
  }

  /** x, the marker m, its token t and y, the token whole: nothing of it before, and nothing after. */
  predicate Stands(x: string, m: string, t: string, y: string) {
    && Announces(m) && (forall i :: 0 <= i < |t| ==> Secretive(t[i]))
    && (x == "" || !Secretive(x[|x| - 1])) && (y == "" || !Secretive(y[0]))
  }

  lemma StandsApart(x: string, m: string, t: string, y: string) returns (k: nat)
    requires Stands(x, m, t, y)
    ensures k < |MARKERS| && MARKERS[k] == m && AllToken(m + t)
    ensures RedactAll(x + (m + t) + y, MARKERS) == RedactAll(x, MARKERS) + RedactAll(m + t, MARKERS) + RedactAll(y, MARKERS)
  {
    k := MarkerIs(m);
    assert IsMarker(MARKERS[k]);
    WordApart(x, m + t, y, MARKERS);
  }

  /**
   * A word that begins with one of the four markers shows the marker and stars,
   * and none of the letters, digits, dashes and underscores after it; the text on
   * both sides is redacted as if the word were not there.
   */
  lemma SecretMasked(x: string, m: string, t: string, y: string)
    requires Stands(x, m, t, y)
    ensures exists stars :: Stars(stars) && |stars| >= 3
              && RedactAll(x + (m + t) + y, MARKERS) == RedactAll(x, MARKERS) + (m + stars) + RedactAll(y, MARKERS)
  {
    var k := StandsApart(x, m, t, y);
    MarkersApart();
    SecretCut(MARKERS, k, t);
    var stars :| IsCutToStars(m + t, MARKERS, m, stars);
  }

  lemma PassSole(m: Marker, t: string)
    requires AllToken(m + t)
    ensures Pass(m + t, m) == m + "***"
  {
    assert "" + m + t + "" == m + t;
    assert OccursAt(m + t, m, 0);
    assert forall i :: 0 <= i < |t| ==> t[i] == (m + t)[|m| + i];
    PassCut("", m, t, "");
    PassNone("", m);
    assert "" + m + "***" + "" == m + "***";
  }

  /** The only marker of a word is followed by exactly three stars. */
  lemma {:induction false} SoleCut(ms: seq<Marker>, k: nat, t: string)
    requires k < |ms| && AllToken(ms[k] + t)
    requires forall j :: 0 <= j < |ms| && j != k ==> !Contains(ms[k] + t, ms[j]) && !Contains(ms[k] + "***", ms[j])
    ensures RedactAll(ms[k] + t, ms) == ms[k] + "***"
    decreases |ms|
  {
    var rest := ms[1..];
    assert forall j :: 0 <= j < |rest| ==> rest[j] == ms[j + 1];
    if k == 0 {
      PassSole(ms[0], t);
      RedactStars(ms[0] + "***", rest);
    } else {
      PassNone(ms[k] + t, ms[0]);
      assert rest[k - 1] == ms[k];
      SoleCut(rest, k - 1, t);
    }
  }

  lemma StarsHoldNoMarker(ms: seq<Marker>, k: nat, j: nat)
    requires Apart(ms) && k < |ms| && j < |ms| && j != k
    ensures !Contains(ms[k] + "***", ms[j])
  {
    if i :| OccursAt(ms[k] + "***", ms[j], i) {
      OccursChar(ms[k] + "***", ms[j], i, |ms[j]| - 1);
      assert IsMarker(ms[j]);
      OccursInHead(ms[k], "***", ms[j], i);
    }
  }

  /** When the word holds no other marker, the token gives way to exactly three stars. */
  lemma SoleSecretMasked(x: string, m: string, t: string, y: string)
    requires Stands(x, m, t, y) && forall q :: Announces(q) && q != m ==> !Contains(m + t, q)
    ensures RedactAll(x + (m + t) + y, MARKERS) == RedactAll(x, MARKERS) + (m + "***") + RedactAll(y, MARKERS)
  {
    var k := StandsApart(x, m, t, y);
    MarkersApart();
    forall j | 0 <= j < |MARKERS| && j != k ensures !Contains(m + t, MARKERS[j]) && !Contains(m + "***", MARKERS[j]) {
      assert Announces(MARKERS[j]) && MARKERS[j] != m;
      StarsHoldNoMarker(MARKERS, k, j);
    }
    SoleCut(MARKERS, k, t);
  }
}
