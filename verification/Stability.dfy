// Which documents normalization leaves alone, and that it produces such
// documents: normalizing twice, or again in another workspace, changes nothing.
module Stability {
  import opened Wrappers
  import opened Text
  import opened Json
  import opened Placeholders
  import opened Canonicalize
  import opened TextStability

  /** No string value of v, nested documents included, mentions a path of c. */
  ghost predicate Avoids(k: Codec, c: Canonicalizer, v: Json)
    requires Lawful(k)
    decreases Longest(v), v
  {
    match v
    case Obj(m) => forall key | key in m :: LongestMember(v, key); Avoids(k, c, m[key])
    case Arr(xs) => forall i | 0 <= i < |xs| :: LongestItem(v, i); Avoids(k, c, xs[i])
    case Str(t) =>
      NestedIsSmaller(k, t);
      (match NestedDoc(k, t)
       case Some(w) => Avoids(k, c, w)
       case None => AvoidsText(c, t))
    case _ => true
  }

  /** Every document held in a string value is written the way Marshal writes it. */
  ghost predicate Compact(k: Codec, v: Json)
    requires Lawful(k)
    decreases Longest(v), v
  {
    match v
    case Obj(m) => forall key | key in m :: LongestMember(v, key); Compact(k, m[key])
    case Arr(xs) => forall i | 0 <= i < |xs| :: LongestItem(v, i); Compact(k, xs[i])
    case Str(t) =>
      NestedIsSmaller(k, t);
      (match NestedDoc(k, t)
       case Some(w) => t == k.marshal(w) && Compact(k, w)
       case None => true)
    case _ => true
  }

  /** Leaf text that holds no document still holds none once its paths are replaced. */
  ghost predicate Tame(k: Codec, c: Canonicalizer, v: Json)
    requires Lawful(k)
    decreases Longest(v), v
  {
    match v
    case Obj(m) => forall key | key in m :: LongestMember(v, key); Tame(k, c, m[key])
    case Arr(xs) => forall i | 0 <= i < |xs| :: LongestItem(v, i); Tame(k, c, xs[i])
    case Str(t) =>
      NestedIsSmaller(k, t);
      (match NestedDoc(k, t)
       case Some(w) => Tame(k, c, w)
       case None => NestedDoc(k, NormalizeString(c, t)).None?)
    case _ => true
  }

  /** The documents normalization in c leaves alone. */
  ghost predicate InNormalForm(k: Codec, c: Canonicalizer, v: Json)
    requires Lawful(k)
  {
    Compact(k, v) && Avoids(k, c, v)
  }

  /** Normalization nests containers as deep as they were. */
  lemma {:induction false} NormalizeKeepsNesting(k: Codec, c: Canonicalizer, v: Json, n: nat)
    requires Lawful(k)
    ensures Within(NormalizeValue(k, c, v), n) <==> Within(v, n)
    decreases v
  {
    var r := NormalizeValue(k, c, v);
    match v
    case Obj(m) =>
      forall key | key in m && n > 0 ensures Within(r.members[key], n - 1) <==> Within(m[key], n - 1) {
        NormalizeKeepsNesting(k, c, m[key], n - 1);
      }
    case Arr(xs) =>
      forall i | 0 <= i < |xs| && n > 0 ensures Within(r.items[i], n - 1) <==> Within(xs[i], n - 1) {
        NormalizeKeepsNesting(k, c, xs[i], n - 1);
      }
    case _ =>
  }

  lemma NormalizeKeepsReadable(k: Codec, c: Canonicalizer, v: Json)
    requires Lawful(k)
    ensures Readable(NormalizeValue(k, c, v)) <==> Readable(v)
  {
    NormalizeKeepsNesting(k, c, v, MAX_NESTING);
  }

  lemma NestedReadable(k: Codec, t: string)
    requires Lawful(k) && NestedDoc(k, t).Some?
    ensures Readable(NestedDoc(k, t).value)
  {
    LawDecodes(k, TrimSpace(t));
  }

  /** A marshalled container read back as a nested document is the container. */
  lemma NestedMarshal(k: Codec, w: Json)
    requires Lawful(k) && (w.Obj? || w.Arr?) && Readable(w)
    ensures NestedDoc(k, k.marshal(w)) == Some(w)
  {
    var t := k.marshal(w);
    LawFramed(k, w);
    LawRoundTrip(k, w);
    assert TrimSpace(t) == t;
    assert "{" <= t || "[" <= t;
  }

  lemma ObjectInNormalForm(k: Codec, c: Canonicalizer, v: Json)
    requires Lawful(k) && v.Obj?
    ensures InNormalForm(k, c, v) <==> forall key :: key in v.members ==> InNormalForm(k, c, v.members[key])
  {
  }

  lemma ArrayInNormalForm(k: Codec, c: Canonicalizer, v: Json)
    requires Lawful(k) && v.Arr?
    ensures InNormalForm(k, c, v) <==> forall i :: 0 <= i < |v.items| ==> InNormalForm(k, c, v.items[i])
  {
  }

  lemma ObjectFixed(k: Codec, c: Canonicalizer, v: Json)
    requires Lawful(k) && v.Obj?
    ensures NormalizeValue(k, c, v) == v
            <==> forall key :: key in v.members ==> NormalizeValue(k, c, v.members[key]) == v.members[key]
  {
    var r := NormalizeValue(k, c, v);
    assert r.members.Keys == v.members.Keys;
    assert r.members == v.members <==> forall key :: key in v.members ==> r.members[key] == v.members[key];
  }

  lemma ArrayFixed(k: Codec, c: Canonicalizer, v: Json)
    requires Lawful(k) && v.Arr?
    ensures NormalizeValue(k, c, v) == v
            <==> forall i :: 0 <= i < |v.items| ==> NormalizeValue(k, c, v.items[i]) == v.items[i]
  {
    var r := NormalizeValue(k, c, v);
    assert r.items == v.items <==> forall i :: 0 <= i < |v.items| ==> r.items[i] == v.items[i];
  }

  lemma NestedFixed(k: Codec, c: Canonicalizer, t: string, w: Json)
    requires Lawful(k) && NestedDoc(k, t) == Some(w)
    requires NormalizeValue(k, c, w) == w <==> InNormalForm(k, c, w)
    ensures NormalizeValue(k, c, Str(t)) == Str(t) <==> InNormalForm(k, c, Str(t))
  {
    NestedReadable(k, t);
    NormalizeKeepsReadable(k, c, w);
    NestedMarshal(k, NormalizeValue(k, c, w));
  }

  /**
   * Normalization in c leaves a document alone exactly when the document is in
   * normal form for c. With v itself a normalized document, this is the exact
   * condition for normalizing twice, or again elsewhere, to change nothing.
   */
  lemma {:induction false} FixedIffNormal(k: Codec, c: Canonicalizer, v: Json)
    requires Lawful(k) && DollarFree(c)
    ensures NormalizeValue(k, c, v) == v <==> InNormalForm(k, c, v)
    decreases Longest(v), v
  {
    match v
    case Obj(m) =>
      forall key | key in m
        ensures NormalizeValue(k, c, m[key]) == m[key] <==> InNormalForm(k, c, m[key])
      {
        LongestMember(v, key);
        FixedIffNormal(k, c, m[key]);
      }
      ObjectFixed(k, c, v);
      ObjectInNormalForm(k, c, v);
    case Arr(xs) =>
      forall i | 0 <= i < |xs|
        ensures NormalizeValue(k, c, xs[i]) == xs[i] <==> InNormalForm(k, c, xs[i])
      {
        LongestItem(v, i);
        FixedIffNormal(k, c, xs[i]);
      }
      ArrayFixed(k, c, v);
      ArrayInNormalForm(k, c, v);
    case Str(t) =>
      NestedIsSmaller(k, t);
      match NestedDoc(k, t) {
        case None => StringFixedIffAvoided(c, t);
        case Some(w) =>
          FixedIffNormal(k, c, w);
          NestedFixed(k, c, t, w);
      }
    case _ =>
  }

  /** Normalization produces normal forms. */
  lemma {:induction false} NormalizeReachesNormal(k: Codec, c: Canonicalizer, v: Json)
    requires Lawful(k) && Safe(c) && Tame(k, c, v)
    ensures InNormalForm(k, c, NormalizeValue(k, c, v))
    decreases Longest(v), v
  {
    var r := NormalizeValue(k, c, v);
    match v
    case Obj(m) =>
      forall key | key in m ensures InNormalForm(k, c, r.members[key]) {
        LongestMember(v, key);
        NormalizeReachesNormal(k, c, m[key]);
      }
    case Arr(xs) =>
      forall i | 0 <= i < |xs| ensures InNormalForm(k, c, r.items[i]) {
        LongestItem(v, i);
        NormalizeReachesNormal(k, c, xs[i]);
      }
    case Str(t) =>
      NestedIsSmaller(k, t);
      match NestedDoc(k, t) {
        case None => StringReachesNormal(c, t);
        case Some(w) =>
          NormalizeReachesNormal(k, c, w);
          NestedReadable(k, t);
          NormalizeKeepsReadable(k, c, w);
          NestedMarshal(k, NormalizeValue(k, c, w));
      }
    case _ =>
  }

  /**
   * Cross-workspace stability: a normalized document is left alone by its own
   * canonicalizer and by every other one whose paths it does not mention.
   */
  lemma CrossRootStable(k: Codec, c: Canonicalizer, c': Canonicalizer, v: Json)
    requires Lawful(k) && Safe(c) && DollarFree(c') && Tame(k, c, v)
    requires Avoids(k, c', NormalizeValue(k, c, v))
    ensures NormalizeValue(k, c, NormalizeValue(k, c, v)) == NormalizeValue(k, c, v)
    ensures NormalizeValue(k, c', NormalizeValue(k, c, v)) == NormalizeValue(k, c, v)
  {
    NormalizeReachesNormal(k, c, v);
    FixedIffNormal(k, c, NormalizeValue(k, c, v));
    FixedIffNormal(k, c', NormalizeValue(k, c, v));
  }

  /** Text that mentions no path is left alone, $ or not. */
  lemma AvoidedTextKept(c: Canonicalizer, t: string)
    requires AvoidsText(c, t)
    ensures NormalizeString(c, t) == t
  {
    if c.root != "" {
      assert c.root in c.Paths() && c.Flipped() in c.Paths();
      ReplaceNothing(t, c.root, WORKSPACE);
      ReplaceNothing(t, c.Flipped(), WORKSPACE);
    }
    if c.tmp != "" {
      assert c.tmp in c.Paths();
      ReplaceNothing(t, c.tmp, TMP);
    }
  }

  /** Two workspaces normalize alike every document that mentions neither. */
  lemma {:induction false} PathFreeAgree(k: Codec, c: Canonicalizer, c': Canonicalizer, v: Json)
    requires Lawful(k) && Avoids(k, c, v) && Avoids(k, c', v)
    ensures NormalizeValue(k, c, v) == NormalizeValue(k, c', v)
    decreases Longest(v), v
  {
    match v
    case Obj(m) =>
      forall key | key in m ensures NormalizeValue(k, c, m[key]) == NormalizeValue(k, c', m[key]) {
        LongestMember(v, key);
        PathFreeAgree(k, c, c', m[key]);
      }
    case Arr(xs) =>
      forall i | 0 <= i < |xs| ensures NormalizeValue(k, c, xs[i]) == NormalizeValue(k, c', xs[i]) {
        LongestItem(v, i);
        PathFreeAgree(k, c, c', xs[i]);
      }
    case Str(t) =>
      NestedIsSmaller(k, t);
      match NestedDoc(k, t) {
        case None => AvoidedTextKept(c, t); AvoidedTextKept(c', t);
        case Some(w) => PathFreeAgree(k, c, c', w);
      }
    case _ =>
  }
}
