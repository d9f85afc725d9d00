// internal/replay/canonicalize.go: rewriting documents so that absolute
// workspace and temp paths do not reach the replay hash.
module Canonicalize {
  import opened Wrappers
  import opened Text
  import opened Json
  import opened Placeholders

  const WORKSPACE := "$WORKSPACE"
  const TMP := "$TMP"

  lemma {:induction false} FlipKeepsLength(s: string)
    ensures |ReplaceAll(s, "\\", "/")| == |s|
  {
    if s != "" {
      FlipKeepsLength(s[1..]);
    }
  }

  datatype Canonicalizer = Canonicalizer(root: string, tmp: string) {
    /** The slash-flipped form of the workspace root. */
    function Flipped(): (r: string)
      ensures |r| == |root|
    {
      FlipKeepsLength(root);
      ReplaceAll(root, "\\", "/")
    }

    /** The texts this canonicalizer rewrites, in no particular order. */
    function Paths(): set<string> {
      (if root != "" then {root, Flipped()} else {}) + (if tmp != "" then {tmp} else {})
    }
  }

  function AfterRoot(c: Canonicalizer, s: string): string {
    if c.root != "" then ReplaceAll(s, c.root, WORKSPACE) else s
  }

  function AfterFlipped(c: Canonicalizer, s: string): string {
    if c.root != "" && c.Flipped() != c.root
    then ReplaceAll(s, c.Flipped(), WORKSPACE)
    else s
  }

  function AfterTmp(c: Canonicalizer, s: string): string {
    if c.tmp != "" then ReplaceAll(s, c.tmp, TMP) else s
  }

  function NormalizeString(c: Canonicalizer, s: string): string {
    AfterTmp(c, AfterFlipped(c, AfterRoot(c, s)))
  }

  /** Unicode White_Space, as strings.TrimSpace cuts it. */
  predicate IsSpace(c: char) {
    || '\t' <= c <= '\r' || c == ' ' || c == '\U{0085}' || c == '\U{00A0}'
    || c == '\U{1680}' || '\U{2000}' <= c <= '\U{200A}' || c == '\U{2028}'
    || c == '\U{2029}' || c == '\U{202F}' || c == '\U{205F}' || c == '\U{3000}'
  }

  function TrimSpace(t: string): (r: string)
    ensures |r| <= |t|
    ensures r != "" ==> !IsSpace(r[0]) && !IsSpace(r[|r| - 1])
    ensures t != "" && !IsSpace(t[0]) && !IsSpace(t[|t| - 1]) ==> r == t
  {
    if t == "" then ""
    else if IsSpace(t[0]) then TrimSpace(t[1..])
    else if IsSpace(t[|t| - 1]) then TrimSpace(t[..|t| - 1])
    else t
  }

  /** The document a string value holds, when it looks like an object or array. */
  function NestedDoc(k: Codec, t: string): Option<Json> {
    var trimmed := TrimSpace(t);
    if "{" <= trimmed || "[" <= trimmed then k.parse(trimmed) else None
  }

  /** A held document is a container, and its string values are shorter than its text. */
  lemma NestedIsSmaller(k: Codec, t: string)
    requires Lawful(k)
    ensures NestedDoc(k, t).Some? ==>
              var w := NestedDoc(k, t).value;
              Longest(w) < |t| && (w.Obj? || w.Arr?)
  {
    assert |TrimSpace(t)| <= |t|;
    assert NestedDoc(k, t).Some? ==> NestedDoc(k, t) == k.parse(TrimSpace(t));
    LawShortens(k, TrimSpace(t));
    LawDecodes(k, TrimSpace(t));
  }

  function NormalizeValue(k: Codec, c: Canonicalizer, v: Json): (r: Json)
    requires Lawful(k)
    ensures v.Obj? ==> r.Obj?
    ensures v.Arr? ==> r.Arr?
    decreases Longest(v), 1, v
  {
    match v
    case Obj(m) =>
      Obj(map key | key in m :: LongestMember(v, key); NormalizeValue(k, c, m[key]))
    case Arr(xs) =>
      Arr(seq(|xs|, i requires 0 <= i < |xs| => LongestItem(v, i); NormalizeValue(k, c, xs[i])))
    case Str(t) =>
      var nested := NormalizeNestedJson(k, c, t);
      if nested != "" then Str(nested) else Str(NormalizeString(c, t))
    case _ => v
  }

  function NormalizeNestedJson(k: Codec, c: Canonicalizer, t: string): string
    requires Lawful(k)
    decreases |t|, 0
  {
    NestedIsSmaller(k, t);
    match NestedDoc(k, t)
    case None => ""
    case Some(w) => k.marshal(NormalizeValue(k, c, w))
  }

  /** Normalize on a document's text; text that is not JSON is rewritten as a string. */
  function Normalize(k: Codec, c: Canonicalizer, data: string): string
    requires Lawful(k)
  {
    match k.parse(data)
    case None => NormalizeString(c, data)
    case Some(v) => k.marshal(NormalizeValue(k, c, v))
  }
}
