// Documents that differ only in the workspace they were produced in: one
// template, filled with the paths of two workspaces, normalizes to one document.
module Relocation {
  import opened Wrappers
  import opened Text
  import opened Json
  import opened Placeholders
  import opened Canonicalize

  /** A piece of templated text: a fixed character, or a hole for a path. */
  datatype Piece = Fixed(c: char) | RootHole | FlippedHole | TmpHole

  /** What stands in the holes. */
  datatype Filling = Filling(root: string, flipped: string, tmp: string)

  const PLACEHOLDERS := Filling(WORKSPACE, WORKSPACE, TMP)

  function PathsOf(c: Canonicalizer): Filling {
    Filling(c.root, c.Flipped(), c.tmp)
  }

  function PieceText(p: Piece, f: Filling): string {
    match p
    case Fixed(c) => [c]
    case RootHole => f.root
    case FlippedHole => f.flipped
    case TmpHole => f.tmp
  }

  function Fill(ps: seq<Piece>, f: Filling): string {
    if ps == [] then "" else PieceText(ps[0], f) + Fill(ps[1..], f)
  }

  /** Every place where pat can match in the filled text is a hole holding pat. */
  ghost predicate OnlyInHoles(ps: seq<Piece>, f: Filling, pat: string) {
    ps == [] ||
    (var piece, rest := PieceText(ps[0], f), Fill(ps[1..], f);
     && ((!ps[0].Fixed? && piece == pat)
         || forall i :: 0 <= i < |piece| ==> !OccursAt(piece + rest, pat, i))
     && OnlyInHoles(ps[1..], f, pat))
  }

  function Replaced(f: Filling, pat: string, sub: string): Filling {
    Filling(
      if f.root == pat then sub else f.root,
      if f.flipped == pat then sub else f.flipped,
      if f.tmp == pat then sub else f.tmp)
  }

  /** A pass over filled text that matches only in holes refills those holes. */
  lemma {:induction false} PassRefills(ps: seq<Piece>, f: Filling, pat: string, sub: string)
    requires pat != "" && OnlyInHoles(ps, f, pat)
    ensures ReplaceAll(Fill(ps, f), pat, sub) == Fill(ps, Replaced(f, pat, sub))
  {
    if ps != [] {
      var piece, rest := PieceText(ps[0], f), Fill(ps[1..], f);
      PassRefills(ps[1..], f, pat, sub);
      if !ps[0].Fixed? && piece == pat {
        ReplaceLeading(rest, pat, sub);
      } else {
        ReplaceSkips(piece, rest, pat, sub);
        if ps[0].Fixed? && piece == pat {
          PrefixOccurs(piece + rest, pat);
          assert false;
        }
      }
    }
  }

  /** The hole kinds a template uses belong to paths the canonicalizer has. */
  predicate HolesServed(c: Canonicalizer, ps: seq<Piece>) {
    && (RootHole in ps || FlippedHole in ps ==> c.root != "")
    && (TmpHole in ps ==> c.tmp != "")
  }

  function FillingAfterRoot(c: Canonicalizer): Filling {
    if c.root != "" then Replaced(PathsOf(c), c.root, WORKSPACE) else PathsOf(c)
  }

  function FillingAfterFlipped(c: Canonicalizer): Filling {
    if c.root != "" && c.Flipped() != c.root
    then Replaced(FillingAfterRoot(c), c.Flipped(), WORKSPACE)
    else FillingAfterRoot(c)
  }

  function FillingAfterTmp(c: Canonicalizer): Filling {
    if c.tmp != "" then Replaced(FillingAfterFlipped(c), c.tmp, TMP) else FillingAfterFlipped(c)
  }

  /** In the text filled for c, each of the three passes meets its path in holes only. */
  ghost predicate PathsOnlyInHoles(c: Canonicalizer, ps: seq<Piece>) {
    && HolesServed(c, ps)
    && (c.tmp != "" ==> c.tmp != c.root && c.tmp != c.Flipped() && c.tmp != WORKSPACE)
    && (c.root != "" ==> OnlyInHoles(ps, PathsOf(c), c.root))
    && (c.root != "" && c.Flipped() != c.root ==> OnlyInHoles(ps, FillingAfterRoot(c), c.Flipped()))
    && (c.tmp != "" ==> OnlyInHoles(ps, FillingAfterFlipped(c), c.tmp))
  }

  // ---- Conditions on the original text alone ----

  lemma StartsAtDollar(x: string, sub: string, rest: string)
    requires IsPlaceholder(sub) && x != "" && x <= sub + rest
    ensures '$' in x
  {
    assert x[0] == (sub + rest)[0];
  }

  /** $-free text at the start of a refilled text stood there before. */
  lemma {:induction false} RefilledPrefix(x: string, ps: seq<Piece>, f: Filling, pat: string, sub: string)
    requires IsPlaceholder(sub) && '$' !in x && x <= Fill(ps, Replaced(f, pat, sub))
    ensures x <= Fill(ps, f)
  {
    if ps != [] && x != "" {
      var piece, piece' := PieceText(ps[0], f), PieceText(ps[0], Replaced(f, pat, sub));
      var rest, rest' := Fill(ps[1..], f), Fill(ps[1..], Replaced(f, pat, sub));
      if piece' != piece {
        StartsAtDollar(x, sub, rest');
      } else if |x| <= |piece| {
        assert x == (piece + rest')[..|x|] == piece[..|x|] == (piece + rest)[..|x|];
      } else {
        var y := x[|piece|..];
        assert y == (piece + rest')[..|x|][|piece|..] == rest'[..|x| - |piece|];
        RefilledPrefix(y, ps[1..], f, pat, sub);
        assert x == piece + y;
      }
    }
  }

  /** A text that met only holes still does once another path's holes hold its placeholder. */
  lemma {:induction false} HolesSurvive(ps: seq<Piece>, f: Filling, pat: string, sub: string, q: string)
    requires q != pat && '$' !in q && IsPlaceholder(sub) && Separate(q, sub) && OnlyInHoles(ps, f, q)
    ensures OnlyInHoles(ps, Replaced(f, pat, sub), q)
  {
    if ps != [] {
      var f' := Replaced(f, pat, sub);
      var piece, piece' := PieceText(ps[0], f), PieceText(ps[0], f');
      var rest, rest' := Fill(ps[1..], f), Fill(ps[1..], f');
      HolesSurvive(ps[1..], f, pat, sub, q);
      if piece' != piece {
        forall i | 0 <= i < |piece'| ensures !OccursAt(piece' + rest', q, i) {
          SpanFromPlaceholder(sub, rest', q, i);
        }
      } else if ps[0].Fixed? || piece != q {
        forall i | 0 <= i < |piece| ensures !OccursAt(piece + rest', q, i) {
          if OccursAt(piece + rest', q, i) {
            RefilledOccurrence(piece, ps[1..], f, pat, sub, q, i);
          }
        }
      }
    }
  }

  lemma RefilledOccurrence(piece: string, ps: seq<Piece>, f: Filling, pat: string, sub: string, q: string, i: int)
    requires '$' !in q && IsPlaceholder(sub) && 0 <= i < |piece|
    requires OccursAt(piece + Fill(ps, Replaced(f, pat, sub)), q, i)
    ensures OccursAt(piece + Fill(ps, f), q, i)
  {
    var rest, rest' := Fill(ps, f), Fill(ps, Replaced(f, pat, sub));
    if i + |q| <= |piece| {
      OccursInHead(piece, rest', q, i);
      OccursInHead(piece, rest, q, i);
    } else {
      AcrossTheEdge(piece, rest', q, i);
      var over := q[|piece| - i..];
      assert '$' !in over;
      RefilledPrefix(over, ps, f, pat, sub);
      assert rest == over + rest[|over|..];
      assert (piece + rest)[i..i + |q|] == piece[i..] + over == q;
    }
  }

  /** The text filled for c has each path of c in its holes only. */
  ghost predicate PathsInHoles(c: Canonicalizer, ps: seq<Piece>) {
    forall p :: p in c.Paths() ==> OnlyInHoles(ps, PathsOf(c), p)
  }

  /** A temp directory that is no root, and paths that cannot stand partly in $WORKSPACE. */
  ghost predicate PathsApart(c: Canonicalizer) {
    && (forall p :: p in c.Paths() ==> '$' !in p)
    && (c.root != "" && c.Flipped() != c.root ==> Separate(c.Flipped(), WORKSPACE))
    && (c.tmp != "" && c.root != "" ==> c.tmp != c.root && c.tmp != c.Flipped() && Separate(c.tmp, WORKSPACE))
  }

  /** What the later passes meet follows from the filled text and from the paths being apart. */
  lemma InHolesThroughout(c: Canonicalizer, ps: seq<Piece>)
    requires HolesServed(c, ps) && PathsInHoles(c, ps) && PathsApart(c)
    ensures PathsOnlyInHoles(c, ps)
  {
    if c.root != "" {
      assert c.root in c.Paths() && c.Flipped() in c.Paths();
      if c.Flipped() != c.root {
        HolesSurvive(ps, PathsOf(c), c.root, WORKSPACE, c.Flipped());
      }
    }
    if c.tmp != "" {
      assert c.tmp in c.Paths();
      if c.root != "" {
        HolesSurvive(ps, PathsOf(c), c.root, WORKSPACE, c.tmp);
        if c.Flipped() != c.root {
          HolesSurvive(ps, FillingAfterRoot(c), c.Flipped(), WORKSPACE, c.tmp);
        }
      }
    }
  }

  lemma {:induction false} UnusedHolesIrrelevant(ps: seq<Piece>, f: Filling, f': Filling)
    requires RootHole in ps ==> f.root == f'.root
    requires FlippedHole in ps ==> f.flipped == f'.flipped
    requires TmpHole in ps ==> f.tmp == f'.tmp
    ensures Fill(ps, f) == Fill(ps, f')
  {
    if ps != [] {
      assert ps[0] in ps;
      assert forall p :: p in ps[1..] ==> p in ps;
      UnusedHolesIrrelevant(ps[1..], f, f');
    }
  }

  /** Filled text normalizes to the template with placeholders in its holes. */
  lemma {:induction false} TextRelocates(c: Canonicalizer, ps: seq<Piece>)
    requires PathsOnlyInHoles(c, ps)
    ensures NormalizeString(c, Fill(ps, PathsOf(c))) == Fill(ps, PLACEHOLDERS)
  {
    var t := Fill(ps, PathsOf(c));
    var t1 := AfterRoot(c, t);
    if c.root != "" {
      PassRefills(ps, PathsOf(c), c.root, WORKSPACE);
    }
    assert t1 == Fill(ps, FillingAfterRoot(c));
    var t2 := AfterFlipped(c, t1);
    if c.root != "" && c.Flipped() != c.root {
      PassRefills(ps, FillingAfterRoot(c), c.Flipped(), WORKSPACE);
    }
    assert t2 == Fill(ps, FillingAfterFlipped(c));
    if c.tmp != "" {
      PassRefills(ps, FillingAfterFlipped(c), c.tmp, TMP);
    }
    UnusedHolesIrrelevant(ps, FillingAfterTmp(c), PLACEHOLDERS);
  }

  /** A document with holes for paths, also inside documents held in strings. */
  datatype Template =
    | Atom(v: Json)
    | Text(pieces: seq<Piece>)
    | Nested(inner: Template)
    | Items(items: seq<Template>)
    | Members(members: map<string, Template>)

  /** v is the template filled in the workspace of c. */
  ghost predicate Instance(k: Codec, c: Canonicalizer, t: Template, v: Json)
    requires Lawful(k)
    decreases t
  {
    match t
    case Atom(a) => v == a && !a.Str? && !a.Arr? && !a.Obj?
    case Text(ps) =>
      && v == Str(Fill(ps, PathsOf(c)))
      && PathsOnlyInHoles(c, ps)
      && NestedDoc(k, v.text).None?
    case Nested(inner) =>
      && v.Str?
      && NestedDoc(k, v.text).Some?
      && Instance(k, c, inner, NestedDoc(k, v.text).value)
    case Items(ts) =>
      && v.Arr?
      && |v.items| == |ts|
      && forall i | 0 <= i < |ts| :: Instance(k, c, ts[i], v.items[i])
    case Members(ms) =>
      && v.Obj?
      && v.members.Keys == ms.Keys
      && forall key | key in ms :: Instance(k, c, ms[key], v.members[key])
  }

  /** The template with placeholders in its holes. */
  function Canonical(k: Codec, t: Template): Json {
    match t
    case Atom(a) => a
    case Text(ps) => Str(Fill(ps, PLACEHOLDERS))
    case Nested(inner) => Str(k.marshal(Canonical(k, inner)))
    case Items(ts) => Arr(seq(|ts|, i requires 0 <= i < |ts| => Canonical(k, ts[i])))
    case Members(ms) => Obj(map key | key in ms :: Canonical(k, ms[key]))
  }

  lemma ItemsNormalize(k: Codec, c: Canonicalizer, t: Template, v: Json)
    requires Lawful(k) && t.Items? && v.Arr? && |v.items| == |t.items|
    requires forall i :: 0 <= i < |t.items| ==> NormalizeValue(k, c, v.items[i]) == Canonical(k, t.items[i])
    ensures NormalizeValue(k, c, v) == Canonical(k, t)
  {
    assert NormalizeValue(k, c, v).items == Canonical(k, t).items;
  }

  lemma MembersNormalize(k: Codec, c: Canonicalizer, t: Template, v: Json)
    requires Lawful(k) && t.Members? && v.Obj? && v.members.Keys == t.members.Keys
    requires forall key :: key in t.members
                           ==> NormalizeValue(k, c, v.members[key]) == Canonical(k, t.members[key])
    ensures NormalizeValue(k, c, v) == Canonical(k, t)
  {
    assert NormalizeValue(k, c, v).members == Canonical(k, t).members;
  }

  /** Every instance of a template normalizes to its canonical document. */
  lemma {:induction false} InstanceNormalizes(k: Codec, c: Canonicalizer, t: Template, v: Json)
    requires Lawful(k) && Instance(k, c, t, v)
    ensures NormalizeValue(k, c, v) == Canonical(k, t)
    decreases t
  {
    match t
    case Atom(_) =>
    case Text(ps) => TextRelocates(c, ps);
    case Nested(inner) => InstanceNormalizes(k, c, inner, NestedDoc(k, v.text).value);
    case Items(ts) =>
      forall i | 0 <= i < |ts| ensures NormalizeValue(k, c, v.items[i]) == Canonical(k, ts[i]) {
        InstanceNormalizes(k, c, ts[i], v.items[i]);
      }
      ItemsNormalize(k, c, t, v);
    case Members(ms) =>
      forall key | key in ms ensures NormalizeValue(k, c, v.members[key]) == Canonical(k, ms[key]) {
        InstanceNormalizes(k, c, ms[key], v.members[key]);
      }
      MembersNormalize(k, c, t, v);
  }

  /**
   * Relocation: two texts that decode to one template filled in two workspaces,
   * in whatever key order and layout, normalize to the same text.
   */
  lemma {:induction false} Relocates(k: Codec, c: Canonicalizer, c': Canonicalizer, t: Template,
                  data: string, data': string)
    requires Lawful(k)
    requires k.parse(data).Some? && Instance(k, c, t, k.parse(data).value)
    requires k.parse(data').Some? && Instance(k, c', t, k.parse(data').value)
    ensures Normalize(k, c, data) == Normalize(k, c', data') == k.marshal(Canonical(k, t))
  {
    InstanceNormalizes(k, c, t, k.parse(data).value);
    InstanceNormalizes(k, c', t, k.parse(data').value);
  }

  /** The same for text that is not JSON. */
  lemma PlainTextRelocates(k: Codec, c: Canonicalizer, c': Canonicalizer, ps: seq<Piece>)
    requires Lawful(k) && PathsOnlyInHoles(c, ps) && PathsOnlyInHoles(c', ps)
    requires k.parse(Fill(ps, PathsOf(c))).None? && k.parse(Fill(ps, PathsOf(c'))).None?
    ensures Normalize(k, c, Fill(ps, PathsOf(c))) == Normalize(k, c', Fill(ps, PathsOf(c')))
  {
    TextRelocates(c, ps);
    TextRelocates(c', ps);
  }
}
