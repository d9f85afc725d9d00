// JSON documents as the values encoding/json decodes into, and the laws that
// the repository relies on when it decodes and re-encodes them: round trips,
// framing and measures.
module Json {
  import opened Wrappers

  /** A finite float64, by its bits: any sign, and an exponent field that is not all ones. */
  type Float64 = n: nat | n < 0x7FF0000000000000 || 0x8000000000000000 <= n < 0xFFF0000000000000

  /** A decoded document. */
  datatype Json =
    | Null
    | Bool(b: bool)
    | Num(value: Float64)
    | Str(text: string)
    | Arr(items: seq<Json>)
    | Obj(members: map<string, Json>)

  ghost function MaxOf(s: set<nat>): (r: nat)
    ensures forall x :: x in s ==> x <= r
    ensures s != {} ==> r in s
  {
    if s == {} then 0
    else
      var x :| x in s;
      var y := MaxOf(s - {x});
      assert s == (s - {x}) + {x};
      if x > y then x else y
  }

  /** The length of the longest string value in a document, keys aside. */
  ghost function Longest(v: Json): nat {
    match v
    case Str(t) => |t|
    case Arr(xs) => MaxOf(set i | 0 <= i < |xs| :: Longest(xs[i]))
    case Obj(m) => MaxOf(set key | key in m :: Longest(m[key]))
    case _ => 0
  }

  lemma LongestItem(v: Json, i: nat)
    requires v.Arr? && i < |v.items|
    ensures Longest(v.items[i]) <= Longest(v)
  {
    var xs := v.items;
    var lengths := set j | 0 <= j < |xs| :: Longest(xs[j]);
    assert Longest(xs[i]) in lengths;
    assert Longest(v) == MaxOf(lengths);
  }

  lemma LongestMember(v: Json, key: string)
    requires v.Obj? && key in v.members
    ensures Longest(v.members[key]) <= Longest(v)
  {
    var m := v.members;
    var lengths := set x | x in m :: Longest(m[x]);
    assert Longest(m[key]) in lengths;
    assert Longest(v) == MaxOf(lengths);
  }

  /** How deep containers may be nested in text that encoding/json decodes. */
  const MAX_NESTING := 10000

  /** Containers of v are nested at most n deep. */
  ghost predicate Within(v: Json, n: nat)
    decreases v
  {
    match v
    case Obj(m) => n > 0 && forall key | key in m :: Within(m[key], n - 1)
    case Arr(xs) => n > 0 && forall i | 0 <= i < |xs| :: Within(xs[i], n - 1)
    case _ => true
  }

  /** encoding/json can read v back. */
  ghost predicate Readable(v: Json) {
    Within(v, MAX_NESTING)
  }

  /** encoding/json: Unmarshal into an any, and Marshal. */
  datatype Codec = Codec(parse: string -> Option<Json>, marshal: Json -> string)

  predicate Framed(t: string, open: char, close: char) {
    |t| >= 2 && t[0] == open && t[|t| - 1] == close
  }

  /**
   * What the repository uses of encoding/json: encoded documents decode to
   * themselves unless nested too deep, no deeper ones are decoded, containers are
   * framed by their brackets, and a string value is always shorter than the text
   * it was decoded from.
   */
  ghost predicate Lawful(k: Codec) {
    && (forall v {:trigger Readable(v)} :: Readable(v) ==> k.parse(k.marshal(v)) == Some(v))
    && (forall v :: k.marshal(v) != "")
    && (forall v: Json {:trigger Framed(k.marshal(v), '{', '}')} :: v.Obj? ==> Framed(k.marshal(v), '{', '}'))
    && (forall v: Json {:trigger Framed(k.marshal(v), '[', ']')} :: v.Arr? ==> Framed(k.marshal(v), '[', ']'))
    && (forall t {:trigger Longest(k.parse(t).value)} :: k.parse(t).Some? ==> Longest(k.parse(t).value) < |t|)
    && (forall t {:trigger Readable(k.parse(t).value)} :: k.parse(t).Some? ==> Readable(k.parse(t).value))
    && (forall t {:trigger Readable(k.parse(t).value)} :: k.parse(t).Some? && "{" <= t ==> k.parse(t).value.Obj?)
    && (forall t {:trigger Readable(k.parse(t).value)} :: k.parse(t).Some? && "[" <= t ==> k.parse(t).value.Arr?)
  }

  /** What a codec decodes is not nested too deep, and is the container its text opens. */
  lemma LawDecodes(k: Codec, t: string)
    requires Lawful(k)
    ensures k.parse(t).Some? ==>
              var w := k.parse(t).value;
              Readable(w) && ("{" <= t ==> w.Obj?) && ("[" <= t ==> w.Arr?)
  {
    assert k.parse(t).Some? ==> Readable(k.parse(t).value);
  }

  lemma LawRoundTrip(k: Codec, v: Json)
    requires Lawful(k) && Readable(v)
    ensures k.parse(k.marshal(v)) == Some(v)
  {
  }

  lemma LawFramed(k: Codec, v: Json)
    requires Lawful(k)
    ensures v.Obj? ==> Framed(k.marshal(v), '{', '}')
    ensures v.Arr? ==> Framed(k.marshal(v), '[', ']')
  {
  }

  lemma LawShortens(k: Codec, t: string)
    requires Lawful(k)
    ensures k.parse(t).Some? ==> Longest(k.parse(t).value) < |t|
  {
  }
}
