// The recursion of normalizeValue as the program runs it: containers are
// rewritten entry by entry, and an object's entries come in no fixed order.
module TreeRewriter {
  import opened Wrappers
  import opened Json
  import opened Canonicalize

  method NormalizeTree(k: Codec, c: Canonicalizer, v: Json) returns (r: Json)
    requires Lawful(k)
    ensures r == NormalizeValue(k, c, v)
    decreases Longest(v), 1, v, 1
  {
    match v
    case Obj(_) =>
      var members := NormalizeMembers(k, c, v);
      r := Obj(members);
      MembersRewritten(k, c, v, members);
    case Arr(_) =>
      r := NormalizeItems(k, c, v);
    case Str(t) =>
      var nested := NormalizeNested(k, c, t);
      r := Str(if nested != "" then nested else NormalizeString(c, t));
    case _ =>
      r := v;
  }

  method NormalizeMembers(k: Codec, c: Canonicalizer, v: Json) returns (t: map<string, Json>)
    requires Lawful(k) && v.Obj?
    ensures t.Keys == v.members.Keys
    ensures forall key :: key in t ==> t[key] == NormalizeValue(k, c, v.members[key])
    decreases Longest(v), 1, v, 0, 1
  {
    var m := v.members;
    t := m;
    var todo := m.Keys;
    while todo != {}
      invariant todo <= m.Keys == t.Keys
      invariant forall key :: key in todo ==> t[key] == m[key]
      invariant forall key :: key in m && key !in todo ==> t[key] == NormalizeValue(k, c, m[key])
      decreases todo
    {
      var key :| key in todo;
      var val := NormalizeMember(k, c, v, key);
      t := t[key := val];
      todo := todo - {key};
    }
  }

  method NormalizeItems(k: Codec, c: Canonicalizer, v: Json) returns (r: Json)
    requires Lawful(k) && v.Arr?
    ensures r == NormalizeValue(k, c, v)
    decreases Longest(v), 1, v, 0, 1
  {
    var xs := v.items;
    ghost var want := NormalizeValue(k, c, v).items;
    var t := xs;
    for i := 0 to |xs|
      invariant |t| == |xs| == |want|
      invariant forall j :: 0 <= j < i ==> t[j] == want[j]
    {
      var val := NormalizeItem(k, c, v, i);
      t := t[i := val];
    }
    assert t == want;
    r := Arr(t);
  }

  lemma MembersRewritten(k: Codec, c: Canonicalizer, v: Json, t: map<string, Json>)
    requires Lawful(k) && v.Obj? && t.Keys == v.members.Keys
    requires forall key :: key in t ==> t[key] == NormalizeValue(k, c, v.members[key])
    ensures NormalizeValue(k, c, v) == Obj(t)
  {
    assert NormalizeValue(k, c, v).members == t;
  }

  method NormalizeMember(k: Codec, c: Canonicalizer, v: Json, key: string) returns (r: Json)
    requires Lawful(k) && v.Obj? && key in v.members
    ensures r == NormalizeValue(k, c, v.members[key])
    decreases Longest(v), 1, v, 0, 0
  {
    LongestMember(v, key);
    r := NormalizeTree(k, c, v.members[key]);
  }

  method NormalizeItem(k: Codec, c: Canonicalizer, v: Json, i: nat) returns (r: Json)
    requires Lawful(k) && v.Arr? && i < |v.items|
    ensures r == NormalizeValue(k, c, v).items[i]
    decreases Longest(v), 1, v, 0, 0
  {
    LongestItem(v, i);
    r := NormalizeTree(k, c, v.items[i]);
  }

  method NormalizeNested(k: Codec, c: Canonicalizer, t: string) returns (r: string)
    requires Lawful(k)
    ensures r == NormalizeNestedJson(k, c, t)
    decreases |t|, 0
  {
    NestedIsSmaller(k, t);
    match NestedDoc(k, t)
    case None =>
      r := "";
    case Some(w) =>
      var n := NormalizeTree(k, c, w);
      r := k.marshal(n);
  }
}
