// The laws asked of encoding/json can be met: an encoding of documents that
// obeys every one of them. It is not Go's; only that one exists matters, so that
// theorems about lawful codecs are about something.
module CodecModel {
  import opened Wrappers
  import opened Json

  /** Self-delimiting text. */
  function Code(s: string): (r: string)
    ensures |r| > |s|
  {
    if s == "" then "." else ['x', s[0]] + Code(s[1..])
  }

  function Unary(n: nat): string {
    seq(n, _ => '1')
  }

  lemma {:induction false} CodePrefix(s: string, x: string, s': string, x': string)
    requires Code(s) + x == Code(s') + x'
    ensures s == s' && x == x'
  {
    var l, r := Code(s) + x, Code(s') + x';
    assert l[0] == Code(s)[0] && r[0] == Code(s')[0];
    if s == "" {
      assert x == l[1..] == r[1..] == x';
    } else {
      assert l[1] == s[0] && r[1] == s'[0];
      assert l[2..] == Code(s[1..]) + x && r[2..] == Code(s'[1..]) + x';
      CodePrefix(s[1..], x, s'[1..], x');
      assert s == [s[0]] + s[1..] && s' == [s'[0]] + s'[1..];
    }
  }

  ghost function Pick(ks: set<string>): (key: string)
    requires ks != {}
    ensures key in ks
  {
    var key :| key in ks; key
  }

  ghost function Enc(v: Json): string
    decreases v, 1
  {
    match v
    case Null => "n"
    case Bool(b) => if b then "t" else "f"
    case Num(n) => "#" + Code(Unary(n))
    case Str(t) => "s" + Code(t)
    case Arr(xs) => "[" + EncItems(v, 0) + "]"
    case Obj(m) => "{" + EncMembers(v, m.Keys) + "}"
  }

  ghost function EncItems(v: Json, i: nat): string
    requires v.Arr? && i <= |v.items|
    decreases v, 0, |v.items| - i
  {
    if i == |v.items| then "" else "," + Enc(v.items[i]) + EncItems(v, i + 1)
  }

  ghost function EncMembers(v: Json, ks: set<string>): string
    requires v.Obj? && ks <= v.members.Keys
    decreases v, 0, |ks|
  {
    if ks == {} then ""
    else
      var key := Pick(ks);
      "," + Code(key) + Enc(v.members[key]) + EncMembers(v, ks - {key})
  }

  lemma Shift(c: string, a: string, x: string, c': string, a': string, x': string)
    requires |c| == |c'| == 1 && (c + a) + x == (c' + a') + x'
    ensures c == c' && a + x == a' + x'
  {
    var l, r := (c + a) + x, (c' + a') + x';
    assert l[0] == c[0] && r[0] == c'[0];
    assert l[1..] == a + x && r[1..] == a' + x';
  }

  ghost function Head(v: Json): char {
    match v
    case Null => 'n'
    case Bool(b) => if b then 't' else 'f'
    case Num(_) => '#'
    case Str(_) => 's'
    case Arr(_) => '['
    case Obj(_) => '{'
  }

  ghost function Body(v: Json): string {
    match v
    case Num(n) => Code(Unary(n))
    case Str(t) => Code(t)
    case Arr(_) => EncItems(v, 0) + "]"
    case Obj(m) => EncMembers(v, m.Keys) + "}"
    case _ => ""
  }

  lemma EncSplits(v: Json)
    ensures Enc(v) == [Head(v)] + Body(v)
  {
  }

  lemma {:induction false} EncPrefix(v: Json, x: string, v': Json, x': string)
    requires Enc(v) + x == Enc(v') + x'
    ensures v == v' && x == x'
    decreases v, 1
  {
    EncSplits(v);
    EncSplits(v');
    Shift([Head(v)], Body(v), x, [Head(v')], Body(v'), x');
    match v
    case Num(n) =>
      CodePrefix(Unary(n), x, Unary(v'.value), x');
      assert |Unary(n)| == n && |Unary(v'.value)| == v'.value;
    case Str(t) => CodePrefix(t, x, v'.text, x');
    case Arr(xs) =>
      assert Body(v) + x == EncItems(v, 0) + ("]" + x) && Body(v') + x' == EncItems(v', 0) + ("]" + x');
      ItemsPrefix(v, 0, x, v', 0, x');
    case Obj(m) =>
      assert Body(v) + x == EncMembers(v, m.Keys) + ("}" + x);
      assert Body(v') + x' == EncMembers(v', v'.members.Keys) + ("}" + x');
      MembersPrefix(v, m.Keys, x, v', v'.members.Keys, x');
      assert m == v'.members;
    case _ => assert Body(v) + x == x && Body(v') + x' == x';
  }

  lemma {:induction false} ItemsPrefix(v: Json, i: nat, x: string, v': Json, j: nat, x': string)
    requires v.Arr? && i <= |v.items| && v'.Arr? && j <= |v'.items|
    requires EncItems(v, i) + ("]" + x) == EncItems(v', j) + ("]" + x')
    ensures v.items[i..] == v'.items[j..] && x == x'
    decreases v, 0, |v.items| - i
  {
    if i == |v.items| {
      NoItems(v, i, x, v', j, x');
    } else if j == |v'.items| {
      NoItems(v', j, x', v, i, x);
    } else {
      var y, y' := EncItems(v, i + 1) + ("]" + x), EncItems(v', j + 1) + ("]" + x');
      ItemsStep(v, i, x);
      ItemsStep(v', j, x');
      EncPrefix(v.items[i], y, v'.items[j], y');
      ItemsPrefix(v, i + 1, x, v', j + 1, x');
      assert v.items[i..] == [v.items[i]] + v.items[i + 1..];
      assert v'.items[j..] == [v'.items[j]] + v'.items[j + 1..];
    }
  }

  lemma NoItems(v: Json, i: nat, x: string, v': Json, j: nat, x': string)
    requires v.Arr? && i == |v.items| && v'.Arr? && j <= |v'.items|
    requires EncItems(v, i) + ("]" + x) == EncItems(v', j) + ("]" + x')
    ensures j == |v'.items| && x == x'
  {
    var l, r := EncItems(v, i) + ("]" + x), EncItems(v', j) + ("]" + x');
    assert l[0] == ']';
    assert r[0] == if j == |v'.items| then ']' else ',';
    assert x == l[1..] && r[1..] == x';
  }

  lemma ItemsStep(v: Json, i: nat, x: string)
    requires v.Arr? && i < |v.items|
    ensures (EncItems(v, i) + ("]" + x))[1..] == Enc(v.items[i]) + (EncItems(v, i + 1) + ("]" + x))
  {
  }

  lemma {:induction false} MembersPrefix(v: Json, ks: set<string>, x: string, v': Json, js: set<string>, x': string)
    requires v.Obj? && ks <= v.members.Keys && v'.Obj? && js <= v'.members.Keys
    requires EncMembers(v, ks) + ("}" + x) == EncMembers(v', js) + ("}" + x')
    ensures ks == js && x == x' && forall key :: key in ks ==> v.members[key] == v'.members[key]
    decreases v, 0, |ks|
  {
    if ks == {} {
      NoMembers(v, ks, x, v', js, x');
    } else if js == {} {
      NoMembers(v', js, x', v, ks, x);
    } else {
      var a, b := Pick(ks), Pick(js);
      var z, z' := EncMembers(v, ks - {a}) + ("}" + x), EncMembers(v', js - {b}) + ("}" + x');
      var y, y' := Enc(v.members[a]) + z, Enc(v'.members[b]) + z';
      MembersStep(v, ks, x);
      MembersStep(v', js, x');
      CodePrefix(a, y, b, y');
      EncPrefix(v.members[a], z, v'.members[b], z');
      MembersPrefix(v, ks - {a}, x, v', js - {b}, x');
      assert ks == (ks - {a}) + {a} && js == (js - {b}) + {b};
    }
  }

  lemma NoMembers(v: Json, ks: set<string>, x: string, v': Json, js: set<string>, x': string)
    requires v.Obj? && ks <= v.members.Keys && v'.Obj? && js <= v'.members.Keys && ks == {}
    requires EncMembers(v, ks) + ("}" + x) == EncMembers(v', js) + ("}" + x')
    ensures js == {} && x == x'
  {
    var l, r := EncMembers(v, ks) + ("}" + x), EncMembers(v', js) + ("}" + x');
    assert l[0] == '}';
    assert r[0] == if js == {} then '}' else ',';
    assert x == l[1..] && r[1..] == x';
  }

  lemma MembersStep(v: Json, ks: set<string>, x: string)
    requires v.Obj? && ks <= v.members.Keys && ks != {}
    ensures var a := Pick(ks);
            (EncMembers(v, ks) + ("}" + x))[1..] == Code(a) + (Enc(v.members[a]) + (EncMembers(v, ks - {a}) + ("}" + x)))
  {
  }

  lemma {:induction false} ItemFits(v: Json, i: nat, j: nat)
    requires v.Arr? && i <= j < |v.items|
    ensures |Enc(v.items[j])| < |EncItems(v, i)|
    decreases j - i
  {
    if i < j {
      ItemFits(v, i + 1, j);
    }
  }

  lemma {:induction false} MemberFits(v: Json, ks: set<string>, key: string)
    requires v.Obj? && ks <= v.members.Keys && key in ks
    ensures |Enc(v.members[key])| < |EncMembers(v, ks)|
    decreases |ks|
  {
    if key != Pick(ks) {
      MemberFits(v, ks - {Pick(ks)}, key);
    }
  }

  lemma {:induction false} LongestFits(v: Json)
    ensures Longest(v) < |Enc(v)|
    decreases v
  {
    match v
    case Arr(xs) =>
      forall i | 0 <= i < |xs| ensures Longest(xs[i]) < |Enc(v)| {
        LongestFits(xs[i]);
        ItemFits(v, 0, i);
      }
      var lengths := set i | 0 <= i < |xs| :: Longest(xs[i]);
      assert Longest(v) == MaxOf(lengths);
    case Obj(m) =>
      forall key | key in m ensures Longest(m[key]) < |Enc(v)| {
        LongestFits(m[key]);
        MemberFits(v, m.Keys, key);
      }
      var lengths := set key | key in m :: Longest(m[key]);
      assert Longest(v) == MaxOf(lengths);
    case _ =>
  }

  ghost function Parse(t: string): (r: Option<Json>)
    ensures r.Some? ==> Readable(r.value) && Enc(r.value) == t
    ensures forall v :: Readable(v) && Enc(v) == t ==> r.Some?
  {
    if v :| Readable(v) && Enc(v) == t then Some(v) else None
  }

  /** There is a codec that keeps every law this project asks of one. */
  lemma LawfulCodecExists()
    ensures exists k :: Lawful(k)
  {
    var k := Codec((t: string) => Parse(t), (v: Json) => Enc(v));
    forall v ensures (Readable(v) ==> Parse(Enc(v)) == Some(v)) && Enc(v) != "" && EncIsFramed(v) {
      ParseInverts(v);
    }
    forall t | Parse(t).Some?
      ensures Longest(Parse(t).value) < |t|
      ensures "{" <= t ==> Parse(t).value.Obj?
      ensures "[" <= t ==> Parse(t).value.Arr? {
      LongestFits(Parse(t).value);
      EncSplits(Parse(t).value);
      assert t[0] == Head(Parse(t).value);
    }
    assert Lawful(k);
  }

  ghost predicate EncIsFramed(v: Json) {
    && (v.Obj? ==> Framed(Enc(v), '{', '}'))
    && (v.Arr? ==> Framed(Enc(v), '[', ']'))
  }

  lemma ParseInverts(v: Json)
    ensures Enc(v) != "" && EncIsFramed(v)
    ensures Readable(v) ==> Parse(Enc(v)) == Some(v)
  {
    EncSplits(v);
    if Readable(v) {
      var r := Parse(Enc(v));
      assert Enc(r.value) + "" == Enc(v) + "";
      EncPrefix(r.value, "", v, "");
    }
  }
}
