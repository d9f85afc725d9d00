// internal/benchmark/matrix.go: the cartesian product of harness variations, the
// harness each combination makes, where it stands in the product, and which
// harnesses a matrix makes at all.
module Matrix {
  import opened Wrappers

  datatype Dim = ModelDim | PlanningDim | VerificationDim | ShellDim | FilesystemDim

  /** One override; the tool switches read on, the others text. */
  datatype Choice = Choice(dim: Dim, text: string, on: bool)

  /** What a matrix varies; an empty list leaves the base's setting. */
  datatype Matrix = Matrix(model: seq<string>, planning: seq<string>, verification: seq<string>,
                           shell: seq<bool>, filesystem: seq<bool>)

  /** The settings a matrix can change, and everything else a harness says. */
  datatype Settings = Settings(model: string, planning: string, verification: string, commands: seq<string>,
                               shell: bool, filesystem: bool, others: string)

  function TextChoices(dim: Dim, vs: seq<string>): seq<Choice> {
    seq(|vs|, i requires 0 <= i < |vs| => Choice(dim, vs[i], false))
  }

  function SwitchChoices(dim: Dim, vs: seq<bool>): seq<Choice> {
    seq(|vs|, i requires 0 <= i < |vs| => Choice(dim, "", vs[i]))
  }

  /** All five dimensions of a matrix, those left out included. */
  function Groups(m: Matrix): seq<seq<Choice>> {
    [TextChoices(ModelDim, m.model), TextChoices(PlanningDim, m.planning),
     TextChoices(VerificationDim, m.verification),
     SwitchChoices(ShellDim, m.shell), SwitchChoices(FilesystemDim, m.filesystem)]
  }

  function NonEmpty(groups: seq<seq<Choice>>): seq<seq<Choice>> {
    if groups == [] then []
    else
      var rest := NonEmpty(groups[..|groups| - 1]);
      if groups[|groups| - 1] == [] then rest else rest + [groups[|groups| - 1]]
  }

  function Dims(m: Matrix): seq<seq<Choice>> {
    NonEmpty(Groups(m))
  }

  // ---- The product ----

  function Extend(ps: seq<seq<Choice>>, d: seq<Choice>): seq<seq<Choice>> {
    if ps == [] then []
    else Extend(ps[..|ps| - 1], d) + ExtendOne(ps[|ps| - 1], d)
  }

  function ExtendOne(p: seq<Choice>, d: seq<Choice>): seq<seq<Choice>> {
    seq(|d|, i requires 0 <= i < |d| => p + [d[i]])
  }

  function Combos(dims: seq<seq<Choice>>): seq<seq<Choice>> {
    if dims == [] then [[]] else Extend(Combos(dims[..|dims| - 1]), dims[|dims| - 1])
  }

  method Product(dims: seq<seq<Choice>>) returns (product: seq<seq<Choice>>)
    ensures product == Combos(dims)
  {
    product := [[]];
    var n := 0;
    while n < |dims|
      invariant 0 <= n <= |dims| && product == Combos(dims[..n])
    {
      var next := [];
      var p := 0;
      while p < |product|
        invariant 0 <= p <= |product| && next == Extend(product[..p], dims[n])
      {
        var i := 0;
        ghost var done := next;
        while i < |dims[n]|
          invariant 0 <= i <= |dims[n]| && next == done + ExtendOne(product[p], dims[n][..i])
        {
          assert dims[n][..i + 1][..i] == dims[n][..i];
          next := next + [product[p] + [dims[n][i]]];
          i := i + 1;
        }
        assert dims[n][..i] == dims[n];
        assert product[..p + 1][..p] == product[..p];
        p := p + 1;
      }
      assert product[..p] == product;
      assert dims[..n + 1][..n] == dims[..n];
      product := next;
      n := n + 1;
    }
    assert dims[..n] == dims;
  }

  // ---- Applying a combination ----

  function Applied(s: Settings, c: Choice): Settings {
    match c.dim
    case ModelDim => s.(model := c.text)
    case PlanningDim => s.(planning := c.text)
    case VerificationDim => s.(verification := c.text, commands := if c.text == "none" then [] else s.commands)
    case ShellDim => s.(shell := c.on)
    case FilesystemDim => s.(filesystem := c.on)
  }

  function AppliedAll(s: Settings, combo: seq<Choice>): Settings {
    if combo == [] then s else Applied(AppliedAll(s, combo[..|combo| - 1]), combo[|combo| - 1])
  }

  function DimName(d: Dim): string {
    match d
    case ModelDim => "model"
    case PlanningDim => "planning"
    case VerificationDim => "verification"
    case ShellDim => "tools_shell"
    case FilesystemDim => "tools_filesystem"
  }

  function Label(c: Choice): (s: string)
    ensures s != ""
  {
    DimName(c.dim) + "=" + (if c.dim.ShellDim? || c.dim.FilesystemDim? then (if c.on then "true" else "false") else c.text)
  }

  function NameOf(combo: seq<Choice>): string {
    if combo == [] then ""
    else if |combo| == 1 then Label(combo[0])
    else NameOf(combo[..|combo| - 1]) + "+" + Label(combo[|combo| - 1])
  }

  /** A harness specification, changed in place by the choices applied to it. */
  class HarnessSpec {
    var model: string
    var planning: string
    var verification: string
    var commands: seq<string>
    var shell: bool
    var filesystem: bool
    var others: string

    ghost function View(): Settings
      reads this
    {
      Settings(model, planning, verification, commands, shell, filesystem, others)
    }

    constructor Clone(base: HarnessSpec)
      ensures View() == base.View()
    {
      model, planning, verification, commands := base.model, base.planning, base.verification, base.commands;
      shell, filesystem, others := base.shell, base.filesystem, base.others;
    }

    method Apply(c: Choice)
      modifies this
      ensures View() == Applied(old(View()), c)
    {
      match c.dim
      case ModelDim => model := c.text;
      case PlanningDim => planning := c.text;
      case VerificationDim =>
        verification := c.text;
        if c.text == "none" {
          commands := [];
        }
      case ShellDim => shell := c.on;
      case FilesystemDim => filesystem := c.on;
    }
  }

  datatype Variant = Variant(name: string, spec: HarnessSpec)

  /** v is a clone of base changed by combo. */
  ghost predicate Built(v: Variant, base: HarnessSpec, combo: seq<Choice>)
    reads v.spec, base
  {
    v.spec.View() == AppliedAll(base.View(), combo) && v.name == NameOf(combo)
  }

  method BuildVariant(base: HarnessSpec, combo: seq<Choice>) returns (v: Variant)
    requires combo != []
    ensures fresh(v.spec) && Built(v, base, combo)
  {
    var clone := new HarnessSpec.Clone(base);
    var name := "";
    var i := 0;
    while i < |combo|
      invariant 0 <= i <= |combo|
      invariant clone.View() == AppliedAll(base.View(), combo[..i]) && name == NameOf(combo[..i])
      invariant i > 0 <==> name != ""
    {
      assert combo[..i + 1][..i] == combo[..i];
      clone.Apply(combo[i]);
      if name != "" {
        name := name + "+";
      }
      name := name + Label(combo[i]);
      i := i + 1;
    }
    assert combo[..i] == combo;
    if name == "" {
      name := "base";
    }
    v := Variant(name, clone);
  }

  /** The dimensions that are varied, gathered in their fixed order. */
  method Dimensions(m: Matrix) returns (dims: seq<seq<Choice>>)
    ensures dims == Dims(m)
  {
    ghost var g := Groups(m);
    dims := [];
    if |m.model| > 0 {
      dims := dims + [TextChoices(ModelDim, m.model)];
    }
    assert dims == Kept(g[0]);
    if |m.planning| > 0 {
      dims := dims + [TextChoices(PlanningDim, m.planning)];
    }
    assert dims == Kept(g[0]) + Kept(g[1]);
    if |m.verification| > 0 {
      dims := dims + [TextChoices(VerificationDim, m.verification)];
    }
    assert dims == Kept(g[0]) + Kept(g[1]) + Kept(g[2]);
    if |m.shell| > 0 {
      dims := dims + [SwitchChoices(ShellDim, m.shell)];
    }
    assert dims == Kept(g[0]) + Kept(g[1]) + Kept(g[2]) + Kept(g[3]);
    if |m.filesystem| > 0 {
      dims := dims + [SwitchChoices(FilesystemDim, m.filesystem)];
    }
    FiveDims(m, dims);
  }

  /**
   * The variants of a matrix: each combination on a harness of its own, and base
   * itself, which nothing here changes, when no dimension is varied.
   */
  method Variants(m: Matrix, base: HarnessSpec) returns (variants: seq<Variant>)
    ensures Dims(m) == [] ==> variants == [Variant("base", base)]
    ensures Dims(m) != [] ==>
              && AllBuilt(variants, base, Combos(Dims(m)))
              && forall k :: 0 <= k < |variants| ==> fresh(variants[k].spec)
  {
    var dims := Dimensions(m);
    if |dims| == 0 {
      return [Variant("base", base)];
    }
    NonEmptyHolds(Groups(m));
    var product := Product(dims);
    forall k | 0 <= k < |product| ensures product[k] != [] {
      ComboLength(dims, k);
    }
    variants := BuildAll(base, product);
  }

  /** Each of vs is built from the combination in its place, on a harness it shares with no other. */
  ghost predicate AllBuilt(vs: seq<Variant>, base: HarnessSpec, combos: seq<seq<Choice>>)
    reads set v | v in vs :: v.spec, base
  {
    && |vs| == |combos|
    && (forall k :: 0 <= k < |vs| ==> Built(vs[k], base, combos[k]))
    && (forall j, k :: 0 <= j < k < |vs| ==> vs[j].spec != vs[k].spec)
  }

  method BuildAll(base: HarnessSpec, product: seq<seq<Choice>>) returns (variants: seq<Variant>)
    requires forall k :: 0 <= k < |product| ==> product[k] != []
    ensures AllBuilt(variants, base, product) && forall k :: 0 <= k < |variants| ==> fresh(variants[k].spec)
  {
    variants := [];
    var k := 0;
    while k < |product|
      invariant 0 <= k == |variants| <= |product|
      invariant forall i :: 0 <= i < k ==> fresh(variants[i].spec) && Built(variants[i], base, product[i])
      invariant forall i, j :: 0 <= i < j < k ==> variants[i].spec != variants[j].spec
    {
      var v := BuildVariant(base, product[k]);
      variants := variants + [v];
      k := k + 1;
    }
  }

  lemma FiveDims(m: Matrix, dims: seq<seq<Choice>>)
    requires var g := Groups(m);
             dims == Kept(g[0]) + Kept(g[1]) + Kept(g[2]) + Kept(g[3]) + Kept(g[4])
    ensures dims == Dims(m)
  {
    var g := Groups(m);
    assert g[..5] == g;
    assert g[..5][..4] == g[..4] && g[..4][..3] == g[..3] && g[..3][..2] == g[..2] && g[..2][..1] == g[..1] && g[..1][..0] == [];
    assert NonEmpty(g[..1]) == Kept(g[0]);
    assert NonEmpty(g[..2]) == Kept(g[0]) + Kept(g[1]);
    assert NonEmpty(g[..3]) == Kept(g[0]) + Kept(g[1]) + Kept(g[2]);
    assert NonEmpty(g[..4]) == Kept(g[0]) + Kept(g[1]) + Kept(g[2]) + Kept(g[3]);
  }

  function Kept(g: seq<Choice>): seq<seq<Choice>> {
    if g == [] then [] else [g]
  }

  // ---- Mixed-radix positions ----

  function Size(dims: seq<seq<Choice>>): nat {
    if dims == [] then 1 else Size(dims[..|dims| - 1]) * |dims[|dims| - 1]|
  }

  /** One index into each dimension. */
  predicate Indexes(dims: seq<seq<Choice>>, ix: seq<nat>) {
    |ix| == |dims| && forall d :: 0 <= d < |dims| ==> ix[d] < |dims[d]|
  }

  function Position(dims: seq<seq<Choice>>, ix: seq<nat>): nat
    requires |ix| == |dims|
  {
    if dims == [] then 0
    else Position(dims[..|dims| - 1], ix[..|ix| - 1]) * |dims[|dims| - 1]| + ix[|ix| - 1]
  }

  function Selected(dims: seq<seq<Choice>>, ix: seq<nat>): seq<Choice>
    requires Indexes(dims, ix)
  {
    seq(|dims|, d requires 0 <= d < |dims| => dims[d][ix[d]])
  }

  lemma RowsFit(p: nat, n: nat, w: nat, i: nat)
    requires p < n && i < w
    ensures p * w + i < n * w
  {
    assert (p + 1) * w <= n * w;
  }

  lemma {:induction false} ExtendLength(ps: seq<seq<Choice>>, d: seq<Choice>)
    ensures |Extend(ps, d)| == |ps| * |d|
  {
    if ps != [] {
      var n := |ps| - 1;
      ExtendLength(ps[..n], d);
      assert |ps| * |d| == n * |d| + |d|;
    }
  }

  lemma {:induction false} ExtendAt(ps: seq<seq<Choice>>, d: seq<Choice>, p: nat, i: nat)
    requires p < |ps| && i < |d|
    ensures p * |d| + i < |Extend(ps, d)| && Extend(ps, d)[p * |d| + i] == ps[p] + [d[i]]
  {
    var n, at := |ps| - 1, p * |d| + i;
    ExtendLength(ps, d);
    ExtendLength(ps[..n], d);
    RowsFit(p, |ps|, |d|, i);
    if p < n {
      RowsFit(p, n, |d|, i);
      ExtendAt(ps[..n], d, p, i);
      assert Extend(ps, d)[at] == Extend(ps[..n], d)[at];
    } else {
      assert Extend(ps, d)[at] == ExtendOne(ps[n], d)[i];
    }
  }

  lemma {:induction false} CombosAt(dims: seq<seq<Choice>>, ix: seq<nat>)
    requires Indexes(dims, ix)
    ensures Position(dims, ix) < |Combos(dims)|
    ensures Combos(dims)[Position(dims, ix)] == Selected(dims, ix)
  {
    if dims != [] {
      var n := |dims| - 1;
      CombosAt(dims[..n], ix[..n]);
      ExtendAt(Combos(dims[..n]), dims[n], Position(dims[..n], ix[..n]), ix[n]);
      SelectedGrows(dims, ix);
    }
  }

  lemma SelectedGrows(dims: seq<seq<Choice>>, ix: seq<nat>)
    requires Indexes(dims, ix) && dims != []
    ensures var n := |dims| - 1;
            Indexes(dims[..n], ix[..n]) && Selected(dims, ix) == Selected(dims[..n], ix[..n]) + [dims[n][ix[n]]]
  {
  }

  function Digits(dims: seq<seq<Choice>>, k: nat): (ix: seq<nat>)
    requires forall d :: 0 <= d < |dims| ==> dims[d] != []
    ensures Indexes(dims, ix)
  {
    if dims == [] then []
    else
      var w := |dims[|dims| - 1]|;
      Digits(dims[..|dims| - 1], k / w) + [k % w]
  }

  lemma QuotientUnique(q: nat, i: nat, r: nat, j: nat, w: nat)
    requires i < w && j < w && q * w + i == r * w + j
    ensures q == r && i == j
  {
    if q < r {
      RowsFit(q, r, w, i);
    } else if r < q {
      RowsFit(r, q, w, j);
    }
  }

  lemma DivModOf(q: nat, w: nat, i: nat)
    requires i < w
    ensures (q * w + i) / w == q && (q * w + i) % w == i
  {
    var k := q * w + i;
    var r, j := k / w, k % w;
    assert k == r * w + j;
    QuotientUnique(q, i, r, j, w);
  }

  lemma QuotientFits(k: nat, n: nat, w: nat)
    requires k < n * w
    ensures w > 0 && k / w < n
  {
  }

  lemma {:induction false} DigitsOfPosition(dims: seq<seq<Choice>>, ix: seq<nat>)
    requires Indexes(dims, ix) && forall d :: 0 <= d < |dims| ==> dims[d] != []
    ensures Digits(dims, Position(dims, ix)) == ix
  {
    if dims != [] {
      DigitsOfPosition(dims[..|dims| - 1], ix[..|ix| - 1]);
      DivModOf(Position(dims[..|dims| - 1], ix[..|ix| - 1]), |dims[|dims| - 1]|, ix[|ix| - 1]);
    }
  }

  lemma {:induction false} PositionOfDigits(dims: seq<seq<Choice>>, k: nat)
    requires k < Size(dims) && forall d :: 0 <= d < |dims| ==> dims[d] != []
    ensures Position(dims, Digits(dims, k)) == k
  {
    if dims != [] {
      var front, w := dims[..|dims| - 1], |dims[|dims| - 1]|;
      QuotientFits(k, Size(front), w);
      PositionOfDigits(front, k / w);
      var ix := Digits(dims, k);
      assert ix[..|ix| - 1] == Digits(front, k / w);
    }
  }

  lemma {:induction false} NonEmptyHolds(groups: seq<seq<Choice>>)
    ensures forall d :: 0 <= d < |NonEmpty(groups)| ==> NonEmpty(groups)[d] != []
  {
    if groups != [] {
      NonEmptyHolds(groups[..|groups| - 1]);
    }
  }

  lemma {:induction false} CombosCount(dims: seq<seq<Choice>>)
    ensures |Combos(dims)| == Size(dims)
  {
    if dims != [] {
      CombosCount(dims[..|dims| - 1]);
      ExtendLength(Combos(dims[..|dims| - 1]), dims[|dims| - 1]);
    }
  }

  lemma ComboLength(dims: seq<seq<Choice>>, k: nat)
    requires k < |Combos(dims)|
    requires forall d :: 0 <= d < |dims| ==> dims[d] != []
    ensures |Combos(dims)[k]| == |dims|
  {
    CombosCount(dims);
    PositionOfDigits(dims, k);
    CombosAt(dims, Digits(dims, k));
  }

  /**
   * The product counts in mixed radix, the last dimension fastest: there are as
   * many combinations as the sizes multiply to, each choice of one value per
   * dimension stands at exactly one place, and every place holds such a choice.
   */
  lemma {:induction false} ProductIsMixedRadix(dims: seq<seq<Choice>>)
    requires forall d :: 0 <= d < |dims| ==> dims[d] != []
    ensures |Combos(dims)| == Size(dims)
    ensures forall ix :: Indexes(dims, ix) ==>
              && Position(dims, ix) < Size(dims)
              && Combos(dims)[Position(dims, ix)] == Selected(dims, ix)
              && Digits(dims, Position(dims, ix)) == ix
    ensures forall k: nat :: k < Size(dims) ==>
              && Position(dims, Digits(dims, k)) == k
              && Combos(dims)[k] == Selected(dims, Digits(dims, k))
  {
    CombosCount(dims);
    forall ix | Indexes(dims, ix)
      ensures && Position(dims, ix) < Size(dims)
              && Combos(dims)[Position(dims, ix)] == Selected(dims, ix)
              && Digits(dims, Position(dims, ix)) == ix {
      CombosAt(dims, ix);
      DigitsOfPosition(dims, ix);
    }
    forall k: nat | k < Size(dims)
      ensures Position(dims, Digits(dims, k)) == k && Combos(dims)[k] == Selected(dims, Digits(dims, k)) {
      PositionOfDigits(dims, k);
      CombosAt(dims, Digits(dims, k));
    }
  }

  // ---- Variants differ from base only where chosen ----

  /** The last choice combo makes for a dimension. */
  function ChoiceFor(combo: seq<Choice>, dim: Dim): Option<Choice> {
    if combo == [] then None
    else if combo[|combo| - 1].dim == dim then Some(combo[|combo| - 1])
    else ChoiceFor(combo[..|combo| - 1], dim)
  }

  function TextOr(c: Option<Choice>, base: string): string {
    if c.Some? then c.value.text else base
  }

  function SwitchOr(c: Option<Choice>, base: bool): bool {
    if c.Some? then c.value.on else base
  }

  predicate ClearsCommands(combo: seq<Choice>) {
    exists i :: 0 <= i < |combo| && combo[i].dim == VerificationDim && combo[i].text == "none"
  }

  /** Each setting is what was chosen for it, or the base's; choosing no verification drops the commands. */
  lemma {:induction false} OnlyChosenSettingsChange(base: Settings, combo: seq<Choice>)
    ensures AppliedAll(base, combo) ==
            Settings(TextOr(ChoiceFor(combo, ModelDim), base.model),
                     TextOr(ChoiceFor(combo, PlanningDim), base.planning),
                     TextOr(ChoiceFor(combo, VerificationDim), base.verification),
                     if ClearsCommands(combo) then [] else base.commands,
                     SwitchOr(ChoiceFor(combo, ShellDim), base.shell),
                     SwitchOr(ChoiceFor(combo, FilesystemDim), base.filesystem),
                     base.others)
  {
    if combo != [] {
      OnlyChosenSettingsChange(base, combo[..|combo| - 1]);
    }
  }

  // ---- Which harnesses a matrix makes ----

  /** combo takes one choice from each group that has any. */
  ghost predicate Picks(groups: seq<seq<Choice>>, combo: seq<Choice>) {
    if groups == [] then combo == []
    else
      var g := groups[|groups| - 1];
      if g == [] then Picks(groups[..|groups| - 1], combo)
      else combo != [] && combo[|combo| - 1] in g && Picks(groups[..|groups| - 1], combo[..|combo| - 1])
  }

  lemma {:induction false} InExtend(ps: seq<seq<Choice>>, d: seq<Choice>, x: seq<Choice>)
    ensures x in Extend(ps, d) <==> x != [] && x[|x| - 1] in d && x[..|x| - 1] in ps
  {
    if ps != [] {
      var n := |ps| - 1;
      InExtend(ps[..n], d, x);
      assert ps == ps[..n] + [ps[n]];
      if x != [] && x[|x| - 1] in d && x[..|x| - 1] == ps[n] {
        var i :| 0 <= i < |d| && d[i] == x[|x| - 1];
        assert ExtendOne(ps[n], d)[i] == x;
      }
    }
  }

  lemma {:induction false} CombosArePicks(groups: seq<seq<Choice>>, combo: seq<Choice>)
    ensures combo in Combos(NonEmpty(groups)) <==> Picks(groups, combo)
  {
    if groups != [] {
      var n := |groups| - 1;
      var front := NonEmpty(groups[..n]);
      CombosArePicks(groups[..n], combo);
      if groups[n] != [] {
        assert NonEmpty(groups)[..|front|] == front;
        InExtend(Combos(front), groups[n], combo);
        if combo != [] {
          CombosArePicks(groups[..n], combo[..|combo| - 1]);
        }
      }
    }
  }

  /** s takes one of the listed values in each of the first n dimensions that list any, and is base otherwise. */
  predicate Offered(m: Matrix, base: Settings, s: Settings, n: nat) {
    && (if n > 0 && m.model != [] then s.model in m.model else s.model == base.model)
    && (if n > 1 && m.planning != [] then s.planning in m.planning else s.planning == base.planning)
    && (if n > 2 && m.verification != [] then s.verification in m.verification else s.verification == base.verification)
    && s.commands == (if n > 2 && m.verification != [] && s.verification == "none" then [] else base.commands)
    && (if n > 3 && m.shell != [] then s.shell in m.shell else s.shell == base.shell)
    && (if n > 4 && m.filesystem != [] then s.filesystem in m.filesystem else s.filesystem == base.filesystem)
    && s.others == base.others
  }

  lemma PickKeepsOffer(m: Matrix, base: Settings, s: Settings, n: nat, c: Choice)
    requires n < 5 && c in Groups(m)[n] && Offered(m, base, s, n)
    ensures Offered(m, base, Applied(s, c), n + 1)
  {
  }

  /** The settings before the n-th dimension was chosen, and the choice that gave it. */
  lemma OfferComesFromPick(m: Matrix, base: Settings, s: Settings, n: nat) returns (was: Settings, c: Choice)
    requires n < 5 && Groups(m)[n] != [] && Offered(m, base, s, n + 1)
    ensures c in Groups(m)[n] && Offered(m, base, was, n) && Applied(was, c) == s
  {
    match n
    case 0 =>
      was := s.(model := base.model);
      c := TextListed(ModelDim, m.model, s.model);
    case 1 =>
      was := s.(planning := base.planning);
      c := TextListed(PlanningDim, m.planning, s.planning);
    case 2 =>
      was := s.(verification := base.verification, commands := base.commands);
      c := TextListed(VerificationDim, m.verification, s.verification);
    case 3 =>
      was := s.(shell := base.shell);
      c := SwitchListed(ShellDim, m.shell, s.shell);
    case 4 =>
      was := s.(filesystem := base.filesystem);
      c := SwitchListed(FilesystemDim, m.filesystem, s.filesystem);
  }

  lemma TextListed(dim: Dim, vs: seq<string>, v: string) returns (c: Choice)
    requires v in vs
    ensures c == Choice(dim, v, false) && c in TextChoices(dim, vs)
  {
    var i :| 0 <= i < |vs| && vs[i] == v;
    c := TextChoices(dim, vs)[i];
  }

  lemma SwitchListed(dim: Dim, vs: seq<bool>, v: bool) returns (c: Choice)
    requires v in vs
    ensures c == Choice(dim, "", v) && c in SwitchChoices(dim, vs)
  {
    var i :| 0 <= i < |vs| && vs[i] == v;
    c := SwitchChoices(dim, vs)[i];
  }

  lemma {:induction false} PicksAreOffered(m: Matrix, base: Settings, n: nat, combo: seq<Choice>)
    requires n <= 5 && Picks(Groups(m)[..n], combo)
    ensures Offered(m, base, AppliedAll(base, combo), n)
  {
    if n > 0 {
      assert Groups(m)[..n][..n - 1] == Groups(m)[..n - 1];
      if Groups(m)[n - 1] == [] {
        PicksAreOffered(m, base, n - 1, combo);
      } else {
        PicksAreOffered(m, base, n - 1, combo[..|combo| - 1]);
        PickKeepsOffer(m, base, AppliedAll(base, combo[..|combo| - 1]), n - 1, combo[|combo| - 1]);
      }
    }
  }

  lemma {:induction false} OfferedArePicked(m: Matrix, base: Settings, n: nat, s: Settings)
    requires n <= 5 && Offered(m, base, s, n)
    ensures exists combo :: Picks(Groups(m)[..n], combo) && AppliedAll(base, combo) == s
  {
    if n == 0 {
      assert Picks(Groups(m)[..n], []) && AppliedAll(base, []) == s;
    } else if Groups(m)[n - 1] == [] {
      OfferedArePicked(m, base, n - 1, s);
      var combo :| Picks(Groups(m)[..n - 1], combo) && AppliedAll(base, combo) == s;
      GroupSkipped(m, n, combo);
    } else {
      var was, c := OfferComesFromPick(m, base, s, n - 1);
      OfferedArePicked(m, base, n - 1, was);
      LastPicked(m, base, n, s, was, c);
    }
  }

  lemma LastPicked(m: Matrix, base: Settings, n: nat, s: Settings, was: Settings, c: Choice)
    requires 0 < n <= 5 && c in Groups(m)[n - 1] && Applied(was, c) == s
    requires exists less :: Picks(Groups(m)[..n - 1], less) && AppliedAll(base, less) == was
    ensures exists combo :: Picks(Groups(m)[..n], combo) && AppliedAll(base, combo) == s
  {
    var less :| Picks(Groups(m)[..n - 1], less) && AppliedAll(base, less) == was;
    GroupPicked(m, n, less, c);
    AppliedAppend(base, less, c);
  }

  lemma GroupSkipped(m: Matrix, n: nat, combo: seq<Choice>)
    requires 0 < n <= 5 && Groups(m)[n - 1] == [] && Picks(Groups(m)[..n - 1], combo)
    ensures Picks(Groups(m)[..n], combo)
  {
    assert Groups(m)[..n][..n - 1] == Groups(m)[..n - 1];
  }

  lemma GroupPicked(m: Matrix, n: nat, less: seq<Choice>, c: Choice)
    requires 0 < n <= 5 && c in Groups(m)[n - 1] && Picks(Groups(m)[..n - 1], less)
    ensures Picks(Groups(m)[..n], less + [c])
  {
    assert Groups(m)[..n][..n - 1] == Groups(m)[..n - 1];
    assert (less + [c])[..|less|] == less;
  }

  lemma AppliedAppend(s: Settings, combo: seq<Choice>, c: Choice)
    ensures AppliedAll(s, combo + [c]) == Applied(AppliedAll(s, combo), c)
  {
    assert (combo + [c])[..|combo|] == combo;
  }

  /**
   * A matrix makes exactly the harnesses it describes: those that take one listed
   * value in every dimension that lists any, drop the commands when that value is
   * no verification, and are otherwise the base.
   */
  lemma VariantsAreTheOffered(m: Matrix, base: Settings, s: Settings)
    ensures (exists combo :: combo in Combos(Dims(m)) && AppliedAll(base, combo) == s) <==> Offered(m, base, s, 5)
  {
    assert Groups(m)[..5] == Groups(m);
    if combo :| combo in Combos(Dims(m)) && AppliedAll(base, combo) == s {
      CombosArePicks(Groups(m), combo);
      PicksAreOffered(m, base, 5, combo);
    }
    if Offered(m, base, s, 5) {
      OfferedArePicked(m, base, 5, s);
      var combo :| Picks(Groups(m)[..5], combo) && AppliedAll(base, combo) == s;
      CombosArePicks(Groups(m), combo);
    }
  }
}
