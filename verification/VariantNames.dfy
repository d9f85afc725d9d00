// internal/benchmark/matrix.go: when the names of variants, by which a report
// groups its outcomes, tell the variants apart, and two of one matrix
// that share a name.
module VariantNames {
  import opened Matrix

  /** The text a choice shows in a variant's name. */
  function ValueOf(c: Choice): string {
    if c.dim.ShellDim? || c.dim.FilesystemDim? then (if c.on then "true" else "false") else c.text
  }

  predicate PlusFree(combo: seq<Choice>) {
    forall i :: 0 <= i < |combo| ==> '+' !in ValueOf(combo[i])
  }

  predicate SameDims(a: seq<Choice>, b: seq<Choice>) {
    |a| == |b| && forall i :: 0 <= i < |a| ==> a[i].dim == b[i].dim
  }

  /** How a choice reads in a variant's name. */
  lemma LabelSays(c: Choice)
    ensures Label(c) == match c.dim
                        case ModelDim => "model=" + c.text
                        case PlanningDim => "planning=" + c.text
                        case VerificationDim => "verification=" + c.text
                        case ShellDim => "tools_shell=" + (if c.on then "true" else "false")
                        case FilesystemDim => "tools_filesystem=" + (if c.on then "true" else "false")
  {
    assert DimName(c.dim) + "=" == match c.dim
                                   case ModelDim => "model="
                                   case PlanningDim => "planning="
                                   case VerificationDim => "verification="
                                   case ShellDim => "tools_shell="
                                   case FilesystemDim => "tools_filesystem=";
  }

  lemma LabelParts(c: Choice)
    ensures Label(c) == DimName(c.dim) + "=" + ValueOf(c)
    ensures '+' in Label(c) <==> '+' in ValueOf(c)
  {
    assert '+' !in DimName(c.dim);
    var head := DimName(c.dim) + "=";
    assert forall x :: x in head + ValueOf(c) <==> x in head || x in ValueOf(c);
  }

  /** A text ends in one way at its last +. */
  lemma SplitAtPlus(a: string, x: string, b: string, y: string)
    requires '+' !in x && '+' !in y && a + "+" + x == b + "+" + y
    ensures a == b && x == y
  {
    var l, r := a + "+" + x, b + "+" + y;
    assert l[|a|] == '+' && r[|b|] == '+';
    assert forall i :: |a| < i < |l| ==> l[i] == x[i - |a| - 1] && x[i - |a| - 1] in x;
    assert forall i :: |b| < i < |r| ==> r[i] == y[i - |b| - 1] && y[i - |b| - 1] in y;
    assert |a| == |b|;
    assert a == l[..|a|] == r[..|b|] == b;
    assert x == l[|a| + 1..] == r[|b| + 1..] == y;
  }

  lemma SameLabel(a: Choice, b: Choice)
    requires a.dim == b.dim && Label(a) == Label(b)
    ensures ValueOf(a) == ValueOf(b)
  {
    LabelParts(a);
    LabelParts(b);
    var head := DimName(a.dim) + "=";
    assert ValueOf(a) == (head + ValueOf(a))[|head|..];
    assert ValueOf(b) == (head + ValueOf(b))[|head|..];
  }

  lemma NameOfLonger(combo: seq<Choice>)
    requires |combo| > 1
    ensures NameOf(combo) == NameOf(combo[..|combo| - 1]) + "+" + Label(combo[|combo| - 1])
  {
  }

  lemma LastApart(a: seq<Choice>, b: seq<Choice>)
    requires SameDims(a, b) && |a| > 1 && NameOf(a) == NameOf(b)
    requires '+' !in ValueOf(a[|a| - 1]) && '+' !in ValueOf(b[|b| - 1])
    ensures NameOf(a[..|a| - 1]) == NameOf(b[..|b| - 1]) && Label(a[|a| - 1]) == Label(b[|b| - 1])
  {
    NameOfLonger(a);
    NameOfLonger(b);
    LabelParts(a[|a| - 1]);
    LabelParts(b[|b| - 1]);
    SplitAtPlus(NameOf(a[..|a| - 1]), Label(a[|a| - 1]), NameOf(b[..|b| - 1]), Label(b[|b| - 1]));
  }

  predicate SameValues(a: seq<Choice>, b: seq<Choice>) {
    |a| == |b| && forall i :: 0 <= i < |a| ==> ValueOf(a[i]) == ValueOf(b[i])
  }

  lemma Fronts(a: seq<Choice>, b: seq<Choice>)
    requires SameDims(a, b) && PlusFree(a) && PlusFree(b) && a != []
    ensures SameDims(a[..|a| - 1], b[..|b| - 1]) && PlusFree(a[..|a| - 1]) && PlusFree(b[..|b| - 1])
    ensures a[|a| - 1].dim == b[|b| - 1].dim && '+' !in ValueOf(a[|a| - 1]) && '+' !in ValueOf(b[|b| - 1])
  {
  }

  lemma SameValuesGrow(a: seq<Choice>, b: seq<Choice>)
    requires |a| == |b| > 0 && SameValues(a[..|a| - 1], b[..|b| - 1]) && ValueOf(a[|a| - 1]) == ValueOf(b[|b| - 1])
    ensures SameValues(a, b)
  {
    forall i | 0 <= i < |a| - 1 ensures ValueOf(a[i]) == ValueOf(b[i]) {
      assert a[..|a| - 1][i] == a[i] && b[..|b| - 1][i] == b[i];
    }
  }

  /** Names of combinations over the same dimensions tell their values apart, if no value holds a +. */
  lemma {:induction false} NamesTellApart(a: seq<Choice>, b: seq<Choice>)
    requires SameDims(a, b) && PlusFree(a) && PlusFree(b) && NameOf(a) == NameOf(b)
    ensures SameValues(a, b)
  {
    if a != [] {
      Fronts(a, b);
      if |a| > 1 {
        LastApart(a, b);
        NamesTellApart(a[..|a| - 1], b[..|b| - 1]);
      }
      SameLabel(a[|a| - 1], b[|b| - 1]);
      SameValuesGrow(a, b);
    }
  }

  predicate ValuesPlusFree(m: Matrix) {
    && (forall v :: v in m.model ==> '+' !in v)
    && (forall v :: v in m.planning ==> '+' !in v)
    && (forall v :: v in m.verification ==> '+' !in v)
  }

  /** A group offers choices of one dimension, told apart by their values, with no + in those. */
  predicate Apart(g: seq<Choice>) {
    && (forall i, j :: 0 <= i < |g| && 0 <= j < |g| ==> g[i].dim == g[j].dim && (ValueOf(g[i]) == ValueOf(g[j]) ==> g[i] == g[j]))
    && PlusFree(g)
  }

  predicate GroupsApart(groups: seq<seq<Choice>>) {
    forall i :: 0 <= i < |groups| ==> Apart(groups[i])
  }

  lemma TextsApart(dim: Dim, vs: seq<string>)
    requires !dim.ShellDim? && !dim.FilesystemDim? && forall v :: v in vs ==> '+' !in v
    ensures Apart(TextChoices(dim, vs))
  {
  }

  lemma SwitchesApart(dim: Dim, vs: seq<bool>)
    requires dim.ShellDim? || dim.FilesystemDim?
    ensures Apart(SwitchChoices(dim, vs))
  {
  }

  lemma MatrixGroupsApart(m: Matrix)
    requires ValuesPlusFree(m)
    ensures GroupsApart(Groups(m))
  {
    TextsApart(ModelDim, m.model);
    TextsApart(PlanningDim, m.planning);
    TextsApart(VerificationDim, m.verification);
    SwitchesApart(ShellDim, m.shell);
    SwitchesApart(FilesystemDim, m.filesystem);
  }

  lemma ChosenApart(g: seq<Choice>, c: Choice, d: Choice)
    requires Apart(g) && c in g && d in g
    ensures c.dim == d.dim && '+' !in ValueOf(c) && (ValueOf(c) == ValueOf(d) ==> c == d)
  {
    var i :| 0 <= i < |g| && g[i] == c;
    var j :| 0 <= j < |g| && g[j] == d;
    assert g[i].dim == g[j].dim;
  }

  lemma {:induction false} PicksApart(groups: seq<seq<Choice>>, a: seq<Choice>, b: seq<Choice>)
    requires GroupsApart(groups) && Picks(groups, a) && Picks(groups, b)
    ensures SameDims(a, b) && PlusFree(a) && PlusFree(b)
    ensures SameValues(a, b) ==> a == b
  {
    if groups != [] {
      var n := |groups| - 1;
      if groups[n] == [] {
        PicksApart(groups[..n], a, b);
      } else {
        PicksApart(groups[..n], a[..|a| - 1], b[..|b| - 1]);
        ChosenApart(groups[n], a[|a| - 1], b[|b| - 1]);
        ChosenApart(groups[n], b[|b| - 1], a[|a| - 1]);
        assert a == a[..|a| - 1] + [a[|a| - 1]] && b == b[..|b| - 1] + [b[|b| - 1]];
      }
    }
  }

  /** If no listed value holds a +, two combinations of a matrix have one name only if they are the same. */
  lemma NamesDistinct(m: Matrix, a: seq<Choice>, b: seq<Choice>)
    requires ValuesPlusFree(m) && a in Combos(Dims(m)) && b in Combos(Dims(m)) && NameOf(a) == NameOf(b)
    ensures a == b
  {
    MatrixGroupsApart(m);
    CombosArePicks(Groups(m), a);
    CombosArePicks(Groups(m), b);
    PicksApart(Groups(m), a, b);
    NamesTellApart(a, b);
  }

  /** Values with a + can give two combinations of one matrix the same name. */
  lemma NamesCollide() returns (m: Matrix, a: seq<Choice>, b: seq<Choice>)
    ensures m == Matrix(["x", "x+planning=y"], ["z", "y+planning=z"], [], [], [])
    ensures a in Combos(Dims(m)) && b in Combos(Dims(m)) && a != b && NameOf(a) == NameOf(b)
  {
    var v, w, u, t := "x", "x+planning=y", "z", "y+planning=z";
    m := Matrix([v, w], [u, t], [], [], []);
    a := [Choice(ModelDim, v, false), Choice(PlanningDim, t, false)];
    b := [Choice(ModelDim, w, false), Choice(PlanningDim, u, false)];
    assert Groups(m)[0][0] == a[0] && Groups(m)[0][1] == b[0] && Groups(m)[1][1] == a[1] && Groups(m)[1][0] == b[1];
    TwoPicked(m, a);
    TwoPicked(m, b);
    TwoNamed(v, t);
    TwoNamed(w, u);
    assert v + "+planning=" + t == w + "+planning=" + u;
    assert |a[0].text| != |b[0].text|;
  }

  lemma TwoNamed(model: string, planning: string)
    ensures NameOf([Choice(ModelDim, model, false), Choice(PlanningDim, planning, false)])
         == "model=" + (model + "+planning=" + planning)
  {
    var combo := [Choice(ModelDim, model, false), Choice(PlanningDim, planning, false)];
    NameOfLonger(combo);
    assert combo[..1] == [combo[0]];
    assert "model=" + (model + "+planning=" + planning) == ("model=" + model) + "+" + ("planning=" + planning);
  }

  lemma TwoPicked(m: Matrix, combo: seq<Choice>)
    requires m.verification == [] && m.shell == [] && m.filesystem == []
    requires |combo| == 2 && combo[0] in Groups(m)[0] && combo[1] in Groups(m)[1]
    ensures combo in Combos(Dims(m))
  {
    var g := Groups(m);
    assert g[..5] == g && g[..5][..4] == g[..4] && g[..4][..3] == g[..3] && g[..3][..2] == g[..2];
    assert g[..2][..1] == g[..1] && g[..1][..0] == [] && combo[..1][..0] == [] && combo[..1] == [combo[0]];
    assert Picks(g[..1], combo[..1]);
    assert Picks(g[..2], combo);
    assert Picks(g[..3], combo);
    assert Picks(g[..4], combo);
    CombosArePicks(g, combo);
  }
}
