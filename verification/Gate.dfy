// internal/optimize/eval.go, RejectRule and Recommend: the holdout gate.
module Gate {
  import opened Wrappers
  import opened Pareto

  predicate RejectRule(devBaseline: real, devCandidate: real, holdBaseline: real, holdCandidate: real) {
    devCandidate >= devBaseline && holdCandidate < holdBaseline
  }

  datatype Recommendation = Recommendation(baseline: EvalResult, accepted: seq<EvalResult>, rejected: seq<EvalResult>)

  /** What stands for the baseline when dev has none. */
  const NO_RESULT := EvalResult("", 0.0, 0, 0.0, 0)

  /** The last entry of that name. */
  function LastNamed(xs: seq<EvalResult>, name: string): (r: Option<EvalResult>)
    ensures r.Some? ==> r.value.variant == name
  {
    if xs == [] then None
    else if xs[|xs| - 1].variant == name then Some(xs[|xs| - 1])
    else LastNamed(xs[..|xs| - 1], name)
  }

  function BaselineOf(dev: seq<EvalResult>): EvalResult {
    var b := LastNamed(dev, "baseline");
    if b.Some? then b.value else NO_RESULT
  }

  /** f goes through the gate: it has a holdout result h, and the rule does not reject it. */
  predicate Admits(base: real, f: EvalResult, h: Option<EvalResult>) {
    h.Some? && !RejectRule(base, f.pass, base, h.value.pass)
  }

  /** What one front member adds to the recommendation. */
  function Judge(rec: Recommendation, f: EvalResult, holdout: seq<EvalResult>): Recommendation {
    var h := LastNamed(holdout, f.variant);
    if f.variant == "baseline" then rec
    else if Admits(rec.baseline.pass, f, h) then rec.(accepted := rec.accepted + [h.value])
    else rec.(rejected := rec.rejected + [f])
  }

  function Judged(front: seq<EvalResult>, base: EvalResult, holdout: seq<EvalResult>): (rec: Recommendation)
    ensures rec.baseline == base
  {
    if front == [] then Recommendation(base, [], [])
    else Judge(Judged(front[..|front| - 1], base, holdout), front[|front| - 1], holdout)
  }

  /** rec is what comes of some selection from the dev results, ties in any order. */
  ghost predicate Recommends(rec: Recommendation, dev: seq<EvalResult>, holdout: seq<EvalResult>) {
    exists front :: IsSelection(front, dev, EvalScore) && rec == Judged(front, BaselineOf(dev), holdout)
  }

  method Recommend(dev: seq<EvalResult>, holdout: seq<EvalResult>) returns (rec: Recommendation)
    ensures Recommends(rec, dev, holdout)
  {
    var base := NO_RESULT;
    var i := 0;
    while i < |dev|
      invariant 0 <= i <= |dev| && base == BaselineOf(dev[..i])
    {
      assert dev[..i + 1][..i] == dev[..i];
      if dev[i].variant == "baseline" {
        base := dev[i];
      }
      i := i + 1;
    }
    assert dev[..i] == dev;
    var selected := SelectCandidates(dev);
    var byName: map<string, EvalResult> := map[];
    i := 0;
    while i < |holdout|
      invariant 0 <= i <= |holdout|
      invariant forall n :: n in byName <==> LastNamed(holdout[..i], n).Some?
      invariant forall n :: n in byName ==> LastNamed(holdout[..i], n) == Some(byName[n])
    {
      assert holdout[..i + 1][..i] == holdout[..i];
      byName := byName[holdout[i].variant := holdout[i]];
      i := i + 1;
    }
    assert holdout[..i] == holdout;
    var accepted, rejected: seq<EvalResult> := [], [];
    i := 0;
    while i < |selected|
      invariant 0 <= i <= |selected|
      invariant Judged(selected[..i], base, holdout) == Recommendation(base, accepted, rejected)
    {
      assert selected[..i + 1][..i] == selected[..i];
      var f := selected[i];
      i := i + 1;
      if f.variant == "baseline" {
        continue;
      }
      if f.variant !in byName {
        rejected := rejected + [f];
        continue;
      }
      var h := byName[f.variant];
      if RejectRule(base.pass, f.pass, base.pass, h.pass) {
        rejected := rejected + [f];
        continue;
      }
      accepted := accepted + [h];
    }
    assert selected[..i] == selected;
    rec := Recommendation(base, accepted, rejected);
  }

  // ---- The gate loses nobody ----

  function HowMany(xs: seq<EvalResult>, name: string): nat {
    if xs == [] then 0
    else HowMany(xs[..|xs| - 1], name) + if xs[|xs| - 1].variant == name then 1 else 0
  }

  lemma HowManyGrows(xs: seq<EvalResult>, x: EvalResult, name: string)
    ensures HowMany(xs + [x], name) == HowMany(xs, name) + if x.variant == name then 1 else 0
  {
    assert (xs + [x])[..|xs|] == xs;
  }

  /** Every variant on the front but the baseline is accepted or rejected, as often as it is there. */
  lemma {:induction false} GateSplitsFront(front: seq<EvalResult>, base: EvalResult, holdout: seq<EvalResult>, name: string)
    ensures var rec := Judged(front, base, holdout);
            HowMany(rec.accepted, name) + HowMany(rec.rejected, name)
            == if name == "baseline" then 0 else HowMany(front, name)
  {
    if front != [] {
      GateSplitsFront(front[..|front| - 1], base, holdout, name);
      JudgeCounts(Judged(front[..|front| - 1], base, holdout), front[|front| - 1], holdout, name);
    }
  }

  lemma JudgeCounts(was: Recommendation, f: EvalResult, holdout: seq<EvalResult>, name: string)
    ensures var rec := Judge(was, f, holdout);
            HowMany(rec.accepted, name) + HowMany(rec.rejected, name)
            == HowMany(was.accepted, name) + HowMany(was.rejected, name)
               + if f.variant == name && name != "baseline" then 1 else 0
  {
    var h := LastNamed(holdout, f.variant);
    HowManyGrows(was.rejected, f, name);
    if h.Some? {
      HowManyGrows(was.accepted, h.value, name);
    }
  }

  /** f is a contender whose last holdout result is h. */
  predicate Contends(front: seq<EvalResult>, holdout: seq<EvalResult>, f: EvalResult, h: Option<EvalResult>) {
    f in front && f.variant != "baseline" && h == LastNamed(holdout, f.variant)
  }

  /** h is the holdout result of a contender the gate admits. */
  ghost predicate AcceptedFor(front: seq<EvalResult>, base: EvalResult, holdout: seq<EvalResult>, h: EvalResult) {
    exists f :: Contends(front, holdout, f, Some(h)) && Admits(base.pass, f, Some(h))
  }

  /** f is a contender the gate does not admit. */
  predicate RejectedFor(front: seq<EvalResult>, base: EvalResult, holdout: seq<EvalResult>, f: EvalResult) {
    var h := LastNamed(holdout, f.variant);
    Contends(front, holdout, f, h) && !Admits(base.pass, f, h)
  }

  lemma AcceptedForGrows(less: seq<EvalResult>, last: EvalResult, base: EvalResult, holdout: seq<EvalResult>, h: EvalResult)
    ensures AcceptedFor(less + [last], base, holdout, h)
            <==> AcceptedFor(less, base, holdout, h)
                 || (Contends([last], holdout, last, Some(h)) && Admits(base.pass, last, Some(h)))
  {
    var front := less + [last];
    if AcceptedFor(less, base, holdout, h) {
      var f :| Contends(less, holdout, f, Some(h)) && Admits(base.pass, f, Some(h));
      assert Contends(front, holdout, f, Some(h));
    }
    if Contends([last], holdout, last, Some(h)) && Admits(base.pass, last, Some(h)) {
      assert Contends(front, holdout, last, Some(h));
    }
    if AcceptedFor(front, base, holdout, h) {
      var f :| Contends(front, holdout, f, Some(h)) && Admits(base.pass, f, Some(h));
      assert f in less ==> Contends(less, holdout, f, Some(h));
    }
  }

  /** Who is on which list: accepted entries are holdout results, rejected ones dev results. */
  lemma {:induction false} GateDecides(front: seq<EvalResult>, base: EvalResult, holdout: seq<EvalResult>)
    ensures forall h :: h in Judged(front, base, holdout).accepted <==> AcceptedFor(front, base, holdout, h)
    ensures forall f :: f in Judged(front, base, holdout).rejected <==> RejectedFor(front, base, holdout, f)
  {
    if front != [] {
      var less, last := front[..|front| - 1], front[|front| - 1];
      GateDecides(less, base, holdout);
      assert front == less + [last];
      forall h ensures h in Judged(front, base, holdout).accepted <==> AcceptedFor(front, base, holdout, h) {
        AcceptedForGrows(less, last, base, holdout, h);
      }
    }
  }

  // ---- Recommendations over the results themselves ----

  /** Entry i has that name, and none after it does. */
  predicate IsLast(xs: seq<EvalResult>, name: string, i: int) {
    0 <= i < |xs| && xs[i].variant == name && forall k :: i < k < |xs| ==> xs[k].variant != name
  }

  lemma IsLastBefore(xs: seq<EvalResult>, name: string, i: int)
    requires xs != [] && xs[|xs| - 1].variant != name
    ensures IsLast(xs, name, i) <==> IsLast(xs[..|xs| - 1], name, i)
  {
  }

  lemma {:induction false} LastIsNamed(xs: seq<EvalResult>, name: string, i: int)
    requires IsLast(xs, name, i)
    ensures LastNamed(xs, name) == Some(xs[i])
  {
    if xs[|xs| - 1].variant != name {
      IsLastBefore(xs, name, i);
      LastIsNamed(xs[..|xs| - 1], name, i);
    }
  }

  lemma {:induction false} NamedIsLast(xs: seq<EvalResult>, name: string)
    requires LastNamed(xs, name).Some?
    ensures exists i :: IsLast(xs, name, i) && xs[i] == LastNamed(xs, name).value
  {
    if xs[|xs| - 1].variant == name {
      assert IsLast(xs, name, |xs| - 1);
    } else {
      NamedIsLast(xs[..|xs| - 1], name);
      var i :| IsLast(xs[..|xs| - 1], name, i) && xs[..|xs| - 1][i] == LastNamed(xs, name).value;
      IsLastBefore(xs, name, i);
    }
  }

  /** The baseline is the last dev result of that name, and the empty result when there is none. */
  lemma BaselineIsLast(rec: Recommendation, dev: seq<EvalResult>, holdout: seq<EvalResult>)
    requires Recommends(rec, dev, holdout)
    ensures forall i :: IsLast(dev, "baseline", i) ==> rec.baseline == dev[i]
    ensures (forall i :: 0 <= i < |dev| ==> dev[i].variant != "baseline") ==> rec.baseline == EvalResult("", 0.0, 0, 0.0, 0)
  {
    forall i | IsLast(dev, "baseline", i) ensures rec.baseline == dev[i] {
      LastIsNamed(dev, "baseline", i);
    }
    if LastNamed(dev, "baseline").Some? {
      NamedIsLast(dev, "baseline");
    }
  }

  /** A dev result that no other betters and that is not the baseline's. */
  predicate Candidate(dev: seq<EvalResult>, f: EvalResult) {
    f in dev && f.variant != "baseline" && forall g :: g in dev ==> !BetterResult(g, f)
  }

  /** The holdout result that is used for f: the last of its name. */
  ghost predicate Validates(holdout: seq<EvalResult>, f: EvalResult, h: EvalResult) {
    exists i :: IsLast(holdout, f.variant, i) && holdout[i] == h
  }

  lemma ValidatesIsNamed(holdout: seq<EvalResult>, f: EvalResult, h: EvalResult)
    ensures Validates(holdout, f, h) <==> LastNamed(holdout, f.variant) == Some(h)
  {
    if i :| IsLast(holdout, f.variant, i) && holdout[i] == h {
      LastIsNamed(holdout, f.variant, i);
    }
    if LastNamed(holdout, f.variant) == Some(h) {
      NamedIsLast(holdout, f.variant);
    }
  }

  /** A candidate as good as the baseline on dev whose holdout result is worse than that. */
  predicate DevOnly(base: EvalResult, f: EvalResult, h: EvalResult) {
    f.pass >= base.pass && h.pass < base.pass
  }

  /**
   * Accepted are exactly the last holdout results of the candidates that have one,
   * unless they won on dev only; rejected are exactly the other candidates.
   */
  lemma RecommendDecides(rec: Recommendation, dev: seq<EvalResult>, holdout: seq<EvalResult>)
    requires Recommends(rec, dev, holdout)
    ensures forall h :: h in rec.accepted
              <==> exists f :: Candidate(dev, f) && Validates(holdout, f, h) && !DevOnly(rec.baseline, f, h)
    ensures forall f :: f in rec.rejected
              <==> Candidate(dev, f) && forall h :: Validates(holdout, f, h) ==> DevOnly(rec.baseline, f, h)
  {
    var front :| IsSelection(front, dev, EvalScore) && rec == Judged(front, BaselineOf(dev), holdout);
    SelectedResults(front, dev);
    GateDecides(front, rec.baseline, holdout);
    forall h ensures AcceptedFor(front, rec.baseline, holdout, h)
                     <==> exists f :: Candidate(dev, f) && Validates(holdout, f, h) && !DevOnly(rec.baseline, f, h) {
      AcceptedOver(front, rec.baseline, dev, holdout, h);
    }
    forall f ensures RejectedFor(front, rec.baseline, holdout, f)
                     <==> Candidate(dev, f) && forall h :: Validates(holdout, f, h) ==> DevOnly(rec.baseline, f, h) {
      RejectedOver(front, rec.baseline, dev, holdout, f);
    }
  }

  lemma AcceptedOver(front: seq<EvalResult>, base: EvalResult, dev: seq<EvalResult>, holdout: seq<EvalResult>, h: EvalResult)
    requires forall f :: f in front && f.variant != "baseline" <==> Candidate(dev, f)
    ensures AcceptedFor(front, base, holdout, h)
            <==> exists f :: Candidate(dev, f) && Validates(holdout, f, h) && !DevOnly(base, f, h)
  {
    if f :| Contends(front, holdout, f, Some(h)) && Admits(base.pass, f, Some(h)) {
      ValidatesIsNamed(holdout, f, h);
      assert Candidate(dev, f);
    }
    if f :| Candidate(dev, f) && Validates(holdout, f, h) && !DevOnly(base, f, h) {
      ValidatesIsNamed(holdout, f, h);
      assert Contends(front, holdout, f, Some(h)) && Admits(base.pass, f, Some(h));
    }
  }

  lemma RejectedOver(front: seq<EvalResult>, base: EvalResult, dev: seq<EvalResult>, holdout: seq<EvalResult>, f: EvalResult)
    requires forall g :: g in front && g.variant != "baseline" <==> Candidate(dev, g)
    ensures RejectedFor(front, base, holdout, f)
            <==> Candidate(dev, f) && forall h :: Validates(holdout, f, h) ==> DevOnly(base, f, h)
  {
    forall h ensures Validates(holdout, f, h) <==> LastNamed(holdout, f.variant) == Some(h) {
      ValidatesIsNamed(holdout, f, h);
    }
  }

  // ---- What the gate is documented to promise ----

  /** f is a contender with holdout result h. */
  predicate Scored(front: seq<EvalResult>, holdout: seq<EvalResult>, f: EvalResult, h: EvalResult) {
    Contends(front, holdout, f, Some(h))
  }

  /** The documented promise: whoever is accepted kept up with the baseline on dev and on holdout. */
  ghost predicate AcceptedKeepUp(front: seq<EvalResult>, base: EvalResult, holdout: seq<EvalResult>) {
    forall f, h :: Scored(front, holdout, f, h) && Admits(base.pass, f, Some(h)) ==>
                     f.pass >= base.pass && h.pass >= base.pass
  }

  /**
   * The gate keeps it exactly when no contender that has a holdout result fell
   * below the baseline on dev: such a contender is let through whatever its
   * holdout result is.
   */
  lemma AcceptedKeepUpIff(front: seq<EvalResult>, base: EvalResult, holdout: seq<EvalResult>)
    ensures AcceptedKeepUp(front, base, holdout) <==>
            forall f, h :: Scored(front, holdout, f, h) ==> f.pass >= base.pass
  {
    if AcceptedKeepUp(front, base, holdout) {
      forall f, h | Scored(front, holdout, f, h) ensures f.pass >= base.pass {
        if f.pass < base.pass {
          assert Admits(base.pass, f, Some(h));
        }
      }
    }
  }

  lemma JudgedPair(a: EvalResult, b: EvalResult, base: EvalResult, holdout: seq<EvalResult>)
    requires a.variant == "baseline" && b.variant != "baseline"
    requires Admits(base.pass, b, LastNamed(holdout, b.variant))
    ensures LastNamed(holdout, b.variant).value in Judged([a, b], base, holdout).accepted
  {
    assert [a, b][..1] == [a];
  }

  lemma BothUnbeaten(a: EvalResult, b: EvalResult)
    requires b.pass < a.pass && b.tokens < a.tokens
    ensures IsSelection([a, b], [a, b], EvalScore)
  {
    var xs := [a, b];
    assert xs[..1] == [a] && [a][..0] == [];
    assert !Beaten(a, xs, EvalScore) && !Beaten(b, xs, EvalScore);
    assert Unbeaten([a], xs, EvalScore) == [a];
    assert Unbeaten(xs, xs, EvalScore) == xs;
  }

  /**
   * A variant that passes less than the baseline, on dev and just as much less on
   * holdout, is accepted as long as it is cheaper.
   */
  lemma WorseVariantAccepted(baseline: EvalResult, cheap: EvalResult)
    requires baseline.variant == "baseline" && cheap.variant != "baseline"
    requires cheap.pass < baseline.pass && cheap.tokens < baseline.tokens
    ensures IsSelection([baseline, cheap], [baseline, cheap], EvalScore)
    ensures cheap in Judged([baseline, cheap], BaselineOf([baseline, cheap]), [cheap]).accepted
  {
    BothUnbeaten(baseline, cheap);
    assert [baseline, cheap][..1] == [baseline];
    assert LastNamed([cheap], cheap.variant) == Some(cheap);
    assert LastNamed([baseline], "baseline") == Some(baseline);
    assert BaselineOf([baseline, cheap]) == baseline;
    JudgedPair(baseline, cheap, baseline, [cheap]);
  }

  /**
   * The gate measures holdout results against the baseline's dev result. That
   * gives every candidate the decision the rule describes, which measures them
   * against the baseline's own holdout result, exactly when the two are equal.
   */
  lemma GateAgreesIffBaselinesEqual(devBaseline: real, holdBaseline: real)
    ensures (forall d, h :: RejectRule(devBaseline, d, devBaseline, h) == RejectRule(devBaseline, d, holdBaseline, h))
            <==> devBaseline == holdBaseline
  {
    var low := if devBaseline < holdBaseline then devBaseline else holdBaseline;
    assert devBaseline != holdBaseline ==>
        RejectRule(devBaseline, devBaseline, devBaseline, low) != RejectRule(devBaseline, devBaseline, holdBaseline, low);
  }
}
