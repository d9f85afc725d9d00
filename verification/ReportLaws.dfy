// What a report holds after any outcomes in any order, and its split by task.
module ReportLaws {
  import opened Wrappers
  import opened Report

  /** The counters a variant should show: the sum over its own outcomes. */
  function CountersFor(os: seq<Outcome>, name: string): Counters {
    if os == [] then ZERO
    else
      var last := os[|os| - 1];
      var before := CountersFor(os[..|os| - 1], name);
      if VariantOf(last) == name then Plus(before, CountersOf(last)) else before
  }

  function RunsFor(os: seq<Outcome>, name: string): seq<RunSummary> {
    if os == [] then []
    else
      var last := os[|os| - 1];
      RunsFor(os[..|os| - 1], name) + if VariantOf(last) == name then [SummaryOf(last)] else []
  }

  ghost predicate Distinct(vs: seq<View>) {
    forall i, k :: 0 <= i < k < |vs| ==> vs[i].name != vs[k].name
  }

  /** The names of a report's variants. */
  function Names(vs: seq<View>): set<string> {
    set v | v in vs :: v.name
  }

  function VariantsOf(os: seq<Outcome>): set<string> {
    set o | o in os :: VariantOf(o)
  }

  lemma NoOutcomesNoCounters(os: seq<Outcome>, name: string)
    requires name !in VariantsOf(os)
    ensures CountersFor(os, name) == ZERO && RunsFor(os, name) == []
  {
    if os != [] {
      var last := os[|os| - 1];
      assert VariantOf(last) in VariantsOf(os);
      assert forall o :: o in os[..|os| - 1] ==> o in os;
      assert VariantsOf(os[..|os| - 1]) <= VariantsOf(os);
      NoOutcomesNoCounters(os[..|os| - 1], name);
    }
  }

  /** A view is what its own outcomes add up to. */
  ghost predicate Faithful(os: seq<Outcome>, v: View) {
    v.counters == CountersFor(os, v.name) && v.runs == RunsFor(os, v.name)
  }

  ghost predicate FaithfulAll(os: seq<Outcome>, vs: seq<View>) {
    forall i :: 0 <= i < |vs| ==> Faithful(os, vs[i])
  }

  lemma AddKeepsDistinct(vs: seq<View>, o: Outcome)
    requires Distinct(vs)
    ensures Distinct(Add(vs, o))
    ensures Names(Add(vs, o)) == Names(vs) + {VariantOf(o)}
  {
    var i := IndexOf(vs, VariantOf(o));
    var vs' := Add(vs, o);
    forall name ensures name in Names(vs') <==> name in Names(vs) || name == VariantOf(o) {
      if name in Names(vs) {
        var k :| 0 <= k < |vs| && vs[k].name == name;
        assert vs'[k].name == name && vs'[k] in vs';
      }
      if name == VariantOf(o) {
        assert vs'[i].name == name && vs'[i] in vs';
      }
      if name in Names(vs') {
        var k :| 0 <= k < |vs'| && vs'[k].name == name;
        assert k < |vs| ==> vs[k] in vs && vs[k].name == name;
      }
    }
  }

  lemma AddKeepsFaithful(os: seq<Outcome>, vs: seq<View>, o: Outcome)
    requires Distinct(vs) && FaithfulAll(os, vs) && Names(vs) == VariantsOf(os)
    ensures FaithfulAll(os + [o], Add(vs, o))
  {
    var all := os + [o];
    assert all[..|all| - 1] == os;
    var i := IndexOf(vs, VariantOf(o));
    var vs' := Add(vs, o);
    forall k | 0 <= k < |vs'| ensures Faithful(all, vs'[k]) {
      if k == |vs| {
        assert VariantOf(o) !in Names(vs) by {
          assert forall v :: v in vs ==> exists j :: 0 <= j < |vs| && vs[j] == v;
        }
        NoOutcomesNoCounters(os, VariantOf(o));
      } else if k == i {
        assert Faithful(os, vs[i]);
      } else {
        assert vs[k].name != VariantOf(o);
        assert Faithful(os, vs[k]);
      }
    }
  }

  /** What a report of outcomes os holds. */
  ghost predicate Reports(os: seq<Outcome>, vs: seq<View>) {
    Distinct(vs) && Names(vs) == VariantsOf(os) && FaithfulAll(os, vs)
  }

  lemma VariantsGrow(os: seq<Outcome>, o: Outcome)
    ensures VariantsOf(os + [o]) == VariantsOf(os) + {VariantOf(o)}
  {
    assert forall x :: x in os + [o] <==> x in os || x == o;
  }

  lemma AddReports(os: seq<Outcome>, vs: seq<View>, o: Outcome)
    requires Reports(os, vs)
    ensures Reports(os + [o], Add(vs, o))
  {
    AddKeepsDistinct(vs, o);
    AddKeepsFaithful(os, vs, o);
    VariantsGrow(os, o);
  }

  /**
   * After any outcomes the variant names are distinct and are exactly those of
   * the outcomes, and each variant's counters and runs are those of its outcomes.
   */
  lemma {:induction false} ReportIsFaithful(os: seq<Outcome>)
    ensures Reports(os, AddAll(os))
  {
    if os != [] {
      var front, last := os[..|os| - 1], os[|os| - 1];
      ReportIsFaithful(front);
      AddReports(front, AddAll(front), last);
      assert os == front + [last];
    }
  }

  lemma {:induction false} CountersBalance(os: seq<Outcome>, name: string)
    ensures var c := CountersFor(os, name);
            c.total == c.passed + c.failed + c.errored == |RunsFor(os, name)|
  {
    if os != [] {
      CountersBalance(os[..|os| - 1], name);
    }
  }

  /** In every variant: Total = Passed + Failed + Errored = the number of runs. */
  lemma TotalsBalance(os: seq<Outcome>, v: View)
    requires v in AddAll(os)
    ensures v.counters.total == v.counters.passed + v.counters.failed + v.counters.errored == |v.runs|
  {
    ReportIsFaithful(os);
    CountersBalance(os, v.name);
    var i :| 0 <= i < |AddAll(os)| && AddAll(os)[i] == v;
    assert Faithful(os, v);
  }

  function TotalSum(vs: seq<View>): int {
    if vs == [] then 0 else vs[0].counters.total + TotalSum(vs[1..])
  }

  lemma {:induction false} TotalSumUpdate(vs: seq<View>, i: nat, v: View)
    requires i < |vs|
    ensures TotalSum(vs[i := v]) == TotalSum(vs) - vs[i].counters.total + v.counters.total
  {
    if i > 0 {
      assert vs[i := v][1..] == vs[1..][i - 1 := v];
      TotalSumUpdate(vs[1..], i - 1, v);
    } else {
      assert vs[i := v][1..] == vs[1..];
    }
  }

  lemma {:induction false} TotalSumAppend(vs: seq<View>, v: View)
    ensures TotalSum(vs + [v]) == TotalSum(vs) + v.counters.total
  {
    if vs == [] {
      assert vs + [v] == [v];
    } else {
      assert (vs + [v])[1..] == vs[1..] + [v];
      TotalSumAppend(vs[1..], v);
    }
  }

  /** The totals of a report add up to the number of outcomes. */
  lemma {:induction false} TotalsAddUp(os: seq<Outcome>)
    ensures TotalSum(AddAll(os)) == |os|
  {
    if os != [] {
      var front, last := os[..|os| - 1], os[|os| - 1];
      TotalsAddUp(front);
      var vs := AddAll(front);
      var i := IndexOf(vs, VariantOf(last));
      if i < |vs| {
        TotalSumUpdate(vs, i, AddToView(vs[i], last));
      } else {
        TotalSumAppend(vs, AddToView(View(VariantOf(last), ZERO, []), last));
      }
    }
  }

  /** The errored counters of all variants. */
  function ErroredSum(vs: seq<View>): int {
    if vs == [] then 0 else vs[0].counters.errored + ErroredSum(vs[1..])
  }

  function WithError(os: seq<Outcome>): nat {
    if os == [] then 0 else WithError(os[..|os| - 1]) + if os[|os| - 1].error.Some? then 1 else 0
  }

  lemma {:induction false} ErroredSumUpdate(vs: seq<View>, i: nat, v: View)
    requires i < |vs|
    ensures ErroredSum(vs[i := v]) == ErroredSum(vs) - vs[i].counters.errored + v.counters.errored
  {
    if i > 0 {
      assert vs[i := v][1..] == vs[1..][i - 1 := v];
      ErroredSumUpdate(vs[1..], i - 1, v);
    } else {
      assert vs[i := v][1..] == vs[1..];
    }
  }

  lemma {:induction false} ErroredSumAppend(vs: seq<View>, v: View)
    ensures ErroredSum(vs + [v]) == ErroredSum(vs) + v.counters.errored
  {
    if vs == [] {
      assert vs + [v] == [v];
    } else {
      assert (vs + [v])[1..] == vs[1..] + [v];
      ErroredSumAppend(vs[1..], v);
    }
  }

  /** The errored counters of a report add up to the outcomes with an error. */
  lemma {:induction false} ErrorsAddUp(os: seq<Outcome>)
    ensures ErroredSum(AddAll(os)) == WithError(os)
  {
    if os != [] {
      var front, last := os[..|os| - 1], os[|os| - 1];
      ErrorsAddUp(front);
      var vs := AddAll(front);
      var i := IndexOf(vs, VariantOf(last));
      if i < |vs| {
        ErroredSumUpdate(vs, i, AddToView(vs[i], last));
      } else {
        ErroredSumAppend(vs, AddToView(View(VariantOf(last), ZERO, []), last));
      }
    }
  }

  // ---- Arrival order ----

  lemma {:induction false} CountersConcat(a: seq<Outcome>, b: seq<Outcome>, name: string)
    ensures CountersFor(a + b, name) == Plus(CountersFor(a, name), CountersFor(b, name))
  {
    if b == [] {
      assert a + b == a;
    } else {
      assert (a + b)[..|a + b| - 1] == a + b[..|b| - 1];
      CountersConcat(a, b[..|b| - 1], name);
    }
  }

  lemma CountersWithout(os: seq<Outcome>, k: nat, name: string)
    requires k < |os|
    ensures CountersFor(os, name) == Plus(CountersFor(os[..k] + os[k + 1..], name), CountersFor([os[k]], name))
  {
    var x, y, z := os[..k], [os[k]], os[k + 1..];
    assert os == x + (y + z);
    CountersConcat(x, y + z, name);
    CountersConcat(y, z, name);
    CountersConcat(x, z, name);
    PlusRegroups(CountersFor(x, name), CountersFor(y, name), CountersFor(z, name));
  }

  lemma PlusRegroups(a: Counters, b: Counters, d: Counters)
    ensures Plus(a, Plus(b, d)) == Plus(Plus(a, d), b)
  {
  }

  lemma WithoutOne(front: seq<Outcome>, last: Outcome, b: seq<Outcome>) returns (k: nat)
    requires multiset(front + [last]) == multiset(b)
    ensures k < |b| && b[k] == last && multiset(b[..k] + b[k + 1..]) == multiset(front)
  {
    assert last in multiset(front + [last]);
    assert last in b;
    k :| 0 <= k < |b| && b[k] == last;
    assert b == b[..k] + [last] + b[k + 1..];
    assert multiset(b) == multiset(b[..k]) + multiset{last} + multiset(b[k + 1..]);
    assert multiset(front + [last]) == multiset(front) + multiset{last};
    assert multiset(b[..k] + b[k + 1..]) == multiset(b[..k]) + multiset(b[k + 1..]);
    SameWithout(multiset(b[..k] + b[k + 1..]), multiset(front), last);
  }

  lemma SameWithout(p: multiset<Outcome>, q: multiset<Outcome>, o: Outcome)
    requires p + multiset{o} == q + multiset{o}
    ensures p == q
  {
    assert p == (p + multiset{o}) - multiset{o};
    assert q == (q + multiset{o}) - multiset{o};
  }

  /** The counters of a variant do not depend on the order outcomes arrived in. */
  lemma {:induction false} CountersIgnoreOrder(a: seq<Outcome>, b: seq<Outcome>, name: string)
    requires multiset(a) == multiset(b)
    ensures CountersFor(a, name) == CountersFor(b, name)
    decreases |a|
  {
    if a == [] {
      assert |multiset(b)| == 0;
    } else {
      var front, last := a[..|a| - 1], a[|a| - 1];
      assert a == front + [last];
      var k := WithoutOne(front, last, b);
      CountersIgnoreOrder(front, b[..k] + b[k + 1..], name);
      CountersWithout(b, k, name);
      CountersConcat(front, [last], name);
    }
  }

  /** Two arrival orders of one batch of outcomes give the same variants and counters. */
  lemma ReportsIgnoreOrder(a: seq<Outcome>, b: seq<Outcome>, v: View)
    requires multiset(a) == multiset(b) && v in AddAll(a)
    ensures exists w :: w in AddAll(b) && w.name == v.name && w.counters == v.counters
  {
    ReportIsFaithful(a);
    ReportIsFaithful(b);
    CountersIgnoreOrder(a, b, v.name);
    assert forall o :: o in a <==> o in multiset(a);
    assert forall o :: o in b <==> o in multiset(b);
    assert VariantsOf(a) == VariantsOf(b);
    assert v.name in Names(AddAll(a));
    var w :| w in AddAll(b) && w.name == v.name;
    assert Faithful(a, v) && Faithful(b, w);
  }

  // ---- By task ----

  datatype TaskResult = TaskResult(taskID: string, passed: int, total: int)

  function TotalOf(runs: seq<RunSummary>, id: string): nat {
    if runs == [] then 0
    else TotalOf(runs[..|runs| - 1], id) + if runs[|runs| - 1].taskID == id then 1 else 0
  }

  function PassedOf(runs: seq<RunSummary>, id: string): nat {
    if runs == [] then 0
    else
      var last := runs[|runs| - 1];
      PassedOf(runs[..|runs| - 1], id) + if last.taskID == id && last.status == Passed then 1 else 0
  }

  /** The task ids of the runs that have one, in the order they first appear. */
  function TaskOrder(runs: seq<RunSummary>): seq<string> {
    if runs == [] then []
    else
      var before, id := TaskOrder(runs[..|runs| - 1]), runs[|runs| - 1].taskID;
      if id == "" || id in before then before else before + [id]
  }

  /** What the program has gathered once it has seen the runs. */
  ghost predicate Gathered(runs: seq<RunSummary>, byID: map<string, TaskResult>, order: seq<string>) {
    && order == TaskOrder(runs)
    && (forall id :: id in byID <==> id in order)
    && "" !in byID
    && (forall id :: id in byID ==> byID[id] == TaskResult(id, PassedOf(runs, id), TotalOf(runs, id)))
    && (forall id :: id != "" && id !in byID ==> PassedOf(runs, id) == TotalOf(runs, id) == 0)
  }

  method AddRun(ghost before: seq<RunSummary>, r: RunSummary, byID: map<string, TaskResult>, order: seq<string>)
      returns (byID': map<string, TaskResult>, order': seq<string>)
    requires Gathered(before, byID, order)
    ensures Gathered(before + [r], byID', order')
  {
    byID', order' := byID, order;
    assert (before + [r])[..|before|] == before;
    if r.taskID == "" {
      return;
    }
    if r.taskID !in byID' {
      byID' := byID'[r.taskID := TaskResult(r.taskID, 0, 0)];
      order' := order' + [r.taskID];
    }
    var tr := byID'[r.taskID];
    byID' := byID'[r.taskID := TaskResult(tr.taskID, if r.status == Passed then tr.passed + 1 else tr.passed, tr.total + 1)];
  }

  method BuildByTask(runs: seq<RunSummary>) returns (out: seq<TaskResult>)
    ensures |out| == |TaskOrder(runs)|
    ensures forall i :: 0 <= i < |out| ==>
              var id := TaskOrder(runs)[i];
              out[i] == TaskResult(id, PassedOf(runs, id), TotalOf(runs, id))
  {
    var byID: map<string, TaskResult> := map[];
    var order: seq<string> := [];
    for i := 0 to |runs|
      invariant Gathered(runs[..i], byID, order)
    {
      assert runs[..i + 1] == runs[..i] + [runs[i]];
      byID, order := AddRun(runs[..i], runs[i], byID, order);
    }
    assert runs[..|runs|] == runs;
    out := [];
    for i := 0 to |order|
      invariant |out| == i
      invariant forall k :: 0 <= k < i ==> out[k] == TaskResult(order[k], PassedOf(runs, order[k]), TotalOf(runs, order[k]))
    {
      assert order[i] in order;
      out := out + [byID[order[i]]];
    }
  }

  function WithTask(runs: seq<RunSummary>): nat {
    if runs == [] then 0
    else WithTask(runs[..|runs| - 1]) + if runs[|runs| - 1].taskID != "" then 1 else 0
  }

  function SumTotals(runs: seq<RunSummary>, ids: seq<string>): nat {
    if ids == [] then 0 else SumTotals(runs, ids[..|ids| - 1]) + TotalOf(runs, ids[|ids| - 1])
  }

  lemma {:induction false} TotalOfAbsent(runs: seq<RunSummary>, id: string)
    requires id != "" && id !in TaskOrder(runs)
    ensures TotalOf(runs, id) == 0
  {
    if runs != [] {
      TotalOfAbsent(runs[..|runs| - 1], id);
    }
  }

  lemma {:induction false} SumTotalsGrows(runs: seq<RunSummary>, ids: seq<string>)
    requires runs != [] && forall i, k :: 0 <= i < k < |ids| ==> ids[i] != ids[k]
    ensures SumTotals(runs, ids)
         == SumTotals(runs[..|runs| - 1], ids) + if runs[|runs| - 1].taskID in ids then 1 else 0
  {
    if ids != [] {
      assert ids == ids[..|ids| - 1] + [ids[|ids| - 1]];
      SumTotalsGrows(runs, ids[..|ids| - 1]);
    }
  }

  /** The per-task results split the runs that have a task: no run is lost or counted twice. */
  lemma {:induction false} TasksPartitionRuns(runs: seq<RunSummary>)
    ensures forall i, k :: 0 <= i < k < |TaskOrder(runs)| ==> TaskOrder(runs)[i] != TaskOrder(runs)[k]
    ensures "" !in TaskOrder(runs)
    ensures SumTotals(runs, TaskOrder(runs)) == WithTask(runs)
  {
    if runs != [] {
      var front, id := runs[..|runs| - 1], runs[|runs| - 1].taskID;
      var before, ids := TaskOrder(front), TaskOrder(runs);
      TasksPartitionRuns(front);
      SumTotalsGrows(runs, ids);
      if id != "" && id !in before {
        assert ids[..|ids| - 1] == before;
        TotalOfAbsent(front, id);
      }
    }
  }
}
