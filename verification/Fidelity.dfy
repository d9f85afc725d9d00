// Strict replay of a recorded run, in another workspace, follows the run.
module Fidelity {
  import opened Wrappers
  import opened Text
  import opened Json
  import opened Canonicalize
  import opened TextStability
  import opened Stability
  import opened Frames
  import opened Aggregator
  import opened ReplayStore
  import opened RecordReplay

  /** What the agent sees of a call: the completed response, or the tool's result. */
  datatype Observation = FromModel(rsp: Response) | FromTool(result: Json) | ToolFailed | NoResponse

  datatype Action = CallModel(request: Json) | CallTool(name: string, args: string) | Finish

  /** A deterministic agent: what it has seen decides what it does next. */
  type Agent = seq<Observation> -> Action

  /** The two codecs and the workspaces of the recording and of the replay. */
  datatype Setting = Setting(k: Codec, rc: ResponseCodec, rec: Canonicalizer, rep: Canonicalizer)

  ghost predicate LawfulSetting(s: Setting) {
    Lawful(s.k) && LawfulResponses(s.rc) && Safe(s.rec) && DollarFree(s.rep)
  }

  function ActionOf(call: Call): Action {
    match call
    case ToolUse(name, args, _, _) => CallTool(name, args)
    case ModelUse(request, _, _) => CallModel(request)
  }

  /** What the agent saw of a recorded call. */
  function Observed(call: Call): Observation {
    match call
    case ToolUse(_, _, Succeeded(result), _) => FromTool(result)
    case ToolUse(_, _, _, _) => ToolFailed
    case ModelUse(_, frames, _) =>
      (match FinalOf(AddFrames(EMPTY, frames)) case Some(r) => FromModel(r) case None => NoResponse)
  }

  function ObservedAll(calls: seq<Call>): seq<Observation> {
    seq(|calls|, i requires 0 <= i < |calls| => Observed(calls[i]))
  }

  /** An action as the replay keys see it: paths of its own workspace normalized away. */
  function CanonicalAction(k: Codec, c: Canonicalizer, a: Action): Action
    requires Lawful(k)
  {
    match a
    case CallModel(request) => CallModel(NormalizeValue(k, c, request))
    case CallTool(name, args) => CallTool(name, Normalize(k, c, args))
    case Finish => Finish
  }

  ghost predicate SameAction(s: Setting, a: Action, a': Action)
    requires Lawful(s.k)
  {
    CanonicalAction(s.k, s.rec, a) == CanonicalAction(s.k, s.rep, a')
  }

  /** A response whose texts both workspaces normalize alike: it names neither. */
  ghost predicate Portable(s: Setting, r: Response)
    requires Lawful(s.k)
  {
    && NormalizeValue(s.k, s.rec, s.rc.message(r)) == NormalizeValue(s.k, s.rep, s.rc.message(r))
    && forall ch :: ch in r.choices ==>
      && Normalize(s.k, s.rec, ch.message.content) == Normalize(s.k, s.rep, ch.message.content)
      && forall tc :: tc in ch.message.toolCalls ==> Normalize(s.k, s.rec, tc.args) == Normalize(s.k, s.rep, tc.args)
  }

  /** Two results the workspaces cannot tell apart, as documents or as text inside a message. */
  ghost predicate SameResult(s: Setting, v: Json, v': Json)
    requires Lawful(s.k)
  {
    && NormalizeValue(s.k, s.rec, v) == NormalizeValue(s.k, s.rep, v')
    && NormalizeValue(s.k, s.rec, Str(s.k.marshal(v))) == NormalizeValue(s.k, s.rep, Str(s.k.marshal(v')))
  }

  /** For objects and arrays the text follows: it is read as the document it holds. */
  lemma ContainersEmbed(s: Setting, v: Json, v': Json)
    requires Lawful(s.k) && (v.Obj? || v.Arr?) && Readable(v)
    requires NormalizeValue(s.k, s.rec, v) == NormalizeValue(s.k, s.rep, v')
    ensures SameResult(s, v, v')
  {
    assert v'.Obj? || v'.Arr?;
    NormalizeKeepsReadable(s.k, s.rec, v);
    NormalizeKeepsReadable(s.k, s.rep, v');
    NestedMarshal(s.k, v);
    NestedMarshal(s.k, v');
  }

  /** The two workspaces saw the same thing, paths aside. */
  ghost predicate SameObservation(s: Setting, o: Observation, o': Observation)
    requires Lawful(s.k)
  {
    match (o, o')
    case (FromModel(r), FromModel(r')) => r == r' && Portable(s, r)
    case (FromTool(v), FromTool(v')) => SameResult(s, v, v')
    case _ => false
  }

  ghost predicate SameHistory(s: Setting, h: seq<Observation>, h': seq<Observation>)
    requires Lawful(s.k)
  {
    |h| == |h'| && forall i :: 0 <= i < |h| ==> SameObservation(s, h[i], h'[i])
  }

  /** The agent of the recording and the agent of the replay differ in paths only. */
  ghost predicate SameAgents(s: Setting, agent: Agent, agent': Agent)
    requires Lawful(s.k)
  {
    forall h, h' :: SameHistory(s, h, h') ==> SameAction(s, agent(h), agent'(h'))
  }

  ghost predicate IsRecording(agent: Agent, calls: seq<Call>) {
    forall n :: 0 <= n < |calls| ==> ActionOf(calls[n]) == agent(ObservedAll(calls)[..n])
  }

  /** What a call leaves in the store; a call that is not to be recorded leaves nothing. */
  function WriteOf(call: Call): Write {
    match call
    case ToolUse(_, _, outcome, written) => if outcome.Succeeded? then written else Nothing
    case ModelUse(_, frames, written) => if FinalOf(AddFrames(EMPTY, frames)).Some? then written else Nothing
  }

  /** The call left an entry in the store. */
  predicate Stored(call: Call) {
    WriteOf(call).Whole? || WriteOf(call).WholeButFailed?
  }

  /** No write was torn before call n, so its entry can be reached. */
  predicate Reached(calls: seq<Call>, n: int) {
    forall i :: 0 <= i < n && i < |calls| ==> !WriteOf(calls[i]).Torn?
  }

  /** Kind, name and normalized input: what the hash of a call stands for. */
  function KeyOf(k: Codec, c: Canonicalizer, call: Call): (Kind, string, string)
    requires Lawful(k)
  {
    match call
    case ToolUse(name, args, _, _) => (Tool, name, Normalize(k, c, args))
    case ModelUse(request, _, _) => (Model, "model", Normalize(k, c, ModelInput(k, c, request)))
  }

  /** Stored calls with one key stored one output. */
  ghost predicate Repeatable(s: Setting, calls: seq<Call>)
    requires Lawful(s.k)
  {
    forall i, j :: 0 <= i < |calls| && 0 <= j < |calls| && Stored(calls[i]) && Stored(calls[j])
      && KeyOf(s.k, s.rec, calls[i]) == KeyOf(s.k, s.rec, calls[j])
      ==> OutputOf(s, calls[i]) == OutputOf(s, calls[j])
  }

  function OutputOf(s: Setting, call: Call): string
    requires Lawful(s.k) && Stored(call)
  {
    match call
    case ToolUse(_, _, outcome, _) => Normalize(s.k, s.rec, s.k.marshal(outcome.result))
    case ModelUse(_, frames, _) => s.rc.marshal(FinalOf(AddFrames(EMPTY, frames)).value)
  }

  /** A document of the recording can be read back, and survives normalization again, here and there. */
  ghost predicate Survives(s: Setting, v: Json)
    requires Lawful(s.k)
  {
    Readable(v) && Tame(s.k, s.rec, v) && Avoids(s.k, s.rep, NormalizeValue(s.k, s.rec, v))
  }

  /** A result that is a document, or whose text the replay still reads the same way. */
  ghost predicate Embeds(s: Setting, v: Json)
    requires Lawful(s.k)
  {
    v.Obj? || v.Arr? || SameResult(s, v, NormalizeValue(s.k, s.rec, v))
  }

  /** What is asked of each recorded call for the replay to follow it. */
  ghost predicate Relocatable(s: Setting, call: Call)
    requires Lawful(s.k)
  {
    match call
    case ToolUse(name, _, outcome, _) => NUL !in name && (outcome.Succeeded? ==> Survives(s, outcome.result) && Embeds(s, outcome.result))
    case ModelUse(request, frames, _) =>
      && Survives(s, request)
      && (FinalOf(AddFrames(EMPTY, frames)).Some? ==> Portable(s, FinalOf(AddFrames(EMPTY, frames)).value))
  }

  ghost predicate ReplayableRun(s: Setting, agent: Agent, agent': Agent, calls: seq<Call>) {
    && LawfulSetting(s)
    && SameAgents(s, agent, agent')
    && IsRecording(agent, calls)
    && Repeatable(s, calls)
    && AllRelocatable(s, calls)
  }

  /** How far a replay got: still going, finished, or stopped in one of two ways. */
  datatype Progress = Going(h: seq<Observation>) | Done(h: seq<Observation>) | Missed(h: seq<Observation>) | Live(h: seq<Observation>)

  /** One step of a replaying agent; readable says whether its lookup can read the store. */
  function ReplayStep(s: Setting, mode: Mode, log: seq<Record>, agent: Agent, h: seq<Observation>, readable: bool): Progress
    requires Lawful(s.k)
  {
    match agent(h)
    case Finish => Done(h)
    case CallTool(name, args) =>
      var reply := if readable then FirstMatch(log, Tool, ToolHash(s.k, s.rep, name, args)) else Failed;
      (match ServeTool(s.k, mode, reply)
       case Served(v) => Going(h + [FromTool(v)])
       case StrictMiss => Missed(h)
       case WentLive => Live(h))
    case CallModel(request) =>
      var reply := if readable then FirstMatch(log, Model, ModelHash(s.k, s.rep, request)) else Failed;
      (match ServeModel(s.rc, mode, reply)
       case Served(r) => Going(h + [FromModel(r)])
       case StrictMiss => Missed(h)
       case WentLive => Live(h))
  }

  /** The first n steps of a replay. */
  function Replay(s: Setting, mode: Mode, log: seq<Record>, agent: Agent, readable: nat -> bool, n: nat): Progress
    requires Lawful(s.k)
  {
    if n == 0 then Going([])
    else
      match Replay(s, mode, log, agent, readable, n - 1)
      case Going(h) => ReplayStep(s, mode, log, agent, h, readable(n - 1))
      case stopped => stopped
  }

  /** The hash a call is stored under, and looked up by. */
  function HashOf(k: Codec, c: Canonicalizer, call: Call): string
    requires Lawful(k)
  {
    match call
    case ToolUse(name, args, _, _) => ToolHash(k, c, name, args)
    case ModelUse(request, _, _) => ModelHash(k, c, request)
  }

  function KindOf(call: Call): Kind {
    if call.ToolUse? then Tool else Model
  }

  lemma HashesTellKeysApart(s: Setting, a: Call, b: Call)
    requires LawfulSetting(s) && Relocatable(s, a) && Relocatable(s, b)
    ensures HashOf(s.k, s.rec, a) == HashOf(s.k, s.rec, b) <==> KeyOf(s.k, s.rec, a) == KeyOf(s.k, s.rec, b)
  {
    var x, y := KeyOf(s.k, s.rec, a), KeyOf(s.k, s.rec, b);
    HashTextInjective(x.0, x.1, x.2, y.0, y.1, y.2);
  }

  /** What one call leaves in the store, as far as lookups can tell. */
  lemma RecordedShape(s: Setting, call: Call)
    requires LawfulSetting(s)
    ensures Stored(call) ==>
              var r := Recorded(s.k, s.rc, s.rec, call);
              && |r| == 1 && r[0].Good?
              && r[0].entry.kind == KindOf(call)
              && r[0].entry.hash == HashOf(s.k, s.rec, call)
              && r[0].entry.output == OutputOf(s, call)
    ensures !Stored(call) ==> Recorded(s.k, s.rc, s.rec, call) == if WriteOf(call).Torn? then [Corrupt] else []
  {
  }

  /** A lookup meets the first call's entry, or goes on to the rest. */
  lemma FirstMatchUnfolds(s: Setting, calls: seq<Call>, kind: Kind, hash: string)
    requires LawfulSetting(s) && calls != []
    ensures FirstMatch(RecordedAll(s.k, s.rc, s.rec, calls), kind, hash)
         == if Stored(calls[0]) && KindOf(calls[0]) == kind && HashOf(s.k, s.rec, calls[0]) == hash
            then Hit(OutputOf(s, calls[0]))
            else if WriteOf(calls[0]).Torn? then Miss
            else FirstMatch(RecordedAll(s.k, s.rc, s.rec, calls[1..]), kind, hash)
  {
    var here, rest := Recorded(s.k, s.rc, s.rec, calls[0]), RecordedAll(s.k, s.rc, s.rec, calls[1..]);
    assert RecordedAll(s.k, s.rc, s.rec, calls) == here + rest;
    RecordedShape(s, calls[0]);
    if Stored(calls[0]) {
      assert (here + rest)[0] == here[0] && (here + rest)[1..] == rest;
    } else if WriteOf(calls[0]).Torn? {
      assert (here + rest)[0] == Corrupt;
    } else {
      assert here + rest == rest;
    }
  }

  lemma SameKeySameKind(s: Setting, a: Call, b: Call)
    requires Lawful(s.k) && KeyOf(s.k, s.rec, a) == KeyOf(s.k, s.rec, b)
    ensures KindOf(a) == KindOf(b)
  {
    assert KeyOf(s.k, s.rec, a).0 == KindOf(a) && KeyOf(s.k, s.rec, b).0 == KindOf(b);
  }

  /** c left an entry that a lookup for call will take for its own. */
  ghost predicate Answers(s: Setting, c: Call, call: Call)
    requires Lawful(s.k)
  {
    Stored(c) && KeyOf(s.k, s.rec, c) == KeyOf(s.k, s.rec, call)
  }

  /** A lookup for call meets the first entry with its key. */
  lemma {:induction false} FirstMatchByKey(s: Setting, calls: seq<Call>, call: Call)
    requires LawfulSetting(s) && calls != [] && Relocatable(s, calls[0]) && Relocatable(s, call)
    ensures FirstMatch(RecordedAll(s.k, s.rc, s.rec, calls), KindOf(call), HashOf(s.k, s.rec, call))
         == if Answers(s, calls[0], call) then Hit(OutputOf(s, calls[0]))
            else if WriteOf(calls[0]).Torn? then Miss
            else FirstMatch(RecordedAll(s.k, s.rc, s.rec, calls[1..]), KindOf(call), HashOf(s.k, s.rec, call))
  {
    FirstMatchUnfolds(s, calls, KindOf(call), HashOf(s.k, s.rec, call));
    HashesTellKeysApart(s, calls[0], call);
    if KeyOf(s.k, s.rec, calls[0]) == KeyOf(s.k, s.rec, call) {
      SameKeySameKind(s, calls[0], call);
    }
  }

  ghost predicate AllRelocatable(s: Setting, calls: seq<Call>)
    requires Lawful(s.k)
  {
    forall i :: 0 <= i < |calls| ==> Relocatable(s, calls[i])
  }

  lemma RestAlike(s: Setting, calls: seq<Call>)
    requires Lawful(s.k) && calls != []
    ensures Repeatable(s, calls) ==> Repeatable(s, calls[1..])
    ensures AllRelocatable(s, calls) ==> AllRelocatable(s, calls[1..])
  {
    var rest := calls[1..];
    assert forall i :: 0 <= i < |rest| ==> rest[i] == calls[i + 1];
  }

  lemma RestReached(calls: seq<Call>, n: nat)
    requires 0 < n <= |calls|
    ensures Reached(calls, n) <==> !WriteOf(calls[0]).Torn? && Reached(calls[1..], n - 1)
  {
    assert forall i :: 0 <= i < n - 1 ==> calls[1..][i] == calls[i + 1];
    if !WriteOf(calls[0]).Torn? && Reached(calls[1..], n - 1) {
      forall i | 0 <= i < n ensures !WriteOf(calls[i]).Torn? {
        assert i > 0 ==> calls[i] == calls[1..][i - 1];
      }
    }
  }

  lemma AnswersAlike(s: Setting, calls: seq<Call>, i: nat, n: nat)
    requires Lawful(s.k) && Repeatable(s, calls)
    requires i < |calls| && n < |calls| && Stored(calls[n]) && Answers(s, calls[i], calls[n])
    ensures OutputOf(s, calls[i]) == OutputOf(s, calls[n])
  {
  }

  /** A stored call's key finds what it stored, in the store of the whole run. */
  lemma {:induction false} StoredCallFound(s: Setting, calls: seq<Call>, n: nat)
    requires LawfulSetting(s) && Repeatable(s, calls) && AllRelocatable(s, calls)
    requires n < |calls| && Stored(calls[n]) && Reached(calls, n)
    ensures FirstMatch(RecordedAll(s.k, s.rc, s.rec, calls), KindOf(calls[n]), HashOf(s.k, s.rec, calls[n]))
         == Hit(OutputOf(s, calls[n]))
  {
    FirstMatchByKey(s, calls, calls[n]);
    if Answers(s, calls[0], calls[n]) {
      AnswersAlike(s, calls, 0, n);
    } else {
      assert calls[1..][n - 1] == calls[n];
      RestAlike(s, calls);
      RestReached(calls, n);
      StoredCallFound(s, calls[1..], n - 1);
    }
  }

  /** A key no stored call has is not found. */
  lemma {:induction false} UnstoredKeyMissed(s: Setting, calls: seq<Call>, call: Call)
    requires LawfulSetting(s) && Relocatable(s, call) && AllRelocatable(s, calls)
    requires forall i :: 0 <= i < |calls| && Reached(calls, i) ==> !Answers(s, calls[i], call)
    ensures FirstMatch(RecordedAll(s.k, s.rc, s.rec, calls), KindOf(call), HashOf(s.k, s.rec, call)) == Miss
  {
    if calls != [] {
      FirstMatchByKey(s, calls, call);
      assert Reached(calls, 0);
      if !WriteOf(calls[0]).Torn? {
        RestAlike(s, calls);
        forall i | 0 <= i < |calls[1..]| && Reached(calls[1..], i) ensures !Answers(s, calls[1..][i], call) {
          RestReached(calls, i + 1);
          assert calls[1..][i] == calls[i + 1];
        }
        UnstoredKeyMissed(s, calls[1..], call);
      }
    }
  }

  /** An action the replay takes for a recorded call is looked up by that call's hash. */
  lemma {:induction false} SameActionSameHash(s: Setting, call: Call, a: Action)
    requires LawfulSetting(s) && Relocatable(s, call) && SameAction(s, ActionOf(call), a)
    ensures call.ToolUse? ==> a.CallTool? && ToolHash(s.k, s.rep, a.name, a.args) == HashOf(s.k, s.rec, call)
    ensures call.ModelUse? ==> a.CallModel? && ModelHash(s.k, s.rep, a.request) == HashOf(s.k, s.rec, call)
  {
    if call.ModelUse? {
      var w := NormalizeValue(s.k, s.rec, call.request);
      CrossRootStable(s.k, s.rec, s.rep, call.request);
      NormalizeKeepsReadable(s.k, s.rec, call.request);
      NormalizeKeepsReadable(s.k, s.rep, a.request);
      assert ModelInput(s.k, s.rec, call.request) == s.k.marshal(w) == ModelInput(s.k, s.rep, a.request);
    }
  }

  /** Serving what a stored call stored shows the agent what the run saw. */
  lemma {:induction false} ServedIsSame(s: Setting, call: Call)
    requires LawfulSetting(s) && Relocatable(s, call) && Stored(call)
    ensures call.ToolUse? ==>
              var r := ServeTool(s.k, Strict, Hit(OutputOf(s, call)));
              r.Served? && SameObservation(s, Observed(call), FromTool(r.value))
    ensures call.ModelUse? ==>
              var r := ServeModel(s.rc, Strict, Hit(OutputOf(s, call)));
              r.Served? && SameObservation(s, Observed(call), FromModel(r.value))
  {
    if call.ToolUse? {
      var result := call.outcome.result;
      var w := NormalizeValue(s.k, s.rec, result);
      NormalizeKeepsReadable(s.k, s.rec, result);
      assert OutputOf(s, call) == s.k.marshal(w);
      assert ServeTool(s.k, Strict, Hit(OutputOf(s, call))) == Served(w);
      CrossRootStable(s.k, s.rec, s.rep, result);
      if result.Obj? || result.Arr? {
        ContainersEmbed(s, result, w);
      }
    }
  }

  /** One replay step whose lookup finds what a recorded call stored. */
  lemma {:induction false} StepServes(s: Setting, log: seq<Record>, agent': Agent, h: seq<Observation>, call: Call)
    requires LawfulSetting(s) && Relocatable(s, call) && Stored(call)
    requires SameAction(s, ActionOf(call), agent'(h))
    requires FirstMatch(log, KindOf(call), HashOf(s.k, s.rec, call)) == Hit(OutputOf(s, call))
    ensures var p := ReplayStep(s, Strict, log, agent', h, true);
            p.Going? && |p.h| == |h| + 1 && p.h[..|h|] == h && SameObservation(s, Observed(call), p.h[|h|])
  {
    SameActionSameHash(s, call, agent'(h));
    ServedIsSame(s, call);
  }

  lemma AgentsAgree(s: Setting, agent: Agent, agent': Agent, h: seq<Observation>, h': seq<Observation>)
    requires Lawful(s.k) && SameAgents(s, agent, agent') && SameHistory(s, h, h')
    ensures SameAction(s, agent(h), agent'(h'))
  {
  }

  lemma HistoryGrows(s: Setting, h: seq<Observation>, h': seq<Observation>, o: Observation, o': Observation)
    requires Lawful(s.k) && SameHistory(s, h, h') && SameObservation(s, o, o')
    ensures SameHistory(s, h + [o], h' + [o'])
  {
  }

  lemma {:induction false} StepExtends(s: Setting, log: seq<Record>, agent': Agent, seen: seq<Observation>, h: seq<Observation>, call: Call)
    requires LawfulSetting(s) && Relocatable(s, call) && Stored(call)
    requires SameHistory(s, seen, h) && SameAction(s, ActionOf(call), agent'(h))
    requires FirstMatch(log, KindOf(call), HashOf(s.k, s.rec, call)) == Hit(OutputOf(s, call))
    ensures var p := ReplayStep(s, Strict, log, agent', h, true);
            p.Going? && SameHistory(s, seen + [Observed(call)], p.h)
  {
    StepServes(s, log, agent', h, call);
    var h' := ReplayStep(s, Strict, log, agent', h, true).h;
    assert h' == h + [h'[|h|]];
    HistoryGrows(s, seen, h, Observed(call), h'[|h|]);
  }

  lemma ObservedGrows(calls: seq<Call>, n: nat)
    requires n < |calls|
    ensures ObservedAll(calls)[..n + 1] == ObservedAll(calls)[..n] + [Observed(calls[n])]
  {
  }

  /** One replay step from a history like the recorded one. */
  lemma {:induction false} StepFollows(s: Setting, agent: Agent, agent': Agent, calls: seq<Call>, n: nat, h: seq<Observation>)
    requires ReplayableRun(s, agent, agent', calls) && n < |calls| && Stored(calls[n])
    requires SameHistory(s, ObservedAll(calls)[..n], h) && Reached(calls, n)
    ensures var p := ReplayStep(s, Strict, RecordedAll(s.k, s.rc, s.rec, calls), agent', h, true);
            p.Going? && SameHistory(s, ObservedAll(calls)[..n + 1], p.h)
  {
    AgentsAgree(s, agent, agent', ObservedAll(calls)[..n], h);
    StoredCallFound(s, calls, n);
    ObservedGrows(calls, n);
    StepExtends(s, RecordedAll(s.k, s.rc, s.rec, calls), agent', ObservedAll(calls)[..n], h, calls[n]);
  }

  lemma ReplayUnfolds(s: Setting, log: seq<Record>, agent: Agent, readable: nat -> bool, n: nat)
    requires Lawful(s.k) && Replay(s, Strict, log, agent, readable, n).Going?
    ensures Replay(s, Strict, log, agent, readable, n + 1)
         == ReplayStep(s, Strict, log, agent, Replay(s, Strict, log, agent, readable, n).h, readable(n))
  {
  }

  /** From h, which matches the first n observations, one step leads to n + 1 that match. */
  ghost predicate Follows(s: Setting, log: seq<Record>, agent': Agent, calls: seq<Call>, n: nat, h: seq<Observation>)
    requires Lawful(s.k) && n < |calls|
  {
    var p := ReplayStep(s, Strict, log, agent', h, true);
    p.Going? && SameHistory(s, ObservedAll(calls)[..n + 1], p.h)
  }

  ghost predicate FollowsUpTo(s: Setting, log: seq<Record>, agent': Agent, calls: seq<Call>, n: nat)
    requires Lawful(s.k) && n <= |calls|
  {
    forall i: nat, h {:trigger Follows(s, log, agent', calls, i, h)} ::
      i < n && SameHistory(s, ObservedAll(calls)[..i], h) ==> Follows(s, log, agent', calls, i, h)
  }

  lemma OneFollows(s: Setting, log: seq<Record>, agent': Agent, calls: seq<Call>, n: nat, i: nat, h: seq<Observation>)
    requires Lawful(s.k) && i < n <= |calls| && FollowsUpTo(s, log, agent', calls, n)
    requires SameHistory(s, ObservedAll(calls)[..i], h)
    ensures Follows(s, log, agent', calls, i, h)
  {
  }

  lemma {:induction false} HistoriesMatch(s: Setting, log: seq<Record>, agent': Agent, calls: seq<Call>,
                                          readable: nat -> bool, n: nat, i: nat)
    requires Lawful(s.k) && i <= n <= |calls|
    requires FollowsUpTo(s, log, agent', calls, n)
    requires forall i: nat :: i < n ==> readable(i)
    ensures var p := Replay(s, Strict, log, agent', readable, i);
            p.Going? && SameHistory(s, ObservedAll(calls)[..i], p.h)
  {
    if i > 0 {
      HistoriesMatch(s, log, agent', calls, readable, n, i - 1);
      OneFollows(s, log, agent', calls, n, i - 1, Replay(s, Strict, log, agent', readable, i - 1).h);
      HistoryStep(s, log, agent', calls, readable, i - 1);
    }
  }

  lemma {:induction false} HistoryStep(s: Setting, log: seq<Record>, agent': Agent, calls: seq<Call>, readable: nat -> bool, n: nat)
    requires Lawful(s.k) && n < |calls| && readable(n)
    requires Replay(s, Strict, log, agent', readable, n).Going?
    requires Follows(s, log, agent', calls, n, Replay(s, Strict, log, agent', readable, n).h)
    ensures var p := Replay(s, Strict, log, agent', readable, n + 1);
            p.Going? && SameHistory(s, ObservedAll(calls)[..n + 1], p.h)
  {
    ReplayUnfolds(s, log, agent', readable, n);
  }

  /**
   * Fidelity: as long as the calls of a recorded run were stored, a strict
   * replay in the other workspace keeps going, makes the same canonical calls in
   * the same order, is served the same results, and never goes live.
   */
  lemma {:induction false} ReplayFollowsRun(s: Setting, agent: Agent, agent': Agent, calls: seq<Call>,
                         readable: nat -> bool, n: nat)
    requires ReplayableRun(s, agent, agent', calls)
    requires n <= |calls| && forall i :: 0 <= i < n ==> Stored(calls[i])
    requires forall i: nat :: i < n ==> readable(i)
    ensures var p := Replay(s, Strict, RecordedAll(s.k, s.rc, s.rec, calls), agent', readable, n);
            && p.Going?
            && SameHistory(s, ObservedAll(calls)[..n], p.h)
            && SameAction(s, agent(ObservedAll(calls)[..n]), agent'(p.h))
  {
    var log := RecordedAll(s.k, s.rc, s.rec, calls);
    forall i: nat, h {:trigger Follows(s, log, agent', calls, i, h)} | i < n && SameHistory(s, ObservedAll(calls)[..i], h)
      ensures Follows(s, log, agent', calls, i, h) {
      StepFollows(s, agent, agent', calls, i, h);
    }
    HistoriesMatch(s, log, agent', calls, readable, n, n);
    var p := Replay(s, Strict, log, agent', readable, n);
    AgentsAgree(s, agent, agent', ObservedAll(calls)[..n], p.h);
  }

  /** A run recorded to its end is replayed to its end. */
  lemma {:induction false} ReplayFinishes(s: Setting, agent: Agent, agent': Agent, calls: seq<Call>, readable: nat -> bool)
    requires ReplayableRun(s, agent, agent', calls)
    requires forall i :: 0 <= i < |calls| ==> Stored(calls[i])
    requires forall i: nat :: readable(i)
    requires agent(ObservedAll(calls)) == Finish
    ensures var p := Replay(s, Strict, RecordedAll(s.k, s.rc, s.rec, calls), agent', readable, |calls| + 1);
            p.Done? && SameHistory(s, ObservedAll(calls), p.h)
  {
    assert ObservedAll(calls)[..|calls|] == ObservedAll(calls);
    ReplayFollowsRun(s, agent, agent', calls, readable, |calls|);
  }

  /** A step whose lookup finds nothing stops the replay. */
  lemma {:induction false} StepMisses(s: Setting, log: seq<Record>, agent': Agent, h: seq<Observation>, call: Call)
    requires LawfulSetting(s) && Relocatable(s, call) && SameAction(s, ActionOf(call), agent'(h))
    requires FirstMatch(log, KindOf(call), HashOf(s.k, s.rec, call)).Miss?
    ensures ReplayStep(s, Strict, log, agent', h, true).Missed?
  {
    SameActionSameHash(s, call, agent'(h));
  }

  lemma {:induction false} StepServesOther(s: Setting, log: seq<Record>, agent': Agent, h: seq<Observation>, call: Call, other: Call)
    requires LawfulSetting(s) && Relocatable(s, call) && SameAction(s, ActionOf(call), agent'(h))
    requires Relocatable(s, other) && Stored(other) && KindOf(other) == KindOf(call)
    requires FirstMatch(log, KindOf(call), HashOf(s.k, s.rec, call)) == Hit(OutputOf(s, other))
    ensures ReplayStep(s, Strict, log, agent', h, true).Going?
  {
    SameActionSameHash(s, call, agent'(h));
    ServedIsSame(s, other);
  }

  /**
   * The first call that left no entry, a failed tool call for one, stops the
   * strict replay with a miss exactly when no entry that can be reached has its key,
   * and otherwise the replay goes on with that entry.
   */
  lemma {:induction false} UnstoredCallStopsReplay(s: Setting, agent: Agent, agent': Agent, calls: seq<Call>,
                                readable: nat -> bool, n: nat)
    requires ReplayableRun(s, agent, agent', calls)
    requires n < |calls| && !Stored(calls[n]) && forall i :: 0 <= i < n ==> Stored(calls[i])
    requires forall i: nat :: i <= n ==> readable(i)
    ensures Replay(s, Strict, RecordedAll(s.k, s.rc, s.rec, calls), agent', readable, n + 1).Missed?
            <==> forall i :: 0 <= i < |calls| && Reached(calls, i) ==> !Answers(s, calls[i], calls[n])
    ensures var p := Replay(s, Strict, RecordedAll(s.k, s.rc, s.rec, calls), agent', readable, n + 1); p.Missed? || p.Going?
  {
    ReplayFollowsRun(s, agent, agent', calls, readable, n);
    var log := RecordedAll(s.k, s.rc, s.rec, calls);
    var h := Replay(s, Strict, log, agent', readable, n).h;
    ReplayUnfolds(s, log, agent', readable, n);
    if i :| 0 <= i < |calls| && Reached(calls, i) && Answers(s, calls[i], calls[n]) {
      StoredCallFound(s, calls, i);
      HashesTellKeysApart(s, calls[i], calls[n]);
      SameKeySameKind(s, calls[i], calls[n]);
      StepServesOther(s, log, agent', h, calls[n], calls[i]);
    } else {
      UnstoredKeyMissed(s, calls, calls[n]);
      StepMisses(s, log, agent', h, calls[n]);
    }
  }

  // ---- Fallback ----

  /** A strict replay's progress, with the calls it misses made live. */
  function MissesLive(p: Progress): Progress {
    match p
    case Missed(h) => Live(h)
    case _ => p
  }

  /**
   * A fallback replay goes through exactly the histories of a strict one, whatever
   * agent and store: only where the strict replay stops at a miss does it call live.
   */
  lemma {:induction false} FallbackGoesAlike(s: Setting, log: seq<Record>, agent: Agent, readable: nat -> bool, n: nat)
    requires Lawful(s.k)
    ensures Replay(s, Fallback, log, agent, readable, n) == MissesLive(Replay(s, Strict, log, agent, readable, n))
  {
    if n > 0 {
      FallbackGoesAlike(s, log, agent, readable, n - 1);
      var p := Replay(s, Strict, log, agent, readable, n - 1);
      if p.Going? {
        StepGoesAlike(s, log, agent, p.h, readable(n - 1));
      }
    }
  }

  lemma StepGoesAlike(s: Setting, log: seq<Record>, agent: Agent, h: seq<Observation>, readable: bool)
    requires Lawful(s.k)
    ensures ReplayStep(s, Fallback, log, agent, h, readable) == MissesLive(ReplayStep(s, Strict, log, agent, h, readable))
  {
  }

  /** Fidelity in either mode: while calls were stored the replay is served what the run saw. */
  lemma FallbackFollowsRun(s: Setting, agent: Agent, agent': Agent, calls: seq<Call>, readable: nat -> bool, n: nat)
    requires ReplayableRun(s, agent, agent', calls)
    requires n <= |calls| && forall i :: 0 <= i < n ==> Stored(calls[i])
    requires forall i: nat :: i < n ==> readable(i)
    ensures var p := Replay(s, Fallback, RecordedAll(s.k, s.rc, s.rec, calls), agent', readable, n);
            && p == Replay(s, Strict, RecordedAll(s.k, s.rc, s.rec, calls), agent', readable, n)
            && p.Going?
            && SameHistory(s, ObservedAll(calls)[..n], p.h)
            && SameAction(s, agent(ObservedAll(calls)[..n]), agent'(p.h))
  {
    ReplayFollowsRun(s, agent, agent', calls, readable, n);
    FallbackGoesAlike(s, RecordedAll(s.k, s.rc, s.rec, calls), agent', readable, n);
  }

  /** In fallback mode the first call that left no entry is made live exactly when no entry that can be reached has its key. */
  lemma UnstoredCallGoesLive(s: Setting, agent: Agent, agent': Agent, calls: seq<Call>, readable: nat -> bool, n: nat)
    requires ReplayableRun(s, agent, agent', calls)
    requires n < |calls| && !Stored(calls[n]) && forall i :: 0 <= i < n ==> Stored(calls[i])
    requires forall i: nat :: i <= n ==> readable(i)
    ensures Replay(s, Fallback, RecordedAll(s.k, s.rc, s.rec, calls), agent', readable, n + 1).Live?
            <==> forall i :: 0 <= i < |calls| && Reached(calls, i) ==> !Answers(s, calls[i], calls[n])
  {
    UnstoredCallStopsReplay(s, agent, agent', calls, readable, n);
    FallbackGoesAlike(s, RecordedAll(s.k, s.rc, s.rec, calls), agent', readable, n + 1);
  }
}
