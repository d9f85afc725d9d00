// A concrete agent for the replay theorem: the loop that asks the model, runs the
// tool calls of its answer, and asks again with everything said so far.
module Conversation {
  import opened Wrappers
  import opened Json
  import opened Canonicalize
  import opened Stability
  import opened Frames
  import opened ReplayStore
  import opened RecordReplay
  import opened Fidelity

  /**
   * What a request holds besides the conversation: its opening messages, its other
   * members (tools, config, structured_output), and the role of a tool message.
   */
  datatype Prompt = Prompt(opening: seq<Json>, settings: map<string, Json>, role: Json)

  function ToolMessage(role: Json, content: Json): Json {
    Obj(map["role" := role]["content" := content])
  }

  /** How what was seen stands in the next request. */
  function MessageOf(s: Setting, role: Json, o: Observation): Json {
    match o
    case FromModel(r) => s.rc.message(r)
    case FromTool(v) => ToolMessage(role, Str(s.k.marshal(v)))
    case ToolFailed => Null
    case NoResponse => Null
  }

  function Messages(s: Setting, p: Prompt, h: seq<Observation>): seq<Json> {
    if h == [] then p.opening else Messages(s, p, h[..|h| - 1]) + [MessageOf(s, p.role, h[|h| - 1])]
  }

  function Request(s: Setting, p: Prompt, h: seq<Observation>): Json {
    Obj(p.settings["messages" := Arr(Messages(s, p, h))])
  }

  function CallsOf(r: Response): seq<ToolCall> {
    if r.choices == [] then [] else r.choices[0].message.toolCalls
  }

  /** The tool calls still to run, or nothing when it is the model's turn. */
  function Pending(h: seq<Observation>): Option<seq<ToolCall>> {
    if h == [] then None
    else
      match h[|h| - 1]
      case FromModel(r) => Some(CallsOf(r))
      case NoResponse => Some([])
      case _ =>
        match Pending(h[..|h| - 1])
        case Some(cs) => if |cs| > 1 then Some(cs[1..]) else None
        case None => None
  }

  /** One turn of the loop; an answer without tool calls ends it. */
  function Turn(s: Setting, p: Prompt, h: seq<Observation>): Action {
    match Pending(h)
    case None => CallModel(Request(s, p, h))
    case Some(cs) => if cs == [] then Finish else CallTool(cs[0].name, cs[0].args)
  }

  function Loop(s: Setting, p: Prompt): Agent {
    (h: seq<Observation>) => Turn(s, p, h)
  }

  /** Two workspaces' prompts, equal once their paths are normalized away. */
  ghost predicate SamePrompts(s: Setting, p: Prompt, p': Prompt)
    requires Lawful(s.k)
  {
    && NormalizeValue(s.k, s.rec, Arr(p.opening)) == NormalizeValue(s.k, s.rep, Arr(p'.opening))
    && NormalizeValue(s.k, s.rec, Obj(p.settings)) == NormalizeValue(s.k, s.rep, Obj(p'.settings))
    && NormalizeValue(s.k, s.rec, p.role) == NormalizeValue(s.k, s.rep, p'.role)
  }

  lemma NormalizeAppend(k: Codec, c: Canonicalizer, xs: seq<Json>, x: Json)
    requires Lawful(k)
    ensures NormalizeValue(k, c, Arr(xs + [x])).items == NormalizeValue(k, c, Arr(xs)).items + [NormalizeValue(k, c, x)]
  {
  }

  /** Objects normalize alike when their members do. */
  lemma SameMembers(s: Setting, m: map<string, Json>, m': map<string, Json>)
    requires Lawful(s.k) && m.Keys == m'.Keys
    requires forall key :: key in m ==> NormalizeValue(s.k, s.rec, m[key]) == NormalizeValue(s.k, s.rep, m'[key])
    ensures NormalizeValue(s.k, s.rec, Obj(m)) == NormalizeValue(s.k, s.rep, Obj(m'))
  {
    var r, r' := NormalizeValue(s.k, s.rec, Obj(m)), NormalizeValue(s.k, s.rep, Obj(m'));
    assert r.members.Keys == m.Keys && r'.members.Keys == m'.Keys;
    assert forall key :: key in m ==> r.members[key] == r'.members[key];
    assert r.members == r'.members;
  }

  lemma SameLookup(s: Setting, m: map<string, Json>, m': map<string, Json>)
    requires Lawful(s.k)
    requires NormalizeValue(s.k, s.rec, Obj(m)) == NormalizeValue(s.k, s.rep, Obj(m'))
    ensures m.Keys == m'.Keys
    ensures forall key :: key in m ==> NormalizeValue(s.k, s.rec, m[key]) == NormalizeValue(s.k, s.rep, m'[key])
  {
    var r, r' := NormalizeValue(s.k, s.rec, Obj(m)), NormalizeValue(s.k, s.rep, Obj(m'));
    assert m.Keys == r.members.Keys == r'.members.Keys == m'.Keys;
    forall key | key in m ensures NormalizeValue(s.k, s.rec, m[key]) == NormalizeValue(s.k, s.rep, m'[key]) {
      assert r.members[key] == r'.members[key];
    }
  }

  lemma SameInsert(s: Setting, m: map<string, Json>, m': map<string, Json>, key: string, v: Json, v': Json)
    requires Lawful(s.k)
    requires NormalizeValue(s.k, s.rec, Obj(m)) == NormalizeValue(s.k, s.rep, Obj(m'))
    requires NormalizeValue(s.k, s.rec, v) == NormalizeValue(s.k, s.rep, v')
    ensures NormalizeValue(s.k, s.rec, Obj(m[key := v])) == NormalizeValue(s.k, s.rep, Obj(m'[key := v']))
  {
    SameLookup(s, m, m');
    var n, n' := m[key := v], m'[key := v'];
    forall x | x in n ensures NormalizeValue(s.k, s.rec, n[x]) == NormalizeValue(s.k, s.rep, n'[x]) {
      if x == key {
        assert n[x] == v && n'[x] == v';
      } else {
        assert n[x] == m[x] && n'[x] == m'[x];
      }
    }
    SameMembers(s, n, n');
  }

  lemma SameToolMessage(s: Setting, role: Json, a: Json, role': Json, a': Json)
    requires Lawful(s.k)
    requires NormalizeValue(s.k, s.rec, role) == NormalizeValue(s.k, s.rep, role')
    requires NormalizeValue(s.k, s.rec, a) == NormalizeValue(s.k, s.rep, a')
    ensures NormalizeValue(s.k, s.rec, ToolMessage(role, a)) == NormalizeValue(s.k, s.rep, ToolMessage(role', a'))
  {
    SameMembers(s, map["role" := role], map["role" := role']);
    SameInsert(s, map["role" := role], map["role" := role'], "content", a, a');
  }

  lemma SameMessage(s: Setting, role: Json, o: Observation, role': Json, o': Observation)
    requires Lawful(s.k) && SameObservation(s, o, o')
    requires NormalizeValue(s.k, s.rec, role) == NormalizeValue(s.k, s.rep, role')
    ensures NormalizeValue(s.k, s.rec, MessageOf(s, role, o)) == NormalizeValue(s.k, s.rep, MessageOf(s, role', o'))
  {
    if o.FromTool? {
      SameToolMessage(s, role, Str(s.k.marshal(o.result)), role', Str(s.k.marshal(o'.result)));
    }
  }

  lemma SameAppend(s: Setting, xs: seq<Json>, x: Json, xs': seq<Json>, x': Json)
    requires Lawful(s.k)
    requires NormalizeValue(s.k, s.rec, Arr(xs)) == NormalizeValue(s.k, s.rep, Arr(xs'))
    requires NormalizeValue(s.k, s.rec, x) == NormalizeValue(s.k, s.rep, x')
    ensures NormalizeValue(s.k, s.rec, Arr(xs + [x])) == NormalizeValue(s.k, s.rep, Arr(xs' + [x']))
  {
    NormalizeAppend(s.k, s.rec, xs, x);
    NormalizeAppend(s.k, s.rep, xs', x');
  }

  lemma {:induction false} SameMessages(s: Setting, p: Prompt, p': Prompt, h: seq<Observation>, h': seq<Observation>)
    requires Lawful(s.k) && SamePrompts(s, p, p') && SameHistory(s, h, h')
    ensures NormalizeValue(s.k, s.rec, Arr(Messages(s, p, h))) == NormalizeValue(s.k, s.rep, Arr(Messages(s, p', h')))
    decreases |h|
  {
    if h != [] {
      var n := |h| - 1;
      ShorterHistory(s, h, h');
      SameMessages(s, p, p', h[..n], h'[..n]);
      SameMessage(s, p.role, h[n], p'.role, h'[n]);
      SameAppend(s, Messages(s, p, h[..n]), MessageOf(s, p.role, h[n]), Messages(s, p', h'[..n]), MessageOf(s, p'.role, h'[n]));
    }
  }

  lemma ShorterHistory(s: Setting, h: seq<Observation>, h': seq<Observation>)
    requires Lawful(s.k) && SameHistory(s, h, h') && h != []
    ensures SameHistory(s, h[..|h| - 1], h'[..|h'| - 1]) && SameObservation(s, h[|h| - 1], h'[|h| - 1])
  {
  }

  lemma SameRequests(s: Setting, p: Prompt, p': Prompt, h: seq<Observation>, h': seq<Observation>)
    requires Lawful(s.k) && SamePrompts(s, p, p') && SameHistory(s, h, h')
    ensures NormalizeValue(s.k, s.rec, Request(s, p, h)) == NormalizeValue(s.k, s.rep, Request(s, p', h'))
  {
    SameMessages(s, p, p', h, h');
    SameInsert(s, p.settings, p'.settings, "messages", Arr(Messages(s, p, h)), Arr(Messages(s, p', h')));
  }

  /** In both workspaces the same tool calls are still to run, with arguments that name neither. */
  lemma {:induction false} SamePending(s: Setting, h: seq<Observation>, h': seq<Observation>)
    requires Lawful(s.k) && SameHistory(s, h, h')
    ensures Pending(h) == Pending(h')
    ensures Pending(h).Some? ==> forall i :: 0 <= i < |Pending(h).value| ==>
              Normalize(s.k, s.rec, Pending(h).value[i].args) == Normalize(s.k, s.rep, Pending(h).value[i].args)
  {
    if h != [] {
      var n := |h| - 1;
      assert SameObservation(s, h[n], h'[n]);
      if h[n].FromTool? {
        SamePending(s, h[..n], h'[..n]);
      } else {
        var r := h[n].rsp;
        assert r.choices != [] ==> r.choices[0] in r.choices;
      }
    }
  }

  /** The loop is an agent the replay theorem covers: its two runs differ in paths only. */
  lemma {:induction false} LoopsAreSameAgents(s: Setting, p: Prompt, p': Prompt)
    requires Lawful(s.k) && SamePrompts(s, p, p')
    ensures SameAgents(s, Loop(s, p), Loop(s, p'))
  {
    forall h, h' | SameHistory(s, h, h') ensures SameAction(s, Loop(s, p)(h), Loop(s, p')(h')) {
      SamePending(s, h, h');
      SameRequests(s, p, p', h, h');
    }
  }

  /**
   * A whole run of the loop, recorded in one workspace, is replayed to its end in
   * another: every call is served from the store and nothing goes live.
   */
  lemma {:induction false} LoopReplays(s: Setting, p: Prompt, p': Prompt, calls: seq<Call>, readable: nat -> bool)
    requires LawfulSetting(s) && SamePrompts(s, p, p')
    requires IsRecording(Loop(s, p), calls) && Repeatable(s, calls)
    requires AllRelocatable(s, calls) && forall i :: 0 <= i < |calls| ==> Stored(calls[i])
    requires forall i: nat :: readable(i)
    requires Pending(ObservedAll(calls)) == Some([])
    ensures var end := Replay(s, Strict, RecordedAll(s.k, s.rc, s.rec, calls), Loop(s, p'), readable, |calls| + 1);
            end.Done? && SameHistory(s, ObservedAll(calls), end.h)
  {
    LoopsAreSameAgents(s, p, p');
    ReplayFinishes(s, Loop(s, p), Loop(s, p'), calls, readable);
  }
}
