// The hypotheses of the replay theorem can all hold together: a run of the loop,
// recorded in one workspace, to be replayed in another, with codecs that keep
// the laws asked of them.
module ReplayExample {
  import opened Wrappers
  import opened Text
  import opened Json
  import opened Placeholders
  import opened Canonicalize
  import opened TextStability
  import opened Stability
  import opened Frames
  import opened Aggregator
  import opened ReplayStore
  import opened RecordReplay
  import opened Fidelity
  import opened Conversation
  import opened CodecModel

  // ---- A lawful codec for responses ----

  function CallDoc(tc: ToolCall): Json {
    Arr([Str(tc.id), Str(tc.name), Str(tc.args)])
  }

  function CallsDoc(tcs: seq<ToolCall>): Json {
    Arr(seq(|tcs|, i requires 0 <= i < |tcs| => CallDoc(tcs[i])))
  }

  function IntDoc(n: int): Json {
    Arr([Bool(n < 0), Str(Unary(if n < 0 then -n else n))])
  }

  function UsageDoc(u: Option<Usage>): Json {
    match u
    case None => Null
    case Some(u) => Arr([IntDoc(u.prompt), IntDoc(u.completion)])
  }

  /** The response stored for an aggregate, as a document. */
  function Doc(a: Aggregate): Json {
    Arr([Str(a.modelName), Str(a.content), CallsDoc(a.toolCalls), UsageDoc(a.usage)])
  }

  lemma CallsDocInjective(a: seq<ToolCall>, b: seq<ToolCall>)
    requires CallsDoc(a) == CallsDoc(b)
    ensures a == b
  {
    var x, y := CallsDoc(a).items, CallsDoc(b).items;
    assert |x| == |a| && |y| == |b|;
    forall i | 0 <= i < |a| ensures a[i] == b[i] {
      assert x[i] == CallDoc(a[i]) && y[i] == CallDoc(b[i]);
      assert CallDoc(a[i]).items[0] == CallDoc(b[i]).items[0];
      assert CallDoc(a[i]).items[1] == CallDoc(b[i]).items[1];
      assert CallDoc(a[i]).items[2] == CallDoc(b[i]).items[2];
    }
  }

  lemma IntDocInjective(m: int, n: int)
    requires IntDoc(m) == IntDoc(n)
    ensures m == n
  {
    assert IntDoc(m).items[0] == IntDoc(n).items[0] && IntDoc(m).items[1] == IntDoc(n).items[1];
    var x, y := IntDoc(m).items[1].text, IntDoc(n).items[1].text;
    assert |x| == (if m < 0 then -m else m) && |y| == if n < 0 then -n else n;
  }

  lemma UsageDocInjective(a: Option<Usage>, b: Option<Usage>)
    requires UsageDoc(a) == UsageDoc(b)
    ensures a == b
  {
    if a.Some? && b.Some? {
      assert UsageDoc(a).items[0] == UsageDoc(b).items[0] && UsageDoc(a).items[1] == UsageDoc(b).items[1];
      IntDocInjective(a.value.prompt, b.value.prompt);
      IntDocInjective(a.value.completion, b.value.completion);
    }
  }

  lemma DocInjective(a: Aggregate, b: Aggregate)
    requires Enc(Doc(a)) == Enc(Doc(b))
    ensures FinalOf(a) == FinalOf(b)
  {
    assert Enc(Doc(a)) + "" == Enc(Doc(b)) + "";
    EncPrefix(Doc(a), "", Doc(b), "");
    var x, y := Doc(a).items, Doc(b).items;
    assert x[0] == y[0] && x[1] == y[1] && x[2] == y[2] && x[3] == y[3];
    CallsDocInjective(a.toolCalls, b.toolCalls);
    UsageDocInjective(a.usage, b.usage);
  }

  /** The aggregate whose stored response r is. */
  function Stores(r: Response): Aggregate {
    var msg := if r.choices == [] then NO_MESSAGE else r.choices[0].message;
    Aggregate(msg.content, false, r.usage, msg.toolCalls, r.model)
  }

  lemma StoresFinal(a: Aggregate)
    requires FinalOf(a).Some?
    ensures FinalOf(Stores(FinalOf(a).value)) == FinalOf(a)
  {
  }

  ghost function ParseResponse(t: string): (r: Option<Response>)
    ensures forall a :: FinalOf(a).Some? && Enc(Doc(Stores(FinalOf(a).value))) == t ==> r == FinalOf(a)
  {
    if a :| FinalOf(a).Some? && Enc(Doc(Stores(FinalOf(a).value))) == t then
      assert forall b :: FinalOf(b).Some? && Enc(Doc(Stores(FinalOf(b).value))) == t ==> FinalOf(a) == FinalOf(b) by {
        forall b | FinalOf(b).Some? && Enc(Doc(Stores(FinalOf(b).value))) == t ensures FinalOf(a) == FinalOf(b) {
          DocInjective(Stores(FinalOf(a).value), Stores(FinalOf(b).value));
          StoresFinal(a);
          StoresFinal(b);
        }
      }
      FinalOf(a)
    else None
  }

  lemma LawfulResponsesExist()
    ensures exists rc :: LawfulResponses(rc) && forall r :: rc.message(r) == Null
  {
    var rc := ResponseCodec((t: string) => ParseResponse(t), (r: Response) => Enc(Doc(Stores(r))), (r: Response) => Null);
    assert LawfulResponses(rc);
  }

  // ---- A run ----

  const ANSWER := Response(Completion, "m", [Choice(NO_MESSAGE, Message("", [], ""))], None, true, None)

  /** One question about the workspace, and one answer that calls no tool. */
  function ExamplePrompt(root: string): Prompt {
    Prompt([Str(root)], map[], Null)
  }

  function ExampleCalls(s: Setting): seq<Call> {
    [ModelUse(Request(s, ExamplePrompt(s.rec.root), []), [ANSWER], Whole)]
  }

  /** A root such as /a: two characters, the first a slash and the other no $, slash, backslash or space. */
  predicate PlainRoot(root: string) {
    |root| == 2 && root[0] == '/' && root[1] != '$' && root[1] != '\\' && !IsSpace(root[1])
  }

  lemma ApartByChar(pat: string, sub: string)
    requires pat != "" && pat[0] !in sub
    ensures Separate(pat, sub)
  {
    AbsentByChar(sub, pat, 0);
    forall n | 0 < n <= |sub| ensures !Straddles(pat, sub, n) {
      var tail := sub[|sub| - n..];
      assert tail[0] == sub[|sub| - n];
    }
  }

  lemma RootRewritten(c: Canonicalizer)
    requires PlainRoot(c.root) && c.tmp == ""
    ensures c.Flipped() == c.root && DollarFree(c) && Safe(c)
    ensures NormalizeString(c, c.root) == WORKSPACE
  {
    FlipLaws(c.root);
    assert '\\' !in c.root && '$' !in c.root;
    assert '/' !in WORKSPACE;
    ApartByChar(c.root, WORKSPACE);
    ReplaceLeading("", c.root, WORKSPACE);
    assert c.root + "" == c.root && WORKSPACE + "" == WORKSPACE;
  }

  /** The text of the question holds no document, before rewriting or after. */
  lemma NoDocument(k: Codec, t: string)
    requires t != "" && !IsSpace(t[0]) && !IsSpace(t[|t| - 1]) && t[0] != '{' && t[0] != '['
    ensures NestedDoc(k, t).None?
  {
    assert TrimSpace(t) == t;
  }

  lemma QuestionRewritten(k: Codec, c: Canonicalizer)
    requires Lawful(k) && PlainRoot(c.root) && c.tmp == ""
    ensures NestedDoc(k, c.root).None? && NestedDoc(k, WORKSPACE).None?
    ensures NormalizeValue(k, c, Str(c.root)) == Str(WORKSPACE)
  {
    RootRewritten(c);
    assert !IsSpace('/') && !IsSpace('$') && !IsSpace('E');
    NoDocument(k, c.root);
    NoDocument(k, WORKSPACE);
  }

  lemma OneItem(k: Codec, c: Canonicalizer, v: Json)
    requires Lawful(k)
    ensures NormalizeValue(k, c, Arr([v])) == Arr([NormalizeValue(k, c, v)])
  {
  }

  lemma NoMembersNormal(k: Codec, c: Canonicalizer)
    requires Lawful(k)
    ensures NormalizeValue(k, c, Obj(map[])) == Obj(map[])
  {
    assert NormalizeValue(k, c, Obj(map[])).members == map[];
  }

  lemma ExamplePromptsSame(s: Setting)
    requires Lawful(s.k) && PlainRoot(s.rec.root) && PlainRoot(s.rep.root) && s.rec.tmp == "" == s.rep.tmp
    ensures SamePrompts(s, ExamplePrompt(s.rec.root), ExamplePrompt(s.rep.root))
  {
    QuestionRewritten(s.k, s.rec);
    QuestionRewritten(s.k, s.rep);
    OneItem(s.k, s.rec, Str(s.rec.root));
    OneItem(s.k, s.rep, Str(s.rep.root));
    NoMembersNormal(s.k, s.rec);
    NoMembersNormal(s.k, s.rep);
  }

  /** The request that asks q and nothing else. */
  function Asking(q: Json): Json {
    Obj(map["messages" := Arr([q])])
  }

  lemma AskingNormal(k: Codec, c: Canonicalizer, q: Json)
    requires Lawful(k)
    ensures NormalizeValue(k, c, Asking(q)) == Asking(NormalizeValue(k, c, q))
  {
    OneItem(k, c, q);
    assert NormalizeValue(k, c, Asking(q)).members == map["messages" := NormalizeValue(k, c, Arr([q]))];
  }

  lemma AskingTame(k: Codec, c: Canonicalizer, q: Json)
    requires Lawful(k) && Tame(k, c, q)
    ensures Tame(k, c, Asking(q))
  {
    assert Tame(k, c, Arr([q]));
  }

  lemma AskingAvoids(k: Codec, c: Canonicalizer, q: Json)
    requires Lawful(k) && Avoids(k, c, q)
    ensures Avoids(k, c, Asking(q))
  {
    assert Avoids(k, c, Arr([q]));
  }

  lemma AskingReadable(t: string)
    ensures Readable(Asking(Str(t)))
  {
    assert Within(Arr([Str(t)]), MAX_NESTING - 1);
  }

  lemma QuestionAvoids(k: Codec, c: Canonicalizer)
    requires Lawful(k) && PlainRoot(c.root) && c.tmp == ""
    ensures Avoids(k, c, Str(WORKSPACE))
  {
    QuestionRewritten(k, c);
    RootRewritten(c);
    assert '/' !in WORKSPACE;
    AbsentByChar(WORKSPACE, c.root, 0);
    assert AvoidsText(c, WORKSPACE);
  }

  lemma ExampleSurvives(s: Setting)
    requires Lawful(s.k) && PlainRoot(s.rec.root) && PlainRoot(s.rep.root) && s.rec.tmp == "" == s.rep.tmp
    ensures Survives(s, Request(s, ExamplePrompt(s.rec.root), []))
  {
    var q := Str(s.rec.root);
    assert Request(s, ExamplePrompt(s.rec.root), []) == Asking(q);
    QuestionRewritten(s.k, s.rec);
    RootRewritten(s.rec);
    assert Tame(s.k, s.rec, q);
    AskingTame(s.k, s.rec, q);
    QuestionAvoids(s.k, s.rep);
    AskingAvoids(s.k, s.rep, Str(WORKSPACE));
    AskingNormal(s.k, s.rec, q);
    AskingReadable(s.rec.root);
  }

  lemma AnswerObserved(written: Write, request: Json)
    ensures FinalOf(AddFrames(EMPTY, [ANSWER])) == Some(ANSWER)
    ensures Observed(ModelUse(request, [ANSWER], written)) == FromModel(ANSWER)
  {
    assert [ANSWER][..0] == [];
    var h := AddHeader(EMPTY, ANSWER);
    assert ANSWER.choices[..0] == [];
    assert AddChoices(h, ANSWER.choices[..0]) == h;
    assert AddFrame(EMPTY, ANSWER) == AddChoice(h, ANSWER.choices[0]);
  }

  lemma AnswerPortable(s: Setting)
    requires Lawful(s.k) && forall r :: s.rc.message(r) == Null
    ensures Portable(s, ANSWER)
  {
    LawShortens(s.k, "");
    forall ch | ch in ANSWER.choices
      ensures Normalize(s.k, s.rec, ch.message.content) == Normalize(s.k, s.rep, ch.message.content)
              && forall tc :: tc in ch.message.toolCalls ==> Normalize(s.k, s.rec, tc.args) == Normalize(s.k, s.rep, tc.args) {
      assert ch.message.content == "" && ch.message.toolCalls == [];
      EmptyNormal(s.rec);
      EmptyNormal(s.rep);
    }
  }

  lemma EmptyNormal(c: Canonicalizer)
    ensures NormalizeString(c, "") == ""
  {
  }

  /** Everything LoopReplays asks of a setting, two prompts and a recorded run. */
  ghost predicate LoopReplayable(s: Setting, p: Prompt, p': Prompt, calls: seq<Call>) {
    && LawfulSetting(s) && SamePrompts(s, p, p')
    && IsRecording(Loop(s, p), calls) && Repeatable(s, calls)
    && AllRelocatable(s, calls) && (forall i :: 0 <= i < |calls| ==> Stored(calls[i]))
    && Pending(ObservedAll(calls)) == Some([])
  }

  lemma ExampleReplayable(s: Setting)
    requires Lawful(s.k) && LawfulResponses(s.rc) && forall r :: s.rc.message(r) == Null
    requires PlainRoot(s.rec.root) && PlainRoot(s.rep.root) && s.rec.tmp == "" == s.rep.tmp
    ensures LoopReplayable(s, ExamplePrompt(s.rec.root), ExamplePrompt(s.rep.root), ExampleCalls(s))
  {
    var p, calls := ExamplePrompt(s.rec.root), ExampleCalls(s);
    RootRewritten(s.rec);
    RootRewritten(s.rep);
    ExamplePromptsSame(s);
    ExampleSurvives(s);
    AnswerPortable(s);
    AnswerObserved(Whole, Request(s, p, []));
    assert ObservedAll(calls) == [FromModel(ANSWER)] && ObservedAll(calls)[..0] == [];
    assert Stored(calls[0]) && Relocatable(s, calls[0]);
    assert ActionOf(calls[0]) == Loop(s, p)([]);
  }

  lemma ExampleIsOne(s: Setting)
    requires Lawful(s.k) && LawfulResponses(s.rc) && forall r :: s.rc.message(r) == Null
    requires PlainRoot(s.rec.root) && PlainRoot(s.rep.root) && s.rec.tmp == "" == s.rep.tmp && s.rec.root != s.rep.root
    ensures exists s, p, p', calls :: LoopReplayable(s, p, p', calls) && calls != [] && s.rec.root != s.rep.root
  {
    ExampleReplayable(s);
    assert ExampleCalls(s) != [];
  }

  lemma TwoRoots()
    ensures exists a, b :: PlainRoot(a) && PlainRoot(b) && a != b
  {
    assert !IsSpace('a') && !IsSpace('b');
    var a, b := "/a", "/b";
    assert PlainRoot(a) && PlainRoot(b) && a[1] != b[1];
  }

  /** In two different workspaces, for some codecs, a run that is not empty meets every hypothesis. */
  lemma HypothesesHoldTogether()
    ensures exists s, p, p', calls :: LoopReplayable(s, p, p', calls) && calls != [] && s.rec.root != s.rep.root
  {
    LawfulCodecExists();
    LawfulResponsesExist();
    var k :| Lawful(k);
    var rc :| LawfulResponses(rc) && forall r :: rc.message(r) == Null;
    TwoRoots();
    var a, b :| PlainRoot(a) && PlainRoot(b) && a != b;
    ExampleIsOne(Setting(k, rc, Canonicalizer(a, ""), Canonicalizer(b, "")));
  }
}
