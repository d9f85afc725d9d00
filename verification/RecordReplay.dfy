// internal/runtime/trpc/replay.go: recording tool and model calls, and serving
// them again, possibly in another workspace.
module RecordReplay {
  import opened Wrappers
  import opened Json
  import opened Canonicalize
  import opened Stability
  import opened Frames
  import opened Aggregator
  import opened ReplayStore

  datatype Mode = Strict | Fallback

  /** encoding/json on model responses, and how a response stands among a later request's messages. */
  datatype ResponseCodec = ResponseCodec(parse: string -> Option<Response>, marshal: Response -> string,
                                         message: Response -> Json)

  /** Every response that is stored decodes to itself. */
  ghost predicate LawfulResponses(rc: ResponseCodec) {
    forall a :: FinalOf(a).Some? ==> rc.parse(rc.marshal(FinalOf(a).value)) == FinalOf(a)
  }

  const NUL: char := '\U{0000}'

  function KindName(kind: Kind): string {
    match kind case Tool => "tool" case Model => "model"
  }

  /** The text that is hashed; SHA-256 is taken to tell any two texts apart. */
  function HashText(kind: Kind, name: string, norm: string): string {
    KindName(kind) + [NUL] + name + [NUL] + norm
  }

  /** Where the first NUL of a NUL-free text followed by a NUL stands. */
  lemma SplitAtNul(a: string, x: string, b: string, y: string)
    requires NUL !in a && NUL !in b
    requires a + [NUL] + x == b + [NUL] + y
    ensures a == b && x == y
  {
    var l, r := a + [NUL] + x, b + [NUL] + y;
    assert l[|a|] == NUL && r[|b|] == NUL;
    assert forall i :: 0 <= i < |a| ==> l[i] == a[i] && a[i] in a;
    assert forall i :: 0 <= i < |b| ==> r[i] == b[i] && b[i] in b;
    assert |a| == |b|;
    assert a == l[..|a|] == r[..|b|] == b;
    assert x == l[|a| + 1..] == r[|b| + 1..] == y;
  }

  /** The hashed text determines kind, name and input, for names without a NUL. */
  lemma HashTextInjective(kind: Kind, name: string, norm: string, kind': Kind, name': string, norm': string)
    requires NUL !in name && NUL !in name'
    ensures HashText(kind, name, norm) == HashText(kind', name', norm')
            <==> kind == kind' && name == name' && norm == norm'
  {
    var rest, rest' := name + [NUL] + norm, name' + [NUL] + norm';
    assert HashText(kind, name, norm) == KindName(kind) + [NUL] + rest;
    assert HashText(kind', name', norm') == KindName(kind') + [NUL] + rest';
    if HashText(kind, name, norm) == HashText(kind', name', norm') {
      SplitAtNul(KindName(kind), rest, KindName(kind'), rest');
      assert |KindName(Tool)| != |KindName(Model)|;
      SplitAtNul(name, norm, name', norm');
    }
  }

  /** A NUL in a tool name makes two different calls share one hash. */
  lemma NulNamesCollide(name: string, tail: string, norm: string)
    ensures HashText(Tool, name + [NUL] + tail, norm) == HashText(Tool, name, tail + [NUL] + norm)
    ensures name + [NUL] + tail != name
  {
    assert |name + [NUL] + tail| > |name|;
  }

  function Hash(k: Codec, c: Canonicalizer, kind: Kind, name: string, input: string): string
    requires Lawful(k)
  {
    HashText(kind, name, Normalize(k, c, input))
  }

  /** A tool call's arguments are hashed once normalized. */
  function ToolHash(k: Codec, c: Canonicalizer, name: string, args: string): string
    requires Lawful(k)
  {
    Hash(k, c, Tool, name, args)
  }

  /** canonicalizeModelRequest: the request document, marshalled and normalized. */
  function ModelInput(k: Codec, c: Canonicalizer, request: Json): string
    requires Lawful(k)
  {
    Normalize(k, c, k.marshal(request))
  }

  /** A model call's input is normalized, and Hash normalizes it once more. */
  function ModelHash(k: Codec, c: Canonicalizer, request: Json): string
    requires Lawful(k)
  {
    Hash(k, c, Model, "model", ModelInput(k, c, request))
  }

  datatype ToolOutcome = Succeeded(result: Json) | NilResult | ToolError

  /** A call made while recording; written is what its Put leaves, if it comes to one. */
  datatype Call =
    | ToolUse(name: string, args: string, outcome: ToolOutcome, written: Write)
    | ModelUse(request: Json, frames: seq<Response>, written: Write)

  /** What recording a call appends to the store. */
  function Recorded(k: Codec, rc: ResponseCodec, c: Canonicalizer, call: Call): seq<Record>
    requires Lawful(k)
  {
    match call
    case ToolUse(name, args, outcome, written) =>
      if outcome.Succeeded?
      then Left(Entry(Tool, ToolHash(k, c, name, args), args, Normalize(k, c, k.marshal(outcome.result))), written)
      else []
    case ModelUse(request, frames, written) =>
      var final := FinalOf(AddFrames(EMPTY, frames));
      if final.Some?
      then Left(Entry(Model, ModelHash(k, c, request), ModelInput(k, c, request), rc.marshal(final.value)), written)
      else []
  }

  /**
   * A successful tool call is stored under the hash of its name and normalized
   * arguments, with the arguments as they came and an output that decodes to the
   * result with its paths rewritten.
   */
  lemma StoredToolEntry(k: Codec, rc: ResponseCodec, c: Canonicalizer, name: string, args: string, result: Json)
    requires Lawful(k) && Readable(result)
    ensures var log := Recorded(k, rc, c, ToolUse(name, args, Succeeded(result), Whole));
            && |log| == 1 && log[0].Good?
            && log[0].entry.(output := "") == Entry(Tool, HashText(Tool, name, Normalize(k, c, args)), args, "")
            && k.parse(log[0].entry.output) == Some(NormalizeValue(k, c, result))
  {
    NormalizeKeepsReadable(k, c, result);
  }

  /** A model call is stored under the hash of its normalized request, with that request and a response that decodes to the aggregate. */
  lemma StoredModelEntry(k: Codec, rc: ResponseCodec, c: Canonicalizer, request: Json, frames: seq<Response>)
    requires Lawful(k) && LawfulResponses(rc) && FinalOf(AddFrames(EMPTY, frames)).Some?
    ensures var log, input := Recorded(k, rc, c, ModelUse(request, frames, Whole)), Normalize(k, c, k.marshal(request));
            && |log| == 1 && log[0].Good?
            && log[0].entry.(output := "") == Entry(Model, HashText(Model, "model", Normalize(k, c, input)), input, "")
            && rc.parse(log[0].entry.output) == FinalOf(AddFrames(EMPTY, frames))
  {
  }

  function RecordedAll(k: Codec, rc: ResponseCodec, c: Canonicalizer, calls: seq<Call>): seq<Record>
    requires Lawful(k)
  {
    if calls == [] then [] else Recorded(k, rc, c, calls[0]) + RecordedAll(k, rc, c, calls[1..])
  }

  /** The AfterTool callback of a recording run. */
  method RecordTool(k: Codec, rc: ResponseCodec, c: Canonicalizer, store: JSONStore,
                    name: string, args: string, outcome: ToolOutcome, w: Write)
    requires Lawful(k)
    modifies store
    ensures store.log == old(store.log) + Recorded(k, rc, c, ToolUse(name, args, outcome, w))
  {
    if !outcome.Succeeded? {
      return;
    }
    var hash := Hash(k, c, Tool, name, args);
    var norm := Normalize(k, c, k.marshal(outcome.result));
    var _ := store.Put(Entry(Tool, hash, args, norm), w);
  }

  /** recordCall: the frames go through as they come, and their aggregate is stored. */
  method RecordModel(k: Codec, rc: ResponseCodec, c: Canonicalizer, store: JSONStore,
                     request: Json, frames: seq<Response>, w: Write) returns (out: seq<Response>)
    requires Lawful(k)
    modifies store
    ensures out == frames
    ensures store.log == old(store.log) + Recorded(k, rc, c, ModelUse(request, frames, w))
  {
    var input := ModelInput(k, c, request);
    var hash := Hash(k, c, Model, "model", input);
    var final;
    out, final := PassThrough(frames);
    if final.Some? {
      var _ := store.Put(Entry(Model, hash, input, rc.marshal(final.value)), w);
    }
  }

  method PassThrough(frames: seq<Response>) returns (out: seq<Response>, final: Option<Response>)
    ensures out == frames
    ensures final == FinalOf(AddFrames(EMPTY, frames))
  {
    var agg := new ResponseAggregator();
    out := [];
    for i := 0 to |frames|
      invariant out == frames[..i]
      invariant agg.State() == AddFrames(EMPTY, frames[..i])
    {
      assert frames[..i + 1][..i] == frames[..i];
      agg.Add(frames[i]);
      out := out + [frames[i]];
    }
    assert frames[..|frames|] == frames;
    final := agg.Final();
  }

  /** What a call gets during replay: a stored value, an error, or a live call. */
  datatype Service<T> = Served(value: T) | StrictMiss | WentLive

  /**
   * The BeforeTool callback, once the store has replied. In either mode a hit that
   * decodes is served, and a store that failed or an entry that does not decode
   * sends the call live; only a miss depends on the mode.
   */
  function ServeTool(k: Codec, mode: Mode, reply: Reply): (r: Service<Json>)
    ensures r.Served? <==> reply.Hit? && k.parse(reply.output).Some?
    ensures r.Served? ==> k.parse(reply.output) == Some(r.value)
    ensures r.StrictMiss? <==> mode == Strict && reply.Miss?
  {
    match reply
    case Failed => WentLive
    case Hit(out) => (match k.parse(out) case None => WentLive case Some(v) => Served(v))
    case Miss => if mode == Strict then StrictMiss else WentLive
  }

  /** replayCall, once the store has replied: served, or else a miss when strict and live when not. */
  function ServeModel(rc: ResponseCodec, mode: Mode, reply: Reply): (r: Service<Response>)
    ensures r.StrictMiss? <==> mode == Strict && !r.Served?
    ensures r.Served? <==> reply.Hit? && rc.parse(reply.output).Some?
    ensures r.Served? ==> rc.parse(reply.output) == Some(r.value)
  {
    if reply.Hit? && rc.parse(reply.output).Some? then Served(rc.parse(reply.output).value)
    else if mode == Strict then StrictMiss
    else WentLive
  }

  /** The tool callback of a replaying run, with its lookup. */
  method ReplayTool(k: Codec, c: Canonicalizer, mode: Mode, store: JSONStore,
                    name: string, args: string, readable: bool) returns (r: Service<Json>)
    requires Lawful(k)
    ensures r == ServeTool(k, mode, if readable then FirstMatch(store.log, Tool, ToolHash(k, c, name, args)) else Failed)
  {
    var hash := Hash(k, c, Tool, name, args);
    var reply := store.Lookup(Tool, hash, readable);
    r := ServeTool(k, mode, reply);
  }

  /** The wrapped model of a replaying run, with its lookup. */
  method ReplayModel(k: Codec, rc: ResponseCodec, c: Canonicalizer, mode: Mode, store: JSONStore,
                     request: Json, readable: bool) returns (r: Service<Response>)
    requires Lawful(k)
    ensures r == ServeModel(rc, mode, if readable then FirstMatch(store.log, Model, ModelHash(k, c, request)) else Failed)
  {
    var hash := Hash(k, c, Model, "model", ModelInput(k, c, request));
    var reply := store.Lookup(Model, hash, readable);
    r := ServeModel(rc, mode, reply);
  }
}
