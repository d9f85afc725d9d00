// internal/replay/jsonstore.go: an append-only log of recorded calls, scanned
// from the start so that the earliest matching entry is the one served.
module ReplayStore {
  import opened Wrappers

  datatype Kind = Tool | Model

  datatype Entry = Entry(kind: Kind, hash: string, input: string, output: string)

  /** What a scan reads at one place: an entry, or text that does not decode. */
  datatype Record = Good(entry: Entry) | Corrupt

  /** Lookup's answers; Failed is an error from the file system. */
  datatype Reply = Hit(output: string) | Miss | Failed

  /**
   * What appending an entry leaves in the file: the entry, the entry with an error
   * reported after it was written, nothing, or a piece of it that does not decode.
   */
  datatype Write = Whole | WholeButFailed | Nothing | Torn

  function Left(e: Entry, w: Write): seq<Record> {
    match w
    case Whole => [Good(e)]
    case WholeButFailed => [Good(e)]
    case Nothing => []
    case Torn => [Corrupt]
  }

  predicate Matches(r: Record, kind: Kind, hash: string) {
    r.Good? && r.entry.kind == kind && r.entry.hash == hash
  }

  function FirstMatch(log: seq<Record>, kind: Kind, hash: string): Reply {
    if log == [] || log[0].Corrupt? then Miss
    else if Matches(log[0], kind, hash) then Hit(log[0].entry.output)
    else FirstMatch(log[1..], kind, hash)
  }

  /** i is the entry a lookup serves: it matches, and nothing before it does or is corrupt. */
  ghost predicate IsFirst(log: seq<Record>, kind: Kind, hash: string, i: int) {
    && 0 <= i < |log|
    && log[i].Good? && log[i].entry.kind == kind && log[i].entry.hash == hash
    && forall j :: 0 <= j < i ==> log[j].Good? && (log[j].entry.kind != kind || log[j].entry.hash != hash)
  }

  /** A lookup hits exactly when there is a first match, and serves it. */
  lemma {:induction false} HitIffFirst(log: seq<Record>, kind: Kind, hash: string)
    ensures FirstMatch(log, kind, hash).Hit? <==> exists i :: IsFirst(log, kind, hash, i)
    ensures forall i :: IsFirst(log, kind, hash, i) ==> FirstMatch(log, kind, hash) == Hit(log[i].entry.output)
    ensures !FirstMatch(log, kind, hash).Failed?
  {
    if log != [] && log[0].Good? {
      var rest := log[1..];
      HitIffFirst(rest, kind, hash);
      if Matches(log[0], kind, hash) {
        assert IsFirst(log, kind, hash, 0);
      } else {
        forall i | IsFirst(rest, kind, hash, i) ensures IsFirst(log, kind, hash, i + 1) {
          forall j | 0 <= j < i + 1 ensures log[j].Good? && (log[j].entry.kind != kind || log[j].entry.hash != hash) {
            assert j > 0 ==> log[j] == rest[j - 1];
          }
        }
        forall i | IsFirst(log, kind, hash, i) ensures i > 0 && IsFirst(rest, kind, hash, i - 1) {
          assert i != 0;
          assert forall j :: 0 <= j < i - 1 ==> rest[j] == log[j + 1];
        }
      }
    }
  }

  /** Appending never changes what a lookup that hit will serve. */
  lemma {:induction false} EarliestWins(log: seq<Record>, more: seq<Record>, kind: Kind, hash: string)
    requires FirstMatch(log, kind, hash).Hit?
    ensures FirstMatch(log + more, kind, hash) == FirstMatch(log, kind, hash)
  {
    assert (log + more)[0] == log[0];
    if !Matches(log[0], kind, hash) {
      assert (log + more)[1..] == log[1..] + more;
      EarliestWins(log[1..], more, kind, hash);
    }
  }

  /** A torn write hides every entry appended after it. */
  lemma {:induction false} TornHidesRest(log: seq<Record>, more: seq<Record>, kind: Kind, hash: string)
    ensures FirstMatch(log + [Corrupt] + more, kind, hash) == FirstMatch(log, kind, hash)
  {
    var all := log + [Corrupt] + more;
    if log != [] && log[0].Good? && !Matches(log[0], kind, hash) {
      assert all[1..] == log[1..] + [Corrupt] + more;
      TornHidesRest(log[1..], more, kind, hash);
    }
  }

  class JSONStore {
    var log: seq<Record>

    constructor (log: seq<Record>)
      ensures this.log == log
    {
      this.log := log;
    }

    /** Appends an entry as far as encoding and writing it go, and says whether they succeed. */
    method Put(e: Entry, w: Write) returns (ok: bool)
      modifies this
      ensures ok == w.Whole?
      ensures log == old(log) + Left(e, w)
    {
      log := log + Left(e, w);
      ok := w.Whole?;
    }

    /** Scans the file; readable is whether syncing and seeking it succeed. */
    method Lookup(kind: Kind, hash: string, readable: bool) returns (reply: Reply)
      ensures reply == if readable then FirstMatch(log, kind, hash) else Failed
    {
      if !readable {
        return Failed;
      }
      var i := 0;
      while i < |log|
        invariant 0 <= i <= |log|
        invariant FirstMatch(log, kind, hash) == FirstMatch(log[i..], kind, hash)
      {
        if log[i].Corrupt? {
          break;
        }
        if log[i].entry.kind == kind && log[i].entry.hash == hash {
          return Hit(log[i].entry.output);
        }
        i := i + 1;
      }
      reply := Miss;
    }
  }
}
