/** The two streaming endpoints end to end: what the engine's chunks and
    state look like as Python values, and the events `run_stream` and
    `resume_stream` emit for a thread. */
module Streams {
  import opened Wrappers
  import opened PyValues
  import opened Jsonable
  import opened Graph
  import opened Engine
  import opened Runs
  import opened Events

  // ---------------------------------------------------------------------
  // The state as Python values

  /** A dict with string keys, none repeated, whose values are JSON values
      is itself a JSON value. */
  lemma ObjIsJson(fields: seq<(string, PyValue)>)
    requires forall i, j :: 0 <= i < j < |fields| ==> fields[i].0 != fields[j].0
    requires forall i :: 0 <= i < |fields| ==> IsJson(fields[i].1)
    ensures IsJson(Obj(fields))
  {
    var r := Obj(fields);
    forall i, j | 0 <= i < j < |r.entries| ensures r.entries[i].0 != r.entries[j].0 {
      assert r.entries[i].0.s == fields[i].0;
    }
  }

  /** A list of strings is a JSON value. */
  lemma StrListIsJson(ss: seq<string>)
    ensures IsJson(StrList(ss))
  {
  }

  function LocatorValue(l: Locator): (r: PyValue)
    ensures IsJson(r)
  {
    match l
    case UrlText(hint) =>
      var fs := [("type", PStr("url+text")), ("hint", PStr(hint))];
      ObjIsJson(fs);
      Obj(fs)
    case DocOffset(offset, length) =>
      var fs := [("type", PStr("doc+offset")), ("offset", PInt(offset)), ("length", PInt(length))];
      ObjIsJson(fs);
      Obj(fs)
  }

  /** An evidence block: a web source carries `url` and `accessed_at`, a
      local note carries `doc_id`. */
  function EvidenceValue(e: Evidence): (r: PyValue)
    ensures IsJson(r)
  {
    var head := [("source_type", PStr(e.sourceType)), ("title", PStr(e.title))];
    var address := match e.address
      case Url(u) => [("url", PStr(u))]
      case DocId(d) => [("doc_id", PStr(d))];
    var accessed := if e.accessedAt.Some? then [("accessed_at", PStr(e.accessedAt.value))] else [];
    var fs := head + address + accessed + [("snippet", PStr(e.snippet)), ("locator", LocatorValue(e.locator))];
    assert forall i :: 0 <= i < |fs| ==> fs[i].0 in {"source_type", "title", "url", "doc_id", "accessed_at", "snippet", "locator"};
    ObjIsJson(fs);
    Obj(fs)
  }

  function PlanValue(p: Plan): (r: PyValue)
    ensures IsJson(r)
  {
    var fs := [("topic", PStr(p.topic)), ("questions", StrList(p.questions)),
               ("sources", StrList(p.sources)), ("deliverables", StrList(p.deliverables))];
    StrListIsJson(p.questions);
    StrListIsJson(p.sources);
    StrListIsJson(p.deliverables);
    ObjIsJson(fs);
    Obj(fs)
  }

  function IntList(xs: seq<int>): (r: PyValue)
    ensures IsJson(r)
  {
    PSeq(List, seq(|xs|, i requires 0 <= i < |xs| => PInt(xs[i])))
  }

  function TimelineValue(t: TimelineEntry): (r: PyValue)
    ensures IsJson(r)
  {
    var fs := [("t", PStr(t.t)), ("event", PStr(t.event))];
    ObjIsJson(fs);
    Obj(fs)
  }

  function ControversyValue(c: Controversy): (r: PyValue)
    ensures IsJson(r)
  {
    var fs := [("claim", PStr(c.claim)), ("evidence_refs", IntList(c.evidenceRefs))];
    ObjIsJson(fs);
    Obj(fs)
  }

  function CitationValue(c: Citation): (r: PyValue)
    ensures IsJson(r)
  {
    var fs := [("ref_id", PInt(c.refId)), ("title", PStr(c.title)), ("locator", LocatorValue(c.locator))];
    ObjIsJson(fs);
    Obj(fs)
  }

  function AssetsValue(a: Assets): (r: PyValue)
    ensures IsJson(r)
  {
    var tree := [("root", PStr(a.issueTree.root)), ("children", StrList(a.issueTree.children))];
    StrListIsJson(a.issueTree.children);
    ObjIsJson(tree);
    var fs := [
      ("issue_tree", Obj(tree)),
      ("timeline", PSeq(List, seq(|a.timeline|, i requires 0 <= i < |a.timeline| => TimelineValue(a.timeline[i])))),
      ("controversy_map", PSeq(List, seq(|a.controversyMap|, i requires 0 <= i < |a.controversyMap| => ControversyValue(a.controversyMap[i])))),
      ("citations", PSeq(List, seq(|a.citations|, i requires 0 <= i < |a.citations| => CitationValue(a.citations[i]))))];
    ObjIsJson(fs);
    Obj(fs)
  }

  /** The entries of a dict built from named, possibly missing values: each
      value that is there, under its name, in order. */
  function Present(cs: seq<(string, Option<PyValue>)>): (r: seq<(Key, PyValue)>)
    ensures forall p :: p in r ==> p.0.KStr? && (p.0.s, Some(p.1)) in cs
  {
    if cs == [] then []
    else (if cs[0].1.Some? then [(KStr(cs[0].0), cs[0].1.value)] else []) + Present(cs[1..])
  }

  predicate DistinctCandidates(cs: seq<(string, Option<PyValue>)>) {
    forall i, j :: 0 <= i < j < |cs| ==> cs[i].0 != cs[j].0
  }

  /** No entry is named like a candidate that comes earlier. */
  lemma PresentNamesLater(cs: seq<(string, Option<PyValue>)>)
    requires DistinctCandidates(cs) && cs != []
    ensures forall p :: p in Present(cs[1..]) ==> p.0 != KStr(cs[0].0)
  {
    var rest := cs[1..];
    forall p | p in Present(rest) ensures p.0 != KStr(cs[0].0) {
      var i :| 0 <= i < |rest| && rest[i] == (p.0.s, Some(p.1));
      assert cs[i + 1] == rest[i];
    }
  }

  /** With distinct names, the entries have string keys and no key twice. */
  lemma {:induction false} PresentStrKeyed(cs: seq<(string, Option<PyValue>)>)
    requires DistinctCandidates(cs)
    ensures StrKeyed(Present(cs))
  {
    if cs != [] {
      PresentStrKeyed(cs[1..]);
      PresentNamesLater(cs);
    }
  }

  /** With distinct names, looking a candidate's name up finds exactly the
      value given under it, or nothing when it is missing. */
  lemma {:induction false} PresentFind(cs: seq<(string, Option<PyValue>)>, i: nat)
    requires DistinctCandidates(cs) && i < |cs|
    ensures Find(Present(cs), cs[i].0) == cs[i].1
  {
    var rest := cs[1..];
    var head: seq<(Key, PyValue)> := if cs[0].1.Some? then [(KStr(cs[0].0), cs[0].1.value)] else [];
    assert Present(cs) == head + Present(rest);
    if head != [] {
      assert Present(cs)[0] == head[0];
      assert Present(cs)[1..] == Present(rest);
    } else {
      assert Present(cs) == Present(rest);
    }
    if i == 0 {
      if head == [] {
        PresentNamesLater(cs);
        NotFound(Present(rest), cs[0].0);
      }
    } else {
      assert rest[i - 1] == cs[i];
      assert cs[0].0 != cs[i].0;
      PresentFind(rest, i - 1);
    }
  }

  lemma {:induction false} NotFound(entries: seq<(Key, PyValue)>, k: string)
    requires forall p :: p in entries ==> p.0 != KStr(k)
    ensures Find(entries, k).None?
  {
    if entries != [] {
      assert entries[0] in entries;
      NotFound(entries[1..], k);
    }
  }

  function Field<T>(name: string, v: Option<T>, f: T -> PyValue): (string, Option<PyValue>) {
    (name, if v.Some? then Some(f(v.value)) else None)
  }

  function EvidenceList(ev: seq<Evidence>): (r: PyValue)
    ensures IsJson(r)
  {
    PSeq(List, seq(|ev|, i requires 0 <= i < |ev| => EvidenceValue(ev[i])))
  }

  /** The fields of a state, named as in `ResearchState`, in declaration order. */
  function StateFields(s: State): (cs: seq<(string, Option<PyValue>)>)
    ensures DistinctCandidates(cs)
    ensures forall c :: c in cs && c.1.Some? ==> IsJson(c.1.value)
  {
    [Field("topic", s.topic, (t: string) => PStr(t)),
     Field("mode", s.mode, (m: string) => PStr(m)),
     Field("plan", s.plan, PlanValue),
     Field("evidence", s.evidence, EvidenceList),
     Field("assets", s.assets, AssetsValue),
     Field("status", s.status, (t: string) => PStr(t))]
  }

  /** A state, or a stage's partial update, as the dict the stage returns. */
  function StateValue(s: State): PyValue {
    PDict(Present(StateFields(s)))
  }

  /** The dict holds exactly the fields that are set, each once under its
      name (a field that is not set is not found), and is already a JSON
      value. */
  lemma StateValueFields(s: State)
    ensures IsJson(StateValue(s))
    ensures var cs := StateFields(s);
      forall i :: 0 <= i < |cs| ==> Find(StateValue(s).entries, cs[i].0) == cs[i].1
  {
    PresentDict(StateFields(s));
  }

  /** What `PresentFind` and `PresentStrKeyed` give for a whole dict. */
  lemma PresentDict(cs: seq<(string, Option<PyValue>)>)
    requires DistinctCandidates(cs)
    requires forall c :: c in cs && c.1.Some? ==> IsJson(c.1.value)
    ensures IsJson(PDict(Present(cs)))
    ensures forall i :: 0 <= i < |cs| ==> Find(Present(cs), cs[i].0) == cs[i].1
  {
    PresentStrKeyed(cs);
    forall i | 0 <= i < |cs| ensures Find(Present(cs), cs[i].0) == cs[i].1 {
      PresentFind(cs, i);
    }
  }

  /** The payload `approve_plan` hands to `interrupt`. */
  function RequestValue(req: ApprovalRequest): (r: PyValue)
    ensures IsJson(r) && r.PDict?
    ensures Find(r.entries, "type") == Some(PStr("approve_plan"))
    ensures Find(r.entries, "message") == Some(PStr(ApprovalMessage))
    ensures Find(r.entries, "plan") == Some(PlanValue(req.plan))
  {
    var fs := [("type", PStr("approve_plan")), ("message", PStr(ApprovalMessage)), ("plan", PlanValue(req.plan))];
    ObjIsJson(fs);
    var entries := Obj(fs).entries;
    assert entries[0].0 != KStr("plan") && entries[1].0 != KStr("plan") by {
      assert "type"[0] != "plan"[0] && "message"[0] != "plan"[0];
    }
    assert Find(entries, "plan") == Find(entries[1..], "plan") == Find(entries[1..][1..], "plan");
    assert entries[1..][1..][0] == (KStr("plan"), PlanValue(req.plan));
    Obj(fs)
  }

  /** A stage's update under the stage's name. */
  function UpdateValue(stage: Stage, d: State): (r: PyValue)
    ensures !IsInterruptChunk(r)
  {
    var entries := [(KStr(StageName(stage)), StateValue(d))];
    assert |StageName(stage)| < |"__interrupt__"|;
    assert KeysOf(entries) == [KStr(StageName(stage))];
    PDict(entries)
  }

  /** The tuple of interrupts under `__interrupt__`. */
  function InterruptChunkValue(req: ApprovalRequest): (r: PyValue)
    ensures IsInterruptChunk(r)
  {
    var entries := [(KStr("__interrupt__"), PSeq(Tuple, [PInterrupt(RequestValue(req))]))];
    assert KeysOf(entries) == [KStr("__interrupt__")];
    PDict(entries)
  }

  /** What `stream(..., stream_mode="updates")` yields for a chunk: the
      stage's update under the stage's name, or, when `approve_plan`
      suspends, the tuple of interrupts under `__interrupt__`. */
  function ChunkValue(c: Chunk): (r: PyValue)
    ensures IsInterruptChunk(r) <==> c.Paused?
  {
    match c
    case Updated(stage, d) => UpdateValue(stage, d)
    case Paused(req) => InterruptChunkValue(req)
  }

  function ChunkValues(chunks: seq<Chunk>): (r: seq<PyValue>)
    ensures |r| == |chunks|
    ensures forall i :: 0 <= i < |r| ==> r[i] == ChunkValue(chunks[i])
  {
    seq(|chunks|, i requires 0 <= i < |chunks| => ChunkValue(chunks[i]))
  }

  /** Update chunks are not interrupt chunks. */
  lemma PlainChunks(chunks: seq<Chunk>)
    requires forall i :: 0 <= i < |chunks| ==> chunks[i].Updated?
    ensures forall i :: 0 <= i < |chunks| ==> !IsInterruptChunk(ChunkValues(chunks)[i])
  {
  }

  /** An update chunk is already a JSON value: `sse` writes it unchanged. */
  lemma UpdateWrittenAsIs(c: Chunk)
    requires c.Updated?
    ensures ToJsonable(ChunkValue(c)) == ChunkValue(c)
  {
    StateValueFields(c.update);
    JsonIsFixpoint(ChunkValue(c));
  }

  /** `str(e)` of what stopped the engine. The texts for the two resume
      failures are this model's own. */
  function ErrorMessage(e: EngineError): string {
    match e
    case StageFailed(_, cause) => ErrorText(cause)
    case UnknownThread => "unknown thread"
    case NothingToResume => "nothing to resume"
  }

  function Raised(e: Option<EngineError>): (r: Option<string>)
    ensures r.Some? <==> e.Some?
  {
    if e.Some? then Some(ErrorMessage(e.value)) else None
  }

  /** `get_state`: the interrupts the latest checkpoint waits on, and its
      `assets` if set. */
  function SnapshotOf(cp: Checkpoint): (snap: Snapshot)
    ensures |snap.interrupts| > 0 <==> cp.pending.Some?
    ensures snap.assets.Some? <==> cp.values.assets.Some?
  {
    Snapshot(
      if cp.pending.Some? then [PInterrupt(RequestValue(cp.pending.value))] else [],
      if cp.values.assets.Some? then Some(AssetsValue(cp.values.assets.value)) else None)
  }

  /** The events of `run_stream` for a new thread. */
  function RunStreamEvents(threadId: string, topic: string, mode: Option<string>): seq<Event> {
    var t := Run(Initial(topic, mode));
    StreamEvents(threadId, false, ChunkValues(t.chunks), Raised(t.error),
      SnapshotOf(Latest([Initial(topic, mode)] + t.saved)))
  }

  /** The events of `resume_stream` for a thread with the given history
      (none when the thread is unknown). */
  function ResumeStreamEvents(threadId: string, history: Option<seq<Checkpoint>>, decision: PyValue): seq<Event>
    requires history.Some? ==> |history.value| > 0
  {
    if history.None? then StreamEvents(threadId, true, [], Some(ErrorMessage(UnknownThread)), Snapshot([], None))
    else
      var t := ResumeRun(Latest(history.value), decision);
      StreamEvents(threadId, true, ChunkValues(t.chunks), Raised(t.error),
        SnapshotOf(Latest(history.value + t.saved)))
  }

  // ---------------------------------------------------------------------
  // The endpoints

  /** `run_stream`: starts a thread and drains `gen()`, which reads the
      state once the engine has stopped. `threadId` stands for the fresh
      `uuid4()`. */
  method RunStream(g: CompiledGraph, threadId: string, topic: string, mode: Option<string>) returns (events: seq<Event>)
    requires g.Valid() && threadId !in g.threads
    modifies g
    ensures g.Valid()
    ensures events == RunStreamEvents(threadId, topic, mode)
    ensures g.threads == old(g.threads)[threadId := [Initial(topic, mode)] + Run(Initial(topic, mode)).saved]
  {
    var chunks, err := g.Stream(threadId, topic, mode);
    var snap := Snapshot([], None);
    if err.None? {
      var cp := g.GetState(threadId);
      snap := SnapshotOf(cp.value);
    }
    events := Generate(threadId, false, ChunkValues(chunks), Raised(err), snap);
  }

  /** `resume_stream`: resumes a thread with the decision and drains `gen()`. */
  method ResumeStream(g: CompiledGraph, threadId: string, decision: PyValue) returns (events: seq<Event>)
    requires g.Valid()
    modifies g
    ensures g.Valid()
    ensures events == ResumeStreamEvents(threadId, if threadId in old(g.threads) then Some(old(g.threads)[threadId]) else None, decision)
    ensures threadId !in old(g.threads) ==> g.threads == old(g.threads)
    ensures threadId in old(g.threads) ==>
      g.threads == old(g.threads)[threadId := old(g.threads)[threadId] + ResumeRun(Latest(old(g.threads)[threadId]), decision).saved]
  {
    var chunks, err := g.StreamResume(threadId, decision);
    var snap := Snapshot([], None);
    if err.None? {
      var cp := g.GetState(threadId);
      snap := SnapshotOf(cp.value);
    }
    events := Generate(threadId, true, ChunkValues(chunks), Raised(err), snap);
  }

  /** Two resumes of one thread in a row: once the first has got anywhere,
      the second streams only `meta` and `error`, whatever it carries. */
  method ResumeTwice(g: CompiledGraph, threadId: string, first: PyValue, second: PyValue)
    returns (events1: seq<Event>, events2: seq<Event>)
    requires g.Valid() && threadId in g.threads
    requires ResumeRun(Latest(g.threads[threadId]), first).saved != []
    modifies g
    ensures Names(events2) == ["meta", "error"]
  {
    ghost var history := g.threads[threadId];
    events1 := ResumeStream(g, threadId, first);
    events2 := ResumeStream(g, threadId, second);
    SecondResumeFails(threadId, history, first, second);
  }

  // ---------------------------------------------------------------------
  // What a client sees

  /** A new run's stream starts with `meta` and ends in exactly one
      terminal event, the last. */
  lemma RunStreamTerminates(threadId: string, topic: string, mode: Option<string>)
    ensures var ev := RunStreamEvents(threadId, topic, mode);
      && |ev| >= 2 && ev[0] == MetaEvent(threadId, false)
      && (forall i :: 0 <= i < |ev| ==> (IsTerminal(ev[i]) <==> i == |ev| - 1))
  {
    var t := Run(Initial(topic, mode));
    StreamShape(threadId, false, ChunkValues(t.chunks), Raised(t.error),
      SnapshotOf(Latest([Initial(topic, mode)] + t.saved)));
  }

  /** Any mode but "approval": meta, three updates (align, retrieve,
      synthesize), then `done` with the synthesized assets. */
  lemma AutoStream(threadId: string, topic: string, mode: string)
    requires mode != "approval"
    ensures var ev := RunStreamEvents(threadId, topic, Some(mode));
      && Names(ev) == ["meta", "update", "update", "update", "done"]
      && ev[4] == DoneEvent(threadId, Some(AssetsValue(AssetsFor(topic, StubEvidence))))
  {
    var t := Run(Initial(topic, Some(mode)));
    var last := Latest([Initial(topic, Some(mode))] + t.saved);
    assert |t.chunks| == 3 && (forall i :: 0 <= i < |t.chunks| ==> t.chunks[i].Updated?)
      && t.error.None? && last.pending.None? && last.values.assets == Some(AssetsFor(topic, StubEvidence)) by {
      AutoRun(topic, mode);
      assert last == Latest(t.saved);
    }
    PlainChunks(t.chunks);
    DoneAfterThree(threadId, false, ChunkValues(t.chunks), Raised(t.error), SnapshotOf(last));
  }

  /** Mode "approval", the default: meta, the `align` update, then one
      `interrupt` whose single payload is the approval request. */
  lemma ApprovalStream(threadId: string, topic: string, mode: Option<string>)
    requires mode.None? || mode == Some("approval")
    ensures var ev := RunStreamEvents(threadId, topic, mode);
      && Names(ev) == ["meta", "update", "interrupt"]
      && ev[2] == InterruptEvent(threadId, [PInterrupt(RequestValue(ApprovalRequest(PlanFor(topic))))])
  {
    var t := Run(Initial(topic, mode));
    var last := Latest([Initial(topic, mode)] + t.saved);
    var req := ApprovalRequest(PlanFor(topic));
    assert |t.chunks| == 2 && t.chunks[0].Updated? && t.chunks[1] == Paused(req)
      && t.error.None? && last.pending == Some(req) by {
      ApprovalRunPauses(topic, mode);
      assert last == Latest(t.saved);
    }
    var cs := ChunkValues(t.chunks);
    assert !IsInterruptChunk(cs[0]) && IsInterruptChunk(cs[1]);
    PausedAfterOne(threadId, cs, Raised(t.error), SnapshotOf(last));
  }

  /** Approving a suspended thread: meta with `resuming`, three updates
      (approve_plan, retrieve, synthesize), then `done` with the assets. */
  lemma ApproveStream(threadId: string, topic: string, earlier: seq<Checkpoint>)
    ensures var ev := ResumeStreamEvents(threadId, Some(earlier + [Suspended(topic)]), PBool(true));
      && Names(ev) == ["meta", "update", "update", "update", "done"]
      && ev[0] == MetaEvent(threadId, true)
      && ev[4] == DoneEvent(threadId, Some(AssetsValue(AssetsFor(topic, StubEvidence))))
  {
    var history := earlier + [Suspended(topic)];
    assert Latest(history) == Suspended(topic);
    var t := ResumeRun(Suspended(topic), PBool(true));
    var last := Latest(history + t.saved);
    assert |t.chunks| == 3 && (forall i :: 0 <= i < |t.chunks| ==> t.chunks[i].Updated?)
      && t.error.None? && last.pending.None? && last.values.assets == Some(AssetsFor(topic, StubEvidence)) by {
      ApproveCompletes(topic);
      assert last == Latest(t.saved);
    }
    PlainChunks(t.chunks);
    DoneAfterThree(threadId, true, ChunkValues(t.chunks), Raised(t.error), SnapshotOf(last));
  }

  /** Rejecting a suspended thread: meta with `resuming`, two updates
      (approve_plan, end), then `done` with no assets. */
  lemma RejectStream(threadId: string, topic: string, earlier: seq<Checkpoint>, decision: PyValue)
    requires decision != PBool(true)
    ensures var ev := ResumeStreamEvents(threadId, Some(earlier + [Suspended(topic)]), decision);
      && Names(ev) == ["meta", "update", "update", "done"]
      && ev[3] == DoneEvent(threadId, None)
  {
    var history := earlier + [Suspended(topic)];
    assert Latest(history) == Suspended(topic);
    var t := ResumeRun(Suspended(topic), decision);
    var last := Latest(history + t.saved);
    assert |t.chunks| == 2 && (forall i :: 0 <= i < |t.chunks| ==> t.chunks[i].Updated?)
      && t.error.None? && last.pending.None? && last.values.assets.None? by {
      RejectEnds(topic, decision);
      assert last == Latest(t.saved);
    }
    PlainChunks(t.chunks);
    DoneAfterTwo(threadId, true, ChunkValues(t.chunks), Raised(t.error), SnapshotOf(last));
  }

  /** A second resume of a thread, with any decision, streams meta and an
      `error`; nothing is re-run. */
  lemma SecondResumeFails(threadId: string, history: seq<Checkpoint>, first: PyValue, second: PyValue)
    requires |history| > 0
    requires ResumeRun(Latest(history), first).saved != []
    ensures var after := history + ResumeRun(Latest(history), first).saved;
      Names(ResumeStreamEvents(threadId, Some(after), second)) == ["meta", "error"]
  {
    var t := ResumeRun(Latest(history), first);
    LatestAppended(history, t.saved);
    ResumeOnlyOnce(Latest(history), first, second);
  }

  /** Resuming a thread that was never started streams meta and an `error`. */
  lemma UnknownThreadFails(threadId: string, decision: PyValue)
    ensures var ev := ResumeStreamEvents(threadId, None, decision);
      Names(ev) == ["meta", "error"] && ev[1] == ErrorEvent("unknown thread")
  {
  }
}
