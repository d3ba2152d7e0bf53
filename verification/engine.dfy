/** The engine that runs the graph of module Graph: one stage at a time, a
    checkpoint persisted after every stage, a pending-interrupt marker when
    `approve_plan` suspends, and a resume that re-enters that stage with the
    supplied decision. The engine of the source is a library that is not part
    of this model; this module states the behaviour the pipeline relies on. */
module Engine {
  import opened Wrappers
  import opened PyValues
  import opened Graph

  /** The mode a run request carries when the client gives none. */
  const DefaultMode: string := "approval"

  /** The input of a new run: topic, mode (defaulting to "approval") and
      status "init"; nothing else is set. */
  function InitialState(topic: string, mode: Option<string>): (s: State)
    ensures s.topic == Some(topic) && s.status == Some("init")
    ensures mode.None? ==> s.mode == Some("approval")
    ensures mode.Some? ==> s.mode == mode
    ensures s.plan.None? && s.evidence.None? && s.assets.None?
  {
    NoFields.(topic := Some(topic), mode := Some(mode.GetOr(DefaultMode)), status := Some("init"))
  }

  /** A persisted snapshot of a thread: its state, the stage to run next,
      and the payload of the interrupt it waits on, if any. */
  datatype Checkpoint = Checkpoint(values: State, next: Position, pending: Option<ApprovalRequest>)

  /** The zeroth checkpoint of a new run. */
  function Initial(topic: string, mode: Option<string>): Checkpoint {
    Checkpoint(InitialState(topic, mode), At(Entry), None)
  }

  /** What the engine streams for one step: a stage's update, or the
      interrupt `approve_plan` raised. */
  datatype Chunk = Updated(stage: Stage, update: State) | Paused(request: ApprovalRequest) {
    function StageOf(): Stage {
      if Updated? then stage else ApprovePlan
    }
  }

  datatype EngineError = StageFailed(stage: Stage, cause: StageError) | UnknownThread | NothingToResume

  /** One step: a chunk and the checkpoint persisted after it; a stage that
      raised; or nothing left to run. */
  datatype StepResult = Advanced(chunk: Chunk, after: Checkpoint) | Failed(error: EngineError) | Halted

  /** How many stages at most remain; a suspended thread runs none until resumed. */
  function Remaining(cp: Checkpoint): nat {
    if cp.pending.Some? then 0 else Rank(cp.next)
  }

  /** Applies what `approve_plan` returned: park the thread with its payload,
      or merge the update and jump where the command says. */
  function ApplyApproval(v: State, o: ApproveOutcome): StepResult {
    match o
    case Suspend(req) => Advanced(Paused(req), Checkpoint(v, At(ApprovePlan), Some(req)))
    case Goto(target, d) => Advanced(Updated(ApprovePlan, d), Checkpoint(Merge(v, d), At(target), None))
  }

  /** Runs a stage that returns a plain update and moves to `next`. */
  function Commit(stage: Stage, r: Result<State, StageError>, v: State, next: Position): StepResult {
    match r
    case Err(e) => Failed(StageFailed(stage, e))
    case Ok(d) => Advanced(Updated(stage, d), Checkpoint(Merge(v, d), next, None))
  }

  /** What a stage other than `approve_plan` returns for a state: its
      update, or the exception it raised. */
  function StageUpdate(stage: Stage, v: State): Result<State, StageError>
    requires stage != ApprovePlan
  {
    match stage
    case Align => AlignNode(v)
    case Retrieve => RetrieveNode(v)
    case Synthesize => SynthesizeNode(v)
    case EndStage => Ok(EndNode(v))
  }

  /** One step of the engine on the latest checkpoint. */
  function Step(cp: Checkpoint): (r: StepResult)
    ensures cp.pending.Some? || cp.next == Finish ==> r == Halted
    ensures cp.pending.None? && cp.next.At? ==> !r.Halted?
    ensures r.Advanced? ==> Remaining(r.after) < Remaining(cp)
    ensures r.Advanced? ==> cp.next.At? && r.chunk.StageOf() == cp.next.stage
    ensures r.Advanced? && r.after.pending.None? ==> r.after.next in Successors(cp.next.stage)
    ensures r.Advanced? && r.chunk.Updated? ==> r.after.values == Merge(cp.values, r.chunk.update)
    ensures r.Advanced? && r.chunk.Paused? ==>
      r.after == Checkpoint(cp.values, At(ApprovePlan), Some(r.chunk.request))
  {
    if cp.pending.Some? || cp.next == Finish then Halted
    else
      var v := cp.values;
      match cp.next.stage
      case Align =>
        (match AlignNode(v)
         case Err(e) => Failed(StageFailed(Align, e))
         case Ok(d) =>
           var v' := Merge(v, d);
           Advanced(Updated(Align, d), Checkpoint(v', At(RouteTarget(RouteAfterAlign(v'))), None)))
      case ApprovePlan =>
        (match ApprovePlanNode(v, None)
         case Err(e) => Failed(StageFailed(ApprovePlan, e))
         case Ok(o) => ApplyApproval(v, o))
      case Retrieve => Commit(Retrieve, RetrieveNode(v), v, At(Synthesize))
      case Synthesize => Commit(Synthesize, SynthesizeNode(v), v, Finish)
      case EndStage => Commit(EndStage, Ok(EndNode(v)), v, Finish)
  }

  /** A step runs the stage the checkpoint names: a plain stage's update is
      what the stage function returns and its exception is what stops the
      run; `approve_plan` suspends with the plan, or raises `KeyError('plan')`;
      after `align` the router picks the next stage from the merged state. */
  lemma StepRunsStage(cp: Checkpoint)
    requires cp.pending.None? && cp.next.At?
    ensures var r := Step(cp);
      && (r.Failed? ==> r.error.StageFailed? && r.error.stage == cp.next.stage)
      && (cp.next.stage != ApprovePlan ==>
            && (r.Failed? <==> StageUpdate(cp.next.stage, cp.values).Err?)
            && (r.Failed? ==> r.error.cause == StageUpdate(cp.next.stage, cp.values).error)
            && (r.Advanced? ==> r.chunk.Updated? && Ok(r.chunk.update) == StageUpdate(cp.next.stage, cp.values)))
      && (cp.next.stage == ApprovePlan ==>
            r == if cp.values.plan.None? then Failed(StageFailed(ApprovePlan, KeyError("plan")))
                 else Advanced(Paused(ApprovalRequest(cp.values.plan.value)),
                   Checkpoint(cp.values, At(ApprovePlan), Some(ApprovalRequest(cp.values.plan.value)))))
      && (r.Advanced? && cp.next.stage == Align ==> r.after.next == At(RouteTarget(RouteAfterAlign(r.after.values))))
  {
  }

  /** Re-enters the suspended `approve_plan` with the decision and clears the
      marker. A thread with no pending interrupt has nothing to resume. */
  function Resumed(cp: Checkpoint, decision: PyValue): (r: StepResult)
    ensures cp.pending.None? ==> r == Failed(NothingToResume)
    ensures r != Halted
    ensures cp.pending.Some? && cp.next == At(ApprovePlan) ==>
      if cp.values.plan.None? then r == Failed(StageFailed(ApprovePlan, KeyError("plan")))
      else r.Advanced? && r.chunk.Updated? && r.chunk.update == NoFields.(status := Some(if decision == PBool(true) then "approved" else "rejected"))
    ensures r.Advanced? ==>
      && cp.pending.Some? && r.after.pending.None?
      && r.chunk.Updated? && r.chunk.stage == ApprovePlan
      && r.after.values == Merge(cp.values, r.chunk.update)
      && (r.after.next == At(Retrieve) <==> decision == PBool(true))
      && (r.after.next == At(EndStage) <==> decision != PBool(true))
  {
    if cp.pending.None? || cp.next != At(ApprovePlan) then Failed(NothingToResume)
    else
      match ApprovePlanNode(cp.values, Some(decision))
      case Err(e) => Failed(StageFailed(ApprovePlan, e))
      case Ok(o) => ApplyApproval(cp.values, o)
  }

  /** What a run streams, the checkpoints it persists (one per chunk, in
      order) and the error that stopped it, if any. */
  datatype Trace = Trace(chunks: seq<Chunk>, saved: seq<Checkpoint>, error: Option<EngineError>)

  /** Steps from a checkpoint until the run ends, suspends or fails. */
  function Run(cp: Checkpoint): (t: Trace)
    decreases Remaining(cp)
    ensures |t.saved| == |t.chunks|
    ensures |t.chunks| <= Remaining(cp)
  {
    match Step(cp)
    case Halted => Trace([], [], None)
    case Failed(e) => Trace([], [], Some(e))
    case Advanced(c, next) =>
      var rest := Run(next);
      Trace([c] + rest.chunks, [next] + rest.saved, rest.error)
  }

  /** A resume: the re-entered approval step, then the run from there. */
  function ResumeRun(cp: Checkpoint, decision: PyValue): (t: Trace)
    ensures |t.saved| == |t.chunks|
    ensures cp.pending.None? ==> t == Trace([], [], Some(NothingToResume))
  {
    match Resumed(cp, decision)
    case Halted => Trace([], [], None)
    case Failed(e) => Trace([], [], Some(e))
    case Advanced(c, next) =>
      var rest := Run(next);
      Trace([c] + rest.chunks, [next] + rest.saved, rest.error)
  }

  /** A resume is the re-entered approval step followed by the run from the
      checkpoint it saved, or the failure of that step. */
  lemma ResumeRunSplits(cp: Checkpoint, decision: PyValue)
    ensures Resumed(cp, decision).Failed? ==>
      ResumeRun(cp, decision) == Trace([], [], Some(Resumed(cp, decision).error))
    ensures Resumed(cp, decision).Advanced? ==>
      ResumeRun(cp, decision) == Prefixed([Resumed(cp, decision).chunk], [Resumed(cp, decision).after], Run(Resumed(cp, decision).after))
  {
  }

  /** A trace with chunks and checkpoints put in front. */
  function Prefixed(chunks: seq<Chunk>, saved: seq<Checkpoint>, t: Trace): Trace {
    Trace(chunks + t.chunks, saved + t.saved, t.error)
  }

  lemma PrefixedTwice(c1: seq<Chunk>, s1: seq<Checkpoint>, c2: seq<Chunk>, s2: seq<Checkpoint>, t: Trace)
    ensures Prefixed(c1, s1, Prefixed(c2, s2, t)) == Prefixed(c1 + c2, s1 + s2, t)
  {
    assert c1 + (c2 + t.chunks) == c1 + c2 + t.chunks;
    assert s1 + (s2 + t.saved) == s1 + s2 + t.saved;
  }

  /** A step that advances contributes its chunk and checkpoint to the run. */
  lemma RunAdvances(cp: Checkpoint)
    requires Step(cp).Advanced?
    ensures Run(cp) == Prefixed([Step(cp).chunk], [Step(cp).after], Run(Step(cp).after))
  {
  }

  /** A step that does not advance ends the run. */
  lemma RunStops(cp: Checkpoint)
    requires !Step(cp).Advanced?
    ensures Run(cp) == Trace([], [], if Step(cp).Failed? then Some(Step(cp).error) else None)
  {
  }

  /** One advancing step moves a chunk and a checkpoint from the rest of the
      run into the prefix already streamed. */
  lemma PrefixedStep(chunks: seq<Chunk>, saved: seq<Checkpoint>, cp: Checkpoint)
    requires Step(cp).Advanced?
    ensures Prefixed(chunks + [Step(cp).chunk], saved + [Step(cp).after], Run(Step(cp).after))
         == Prefixed(chunks, saved, Run(cp))
  {
    RunAdvances(cp);
    PrefixedTwice(chunks, saved, [Step(cp).chunk], [Step(cp).after], Run(Step(cp).after));
  }

  /** A step that does not advance leaves the prefix as the whole run. */
  lemma PrefixedStop(chunks: seq<Chunk>, saved: seq<Checkpoint>, cp: Checkpoint)
    requires !Step(cp).Advanced?
    ensures var t := Prefixed(chunks, saved, Run(cp));
      && t.chunks == chunks && t.saved == saved
      && t.error == if Step(cp).Failed? then Some(Step(cp).error) else None
  {
    RunStops(cp);
    assert saved + [] == saved && chunks + [] == chunks;
  }

  lemma PrefixedNothing(t: Trace)
    ensures Prefixed([], [], t) == t
  {
    assert [] + t.chunks == t.chunks && [] + t.saved == t.saved;
  }

  lemma Associative<T>(a: seq<T>, b: seq<T>, c: seq<T>)
    ensures a + b + c == a + (b + c)
    ensures a + [] == a
  {
  }

  function Latest(history: seq<Checkpoint>): Checkpoint
    requires |history| > 0
  {
    history[|history| - 1]
  }

  /** The latest checkpoint after appending is the latest one appended. */
  lemma LatestAppended(history: seq<Checkpoint>, more: seq<Checkpoint>)
    requires more != []
    ensures Latest(history + more) == Latest(more)
  {
  }

  /** The compiled graph with its checkpoint store: the checkpoint history of
      every thread, keyed by thread id, append-only. */
  class CompiledGraph {
    var threads: map<string, seq<Checkpoint>>

    ghost predicate Valid()
      reads this
    {
      forall id :: id in threads ==> |threads[id]| > 0
    }

    constructor ()
      ensures Valid() && threads == map[]
    {
      threads := map[];
    }

    /** `get_state`: the latest checkpoint of a thread. */
    method GetState(threadId: string) returns (cp: Option<Checkpoint>)
      requires Valid()
      ensures cp.Some? <==> threadId in threads
      ensures cp.Some? ==> cp.value == Latest(threads[threadId])
    {
      if threadId in threads {
        cp := Some(Latest(threads[threadId]));
      } else {
        cp := None;
      }
    }

    /** Writes a thread's checkpoint history. */
    method Persist(threadId: string, history: seq<Checkpoint>)
      modifies this
      ensures threads == old(threads)[threadId := history]
    {
      threads := threads[threadId := history];
    }

    /** The step loop: runs stages from `start`, appending the checkpoint of
        every completed stage to the thread's history before the next one. */
    method Drive(threadId: string, start: Checkpoint) returns (chunks: seq<Chunk>, err: Option<EngineError>)
      requires Valid() && threadId in threads
      modifies this
      ensures Valid()
      ensures chunks == Run(start).chunks && err == Run(start).error
      ensures threads == old(threads)[threadId := old(threads)[threadId] + Run(start).saved]
    {
      ghost var whole := Run(start);
      var history := threads[threadId];
      ghost var saved: seq<Checkpoint> := [];
      var cp := start;
      PrefixedNothing(whole);
      chunks := [];
      while Step(cp).Advanced?
        invariant threads == old(threads)[threadId := history]
        invariant history == old(threads)[threadId] + saved
        invariant Prefixed(chunks, saved, Run(cp)) == whole
        decreases Remaining(cp)
      {
        var step := Step(cp);
        PrefixedStep(chunks, saved, cp);
        Associative(old(threads)[threadId], saved, [step.after]);
        history := history + [step.after];
        Persist(threadId, history);
        saved := saved + [step.after];
        chunks := chunks + [step.chunk];
        cp := step.after;
      }
      PrefixedStop(chunks, saved, cp);
      var last := Step(cp);
      err := if last.Failed? then Some(last.error) else None;
    }

    /** `stream` of a new run under a fresh thread id: persists the initial
        checkpoint, then steps until the run ends, suspends or fails. */
    method Stream(threadId: string, topic: string, mode: Option<string>)
      returns (chunks: seq<Chunk>, err: Option<EngineError>)
      requires Valid() && threadId !in threads
      modifies this
      ensures Valid()
      ensures chunks == Run(Initial(topic, mode)).chunks && err == Run(Initial(topic, mode)).error
      ensures threads == old(threads)[threadId := [Initial(topic, mode)] + Run(Initial(topic, mode)).saved]
    {
      var cp := Initial(topic, mode);
      threads := threads[threadId := [cp]];
      chunks, err := Drive(threadId, cp);
    }

    /** `stream(Command(resume=decision))`: loads the thread's latest
        checkpoint, re-enters the suspended stage with the decision, then
        steps on. Fails on an unknown thread and on a thread that waits on
        nothing, changing no history. */
    method StreamResume(threadId: string, decision: PyValue)
      returns (chunks: seq<Chunk>, err: Option<EngineError>)
      requires Valid()
      modifies this
      ensures Valid()
      ensures threadId !in old(threads) ==>
        chunks == [] && err == Some(UnknownThread) && threads == old(threads)
      ensures threadId in old(threads) ==>
        var t := ResumeRun(Latest(old(threads)[threadId]), decision);
        && chunks == t.chunks && err == t.error
        && threads == old(threads)[threadId := old(threads)[threadId] + t.saved]
    {
      if threadId !in threads {
        return [], Some(UnknownThread);
      }
      var before := threads[threadId];
      var r := Resumed(Latest(before), decision);
      ResumeRunSplits(Latest(before), decision);
      if r.Failed? {
        Associative(before, [], []);
        chunks, err := [], Some(r.error);
      } else {
        threads := threads[threadId := before + [r.after]];
        var rest;
        rest, err := Drive(threadId, r.after);
        chunks := [r.chunk] + rest;
        Associative(before, [r.after], Run(r.after).saved);
      }
    }
  }
}
