/** What whole runs of the research graph do: the automatic run, the run
    that stops for approval, the two ways a resume goes, and the
    properties every run has (each stage at most once, a replay from any
    saved checkpoint continues the same run, a thread is resumed once). */
module Runs {
  import opened Wrappers
  import opened PyValues
  import opened Graph
  import opened Engine

  /** The stages a trace's chunks came from, in order. */
  function StagesOf(chunks: seq<Chunk>): (r: seq<Stage>)
    ensures |r| == |chunks|
    ensures forall i :: 0 <= i < |r| ==> r[i] == chunks[i].StageOf()
  {
    seq(|chunks|, i requires 0 <= i < |chunks| => chunks[i].StageOf())
  }

  // ---------------------------------------------------------------------
  // Properties of every run

  /** Every chunk of a run comes from a stage no further from END than the
      stage the run started at. */
  lemma {:induction false} RunStaysBelow(cp: Checkpoint)
    ensures forall i :: 0 <= i < |Run(cp).chunks| ==>
      cp.next.At? && Rank(At(Run(cp).chunks[i].StageOf())) <= Rank(cp.next)
    decreases Remaining(cp)
  {
    var step := Step(cp);
    if step.Advanced? {
      RunAdvances(cp);
      RunStaysBelow(step.after);
      if step.after.pending.Some? {
        RunStops(step.after);
      }
    } else {
      RunStops(cp);
    }
  }

  /** Along a run, the stages strictly approach END: no stage runs twice
      and the run holds at most four chunks. */
  lemma {:induction false} RunDescends(cp: Checkpoint)
    ensures var cs := Run(cp).chunks;
      forall i, j :: 0 <= i < j < |cs| ==> Rank(At(cs[j].StageOf())) < Rank(At(cs[i].StageOf()))
    ensures |Run(cp).chunks| <= 4
    decreases Remaining(cp)
  {
    var step := Step(cp);
    if step.Advanced? {
      RunAdvances(cp);
      RunDescends(step.after);
      RunStaysBelow(step.after);
      if step.after.pending.Some? {
        RunStops(step.after);
      }
      assert Remaining(step.after) < Remaining(cp) <= 4;
    } else {
      RunStops(cp);
    }
  }

  /** Only the last chunk of a run can be an interrupt: a suspended thread
      runs nothing more until it is resumed. */
  lemma {:induction false} PauseEndsRun(cp: Checkpoint)
    ensures var t := Run(cp);
      forall i :: 0 <= i < |t.chunks| && t.chunks[i].Paused? ==>
        i == |t.chunks| - 1 && t.error.None? && t.saved[i].pending == Some(t.chunks[i].request)
    decreases Remaining(cp)
  {
    var step := Step(cp);
    if step.Advanced? {
      RunAdvances(cp);
      PauseEndsRun(step.after);
      if step.chunk.Paused? {
        RunStops(step.after);
      }
    } else {
      RunStops(cp);
    }
  }

  /** Restarting from the checkpoint saved after any chunk replays the rest
      of the same run: the checkpoints are enough to continue. */
  lemma {:induction false} ContinueFromCheckpoint(cp: Checkpoint, i: nat)
    requires i < |Run(cp).saved|
    ensures var t := Run(cp);
      Run(t.saved[i]) == Trace(t.chunks[i + 1..], t.saved[i + 1..], t.error)
    decreases Remaining(cp)
  {
    var step := Step(cp);
    RunAdvances(cp);
    var rest := Run(step.after);
    DropFront(step.chunk, rest.chunks, i);
    DropFront(step.after, rest.saved, i);
    if i > 0 {
      ContinueFromCheckpoint(step.after, i - 1);
    }
  }

  /** Dropping one more element off the front of a sequence with `x` put
      in front of it. */
  lemma DropFront<T>(x: T, s: seq<T>, i: nat)
    requires i <= |s|
    ensures ([x] + s)[i + 1..] == s[i..]
    ensures i > 0 ==> ([x] + s)[i] == s[i - 1]
  {
  }

  /** A run from a stage after `approve_plan` never suspends. */
  lemma {:induction false} NoPauseAfterApproval(cp: Checkpoint)
    requires cp.next in {At(Retrieve), At(Synthesize), At(EndStage), Finish}
    ensures forall i :: 0 <= i < |Run(cp).saved| ==> Run(cp).saved[i].pending.None? && !Run(cp).chunks[i].Paused?
    decreases Remaining(cp)
  {
    var step := Step(cp);
    if step.Advanced? {
      RunAdvances(cp);
      NoPauseAfterApproval(step.after);
    } else {
      RunStops(cp);
    }
  }

  /** A thread is resumed once: after a resume that got anywhere, the latest
      checkpoint waits on nothing, so a second resume fails whatever it
      carries. */
  lemma ResumeOnlyOnce(cp: Checkpoint, first: PyValue, second: PyValue)
    requires ResumeRun(cp, first).saved != []
    ensures ResumeRun(Latest(ResumeRun(cp, first).saved), second) == Trace([], [], Some(NothingToResume))
  {
    var r := Resumed(cp, first);
    var t := ResumeRun(cp, first);
    NoPauseAfterApproval(r.after);
    if Run(r.after).saved != [] {
      assert Latest(t.saved) == Run(r.after).saved[|Run(r.after).saved| - 1];
    }
  }

  // ---------------------------------------------------------------------
  // Scenarios

  /** The state after `align` for a topic and a mode. */
  function Planned(topic: string, mode: string): State {
    Merge(InitialState(topic, Some(mode)), NoFields.(plan := Some(PlanFor(topic)), status := Some("planned")))
  }

  /** A run in any mode but "approval" goes align, retrieve, synthesize
      without stopping, and ends at END with status "done" and assets whose
      citations resolve against the retrieved evidence. */
  lemma AutoRun(topic: string, mode: string)
    requires mode != "approval"
    ensures var t := Run(Initial(topic, Some(mode)));
      && t.error.None?
      && StagesOf(t.chunks) == [Align, Retrieve, Synthesize]
      && (forall i :: 0 <= i < |t.chunks| ==> t.chunks[i].Updated?)
      && var last := Latest(t.saved);
         && last.next == Finish && last.pending.None?
         && last.values.status == Some("done")
         && last.values.evidence == Some(StubEvidence)
         && last.values.assets == Some(AssetsFor(topic, StubEvidence))
         && last.values.assets.value.issueTree.root == topic
         && CitationsResolve(last.values.assets.value, last.values.evidence.value)
  {
    var cp0 := Initial(topic, Some(mode));
    var v1 := Planned(topic, mode);
    var cp1 := Checkpoint(v1, At(Retrieve), None);
    assert Step(cp0).after == cp1;
    var v2 := Merge(v1, NoFields.(evidence := Some(StubEvidence), status := Some("retrieved")));
    var cp2 := Checkpoint(v2, At(Synthesize), None);
    assert Step(cp1).after == cp2;
    var d3 := NoFields.(assets := Some(AssetsFor(topic, StubEvidence)), status := Some("done"));
    var cp3 := Checkpoint(Merge(v2, d3), Finish, None);
    assert Step(cp2) == Advanced(Updated(Synthesize, d3), cp3);
    RunAdvances(cp0);
    RunAdvances(cp1);
    RunAdvances(cp2);
    RunStops(cp3);
  }

  /** A run in mode "approval", or with no mode given, stops after `align`
      with the interrupt carrying the drafted plan, and the thread waits at
      `approve_plan`. */
  lemma ApprovalRunPauses(topic: string, mode: Option<string>)
    requires mode.None? || mode == Some("approval")
    ensures var t := Run(Initial(topic, mode));
      && t.error.None?
      && |t.chunks| == 2
      && t.chunks[0].Updated? && t.chunks[0].stage == Align
      && t.chunks[1] == Paused(ApprovalRequest(PlanFor(topic)))
      && Latest(t.saved) == Checkpoint(Planned(topic, "approval"), At(ApprovePlan), Some(ApprovalRequest(PlanFor(topic))))
  {
    var cp0 := Initial(topic, mode);
    var cp1 := Checkpoint(Planned(topic, "approval"), At(ApprovePlan), None);
    assert Step(cp0).after == cp1;
    var req := ApprovalRequest(PlanFor(topic));
    var cp2 := Checkpoint(Planned(topic, "approval"), At(ApprovePlan), Some(req));
    assert Step(cp1) == Advanced(Paused(req), cp2);
    RunAdvances(cp0);
    RunAdvances(cp1);
    RunStops(cp2);
  }

  /** A new run suspends exactly when its mode is "approval", the default. */
  lemma PausesIffApproval(topic: string, mode: Option<string>)
    ensures var t := Run(Initial(topic, mode));
      t.error.None? && t.saved != [] &&
      (Latest(t.saved).pending.Some? <==> mode.GetOr(DefaultMode) == "approval")
  {
    if mode.None? || mode == Some("approval") {
      ApprovalRunPauses(topic, mode);
    } else {
      AutoRun(topic, mode.value);
    }
  }

  /** The thread as `ApprovalRunPauses` leaves it. */
  function Suspended(topic: string): Checkpoint {
    Checkpoint(Planned(topic, "approval"), At(ApprovePlan), Some(ApprovalRequest(PlanFor(topic))))
  }

  /** Resuming with `True` runs approve_plan (status "approved"), then
      retrieve and synthesize, to END with status "done". */
  lemma ApproveCompletes(topic: string)
    ensures var t := ResumeRun(Suspended(topic), PBool(true));
      && t.error.None?
      && StagesOf(t.chunks) == [ApprovePlan, Retrieve, Synthesize]
      && t.chunks[0] == Updated(ApprovePlan, NoFields.(status := Some("approved")))
      && t.saved[0].values.status == Some("approved")
      && Latest(t.saved).next == Finish && Latest(t.saved).pending.None?
      && Latest(t.saved).values.status == Some("done")
      && Latest(t.saved).values.assets == Some(AssetsFor(topic, StubEvidence))
  {
    var v1 := Merge(Planned(topic, "approval"), NoFields.(status := Some("approved")));
    var cp1 := Checkpoint(v1, At(Retrieve), None);
    assert Resumed(Suspended(topic), PBool(true)) == Advanced(Updated(ApprovePlan, NoFields.(status := Some("approved"))), cp1);
    var v2 := Merge(v1, NoFields.(evidence := Some(StubEvidence), status := Some("retrieved")));
    var cp2 := Checkpoint(v2, At(Synthesize), None);
    assert Step(cp1).after == cp2;
    var d3 := NoFields.(assets := Some(AssetsFor(topic, StubEvidence)), status := Some("done"));
    var cp3 := Checkpoint(Merge(v2, d3), Finish, None);
    assert Step(cp2) == Advanced(Updated(Synthesize, d3), cp3);
    RunAdvances(cp1);
    RunAdvances(cp2);
    RunStops(cp3);
  }

  /** Resuming with anything but `True` (False, None, 1, "yes", ...) runs
      approve_plan (status "rejected") and the `end` stage, to END with no
      evidence and no assets. */
  lemma RejectEnds(topic: string, decision: PyValue)
    requires decision != PBool(true)
    ensures var t := ResumeRun(Suspended(topic), decision);
      && t.error.None?
      && StagesOf(t.chunks) == [ApprovePlan, EndStage]
      && Latest(t.saved).next == Finish && Latest(t.saved).pending.None?
      && Latest(t.saved).values.status == Some("rejected")
      && Latest(t.saved).values.evidence.None?
      && Latest(t.saved).values.assets.None?
  {
    var v1 := Merge(Planned(topic, "approval"), NoFields.(status := Some("rejected")));
    var cp1 := Checkpoint(v1, At(EndStage), None);
    assert Resumed(Suspended(topic), decision) == Advanced(Updated(ApprovePlan, NoFields.(status := Some("rejected"))), cp1);
    var cp2 := Checkpoint(v1, Finish, None);
    assert Step(cp1) == Advanced(Updated(EndStage, v1), cp2);
    RunAdvances(cp1);
    RunStops(cp2);
  }
}
