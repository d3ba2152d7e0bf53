/** The research pipeline of app/graph.py: its state record, its four stage
    functions, the router after `align`, the approval stage and the edge
    table `build_graph` wires. Every stage returns a partial update that the
    engine merges into the state. */
module Graph {
  import opened Wrappers
  import opened PyValues

  // ---------------------------------------------------------------------
  // State

  /** Where an evidence block lives: a web page or a local document. */
  datatype Address = Url(url: string) | DocId(docId: string)

  /** How to find the snippet again inside its source. */
  datatype Locator =
    | UrlText(hint: string)                // {"type": "url+text", "hint": ...}
    | DocOffset(offset: int, length: int)  // {"type": "doc+offset", "offset": ..., "length": ...}

  datatype Evidence = Evidence(
    sourceType: string,
    title: string,
    address: Address,
    accessedAt: Option<string>,
    snippet: string,
    locator: Locator)

  datatype Plan = Plan(topic: string, questions: seq<string>, sources: seq<string>, deliverables: seq<string>)

  datatype IssueTree = IssueTree(root: string, children: seq<string>)
  datatype TimelineEntry = TimelineEntry(t: string, event: string)
  datatype Controversy = Controversy(claim: string, evidenceRefs: seq<int>)
  datatype Citation = Citation(refId: int, title: string, locator: Locator)

  datatype Assets = Assets(
    issueTree: IssueTree,
    timeline: seq<TimelineEntry>,
    controversyMap: seq<Controversy>,
    citations: seq<Citation>)

  /** `ResearchState`: every field may be absent. A stage's partial update
      has the same shape, holding only the fields it sets. */
  datatype State = State(
    topic: Option<string>,
    mode: Option<string>,
    plan: Option<Plan>,
    evidence: Option<seq<Evidence>>,
    assets: Option<Assets>,
    status: Option<string>)

  const NoFields: State := State(None, None, None, None, None, None)

  /** The engine's shallow merge: a field the update holds overwrites the
      state's; every other field is kept. */
  function Merge(s: State, d: State): (r: State)
    ensures d == NoFields ==> r == s
    ensures d.status.Some? ==> r.status == d.status
    ensures d.status.None? ==> r.status == s.status
  {
    State(
      if d.topic.Some? then d.topic else s.topic,
      if d.mode.Some? then d.mode else s.mode,
      if d.plan.Some? then d.plan else s.plan,
      if d.evidence.Some? then d.evidence else s.evidence,
      if d.assets.Some? then d.assets else s.assets,
      if d.status.Some? then d.status else s.status)
  }

  /** A stage fails the way a Python dict or list lookup does. */
  datatype StageError = KeyError(key: string) | IndexError

  /** `str(e)` of the exception. */
  function ErrorText(e: StageError): string {
    match e
    case KeyError(k) => "'" + k + "'"
    case IndexError => "list index out of range"
  }

  // ---------------------------------------------------------------------
  // Stages

  datatype Stage = Align | ApprovePlan | Retrieve | Synthesize | EndStage

  /** The name each stage is registered under. */
  function StageName(s: Stage): string {
    match s
    case Align => "align"
    case ApprovePlan => "approve_plan"
    case Retrieve => "retrieve"
    case Synthesize => "synthesize"
    case EndStage => "end"
  }

  const QuestionSuffixes: seq<string> :=
    [" 的核心概念是什么？", " 的关键分歧/争议点有哪些？", " 的时间线/阶段划分怎么做？"]

  /** The research plan `align` drafts for a topic. */
  function PlanFor(topic: string): Plan {
    Plan(
      topic,
      seq(3, i requires 0 <= i < 3 => topic + QuestionSuffixes[i]),
      ["web", "local_notes", "papers"],
      ["issue_tree", "timeline", "controversy_map", "citations"])
  }

  /** `align_node`: reads the topic and sets the plan and the status. */
  function AlignNode(s: State): (r: Result<State, StageError>)
    ensures s.topic.None? ==> r == Err(KeyError("topic"))
    ensures s.topic.Some? ==> r.Ok?
    ensures r.Ok? ==>
      var d := r.value;
      && Merge(s, d) == s.(plan := d.plan, status := d.status)
      && d.plan.Some? && d.status == Some("planned")
      && d.plan.value.topic == s.topic.value
      && |d.plan.value.questions| == 3
      && forall i :: 0 <= i < 3 ==>
           |d.plan.value.questions[i]| > |s.topic.value| &&
           d.plan.value.questions[i][..|s.topic.value|] == s.topic.value
  {
    match s.topic
    case None => Err(KeyError("topic"))
    case Some(topic) => Ok(NoFields.(plan := Some(PlanFor(topic)), status := Some("planned")))
  }

  /** The two targets `route_after_align` may name. */
  datatype AlignRoute = ToApprovePlan | ToRetrieve

  /** `route_after_align`: the approval stage exactly when the mode is
      "approval"; any other mode, or none, goes straight to retrieval. */
  function RouteAfterAlign(s: State): (r: AlignRoute)
    ensures r == ToApprovePlan <==> s.mode == Some("approval")
    ensures r == ToRetrieve <==> s.mode != Some("approval")
  {
    if s.mode == Some("approval") then ToApprovePlan else ToRetrieve
  }

  /** The payload shown to the approver: `{"type": "approve_plan", "message": ..., "plan": ...}`. */
  datatype ApprovalRequest = ApprovalRequest(plan: Plan)

  const ApprovalMessage: string := "请确认研究计划是否可执行（True=通过 / False=终止）"

  /** What `approve_plan_node` does: suspend with a payload, or, once a
      decision has been supplied, jump to a stage with an update. */
  datatype ApproveOutcome = Suspend(request: ApprovalRequest) | Goto(target: Stage, update: State)

  /** `approve_plan_node`. `resume` is what the engine's `interrupt(payload)`
      returns: nothing on the first entry, which suspends the run, and the
      supplied decision when the stage is re-entered. Only a decision that
      `is True` approves; every other value rejects. */
  function ApprovePlanNode(s: State, resume: Option<PyValue>): (r: Result<ApproveOutcome, StageError>)
    ensures s.plan.None? ==> r == Err(KeyError("plan"))
    ensures s.plan.Some? && resume.None? ==> r == Ok(Suspend(ApprovalRequest(s.plan.value)))
    ensures s.plan.Some? && resume.Some? ==>
      && r.Ok? && r.value.Goto?
      && (r.value.target == Retrieve <==> resume.value == PBool(true))
      && (r.value.target == EndStage <==> resume.value != PBool(true))
      && r.value.update == NoFields.(status := Some(if resume.value == PBool(true) then "approved" else "rejected"))
  {
    match s.plan
    case None => Err(KeyError("plan"))
    case Some(plan) =>
      match resume
      case None => Ok(Suspend(ApprovalRequest(plan)))
      case Some(decision) =>
        if decision == PBool(true) then Ok(Goto(Retrieve, NoFields.(status := Some("approved"))))
        else Ok(Goto(EndStage, NoFields.(status := Some("rejected"))))
  }

  /** The two evidence blocks the retrieval stub returns. */
  const StubEvidence: seq<Evidence> := [
    Evidence("web", "Example Source 1", Url("https://example.com/a"), Some("2026-02-25"),
      "这是一段示例摘录（将来替换为真实网页/PDF片段）", UrlText("paragraph:3")),
    Evidence("local", "Example Note 1", DocId("notion:xxxx"), None,
      "这是一段本地笔记摘录（将来替换为 Notion/PDF 真实片段）", DocOffset(1200, 80))
  ]

  /** `retrieve_node`: needs a plan (it reads it, and uses nothing of it) and
      sets exactly two evidence blocks and the status. */
  function RetrieveNode(s: State): (r: Result<State, StageError>)
    ensures s.plan.None? ==> r == Err(KeyError("plan"))
    ensures s.plan.Some? ==> r.Ok?
    ensures r.Ok? ==>
      var d := r.value;
      && Merge(s, d) == s.(evidence := d.evidence, status := d.status)
      && d.evidence.Some? && |d.evidence.value| == 2
      && d.status == Some("retrieved")
      && d.evidence.value[0].address.Url? && d.evidence.value[1].address.DocId?
  {
    match s.plan
    case None => Err(KeyError("plan"))
    case Some(_) => Ok(NoFields.(evidence := Some(StubEvidence), status := Some("retrieved")))
  }

  /** Every citation and every controversy reference names an evidence block
      that exists, and a citation repeats that block's title and locator. */
  predicate CitationsResolve(a: Assets, evidence: seq<Evidence>) {
    && (forall c :: c in a.citations ==>
          && 0 <= c.refId < |evidence|
          && c.title == evidence[c.refId].title
          && c.locator == evidence[c.refId].locator)
    && (forall c, j :: c in a.controversyMap && 0 <= j < |c.evidenceRefs| ==>
          0 <= c.evidenceRefs[j] < |evidence|)
  }

  /** The research assets the synthesis stub builds from a topic and at
      least two evidence blocks. */
  function AssetsFor(topic: string, evidence: seq<Evidence>): Assets
    requires |evidence| >= 2
  {
    Assets(
      IssueTree(topic, ["定义与边界", "关键理论/学派", "争议点", "关键事件与指标"]),
      [TimelineEntry("T0", "起源/背景（占位）"), TimelineEntry("T1", "关键转折（占位）")],
      [Controversy("观点A（占位）", [0]), Controversy("观点B（占位）", [1])],
      [Citation(0, evidence[0].title, evidence[0].locator), Citation(1, evidence[1].title, evidence[1].locator)])
  }

  /** `synthesize_node`: reads the topic, then the first two evidence blocks,
      failing as Python does when either is missing; sets the assets and the
      status. */
  function SynthesizeNode(s: State): (r: Result<State, StageError>)
    ensures s.topic.None? ==> r == Err(KeyError("topic"))
    ensures s.topic.Some? && s.evidence.None? ==> r == Err(KeyError("evidence"))
    ensures s.topic.Some? && s.evidence.Some? && |s.evidence.value| < 2 ==> r == Err(IndexError)
    ensures r.Ok? <==> s.topic.Some? && s.evidence.Some? && |s.evidence.value| >= 2
    ensures r.Ok? ==>
      var d := r.value;
      && Merge(s, d) == s.(assets := d.assets, status := d.status)
      && d.assets.Some? && d.status == Some("done")
      && d.assets.value.issueTree.root == s.topic.value
      && |d.assets.value.citations| == 2
      && CitationsResolve(d.assets.value, s.evidence.value)
  {
    match s.topic
    case None => Err(KeyError("topic"))
    case Some(topic) =>
      match s.evidence
      case None => Err(KeyError("evidence"))
      case Some(evidence) =>
        if |evidence| < 2 then Err(IndexError)
        else Ok(NoFields.(assets := Some(AssetsFor(topic, evidence)), status := Some("done")))
  }

  /** The `end` stage, `lambda state: state`: its update is the whole state,
      so merging it changes nothing. */
  function EndNode(s: State): (r: State)
    ensures Merge(s, r) == s
  {
    s
  }

  /** Retrieval gives the same update whatever plan it is handed. */
  lemma RetrieveIgnoresPlan(s: State, t: State)
    requires s.plan.Some? && t.plan.Some?
    ensures RetrieveNode(s) == RetrieveNode(t)
  {
  }

  // ---------------------------------------------------------------------
  // Wiring

  /** Where a run goes next: a stage, or the graph's END. */
  datatype Position = At(stage: Stage) | Finish

  /** START leads to `align`. */
  const Entry: Stage := Align

  /** The mapping handed to `add_conditional_edges` for `align`. */
  function RouteTarget(r: AlignRoute): (s: Stage)
    ensures StageName(s) == (if r == ToApprovePlan then "approve_plan" else "retrieve")
  {
    match r
    case ToApprovePlan => ApprovePlan
    case ToRetrieve => Retrieve
  }

  /** Every position a stage can be followed by: the conditional edge after
      `align`, the two `goto` targets of `approve_plan`, and the fixed edges
      retrieve -> synthesize -> END and end -> END. Read from the other side:
      nothing leads back to `align`, `approve_plan` is entered only from
      `align`, `end` only by rejection, and END only from `synthesize` and
      `end`. */
  function Successors(s: Stage): (r: set<Position>)
    ensures At(Align) !in r
    ensures At(Retrieve) in r <==> s == Align || s == ApprovePlan
    ensures At(ApprovePlan) in r <==> s == Align
    ensures At(Synthesize) in r <==> s == Retrieve
    ensures At(EndStage) in r <==> s == ApprovePlan
    ensures Finish in r <==> s == Synthesize || s == EndStage
  {
    match s
    case Align => {At(RouteTarget(ToApprovePlan)), At(RouteTarget(ToRetrieve))}
    case ApprovePlan => {At(Retrieve), At(EndStage)}
    case Retrieve => {At(Synthesize)}
    case Synthesize => {Finish}
    case EndStage => {Finish}
  }

  /** How many stages at most remain from a position. */
  function Rank(p: Position): nat {
    match p
    case Finish => 0
    case At(Align) => 4
    case At(ApprovePlan) => 3
    case At(Retrieve) => 2
    case At(Synthesize) => 1
    case At(EndStage) => 1
  }

  /** Every edge leads strictly closer to END: the graph has no cycle, no
      stage runs twice in one run, and END is reached within four stages. */
  lemma EdgesDescend(s: Stage, p: Position)
    requires p in Successors(s)
    ensures Rank(p) < Rank(At(s))
    ensures Rank(At(s)) <= 4
  {
  }
}
