# Research pipeline: stage graph, run engine and event stream

This project models the core of a small research-agent service in Dafny.

- **Stage graph** (`app/graph.py`): a `ResearchState` whose fields may all
  be absent, and four stage functions, each returning a partial update:
  - `align_node` drafts a three-question plan;
  - `approve_plan_node` suspends for a human decision, then goes to
    `retrieve` or to `end`;
  - `retrieve_node` returns two stub evidence blocks;
  - `synthesize_node` builds the research assets, whose citations point
    into the evidence.
- **Wiring** (`app/graph.py`): `build_graph` adds a router
  (`route_after_align`), fixed edges and an identity `end` node.
- **Run engine**: the graph is compiled with a checkpoint store. The engine
  itself is a library that is not part of this model, so it is modelled
  directly. It is the next stage to run, a merged state and a pending-interrupt
  marker, saved as one checkpoint after every stage, with a step that
  shallow-merges each update and a resume that re-enters `approve_plan`
  with the decision.
- **Event stream** (`app/main.py`):
  - `_to_jsonable` normalises a Python value tree;
  - `sse` frames one server-sent event;
  - the two `gen()` generators emit `meta`, then one `update` per
    non-interrupt chunk, then exactly one of `error`, `interrupt` or `done`.

Modules:

- `wrappers.dfy`: `Option` and `Result`.
- `values.dfy` (`PyValues`): Python values (`None`, bool, int, float, str,
  dict with ordered entries, list/tuple/set, the engine's `Interrupt`,
  other objects) and `str()` of a dict key.
- `jsonable.dfy` (`Jsonable`): `_to_jsonable`, including the dict
  comprehension's handling of two keys that stringify alike.
- `graph.dfy` (`Graph`): the state, the stage functions, the router and the
  edge table.
- `engine.dfy` (`Engine`):
  - the pure step function and whole runs;
  - the class `CompiledGraph`, whose per-thread checkpoint history is
    updated in place by `Drive`, `Stream` and `StreamResume`.
- `runs.dfy` (`Runs`): what whole runs do, both in general and for each
  mode and decision.
- `events.dfy` (`Events`): framing, the `gen()` loop (`Generate`) and the
  shape of every stream.
- `streams.dfy` (`Streams`):
  - the state, chunks and snapshot as Python values;
  - the two endpoints end to end (`RunStream`, `ResumeStream`);
  - the event sequences a client sees.

Three places where the model chooses a reading of the source:

- **Mode routing.** The router sends every mode other than `"approval"`,
  including a missing one, to `retrieve` (`app/graph.py:33`). There is no
  check that the mode is `"auto"`. The model follows this code.
- **Approval decision.** Only a decision that `is True` approves
  (`app/graph.py:44`). Every other value rejects, including `1`, `"yes"`
  and `None`, and the model does the same.
- **Resume failures.** The engine's behaviour on resuming an unknown
  thread, or a thread that waits on nothing, lives in the library. The
  model fails with `UnknownThread` and `NothingToResume` and changes no
  history. The texts of those two error messages are the model's own.

## Model

| member | source | states |
|---|---|---|
| Graph.AlignNode | app/graph.py:16-29 | A missing topic raises `KeyError('topic')`. Otherwise the update sets only `plan` and `status`: the merged state equals the old one with those two fields replaced, `plan.topic` is the topic, there are exactly three questions, each starting with the topic, and the status is "planned". |
| Graph.RouteAfterAlign | app/graph.py:31-33 | Routes to `approve_plan` exactly when the mode is "approval"; any other mode, or none, routes to `retrieve` (both directions). |
| Graph.ApprovePlanNode | app/graph.py:35-47 | A missing plan raises `KeyError('plan')`. On first entry the stage suspends with the plan as payload. With a decision it goes to `retrieve` exactly when the decision is `True`, and to `end` for every other value. Its update holds only the status, "approved" or "rejected". |
| Graph.RetrieveNode | app/graph.py:49-70 | A missing plan raises `KeyError('plan')`. Otherwise the update sets only `evidence` and `status`: exactly two blocks, the first web-addressed and the second doc-addressed, and status "retrieved". |
| Graph.RetrieveIgnoresPlan | app/graph.py:49-51 | Retrieval returns the same update whatever plan it is given. |
| Graph.SynthesizeNode | app/graph.py:72-93 | The errors come in source order: `KeyError('topic')`, then `KeyError('evidence')`, then `IndexError` for fewer than two blocks. It succeeds exactly when all three lookups do. The update sets only `assets` and `status`: the issue-tree root is the topic, the status is "done", there are two citations, and every citation and controversy reference is a valid evidence index with the cited block's title and locator. |
| Graph.EndNode | app/graph.py:112 | The `end` node's update, the whole state, leaves the state unchanged when merged. |
| Graph.RouteTarget | app/graph.py:104-107 | The conditional-edge mapping sends each router answer to the stage registered under the same name. |
| Graph.Successors | app/graph.py:103-113 | The edge table, read from the target's side: nothing leads back to `align`; `approve_plan` is entered only from `align`, `retrieve` only from `align` or `approve_plan`, `synthesize` only from `retrieve` and `end` only from `approve_plan`; END is reached only from `synthesize` and `end`. |
| Graph.EdgesDescend | app/graph.py:103-113 | Every edge of the wiring, fixed or chosen by `goto`, leads strictly closer to END, so the graph has no cycle. |
| Engine.InitialState | app/main.py:73 | A new run starts with the topic, the mode (defaulting to "approval") and status "init", and nothing else set. |
| Engine.Step | app/graph.py:103-113 | A thread steps exactly when it is neither suspended nor at END. A step lowers the remaining-stage measure, and its chunk comes from the stage the checkpoint names as next. A completed stage moves to one of that stage's successors and merges its update. A suspension records the payload and stays at `approve_plan` with the state unchanged. |
| Engine.StepRunsStage | app/graph.py:95-113 | A step runs the stage it stands at. For `align`, `retrieve`, `synthesize` and `end`, the chunk's update is exactly what the stage function returns, and the step fails exactly when the stage raises, with that exception. `approve_plan` suspends with the plan as payload, or fails with `KeyError('plan')`. After `align`, the next stage is the router's choice on the merged state. |
| Engine.Resumed | app/graph.py:42-47 | A thread with no pending interrupt fails with `NothingToResume`. A thread suspended at `approve_plan` always resumes when its state has a plan, and raises `KeyError('plan')` when it has none. A resume that goes ahead clears the marker and merges an update whose only field is the status, "approved" for `True` and "rejected" otherwise. It moves to `retrieve` exactly when the decision is `True`, and to `end` otherwise (both directions). |
| Engine.Run | app/graph.py:103-113 | A run saves one checkpoint per streamed chunk and never streams more chunks than the remaining-stage measure allows. |
| Engine.ResumeRun | app/graph.py:42-47 | A resume saves one checkpoint per chunk. A resume on a thread with no pending interrupt streams nothing and fails with `NothingToResume`. |
| Engine.CompiledGraph.GetState | app/main.py:88 | `get_state` returns the latest checkpoint of a known thread and nothing for an unknown one. |
| Engine.CompiledGraph.Drive | app/main.py:79 | The step loop streams exactly the chunks of `Run`, stops with its error, and appends each stage's checkpoint to the thread's history, in order. |
| Engine.CompiledGraph.Stream | app/main.py:79 | A new thread's history becomes the initial checkpoint followed by the run's checkpoints, and the streamed chunks are the run's chunks. |
| Engine.CompiledGraph.StreamResume | app/main.py:108 | An unknown thread fails with `UnknownThread` and leaves every history as it was. Otherwise the resumed run's chunks are streamed and its checkpoints are appended to that thread's history. |
| Runs.RunDescends | app/graph.py:103-113 | Along any run the stages strictly approach END: no stage runs twice and a run has at most four chunks. |
| Runs.RunStaysBelow | app/graph.py:103-113 | No chunk of a run comes from a stage further from END than the stage the run started at. |
| Runs.PauseEndsRun | app/graph.py:42 | An interrupt chunk can only be the last chunk of a run. The checkpoint saved with it carries the interrupt's payload, and the run reports no error. |
| Runs.ContinueFromCheckpoint | app/main.py:61-62 | Restarting from the checkpoint saved after any chunk replays exactly the rest of the same run, with the same error. |
| Runs.NoPauseAfterApproval | app/graph.py:44-47 | A run from `retrieve`, `synthesize`, `end` or END never suspends. |
| Runs.ResumeOnlyOnce | app/graph.py:42-47 | After a resume that saved anything, a second resume with any decision streams nothing and fails with `NothingToResume`. |
| Runs.AutoRun | app/graph.py:103-109 | In any mode but "approval", a run goes align, retrieve, synthesize with no error. It ends at END, waiting on nothing, with status "done", the stub evidence, and assets rooted at the topic whose citations resolve. |
| Runs.ApprovalRunPauses | app/graph.py:31-42 | In mode "approval" (or with no mode), a run streams the `align` update and then the interrupt carrying the drafted plan. The thread waits at `approve_plan`. |
| Runs.PausesIffApproval | app/main.py:52 | A new run suspends exactly when its mode, defaulting to "approval", is "approval". |
| Runs.ApproveCompletes | app/graph.py:44-45 | Resuming a suspended thread with `True` runs approve_plan (update status "approved"), retrieve and synthesize, and ends at END with status "done" and the synthesized assets. |
| Runs.RejectEnds | app/graph.py:111-113 | Resuming with any value but `True` runs approve_plan and `end` only, with no retrieve or synthesize. It ends at END with status "rejected", no evidence and no assets. |
| Jsonable.ToJsonable | app/main.py:19-44 | The result is always a JSON value. None, str, int, float and bool are returned unchanged. |
| Jsonable.SequenceToList | app/main.py:27-28 | A list, tuple or set becomes a list of the same length whose elements are the converted elements, in order. |
| Jsonable.DictToStrKeyedDict | app/main.py:25-26 | A dict becomes a dict with unique string keys. Each key holds the converted value of the last entry whose key stringifies to it. When no two keys stringify alike, every entry is kept in order, under `str(key)`. |
| Jsonable.InterruptToDict | app/main.py:31-32 | An interrupt becomes `{"__type__": "Interrupt", "value": converted value}`. |
| Jsonable.Comprehend | app/main.py:26 | The dict comprehension's result has unique string keys, and each of its entries comes from one of the pairs. |
| Jsonable.ComprehendFinds | app/main.py:26 | Looking a key up in the comprehension finds the last pair with that name. |
| Jsonable.JsonIsFixpoint | app/main.py:19-28 | A value already made of JSON values is returned unchanged. |
| Jsonable.Idempotent | app/main.py:19-44 | Converting twice gives the same as converting once. |
| Events.FrameRoundTrip | app/main.py:46-48 | An event name and a payload without newlines read back from their frame unchanged. |
| Events.ParseFrameSound | app/main.py:48 | Every string that reads back as a frame is exactly `"event: " + name + "\ndata: " + payload + "\n\n"`, and neither part holds a newline. |
| Events.Sse | app/main.py:46-48 | What `sse` writes reads back as the event name and the encoded, converted data, whenever neither holds a newline. |
| Events.MetaEvent | app/main.py:105 | The first event is `meta` with the thread id first; a resume adds `resuming: true`. |
| Events.InterruptValues | app/main.py:90-92 | The interrupt payload list has one element per pending interrupt, in order, each the interrupt's `value`. |
| Events.StreamEvents | app/main.py:75-95 | A stream has one event per non-interrupt chunk plus two: the first is `meta` and the last is a terminal event. |
| Events.Generate | app/main.py:75-95 | The generator's loops emit exactly the stream specified by `StreamEvents`. |
| Events.UpdatesAreUpdates | app/main.py:79-82 | Every event produced for the chunks is an `update` carrying a chunk that is not an interrupt chunk, and there are no more of them than chunks. |
| Events.UpdatesOfPlainChunks | app/main.py:108-111 | With no interrupt chunks, each chunk gives one `update` carrying it, in order. |
| Events.UpdatesSkipInterrupt | app/main.py:80-81 | Inserting an interrupt chunk anywhere adds no event. |
| Events.StreamShape | app/main.py:75-95 | Every stream starts with `meta`, has only `update` events in between, and has exactly one terminal event, the last. |
| Events.ErrorEndsStream | app/main.py:83-85 | An exception ends the stream with `error` carrying its message, and no `interrupt` or `done` event appears. |
| Events.NormalEnd | app/main.py:88-95 | Without an exception, pending interrupts end the stream with `interrupt`, listing every interrupt's value in order. Otherwise the stream ends with `done` carrying the state's assets, or None. |
| Streams.StateValueFields | app/graph.py:8-14 | A state as a dict holds every set field once under its `ResearchState` name, no unset field, and is a JSON value. |
| Streams.RequestValue | app/graph.py:37-41 | The approval payload is a JSON dict whose `type` is "approve_plan", whose `message` is the approval prompt and whose `plan` is the drafted plan. |
| Streams.ChunkValue | app/main.py:80 | A streamed chunk is an interrupt chunk exactly when the engine suspended. |
| Streams.UpdateWrittenAsIs | app/main.py:82 | An update chunk is already a JSON value, so `sse` writes it unchanged. |
| Streams.SnapshotOf | app/main.py:88-89 | The snapshot lists interrupts exactly when the latest checkpoint waits on one, and has assets exactly when the state does. |
| Streams.RunStream | app/main.py:67-95 | The run endpoint emits exactly the events of the engine's run for a fresh thread, and leaves that thread's history as the run saved it. |
| Streams.ResumeStream | app/main.py:99-124 | The resume endpoint emits exactly the events of the resumed run for the thread's history, or of the `UnknownThread` failure. An unknown thread leaves every history as it was; otherwise the resumed run's checkpoints are appended to the thread's history. |
| Streams.ResumeTwice | app/main.py:99-124 | Two resume requests on the same thread, the first of which got anywhere: the second streams only `meta` and `error`, whatever decision it carries. |
| Streams.RunStreamTerminates | app/main.py:75-95 | Every new run's stream starts with `meta` and ends with exactly one terminal event. |
| Streams.AutoStream | app/main.py:75-95 | In any mode but "approval", the stream is meta, update ×3, then `done` with the synthesized assets. |
| Streams.ApprovalStream | app/main.py:75-95 | In mode "approval" or by default, the stream is meta, update, then `interrupt` whose single payload is the approval request for the drafted plan. |
| Streams.ApproveStream | app/main.py:104-124 | Approving is meta (with `resuming`), update ×3, then `done` with the assets. |
| Streams.RejectStream | app/main.py:104-124 | Rejecting with any value but `True` is meta, update ×2, then `done` with assets None. |
| Streams.SecondResumeFails | app/main.py:108-114 | A second resume of the same thread, with any decision, streams only meta and `error`. |
| Streams.UnknownThreadFails | app/main.py:108-114 | Resuming a thread that was never started streams only meta and `error`. |

## Left out

- `app/llama_client.py` (HTTP calls to a local model server) is not part
  of this model.
- FastAPI routing, `lifespan`, `StreamingResponse` and the pydantic request
  models are transport glue. They appear only as the parameters of
  `RunStream`/`ResumeStream`.
- SQLite durability and crash safety are out of scope. The checkpoint store is
  an in-memory map of append-only per-thread histories.
- Concurrency between threads is out of scope, and so is transport
  cancellation mid-stream.
- Engine exceptions outside the step loop are out of scope, such as
  `get_state` failing after the loop.
- `json.dumps` is a parameter (`dumps`) of `Sse`. The round-trip lemmas
  assume that its output holds no newline, which is true of JSON
  encoders.
- `uuid4()` is the `threadId` parameter of `RunStream`, required fresh.
- The run endpoint's call `graph.stream(...)` (`app/main.py:79`) passes a
  literal Ellipsis as its input. The model feeds that run with the initial
  state built on line 73, the thread's config and `stream_mode="updates"`,
  as the resume endpoint does (`app/main.py:108`). What the engine would do with the Ellipsis is library behaviour
  that is not part of this model.
- Jsonable.ToJsonable: the `model_dump()` and `dict()` branches are not
  modelled. Every foreign object takes the `str(obj)` fallback, carried as
  the text `str()` gives for it.
- Python's equal-key rules are not modelled, such as `1` and `True` being
  one dict key. Floats are carried by their text.
- Placeholder strings are kept verbatim. Only their shape is used in the
  properties.
- The engine's own semantics are fixed by this model: merging updates,
  recording the interrupt, and streaming one `{stage: update}` chunk per
  stage or one `{"__interrupt__": (Interrupt,)}` chunk.
- Runs.ResumeOnlyOnce: the engine library's answer to resuming a thread
  that waits on nothing is not visible here. The model fails such a resume
  with `NothingToResume` and changes no history.
- Streams.SecondResumeFails: it rests on the `NothingToResume` failure
  above. The text of the `error` message it streams ("nothing to resume")
  is the model's own.
- Streams.UnknownThreadFails: the library's answer to resuming a thread
  id it has never seen is not visible here. The model fails with
  `UnknownThread`, changes no history and streams the model's own message
  "unknown thread".
