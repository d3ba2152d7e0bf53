/** The event stream of app/main.py: the `sse` framing and the `gen()`
    generator shared by the run and resume endpoints, which emits one `meta`
    event, one `update` per non-interrupt chunk, then exactly one of
    `error`, `interrupt` or `done`. */
module Events {
  import opened Wrappers
  import opened PyValues
  import opened Jsonable

  // ---------------------------------------------------------------------
  // Framing

  /** The text of one server-sent event. */
  function Frame(event: string, payload: string): string {
    "event: " + event + "\ndata: " + payload + "\n\n"
  }

  /** `sse`: converts the data with `_to_jsonable`, encodes it with `dumps`
      (the JSON encoder, a parameter of this model) and frames it. What it
      writes reads back as the event name and the encoded, converted data. */
  function Sse(event: string, data: PyValue, dumps: PyValue -> string): (r: string)
    ensures '\n' !in event && '\n' !in dumps(ToJsonable(data)) ==>
      ParseFrame(r) == Some((event, dumps(ToJsonable(data))))
  {
    var payload := dumps(ToJsonable(data));
    if '\n' !in event && '\n' !in payload then
      FrameRoundTrip(event, payload);
      Frame(event, payload)
    else
      Frame(event, payload)
  }

  /** The position of the first newline, if any. */
  function FirstNewline(s: string): (r: Option<nat>)
    ensures r.Some? ==> r.value < |s| && s[r.value] == '\n' && '\n' !in s[..r.value]
    ensures r.None? ==> '\n' !in s
  {
    if s == [] then None
    else if s[0] == '\n' then Some(0)
    else
      match FirstNewline(s[1..])
      case None => None
      case Some(i) =>
        assert s[..i + 1] == [s[0]] + s[1..][..i];
        Some(i + 1)
  }

  /** Reads one event back: its name and its data line. */
  function ParseFrame(s: string): Option<(string, string)> {
    if |s| < 9 || s[..7] != "event: " || s[|s| - 2..] != "\n\n" then None
    else
      var body := s[7..|s| - 2];
      match FirstNewline(body)
      case None => None
      case Some(i) =>
        var rest := body[i + 1..];
        if |rest| < 6 || rest[..6] != "data: " || '\n' in rest[6..] then None
        else Some((body[..i], rest[6..]))
  }

  /** A frame reads back as the event and payload it was built from, as long
      as neither holds a newline (the JSON encoder escapes every newline
      inside a string, and emits none between items). */
  lemma FrameRoundTrip(event: string, payload: string)
    requires '\n' !in event && '\n' !in payload
    ensures ParseFrame(Frame(event, payload)) == Some((event, payload))
  {
    var s := Frame(event, payload);
    var body := s[7..|s| - 2];
    assert s[..7] == "event: ";
    assert s[|s| - 2..] == "\n\n";
    assert body == event + "\n" + ("data: " + payload);
    NewlineAfter(event, "data: " + payload);
    var rest := body[|event| + 1..];
    assert rest == "data: " + payload;
    assert rest[..6] == "data: " && rest[6..] == payload;
    assert body[..|event|] == event;
  }

  /** The first newline of `a + "\n" + b` is the one after `a`. */
  lemma {:induction false} NewlineAfter(a: string, b: string)
    requires '\n' !in a
    ensures FirstNewline(a + "\n" + b) == Some(|a|)
  {
    if a != [] {
      NewlineAfter(a[1..], b);
      assert (a + "\n" + b)[1..] == a[1..] + "\n" + b;
    }
  }

  /** Whatever parses is a frame, and its parts hold no newline. */
  lemma ParseFrameSound(s: string)
    requires ParseFrame(s).Some?
    ensures var (event, payload) := ParseFrame(s).value;
      s == Frame(event, payload) && '\n' !in event && '\n' !in payload
  {
    var body := s[7..|s| - 2];
    var i := FirstNewline(body).value;
    var rest := body[i + 1..];
    var event, payload := body[..i], rest[6..];
    assert ParseFrame(s).value == (event, payload);
    assert body == event + "\n" + rest by {
      assert body == body[..i] + [body[i]] + body[i + 1..];
    }
    assert rest == "data: " + payload by {
      assert rest == rest[..6] + rest[6..];
    }
    assert s == "event: " + body + "\n\n" by {
      assert s == s[..7] + body + s[|s| - 2..];
    }
    Reassemble(s, body, event, payload);
  }

  lemma Reassemble(s: string, body: string, event: string, payload: string)
    requires s == "event: " + body + "\n\n" && body == event + "\n" + ("data: " + payload)
    ensures s == Frame(event, payload)
  {
  }

  // ---------------------------------------------------------------------
  // The generator

  /** An event before framing: its name and its data. */
  datatype Event = Event(name: string, data: PyValue)

  /** What the engine's state looks like once the stream is over: the values
      of its pending interrupts and the state's `assets`, if any. */
  datatype Snapshot = Snapshot(interrupts: seq<PyValue>, assets: Option<PyValue>)

  /** `isinstance(chunk, dict) and "__interrupt__" in chunk` */
  predicate IsInterruptChunk(c: PyValue) {
    c.PDict? && KStr("__interrupt__") in KeysOf(c.entries)
  }

  /** `getattr(it, "value", it)` */
  function InterruptValue(it: PyValue): PyValue {
    if it.PInterrupt? then it.value else it
  }

  /** The first event: the thread id, and `resuming: true` on a resume. */
  function MetaEvent(threadId: string, resuming: bool): (e: Event)
    ensures e.name == "meta" && e.data.PDict?
    ensures |e.data.entries| == if resuming then 2 else 1
    ensures e.data.entries[0] == (KStr("thread_id"), PStr(threadId))
    ensures resuming ==> e.data.entries[1] == (KStr("resuming"), PBool(true))
  {
    if resuming then Event("meta", Obj([("thread_id", PStr(threadId)), ("resuming", PBool(true))]))
    else Event("meta", Obj([("thread_id", PStr(threadId))]))
  }

  /** One `update` event per chunk, skipping the interrupt chunks. */
  function Updates(chunks: seq<PyValue>): seq<Event> {
    if chunks == [] then []
    else
      var last := chunks[|chunks| - 1];
      Updates(chunks[..|chunks| - 1]) + (if IsInterruptChunk(last) then [] else [Event("update", last)])
  }

  function ErrorEvent(message: string): Event {
    Event("error", Obj([("message", PStr(message))]))
  }

  /** The interrupt payload list: one value per pending interrupt, in order. */
  function InterruptValues(interrupts: seq<PyValue>): (r: seq<PyValue>)
    ensures |r| == |interrupts|
    ensures forall i :: 0 <= i < |r| ==> r[i] == InterruptValue(interrupts[i])
  {
    seq(|interrupts|, i requires 0 <= i < |interrupts| => InterruptValue(interrupts[i]))
  }

  function InterruptEvent(threadId: string, interrupts: seq<PyValue>): Event {
    Event("interrupt", Obj([("thread_id", PStr(threadId)), ("interrupts", PSeq(List, InterruptValues(interrupts)))]))
  }

  function DoneEvent(threadId: string, assets: Option<PyValue>): Event {
    Event("done", Obj([("thread_id", PStr(threadId)), ("assets", assets.GetOr(PNone))]))
  }

  /** The event that ends the stream. */
  function Terminal(threadId: string, raised: Option<string>, snap: Snapshot): Event {
    if raised.Some? then ErrorEvent(raised.value)
    else if |snap.interrupts| > 0 then InterruptEvent(threadId, snap.interrupts)
    else DoneEvent(threadId, snap.assets)
  }

  /** The events of one stream: `chunks` are what the engine produced before
      it stopped, `raised` the message of the exception it stopped with, if
      any, and `snap` the state read once it stopped normally. */
  function StreamEvents(threadId: string, resuming: bool, chunks: seq<PyValue>, raised: Option<string>, snap: Snapshot): (r: seq<Event>)
    ensures |r| == |Updates(chunks)| + 2
    ensures r[0].name == "meta" && IsTerminal(r[|r| - 1])
  {
    [MetaEvent(threadId, resuming)] + Updates(chunks) + [Terminal(threadId, raised, snap)]
  }

  /** `gen()`: emits the events as it goes, building the interrupt payload
      list by appending one value per pending interrupt. */
  method Generate(threadId: string, resuming: bool, chunks: seq<PyValue>, raised: Option<string>, snap: Snapshot)
    returns (events: seq<Event>)
    ensures events == StreamEvents(threadId, resuming, chunks, raised, snap)
  {
    events := [MetaEvent(threadId, resuming)];
    var i := 0;
    while i < |chunks|
      invariant 0 <= i <= |chunks|
      invariant events == [MetaEvent(threadId, resuming)] + Updates(chunks[..i])
    {
      assert chunks[..i + 1][..i] == chunks[..i];
      if !IsInterruptChunk(chunks[i]) {
        events := events + [Event("update", chunks[i])];
      }
      i := i + 1;
    }
    assert chunks[..i] == chunks;
    if raised.Some? {
      events := events + [ErrorEvent(raised.value)];
      return;
    }
    if |snap.interrupts| > 0 {
      var payloads := [];
      var j := 0;
      while j < |snap.interrupts|
        invariant 0 <= j <= |snap.interrupts|
        invariant |payloads| == j
        invariant forall k :: 0 <= k < j ==> payloads[k] == InterruptValue(snap.interrupts[k])
      {
        payloads := payloads + [InterruptValue(snap.interrupts[j])];
        j := j + 1;
      }
      assert payloads == InterruptValues(snap.interrupts);
      events := events + [Event("interrupt", Obj([("thread_id", PStr(threadId)), ("interrupts", PSeq(List, payloads))]))];
    } else {
      events := events + [DoneEvent(threadId, snap.assets)];
    }
  }

  // ---------------------------------------------------------------------
  // Properties of the stream

  predicate IsTerminal(e: Event) {
    e.name == "error" || e.name == "interrupt" || e.name == "done"
  }

  /** Every event `Updates` produces is an `update` carrying a chunk that is
      not an interrupt chunk. */
  lemma {:induction false} UpdatesAreUpdates(chunks: seq<PyValue>)
    ensures |Updates(chunks)| <= |chunks|
    ensures forall e :: e in Updates(chunks) ==>
      e.name == "update" && e.data in chunks && !IsInterruptChunk(e.data)
  {
    if chunks != [] {
      var n := |chunks| - 1;
      UpdatesAreUpdates(chunks[..n]);
      forall e | e in Updates(chunks[..n]) ensures e.data in chunks {
        assert e.data in chunks[..n];
      }
    }
  }

  /** With no interrupt chunk among them, every chunk gives one update, in order. */
  lemma {:induction false} UpdatesOfPlainChunks(chunks: seq<PyValue>)
    requires forall i :: 0 <= i < |chunks| ==> !IsInterruptChunk(chunks[i])
    ensures Updates(chunks) == seq(|chunks|, i requires 0 <= i < |chunks| => Event("update", chunks[i]))
  {
    if chunks != [] {
      UpdatesOfPlainChunks(chunks[..|chunks| - 1]);
    }
  }

  /** Updates grow one chunk at a time. */
  lemma UpdatesSnoc(chunks: seq<PyValue>, c: PyValue)
    ensures Updates(chunks + [c]) == Updates(chunks) + (if IsInterruptChunk(c) then [] else [Event("update", c)])
  {
    assert (chunks + [c])[..|chunks|] == chunks;
  }

  /** An interrupt chunk, wherever it comes, adds no event. */
  lemma {:induction false} UpdatesSkipInterrupt(before: seq<PyValue>, c: PyValue, after: seq<PyValue>)
    requires IsInterruptChunk(c)
    ensures Updates(before + [c] + after) == Updates(before + after)
    decreases |after|
  {
    if after == [] {
      UpdatesSnoc(before, c);
      assert before + [c] + after == before + [c];
      assert before + after == before;
    } else {
      var n := |after| - 1;
      var last := after[n];
      UpdatesSkipInterrupt(before, c, after[..n]);
      assert before + [c] + after == (before + [c] + after[..n]) + [last];
      assert before + after == (before + after[..n]) + [last];
      UpdatesSnoc(before + [c] + after[..n], last);
      UpdatesSnoc(before + after[..n], last);
    }
  }

  /** The events of a stream without interrupt chunks: meta, one update per
      chunk, then the terminal event. */
  lemma PlainStream(threadId: string, resuming: bool, chunks: seq<PyValue>, raised: Option<string>, snap: Snapshot)
    requires forall i :: 0 <= i < |chunks| ==> !IsInterruptChunk(chunks[i])
    ensures var ev := StreamEvents(threadId, resuming, chunks, raised, snap);
      && |ev| == |chunks| + 2
      && ev[0] == MetaEvent(threadId, resuming)
      && (forall i :: 1 <= i <= |chunks| ==> ev[i] == Event("update", chunks[i - 1]))
      && ev[|chunks| + 1] == Terminal(threadId, raised, snap)
  {
    UpdatesOfPlainChunks(chunks);
  }

  /** Every stream starts with `meta`, ends with exactly one terminal event,
      and has only `update` events in between. */
  lemma StreamShape(threadId: string, resuming: bool, chunks: seq<PyValue>, raised: Option<string>, snap: Snapshot)
    ensures var ev := StreamEvents(threadId, resuming, chunks, raised, snap);
      && |ev| >= 2
      && ev[0] == MetaEvent(threadId, resuming)
      && (forall i :: 0 < i < |ev| - 1 ==> ev[i].name == "update")
      && (forall i :: 0 <= i < |ev| ==> (IsTerminal(ev[i]) <==> i == |ev| - 1))
  {
    var ev := StreamEvents(threadId, resuming, chunks, raised, snap);
    UpdatesAreUpdates(chunks);
    forall i | 0 < i < |ev| - 1 ensures ev[i].name == "update" {
      assert ev[i] in Updates(chunks);
    }
  }

  /** An exception ends the stream with `error`, and no `interrupt` or
      `done` follows or precedes it. */
  lemma ErrorEndsStream(threadId: string, resuming: bool, chunks: seq<PyValue>, message: string, snap: Snapshot)
    ensures var ev := StreamEvents(threadId, resuming, chunks, Some(message), snap);
      && ev[|ev| - 1] == ErrorEvent(message)
      && forall e :: e in ev ==> e.name != "interrupt" && e.name != "done"
  {
    var ev := StreamEvents(threadId, resuming, chunks, Some(message), snap);
    StreamShape(threadId, resuming, chunks, Some(message), snap);
    forall e | e in ev ensures e.name != "interrupt" && e.name != "done" {
      var i :| 0 <= i < |ev| && ev[i] == e;
      assert IsTerminal(e) ==> i == |ev| - 1;
    }
  }

  /** Without an exception, pending interrupts end the stream with an
      `interrupt` event listing every interrupt's value in order; otherwise
      it ends with `done` carrying the assets. */
  lemma NormalEnd(threadId: string, resuming: bool, chunks: seq<PyValue>, snap: Snapshot)
    ensures var ev := StreamEvents(threadId, resuming, chunks, None, snap);
      var last := ev[|ev| - 1];
      && (|snap.interrupts| > 0 ==>
            && last.name == "interrupt"
            && last.data.entries[1].0 == KStr("interrupts")
            && var payloads := last.data.entries[1].1.items;
               |payloads| == |snap.interrupts|
               && forall i :: 0 <= i < |payloads| ==> payloads[i] == InterruptValue(snap.interrupts[i]))
      && (|snap.interrupts| == 0 ==>
            last.name == "done" && last.data.entries[1] == (KStr("assets"), snap.assets.GetOr(PNone)))
  {
  }

  // ---------------------------------------------------------------------
  // Event names

  function Names(events: seq<Event>): (r: seq<string>)
    ensures |r| == |events|
    ensures forall i :: 0 <= i < |r| ==> r[i] == events[i].name
  {
    seq(|events|, i requires 0 <= i < |events| => events[i].name)
  }

  /** Names event by event. */
  lemma NamesAre(events: seq<Event>, names: seq<string>)
    requires |events| == |names|
    requires forall i :: 0 <= i < |events| ==> events[i].name == names[i]
    ensures Names(events) == names
  {
  }

  /** A stream of update chunks that ends normally with nothing pending
      ends with `done` carrying the assets. */
  lemma DoneStream(threadId: string, resuming: bool, chunks: seq<PyValue>, raised: Option<string>, snap: Snapshot)
    requires forall i :: 0 <= i < |chunks| ==> !IsInterruptChunk(chunks[i])
    requires raised.None? && snap.interrupts == []
    ensures var ev := StreamEvents(threadId, resuming, chunks, raised, snap);
      && |ev| == |chunks| + 2
      && ev[0].name == "meta"
      && (forall i :: 1 <= i <= |chunks| ==> ev[i].name == "update")
      && ev[|chunks| + 1] == DoneEvent(threadId, snap.assets)
  {
    PlainStream(threadId, resuming, chunks, raised, snap);
  }

  /** Three updates, then `done`. */
  lemma DoneAfterThree(threadId: string, resuming: bool, chunks: seq<PyValue>, raised: Option<string>, snap: Snapshot)
    requires |chunks| == 3 && forall i :: 0 <= i < |chunks| ==> !IsInterruptChunk(chunks[i])
    requires raised.None? && snap.interrupts == []
    ensures var ev := StreamEvents(threadId, resuming, chunks, raised, snap);
      && Names(ev) == ["meta", "update", "update", "update", "done"]
      && ev[4] == DoneEvent(threadId, snap.assets)
  {
    DoneStream(threadId, resuming, chunks, raised, snap);
    NamesAre(StreamEvents(threadId, resuming, chunks, raised, snap), ["meta", "update", "update", "update", "done"]);
  }

  /** Two updates, then `done`. */
  lemma DoneAfterTwo(threadId: string, resuming: bool, chunks: seq<PyValue>, raised: Option<string>, snap: Snapshot)
    requires |chunks| == 2 && forall i :: 0 <= i < |chunks| ==> !IsInterruptChunk(chunks[i])
    requires raised.None? && snap.interrupts == []
    ensures var ev := StreamEvents(threadId, resuming, chunks, raised, snap);
      && Names(ev) == ["meta", "update", "update", "done"]
      && ev[3] == DoneEvent(threadId, snap.assets)
  {
    DoneStream(threadId, resuming, chunks, raised, snap);
    NamesAre(StreamEvents(threadId, resuming, chunks, raised, snap), ["meta", "update", "update", "done"]);
  }

  /** One update, then the interrupt chunk, with the interrupt pending:
      meta, update, `interrupt`. */
  lemma PausedAfterOne(threadId: string, chunks: seq<PyValue>, raised: Option<string>, snap: Snapshot)
    requires |chunks| == 2 && !IsInterruptChunk(chunks[0]) && IsInterruptChunk(chunks[1])
    requires raised.None? && snap.interrupts != []
    ensures var ev := StreamEvents(threadId, false, chunks, raised, snap);
      && Names(ev) == ["meta", "update", "interrupt"]
      && ev[2] == InterruptEvent(threadId, snap.interrupts)
  {
    assert chunks == [chunks[0]] + [chunks[1]];
    UpdatesSnoc([chunks[0]], chunks[1]);
    UpdatesSnoc([], chunks[0]);
    NamesAre(StreamEvents(threadId, false, chunks, raised, snap), ["meta", "update", "interrupt"]);
  }
}
