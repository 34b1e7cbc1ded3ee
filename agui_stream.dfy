/**
 * The AG-UI endpoint's stream (agui_protocol_adapter.py): the request body
 * `FlexibleRunAgentInput`, the server-sent-event framing `as_sse_data`, and
 * `_generate_stream_response`, which feeds the agent's events through one
 * adapter and closes the run when the adapter has not.
 */
module AguiStream {
  import opened Wrappers
  import opened Dicts
  import opened Json
  import opened AguiEvents
  import opened AguiAdapter

  /** `as_sse_data`: one server-sent event whose data line is the event's JSON. */
  function SseData(payload: string): (r: string)
    ensures |r| == |payload| + 8
    ensures r[..6] == "data: " && r[|r| - 2..] == "\n\n"
  {
    "data: " + payload + "\n\n"
  }

  /** The JSON a client reads back from a frame: the text between `"data: "` and the final blank line. */
  function SsePayload(frame: string): (r: Option<string>)
    ensures r.Some? ==> |frame| >= 8 && r.value == frame[6..|frame| - 2]
  {
    if |frame| >= 8 && frame[..6] == "data: " && frame[|frame| - 2..] == "\n\n" then Some(frame[6..|frame| - 2]) else None
  }

  /** A client slicing `[6:-2]` gets back exactly the JSON the server framed. */
  lemma SsePayloadOfData(payload: string)
    ensures SsePayload(SseData(payload)) == Some(payload)
  {
    var r := SseData(payload);
    assert r[6..|r| - 2] == payload;
  }

  /** Two different events never give the same frame. */
  lemma SseDataInjective(p: string, q: string)
    requires SseData(p) == SseData(q)
    ensures p == q
  {
    SsePayloadOfData(p);
    SsePayloadOfData(q);
  }

  /** The frames of a sequence of events, each dumped to JSON by `dump`. */
  function Frames(evs: seq<Event>, dump: Event -> string): (r: seq<string>)
    ensures |r| == |evs|
    ensures forall i :: 0 <= i < |evs| ==> r[i] == SseData(dump(evs[i]))
  {
    seq(|evs|, i requires 0 <= i < |evs| => SseData(dump(evs[i])))
  }

  /** The RUN_ERROR the stream ends with when the agent raises `message`; it carries no run id. */
  function StreamErrorEvent(message: string): Event
  {
    RunError(None, "Unexpected stream error: " + message, "unexpected_stream_error")
  }

  /**
   * The position of the first of `evs[i..]` whose conversion raises, each
   * converted in the state the events before it leave from `start`.
   */
  function RaiseFrom(start: AdapterState, evs: seq<AgentEvent>, i: nat): (r: Option<nat>)
    requires i <= |evs|
    ensures r.Some? ==> i <= r.value < |evs| && Raises(Run(start, evs[..r.value]).0, evs[r.value])
    ensures r.Some? ==> forall j :: i <= j < r.value ==> !Raises(Run(start, evs[..j]).0, evs[j])
    ensures r.None? ==> forall j :: i <= j < |evs| ==> !Raises(Run(start, evs[..j]).0, evs[j])
    decreases |evs| - i
  {
    if i == |evs| then None
    else if Raises(Run(start, evs[..i]).0, evs[i]) then Some(i)
    else RaiseFrom(start, evs, i + 1)
  }

  /**
   * The events `_generate_stream_response` frames, for an agent that yields
   * `agentEvents` and then either finishes (`failure == None`) or raises
   * `failure`. A failure in the request conversion is a failure with no
   * agent events. When converting one of the events raises, the stream
   * ends there: the events of the earlier ones, then the RUN_ERROR.
   */
  function StreamEvents(threadId: string, runId: string, agentEvents: seq<AgentEvent>, failure: Option<string>): seq<Event>
  {
    var start := Initial(threadId, runId);
    var raise := RaiseFrom(start, agentEvents, 0);
    if raise.Some? then
      Run(start, agentEvents[..raise.value]).1 + [StreamErrorEvent(agentEvents[raise.value].body.data.error)]
    else
      var run := Run(start, agentEvents);
      if failure.Some? then run.1 + [StreamErrorEvent(failure.value)]
      else if run.0.runFinished then run.1
      else run.1 + [RunFinished(threadId, runId, None)]
  }

  /**
   * A stream that completes (no conversion raises, the agent does not
   * raise) keeps the adapter's events and appends exactly one RUN_FINISHED
   * when they hold no RUN_FINISHED or RUN_ERROR, and nothing otherwise; so
   * it always holds a terminal event.
   */
  lemma StreamCloses(threadId: string, runId: string, agentEvents: seq<AgentEvent>)
    ensures RaiseFrom(Initial(threadId, runId), agentEvents, 0).None? ==>
      var out := Run(Initial(threadId, runId), agentEvents).1;
      var evs := StreamEvents(threadId, runId, agentEvents, None);
      && evs[..|out|] == out
      && (Count(out, IsTerminal) == 0 ==> evs == out + [RunFinished(threadId, runId, None)])
      && (Count(out, IsTerminal) > 0 ==> evs == out)
      && Count(evs, IsTerminal) > 0
  {
    var run := Run(Initial(threadId, runId), agentEvents);
    RunProperties(threadId, runId, agentEvents);
    assert run.0.runFinished <==> Count(run.1, IsTerminal) > 0;
    if !run.0.runFinished {
      CountAppend(run.1, [RunFinished(threadId, runId, None)], IsTerminal);
      assert Count([RunFinished(threadId, runId, None)], IsTerminal) == 1;
      assert (run.1 + [RunFinished(threadId, runId, None)])[..|run.1|] == run.1;
    }
  }

  /** A stream whose agent raises keeps the events so far and ends with one RUN_ERROR carrying the error text. */
  lemma StreamFails(threadId: string, runId: string, agentEvents: seq<AgentEvent>, message: string)
    ensures RaiseFrom(Initial(threadId, runId), agentEvents, 0).None? ==>
      var out := Run(Initial(threadId, runId), agentEvents).1;
      var evs := StreamEvents(threadId, runId, agentEvents, Some(message));
      && evs == out + [evs[|evs| - 1]]
      && evs[|evs| - 1].RunError?
      && evs[|evs| - 1].code == "unexpected_stream_error"
      && evs[|evs| - 1].message[25..] == message
  {
  }

  /**
   * A stream in which converting the `i`-th event raises keeps the events
   * of the events before it, drops those of the `i`-th and all later ones,
   * and ends with one RUN_ERROR carrying the validation error, whatever the
   * agent does afterwards.
   */
  lemma StreamConversionFails(threadId: string, runId: string, agentEvents: seq<AgentEvent>, failure: Option<string>, i: nat)
    requires i < |agentEvents|
    requires Raises(Run(Initial(threadId, runId), agentEvents[..i]).0, agentEvents[i])
    requires forall j :: 0 <= j < i ==> !Raises(Run(Initial(threadId, runId), agentEvents[..j]).0, agentEvents[j])
    ensures var out := Run(Initial(threadId, runId), agentEvents[..i]).1;
      var evs := StreamEvents(threadId, runId, agentEvents, failure);
      && evs == out + [evs[|evs| - 1]]
      && evs[|evs| - 1] == RunError(None, "Unexpected stream error: " + agentEvents[i].body.data.error, "unexpected_stream_error")
  {
    RaiseFromFirst(Initial(threadId, runId), agentEvents, 0, i);
  }

  /** The first raising position at or after `k` is `i` when `i` raises and none between them does. */
  lemma {:induction false} RaiseFromFirst(start: AdapterState, evs: seq<AgentEvent>, k: nat, i: nat)
    requires k <= i < |evs| && Raises(Run(start, evs[..i]).0, evs[i])
    requires forall j :: k <= j < i ==> !Raises(Run(start, evs[..j]).0, evs[j])
    ensures RaiseFrom(start, evs, k) == Some(i)
    decreases i - k
  {
    if k < i {
      RaiseFromFirst(start, evs, k + 1, i);
    }
  }

  /** RUN_STARTED occurs at most once in any stream, always with the adapter's ids. */
  lemma StreamStartedOnce(threadId: string, runId: string, agentEvents: seq<AgentEvent>, failure: Option<string>)
    ensures var evs := StreamEvents(threadId, runId, agentEvents, failure);
      && Count(evs, IsStart) <= 1
      && forall e :: e in evs && e.RunStarted? ==> e == RunStarted(threadId, runId)
  {
    var raise := RaiseFrom(Initial(threadId, runId), agentEvents, 0);
    var prefix := if raise.Some? then agentEvents[..raise.value] else agentEvents;
    var out := Run(Initial(threadId, runId), prefix).1;
    RunProperties(threadId, runId, prefix);
    var evs := StreamEvents(threadId, runId, agentEvents, failure);
    if evs != out {
      var last := evs[|evs| - 1];
      assert evs == out + [last];
      CountAppend(out, [last], IsStart);
      assert Count([last], IsStart) == 0;
    }
  }

  /**
   * `_generate_stream_response`. The adapter is built from the request's
   * ids (an empty id falls back to a generated one), `dump` stands for
   * `json.dumps` of an event's model dump, and the uuids for the ids
   * `uuid4()` would generate.
   */
  method GenerateStream(threadIdArg: string, runIdArg: string, threadUuid: string, runUuid: string,
                        agentEvents: seq<AgentEvent>, failure: Option<string>, dump: Event -> string)
    returns (chunks: seq<string>)
    ensures var threadId := ChooseId(Some(threadIdArg), None, "thread_", threadUuid);
      var runId := ChooseId(Some(runIdArg), None, "run_", runUuid);
      chunks == Frames(StreamEvents(threadId, runId, agentEvents, failure), dump)
  {
    var adapter := new Adapter(Some(threadIdArg), Some(runIdArg), None, None, threadUuid, runUuid);
    ghost var start := adapter.State();
    ghost var evs := StreamEvents(adapter.threadId, adapter.runId, agentEvents, failure);
    var raised;
    chunks, raised := ConvertAll(adapter, agentEvents, dump);
    if raised.Some? {
      // the exception leaves the loop: the error frame ends the stream
      ghost var prefix := Run(start, agentEvents[..RaiseFrom(start, agentEvents, 0).value]).1;
      assert evs == prefix + [StreamErrorEvent(raised.value)];
      chunks := chunks + [SseData(dump(StreamErrorEvent(raised.value)))];
      FramesAppend(prefix, [StreamErrorEvent(raised.value)], dump);
      return;
    }
    ghost var out := adapter.emitted;
    assert Run(start, agentEvents) == (adapter.State(), out);
    ghost var tail := if failure.Some? then [StreamErrorEvent(failure.value)]
                      else if adapter.runFinishedEmitted then [] else [RunFinished(adapter.threadId, adapter.runId, None)];
    assert evs == out + tail;
    chunks := CloseStream(adapter, failure, chunks, dump);
    FramesAppend(out, tail, dump);
  }

  /**
   * The end of the stream once every event is converted: the agent's
   * failure, else RUN_FINISHED unless a terminal event was already emitted.
   */
  method CloseStream(adapter: Adapter, failure: Option<string>, chunks: seq<string>, dump: Event -> string)
    returns (chunks': seq<string>)
    modifies adapter
    ensures chunks' == chunks + Frames(
      if failure.Some? then [StreamErrorEvent(failure.value)]
      else if old(adapter.runFinishedEmitted) then [] else [RunFinished(adapter.threadId, adapter.runId, None)], dump)
  {
    if failure.Some? {
      chunks' := chunks + [SseData(dump(StreamErrorEvent(failure.value)))];
    } else if !adapter.RunFinishedEmitted() {
      adapter.runFinishedEmitted := true;
      var finished := adapter.BuildRunEvent(RunFinishedType, None, "", "");
      chunks' := chunks + [SseData(dump(finished.value))];
    } else {
      chunks' := chunks;
    }
  }

  /**
   * The loop of `_generate_stream_response` over the agent's events: each
   * is converted and its AG-UI events framed, until a conversion raises.
   * Without a raise the adapter ends in the state the whole run leaves;
   * with one, the frames are those of the events before the raising one.
   */
  method ConvertAll(adapter: Adapter, agentEvents: seq<AgentEvent>, dump: Event -> string)
    returns (chunks: seq<string>, raised: Option<string>)
    requires adapter.Valid() && adapter.emitted == []
    modifies adapter
    ensures adapter.Valid()
    ensures var r := RaiseFrom(old(adapter.State()), agentEvents, 0);
      && (raised.Some? <==> r.Some?)
      && (r.None? ==> Run(old(adapter.State()), agentEvents) == (adapter.State(), adapter.emitted)
                      && chunks == Frames(adapter.emitted, dump))
      && (r.Some? ==> raised.value == agentEvents[r.value].body.data.error
                      && chunks == Frames(Run(old(adapter.State()), agentEvents[..r.value]).1, dump))
  {
    ghost var start := adapter.State();
    chunks, raised := [], None;
    var i := 0;
    while i < |agentEvents|
      invariant 0 <= i <= |agentEvents|
      invariant adapter.Valid()
      invariant Run(start, agentEvents[..i]) == (adapter.State(), adapter.emitted)
      invariant chunks == Frames(adapter.emitted, dump)
      invariant raised.None?
      invariant RaiseFrom(start, agentEvents, 0) == RaiseFrom(start, agentEvents, i)
    {
      chunks, raised := ConvertStep(adapter, start, agentEvents, i, chunks, dump);
      if raised.Some? {
        assert RaiseFrom(start, agentEvents, i) == Some(i);
        assert RaiseFrom(start, agentEvents, 0) == Some(i);
        assert raised.value == agentEvents[i].body.data.error;
        assert chunks == Frames(Run(start, agentEvents[..i]).1, dump);
        return;
      }
      assert RaiseFrom(start, agentEvents, i) == RaiseFrom(start, agentEvents, i + 1);
      i := i + 1;
    }
    assert RaiseFrom(start, agentEvents, 0).None?;
    assert agentEvents[..i] == agentEvents;
    assert Run(start, agentEvents) == (adapter.State(), adapter.emitted);
  }

  /** One round of the loop of `ConvertAll`: the `i`-th event is converted and, unless that raises, framed. */
  method ConvertStep(adapter: Adapter, ghost start: AdapterState, agentEvents: seq<AgentEvent>, i: nat,
                     chunks: seq<string>, dump: Event -> string) returns (chunks': seq<string>, raised: Option<string>)
    requires i < |agentEvents| && adapter.Valid()
    requires Run(start, agentEvents[..i]) == (adapter.State(), adapter.emitted)
    requires chunks == Frames(adapter.emitted, dump)
    modifies adapter
    ensures adapter.Valid()
    ensures raised.Some? <==> Raises(Run(start, agentEvents[..i]).0, agentEvents[i])
    ensures raised.Some? ==> raised.value == agentEvents[i].body.data.error
    ensures raised.Some? ==> chunks' == Frames(Run(start, agentEvents[..i]).1, dump)
    ensures raised.None? ==>
      Run(start, agentEvents[..i + 1]) == (adapter.State(), adapter.emitted) && chunks' == Frames(adapter.emitted, dump)
  {
    RunSnoc(start, agentEvents[..i], agentEvents[i]);
    assert agentEvents[..i + 1] == agentEvents[..i] + [agentEvents[i]];
    ghost var prev := adapter.emitted;
    var evs;
    evs, raised := adapter.ConvertAgentEvent(agentEvents[i]);
    if raised.Some? {
      // `evs` is never returned: the frames stay those of the earlier events
      return chunks, raised;
    }
    chunks' := AppendFrames(chunks, evs, dump);
    FramesAppend(prev, evs, dump);
  }

  /** The inner loop of `_generate_stream_response`: each converted event is framed and yielded in order. */
  method AppendFrames(chunks: seq<string>, evs: seq<Event>, dump: Event -> string) returns (r: seq<string>)
    ensures r == chunks + Frames(evs, dump)
  {
    r := chunks;
    var j := 0;
    while j < |evs|
      invariant 0 <= j <= |evs|
      invariant r == chunks + Frames(evs[..j], dump)
    {
      FramesAppend(evs[..j], [evs[j]], dump);
      assert evs[..j + 1] == evs[..j] + [evs[j]];
      r := r + [SseData(dump(evs[j]))];
      j := j + 1;
    }
    assert evs[..j] == evs;
  }

  lemma FramesAppend(a: seq<Event>, b: seq<Event>, dump: Event -> string)
    ensures Frames(a + b, dump) == Frames(a, dump) + Frames(b, dump)
  {
  }

  /** The request body after validation; `state` and `forwarded_props` are any JSON. */
  datatype RunInput = RunInput(
    threadId: string,
    runId: string,
    parentRunId: Option<string>,
    state: JsonValue,
    messages: seq<JsonValue>,
    tools: seq<JsonValue>,
    context: seq<JsonValue>,
    forwardedProps: JsonValue)

  /** A field that has an alias: the alias is looked up first, then the field's own name. */
  function AliasedField(body: Dict<JsonValue>, alias: string, name: string): (r: Option<JsonValue>)
    ensures HasKey(body, alias) ==> r == Get(body, alias)
    ensures !HasKey(body, alias) ==> r == Get(body, name)
  {
    if HasKey(body, alias) then Get(body, alias) else Get(body, name)
  }

  /** A required string field. */
  function RequiredString(v: Option<JsonValue>, name: string): (r: Result<string>)
    ensures r.Ok? <==> v.Some? && v.value.JStr?
    ensures r.Ok? ==> v == Some(JStr(r.value))
  {
    if v.Some? && v.value.JStr? then Ok(v.value.s) else Err("ValidationError", name)
  }

  /** A list field defaulting to `[]`. */
  function ListField(v: Option<JsonValue>, name: string): (r: Result<seq<JsonValue>>)
    ensures v.None? ==> r == Ok([])
    ensures v.Some? ==> (r.Ok? <==> v.value.JArr?)
    ensures v.Some? && r.Ok? ==> v.value == JArr(r.value)
  {
    if v.None? then Ok([]) else if v.value.JArr? then Ok(v.value.items) else Err("ValidationError", name)
  }

  /** `FlexibleRunAgentInput` validated from the request's JSON body. */
  function ParseRunInput(body: Dict<JsonValue>): Result<RunInput>
  {
    var threadId := RequiredString(AliasedField(body, "threadId", "thread_id"), "thread_id");
    var runId := RequiredString(AliasedField(body, "runId", "run_id"), "run_id");
    var parent := AliasedField(body, "parentRunId", "parent_run_id");
    var messages := ListField(Get(body, "messages"), "messages");
    var tools := ListField(Get(body, "tools"), "tools");
    var context := ListField(Get(body, "context"), "context");
    if threadId.Err? then Err(threadId.kind, threadId.message)
    else if runId.Err? then Err(runId.kind, runId.message)
    else if parent.Some? && !(parent.value.JNull? || parent.value.JStr?) then Err("ValidationError", "parent_run_id")
    else if messages.Err? then Err(messages.kind, messages.message)
    else if tools.Err? then Err(tools.kind, tools.message)
    else if context.Err? then Err(context.kind, context.message)
    else
      Ok(RunInput(threadId.value, runId.value,
                  if parent.Some? && parent.value.JStr? then Some(parent.value.s) else None,
                  Get(body, "state").GetOr(JNull),
                  messages.value, tools.value, context.value,
                  AliasedField(body, "forwardedProps", "forwarded_props").GetOr(JNull)))
  }

  /** The two ids are required, each under either spelling; a body without one of them is rejected. */
  lemma ParseRunInputIds(body: Dict<JsonValue>)
    ensures var r := ParseRunInput(body);
      var t := AliasedField(body, "threadId", "thread_id");
      var u := AliasedField(body, "runId", "run_id");
      && (r.Ok? ==> t == Some(JStr(r.value.threadId)) && u == Some(JStr(r.value.runId)))
      && (!(t.Some? && t.value.JStr?) ==> r.Err?)
      && (!(u.Some? && u.value.JStr?) ==> r.Err?)
  {
  }

  /** A body holding only the two ids, in either spelling, is accepted with every other field defaulted. */
  lemma ParseRunInputDefaults(threadKey: string, runKey: string, threadId: string, runId: string)
    requires threadKey == "threadId" || threadKey == "thread_id"
    requires runKey == "runId" || runKey == "run_id"
    ensures ParseRunInput([(threadKey, JStr(threadId)), (runKey, JStr(runId))])
      == Ok(RunInput(threadId, runId, None, JNull, [], [], [], JNull))
  {
    var body := [(threadKey, JStr(threadId)), (runKey, JStr(runId))];
    PairLookup(threadKey, JStr(threadId), runKey, JStr(runId), "threadId");
    PairLookup(threadKey, JStr(threadId), runKey, JStr(runId), "thread_id");
    PairLookup(threadKey, JStr(threadId), runKey, JStr(runId), "runId");
    PairLookup(threadKey, JStr(threadId), runKey, JStr(runId), "run_id");
    PairLookup(threadKey, JStr(threadId), runKey, JStr(runId), "parentRunId");
    PairLookup(threadKey, JStr(threadId), runKey, JStr(runId), "parent_run_id");
    PairLookup(threadKey, JStr(threadId), runKey, JStr(runId), "messages");
    PairLookup(threadKey, JStr(threadId), runKey, JStr(runId), "tools");
    PairLookup(threadKey, JStr(threadId), runKey, JStr(runId), "context");
    PairLookup(threadKey, JStr(threadId), runKey, JStr(runId), "state");
    PairLookup(threadKey, JStr(threadId), runKey, JStr(runId), "forwardedProps");
    PairLookup(threadKey, JStr(threadId), runKey, JStr(runId), "forwarded_props");
  }

  lemma PairLookup(k1: string, v1: JsonValue, k2: string, v2: JsonValue, k: string)
    ensures HasKey([(k1, v1), (k2, v2)], k) == (k == k1 || k == k2)
    ensures Get([(k1, v1), (k2, v2)], k) == if k == k1 then Some(v1) else if k == k2 then Some(v2) else None
  {
    assert Keys([(k1, v1), (k2, v2)]) == [k1, k2];
  }
}
