/**
 * `AGUIAdapterUtils` as an object (agui_adapter_utils.py): the thread and
 * run ids fixed at construction, and the four fields each conversion
 * updates in place. Every conversion method is proved to do what the step
 * function of the same name in `AguiEvents` does, and to keep the
 * translation invariant over everything the adapter has emitted so far.
 */
module AguiAdapter {
  import opened Wrappers
  import opened Dicts
  import opened AguiEvents

  /**
   * `thread_id or threadId or f"thread_{uuid4()}"`: the snake_case
   * argument when it is a non-empty string, else the camelCase one, else
   * the generated id (the prefix followed by a fresh uuid).
   */
  function ChooseId(snake: Option<string>, camel: Option<string>, prefix: string, uuid: string): (r: string)
    ensures Truthy(snake) ==> r == snake.value
    ensures !Truthy(snake) && Truthy(camel) ==> r == camel.value
    ensures !Truthy(snake) && !Truthy(camel) ==> r == prefix + uuid
  {
    var given := OrElse(snake, camel);
    if Truthy(given) then given.value else prefix + uuid
  }

  /** The run event kinds `build_run_event` is asked for; any other kind raises ValueError. */
  datatype RunEventType = RunStartedType | RunFinishedType | RunErrorType | OtherRunEventType(name: string)

  class Adapter {
    const threadId: string
    const runId: string
    var runStartedEmitted: bool
    var runFinishedEmitted: bool
    /** `_agui_message_status`: the status of each AG-UI message id. */
    var messageStatus: map<string, MessageStatus>
    /** `_message_id_to_agui_message_id_mapping`. */
    var messageIdMapping: map<string, set<string>>
    /** Every AG-UI event this adapter has returned, in order. */
    ghost var emitted: seq<Event>

    function State(): AdapterState
      reads this
    {
      AdapterState(threadId, runId, runStartedEmitted, runFinishedEmitted, messageStatus, messageIdMapping)
    }

    ghost predicate Valid()
      reads this
    {
      Inv(State(), emitted)
    }

    /** `__init__`; the two uuids stand for the ids `uuid4()` would generate. */
    constructor(threadIdArg: Option<string>, runIdArg: Option<string>,
                threadIdCamel: Option<string>, runIdCamel: Option<string>,
                threadUuid: string, runUuid: string)
      ensures threadId == ChooseId(threadIdArg, threadIdCamel, "thread_", threadUuid)
      ensures runId == ChooseId(runIdArg, runIdCamel, "run_", runUuid)
      ensures State() == Initial(threadId, runId) && emitted == []
      ensures Valid()
    {
      threadId := ChooseId(threadIdArg, threadIdCamel, "thread_", threadUuid);
      runId := ChooseId(runIdArg, runIdCamel, "run_", runUuid);
      runStartedEmitted := false;
      runFinishedEmitted := false;
      messageStatus := map[];
      messageIdMapping := map[];
      emitted := [];
      new;
      InitialInv(threadId, runId);
    }

    /** The `run_finished_emitted` property. */
    function RunFinishedEmitted(): (r: bool)
      reads this
      ensures r == State().runFinished
    {
      runFinishedEmitted
    }

    /** `_ensure_run_started_event`. */
    method EnsureRunStarted() returns (events: seq<Event>)
      requires Valid()
      modifies this
      ensures (State(), events) == StartStep(old(State()))
      ensures emitted == old(emitted) + events && Valid()
    {
      StartStepInv(State(), emitted);
      if runStartedEmitted {
        return [];
      }
      events := [RunStarted(threadId, runId)];
      runStartedEmitted := true;
      emitted := emitted + events;
    }

    /**
     * `convert_agent_event_to_agui_events`: the dispatch on the agent-API
     * event's class. `raised` is the error text when the conversion raises,
     * in which case `events` is never returned to the caller.
     */
    method ConvertAgentEvent(e: AgentEvent) returns (events: seq<Event>, raised: Option<string>)
      requires Valid()
      modifies this
      ensures (State(), events) == EventStep(old(State()), e)
      ensures emitted == old(emitted) + events && Valid()
      ensures raised.Some? <==> Raises(old(State()), e)
      ensures raised.Some? ==> raised.value == e.body.data.error
    {
      raised := None;
      match e
      case ResponseEvent(status, error) => events := ConvertResponse(status, error);
      case MessageEvent(id, status) => events := ConvertMessage(id, status);
      case ContentEvent(id, cstatus, body) => events, raised := ConvertContent(id, cstatus, body);
      case OtherEvent =>
        events := [];
        assert emitted + [] == emitted;
    }

    /** `_convert_response_event`. */
    method ConvertResponse(status: RunStatus, error: Option<Dict<string>>) returns (events: seq<Event>)
      requires Valid()
      modifies this
      ensures (State(), events) == ResponseStep(old(State()), status, error)
      ensures emitted == old(emitted) + events && Valid()
    {
      ResponseStepInv(State(), emitted, status, error);
      match status
      case Created =>
        events := EnsureRunStarted();
      case Failed =>
        events := [ErrorEvent(State(), error)];
        runFinishedEmitted := true;
        emitted := emitted + events;
      case Rejected =>
        events := [ErrorEvent(State(), error)];
        runFinishedEmitted := true;
        emitted := emitted + events;
      case Completed =>
        runFinishedEmitted := true;
        events := [RunFinished(threadId, runId, None)];
        emitted := emitted + events;
      case Canceled =>
        runFinishedEmitted := true;
        events := [RunFinished(threadId, runId, Some("agent run canceled"))];
        emitted := emitted + events;
      case InProgress =>
        events := [];
        assert emitted + [] == emitted;
      case Unknown =>
        events := [];
        assert emitted + [] == emitted;
    }

    /**
     * `_convert_message_event`. The loop runs over the AG-UI ids recorded
     * for the message, which are at most the message's own id.
     */
    method ConvertMessage(id: string, status: RunStatus) returns (events: seq<Event>)
      requires Valid()
      modifies this
      ensures (State(), events) == MessageStep(old(State()), id, status)
      ensures emitted == old(emitted) + events && Valid()
    {
      ghost var s0 := State();
      ghost var out0 := emitted;
      MessageStepInv(s0, out0, id, status);
      events := EnsureRunStarted();
      if status == Completed {
        var ends := CompleteMessage(id);
        events := events + ends;
      }
      ghost var step := MessageStep(s0, id, status);
      assert (State(), events) == step;
      assert Inv(step.0, out0 + step.1);
      emitted := out0 + events;
    }

    /** The completed branch of `_convert_message_event`. */
    method CompleteMessage(id: string) returns (events: seq<Event>)
      requires IdsAreOwn(State())
      modifies this
      ensures (State(), events) == EndStep(KeepIds(old(State()), id), id, IdsOf(old(State()), id))
      ensures emitted == old(emitted)
    {
      var ids := if id in messageIdMapping then messageIdMapping[id] else {};
      messageIdMapping := messageIdMapping[id := ids];
      events := EndMessages(id, ids);
    }

    /**
     * The loop of `_convert_message_event` over the AG-UI ids of message
     * `id`: each one that has started and is not completed is ended. The
     * ids are at most `id` itself.
     */
    method EndMessages(id: string, ids: set<string>) returns (events: seq<Event>)
      requires ids <= {id}
      modifies this
      ensures (State(), events) == EndStep(old(State()), id, ids) && emitted == old(emitted)
    {
      events := [];
      var rest := ids;
      while rest != {}
        invariant rest <= ids
        invariant rest == ids ==> messageStatus == old(messageStatus) && events == []
        invariant rest != ids ==> rest == {} && id in ids
        invariant rest != ids ==> var ending := id in old(messageStatus) && old(messageStatus)[id] != MsgCompleted;
          && messageStatus == (if ending then old(messageStatus)[id := MsgCompleted] else old(messageStatus))
          && events == (if ending then [TextMessageEnd(id)] else [])
        invariant runStartedEmitted == old(runStartedEmitted) && runFinishedEmitted == old(runFinishedEmitted)
        invariant messageIdMapping == old(messageIdMapping) && emitted == old(emitted)
        decreases |rest|
      {
        var m :| m in rest;
        rest := rest - {m};
        if m in messageStatus && messageStatus[m] != MsgCompleted {
          events := events + [TextMessageEnd(m)];
          messageStatus := messageStatus[m := MsgCompleted];
        }
      }
    }

    /** `_ensure_agui_text_message_started`. */
    method EnsureTextMessageStarted(id: string) returns (events: seq<Event>)
      modifies this
      ensures (State(), events) == EnsureTextStarted(old(State()), id)
      ensures emitted == old(emitted)
    {
      if id in messageStatus {
        return [];
      }
      messageStatus := messageStatus[id := MsgCreated];
      events := [TextMessageStart(id)];
    }

    /** `_ensure_agui_tool_call_message_started`, on an id without a status as it is only called. */
    method EnsureToolCallStarted(id: string, callId: string, name: string) returns (events: seq<Event>)
      requires id !in messageStatus
      modifies this
      ensures State() == old(State()).(status := old(messageStatus)[id := MsgCreated])
      ensures events == [ToolCallStart(callId, name)] && emitted == old(emitted)
    {
      messageStatus := messageStatus[id := MsgCreated];
      events := [ToolCallStart(callId, name)];
    }

    /** `_convert_content_event`: the AG-UI message id is the content's `msg_id`. */
    method ConvertContent(id: string, cstatus: RunStatus, body: ContentBody) returns (events: seq<Event>, raised: Option<string>)
      requires Valid()
      modifies this
      ensures (State(), events) == ContentStep(old(State()), id, cstatus, body)
      ensures emitted == old(emitted) + events && Valid()
      ensures raised.Some? <==> Raises(old(State()), ContentEvent(id, cstatus, body))
      ensures raised.Some? ==> raised.value == body.data.error
    {
      ghost var s0 := State();
      ghost var out0 := emitted;
      ContentStepInv(s0, out0, id, cstatus, body);
      ContentStepSplit(s0, id, cstatus, body);
      events := EnsureRunStarted();
      var more;
      more, raised := ConvertBody(id, cstatus, body);
      events := events + more;
      emitted := out0 + events;
    }

    /** `_convert_content_event` after RUN_STARTED: the id is recorded, then the content's kind decides. */
    method ConvertBody(id: string, cstatus: RunStatus, body: ContentBody) returns (events: seq<Event>, raised: Option<string>)
      modifies this
      ensures (State(), events) == BodyStep(RecordId(old(State()), id), id, cstatus, body)
      ensures emitted == old(emitted)
      ensures raised.Some? <==> body.DataBody? && body.data.InvalidData? && cstatus == Completed && id !in old(messageStatus)
      ensures raised.Some? ==> raised.value == body.data.error
    {
      messageIdMapping := messageIdMapping[id := (if id in messageIdMapping then messageIdMapping[id] else {}) + {id}];
      assert State() == RecordId(old(State()), id);
      match body
      case TextBody(text, delta) => events := ConvertTextContent(id, text, delta); raised := None;
      case DataBody(data) => events, raised := ConvertDataContent(id, cstatus, data);
      case OtherBody => events := []; raised := None;
    }

    /** The text branch of `_convert_content_event`. */
    method ConvertTextContent(id: string, text: string, delta: bool) returns (events: seq<Event>)
      modifies this
      ensures (State(), events) == BodyStep(old(State()), id, Unknown, TextBody(text, delta))
      ensures emitted == old(emitted)
    {
      var started := EnsureTextMessageStarted(id);
      var more := ConvertText(id, text, delta);
      events := started + more;
    }

    /**
     * The data branch of `_convert_content_event`: only a completed content
     * on an unseen AG-UI id is converted, and data that is neither a
     * function call nor its output raises there.
     */
    method ConvertDataContent(id: string, cstatus: RunStatus, data: CallData) returns (events: seq<Event>, raised: Option<string>)
      modifies this
      ensures (State(), events) == BodyStep(old(State()), id, cstatus, DataBody(data))
      ensures emitted == old(emitted)
      ensures raised.Some? <==> data.InvalidData? && cstatus == Completed && id !in old(messageStatus)
      ensures raised.Some? ==> raised.value == data.error
    {
      raised := None;
      if id in messageStatus || cstatus != Completed {
        return [], None;
      }
      match data
      case FunctionCallData(callId, name, arguments) =>
        var started := EnsureToolCallStarted(id, callId, name);
        events := started + [ToolCallArgs(callId, arguments), ToolCallEnd(callId)];
        messageStatus := messageStatus[id := MsgCompleted];
        assert messageStatus == old(messageStatus)[id := MsgCompleted];
        assert events == [ToolCallStart(callId, name), ToolCallArgs(callId, arguments), ToolCallEnd(callId)];
      case FunctionCallOutputData(callId, output) =>
        events := [ToolCallResult(id, callId, output)];
      case InvalidData(error) =>
        events := [];
        raised := Some(error);
    }

    /** The text branch of `_convert_content_event`, once the AG-UI message has started. */
    method ConvertText(id: string, text: string, delta: bool) returns (events: seq<Event>)
      requires id in messageStatus
      modifies this
      ensures (State(), events) == TextStep(old(State()), id, text, delta)
      ensures emitted == old(emitted)
    {
      events := [];
      if delta {
        if messageStatus[id] == MsgCompleted {
        } else if text != "" {
          messageStatus := messageStatus[id := MsgInProgress];
          events := [TextMessageContent(id, text)];
        }
      } else {
        if messageStatus[id] == MsgInProgress {
          events := [TextMessageEnd(id)];
          messageStatus := messageStatus[id := MsgCompleted];
        } else if messageStatus[id] == MsgCreated {
          events := [TextMessageContent(id, text)];
          messageStatus := messageStatus[id := MsgCompleted];
        }
      }
    }

    /**
     * `build_run_event`: RUN_STARTED and RUN_FINISHED carry this adapter's
     * thread and run ids, RUN_ERROR its run id; any other kind raises
     * ValueError.
     */
    function BuildRunEvent(kind: RunEventType, result: Option<string>, message: string, code: string): (r: Result<Event>)
      ensures r.Ok? <==> !kind.OtherRunEventType?
      ensures kind == RunStartedType ==> r == Ok(RunStarted(threadId, runId))
      ensures kind == RunFinishedType ==> r == Ok(RunFinished(threadId, runId, result))
      ensures kind == RunErrorType ==> r == Ok(RunError(Some(runId), message, code))
      ensures r.Err? ==> r.kind == "ValueError"
    {
      match kind
      case RunStartedType => Ok(RunStarted(threadId, runId))
      case RunFinishedType => Ok(RunFinished(threadId, runId, result))
      case RunErrorType => Ok(RunError(Some(runId), message, code))
      case OtherRunEventType(name) => Err("ValueError", "Unsupported run event type: " + name)
    }

    /** The events the response conversion builds are the ones `build_run_event` builds. */
    lemma ResponseEventsBuilt(status: RunStatus, error: Option<Dict<string>>)
      ensures var evs := ResponseStep(State(), status, error).1;
        && (status == Completed ==> Ok(evs[0]) == BuildRunEvent(RunFinishedType, None, "", ""))
        && (status == Canceled ==> Ok(evs[0]) == BuildRunEvent(RunFinishedType, Some("agent run canceled"), "", ""))
        && ((status == Failed || status == Rejected) ==>
              Ok(evs[0]) == BuildRunEvent(RunErrorType, None, evs[0].message, evs[0].code))
        && (status == Created && !runStartedEmitted ==> Ok(evs[0]) == BuildRunEvent(RunStartedType, None, "", ""))
    {
    }
  }
}
