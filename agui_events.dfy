/**
 * The event translation of `AGUIAdapterUtils` (agui_adapter_utils.py) as
 * step functions on the adapter's state: the run-started and run-finished
 * flags, the status of each AG-UI message id (CREATED, IN_PROGRESS,
 * COMPLETED) and the map from agent-API message ids to AG-UI message ids.
 * Each step takes one agent-API event and gives the new state and the AG-UI
 * events it produces; `Run` translates a whole stream.
 */
module AguiEvents {
  import opened Wrappers
  import opened Dicts

  /** The AG-UI events the adapter produces, with the fields it sets. */
  datatype Event =
    | RunStarted(threadId: string, runId: string)
    | RunFinished(threadId: string, runId: string, result: Option<string>)
    | RunError(errorRunId: Option<string>, message: string, code: string)
    | TextMessageStart(messageId: string)
    | TextMessageContent(messageId: string, delta: string)
    | TextMessageEnd(messageId: string)
    | ToolCallStart(toolCallId: string, toolCallName: string)
    | ToolCallArgs(toolCallId: string, delta: string)
    | ToolCallEnd(toolCallId: string)
    | ToolCallResult(messageId: string, toolCallId: string, content: string)

  /** A terminal run event. */
  predicate IsTerminal(e: Event)
  {
    e.RunFinished? || e.RunError?
  }

  /** An event that belongs to a message or a tool call rather than to the run. */
  predicate IsMessageEvent(e: Event)
  {
    !(e.RunStarted? || e.RunFinished? || e.RunError?)
  }

  /** The agent-API run statuses; those the adapter does not name are handled alike. */
  datatype RunStatus = Created | InProgress | Completed | Canceled | Failed | Rejected | Unknown

  /** `AGUI_MESSAGE_STATUS`. */
  datatype MessageStatus = MsgCreated | MsgInProgress | MsgCompleted

  /**
   * The payload of a data content: a function call, a function call's
   * output, or data that validates as neither (`error` is the text of the
   * validation error).
   */
  datatype CallData =
    | FunctionCallData(callId: string, name: string, arguments: string)
    | FunctionCallOutputData(callId: string, output: string)
    | InvalidData(error: string)

  datatype ContentBody = TextBody(text: string, delta: bool) | DataBody(data: CallData) | OtherBody

  /** The agent-API events the adapter reads; `error` is the dumped error of a response, when it has one. */
  datatype AgentEvent =
    | ResponseEvent(status: RunStatus, error: Option<Dict<string>>)
    | MessageEvent(id: string, status: RunStatus)
    | ContentEvent(msgId: string, cstatus: RunStatus, body: ContentBody)
    | OtherEvent

  /** The adapter's state. */
  datatype AdapterState = AdapterState(
    threadId: string,
    runId: string,
    runStarted: bool,
    runFinished: bool,
    status: map<string, MessageStatus>,
    messageIds: map<string, set<string>>)

  function Initial(threadId: string, runId: string): AdapterState
  {
    AdapterState(threadId, runId, false, false, map[], map[])
  }

  /** This run's RUN_STARTED event. */
  function StartedEvent(s: AdapterState): Event
  {
    RunStarted(s.threadId, s.runId)
  }

  /** `_ensure_run_started_event`. */
  function StartStep(s: AdapterState): (AdapterState, seq<Event>)
  {
    if s.runStarted then (s, []) else (s.(runStarted := true), [StartedEvent(s)])
  }

  /** The RUN_ERROR of a failed or rejected response. */
  function ErrorEvent(s: AdapterState, error: Option<Dict<string>>): Event
  {
    if error.Some? then
      RunError(Some(s.runId), Get(error.value, "message").GetOr("agent run failed"), Get(error.value, "code").GetOr("unknown_error"))
    else RunError(Some(s.runId), "agent run failed", "unknown_error")
  }

  /** `_convert_response_event`. */
  function ResponseStep(s: AdapterState, status: RunStatus, error: Option<Dict<string>>): (AdapterState, seq<Event>)
  {
    match status
    case Created => StartStep(s)
    case Failed => (s.(runFinished := true), [ErrorEvent(s, error)])
    case Rejected => (s.(runFinished := true), [ErrorEvent(s, error)])
    case Completed => (s.(runFinished := true), [RunFinished(s.threadId, s.runId, None)])
    case Canceled => (s.(runFinished := true), [RunFinished(s.threadId, s.runId, Some("agent run canceled"))])
    case _ => (s, [])
  }

  /** The AG-UI ids recorded for an agent-API message id (a `defaultdict(set)` lookup). */
  function IdsOf(s: AdapterState, id: string): set<string>
  {
    if id in s.messageIds then s.messageIds[id] else {}
  }

  /**
   * `_convert_message_event`: a completed message ends each of its AG-UI
   * messages that has started and is not completed yet. The AG-UI ids of a
   * message are at most its own id (`IdsAreOwn`), so the loop over them is
   * one test.
   */
  function MessageStep(s: AdapterState, id: string, status: RunStatus): (AdapterState, seq<Event>)
  {
    var started := StartStep(s);
    if status != Completed then started
    else
      var ids := IdsOf(started.0, id);
      var ended := EndStep(KeepIds(started.0, id), id, ids);
      (ended.0, started.1 + ended.1)
  }

  /** `mapping[message.id]` on the `defaultdict`, which stores the empty set for an unseen id. */
  function KeepIds(s: AdapterState, id: string): AdapterState
  {
    s.(messageIds := s.messageIds[id := IdsOf(s, id)])
  }

  /** The loop over the AG-UI ids `ids` of message `id`, which are at most `id` itself. */
  function EndStep(s: AdapterState, id: string, ids: set<string>): (AdapterState, seq<Event>)
  {
    if id in ids && id in s.status && s.status[id] != MsgCompleted then
      (s.(status := s.status[id := MsgCompleted]), [TextMessageEnd(id)])
    else (s, [])
  }

  /** A text content, once its AG-UI message has started. */
  function TextStep(s: AdapterState, id: string, text: string, delta: bool): (AdapterState, seq<Event>)
    requires id in s.status
  {
    var cur := s.status[id];
    if delta then
      if cur == MsgCompleted || text == "" then (s, [])
      else (s.(status := s.status[id := MsgInProgress]), [TextMessageContent(id, text)])
    else if cur == MsgInProgress then (s.(status := s.status[id := MsgCompleted]), [TextMessageEnd(id)])
    else if cur == MsgCreated then (s.(status := s.status[id := MsgCompleted]), [TextMessageContent(id, text)])
    else (s, [])
  }

  /** A completed data content on an AG-UI id without a status. */
  function DataStep(s: AdapterState, id: string, data: CallData): (AdapterState, seq<Event>)
  {
    match data
    case FunctionCallData(callId, name, arguments) =>
      (s.(status := s.status[id := MsgCompleted]),
       [ToolCallStart(callId, name), ToolCallArgs(callId, arguments), ToolCallEnd(callId)])
    case FunctionCallOutputData(callId, output) =>
      (s, [ToolCallResult(id, callId, output)])
    case InvalidData(_) =>
      // the validation raises here: see `Raises`
      (s, [])
  }

  /** `mapping[content.msg_id].add(content.msg_id)`. */
  function RecordId(s: AdapterState, id: string): AdapterState
  {
    s.(messageIds := s.messageIds[id := IdsOf(s, id) + {id}])
  }

  /** `_ensure_agui_text_message_started`. */
  function EnsureTextStarted(s: AdapterState, id: string): (AdapterState, seq<Event>)
  {
    if id in s.status then (s, []) else (s.(status := s.status[id := MsgCreated]), [TextMessageStart(id)])
  }

  /** `_convert_content_event`; the AG-UI message id is the content's `msg_id`. */
  function ContentStep(s: AdapterState, id: string, cstatus: RunStatus, body: ContentBody): (AdapterState, seq<Event>)
  {
    var (s1, pre) := StartStep(s);
    var s2 := RecordId(s1, id);
    match body
    case TextBody(text, delta) =>
      var (s3, started) := EnsureTextStarted(s2, id);
      var (s4, evs) := TextStep(s3, id, text, delta);
      (s4, pre + started + evs)
    case DataBody(data) =>
      if id in s2.status || cstatus != Completed then (s2, pre)
      else
        var (s3, evs) := DataStep(s2, id, data);
        (s3, pre + evs)
    case OtherBody => (s2, pre)
  }

  /**
   * Whether converting `e` in state `s` raises: a COMPLETED data content,
   * on an AG-UI id without a status, whose data validates as neither a
   * function call nor a function call's output.
   */
  predicate Raises(s: AdapterState, e: AgentEvent)
  {
    && e.ContentEvent? && e.body.DataBody? && e.body.data.InvalidData?
    && e.cstatus == Completed && e.msgId !in s.status
  }

  /** `convert_agent_event_to_agui_events`. */
  function EventStep(s: AdapterState, e: AgentEvent): (AdapterState, seq<Event>)
  {
    match e
    case ResponseEvent(status, error) => ResponseStep(s, status, error)
    case MessageEvent(id, status) => MessageStep(s, id, status)
    case ContentEvent(id, cstatus, body) => ContentStep(s, id, cstatus, body)
    case OtherEvent => (s, [])
  }

  /** Translating a stream of agent-API events, one after the other. */
  function Run(s: AdapterState, evs: seq<AgentEvent>): (AdapterState, seq<Event>)
    decreases |evs|
  {
    if evs == [] then (s, [])
    else
      var (s1, out1) := Run(s, evs[..|evs| - 1]);
      var (s2, out2) := EventStep(s1, evs[|evs| - 1]);
      (s2, out1 + out2)
  }

  // ---------------------------------------------------------------------
  // What a translation keeps true
  // ---------------------------------------------------------------------

  predicate IsStart(e: Event)
  {
    e.RunStarted?
  }

  predicate IsEnd(e: Event)
  {
    e.TextMessageEnd?
  }

  /** The number of events of a kind. */
  function Count(out: seq<Event>, p: Event -> bool): nat
  {
    if out == [] then 0 else (if p(out[0]) then 1 else 0) + Count(out[1..], p)
  }

  lemma {:induction false} CountAppend(a: seq<Event>, b: seq<Event>, p: Event -> bool)
    ensures Count(a + b, p) == Count(a, p) + Count(b, p)
    decreases |a|
  {
    if a != [] {
      assert (a + b)[0] == a[0];
      assert (a + b)[1..] == a[1..] + b;
      CountAppend(a[1..], b, p);
    } else {
      assert a + b == b;
    }
  }

  lemma {:induction false} CountNone(evs: seq<Event>, p: Event -> bool)
    requires forall e :: e in evs ==> !p(e)
    ensures Count(evs, p) == 0
    decreases |evs|
  {
    if evs != [] {
      assert evs[0] in evs;
      assert forall e :: e in evs[1..] ==> e in evs;
      CountNone(evs[1..], p);
    }
  }

  /** Events without a TEXT_MESSAGE_END count no end for any id. */
  lemma NoEnds(evs: seq<Event>)
    requires forall e :: e in evs ==> !e.TextMessageEnd?
    ensures forall id :: multiset(evs)[TextMessageEnd(id)] == 0
  {
    forall id
      ensures multiset(evs)[TextMessageEnd(id)] == 0
    {
      assert TextMessageEnd(id) !in evs;
    }
  }

  /** No message or tool event comes before the first RUN_STARTED. */
  predicate StartedFirst(out: seq<Event>)
    decreases |out|
  {
    out == [] || out[0].RunStarted? || (!IsMessageEvent(out[0]) && StartedFirst(out[1..]))
  }

  lemma {:induction false} StartedFirstAppend(a: seq<Event>, b: seq<Event>)
    requires StartedFirst(a)
    requires Count(a, IsStart) > 0 || StartedFirst(b)
    ensures StartedFirst(a + b)
    decreases |a|
  {
    if a == [] {
      assert a + b == b;
    } else {
      assert (a + b)[0] == a[0];
      if !a[0].RunStarted? {
        assert (a + b)[1..] == a[1..] + b;
        StartedFirstAppend(a[1..], b);
      }
    }
  }

  /** Read positionally: every message or tool event has a RUN_STARTED before it. */
  lemma {:induction false} StartedFirstAt(out: seq<Event>, i: nat)
    requires StartedFirst(out) && i < |out| && IsMessageEvent(out[i])
    ensures exists j :: 0 <= j < i && out[j].RunStarted?
    decreases |out|
  {
    if !out[0].RunStarted? {
      assert i > 0;
      StartedFirstAt(out[1..], i - 1);
      var j :| 0 <= j < i - 1 && out[1..][j].RunStarted?;
      assert out[j + 1] == out[1..][j];
    }
  }

  predicate IsCompleted(s: AdapterState, id: string)
  {
    id in s.status && s.status[id] == MsgCompleted
  }

  /** The AG-UI ids of an agent-API message are at most its own id. */
  predicate IdsAreOwn(s: AdapterState)
  {
    forall k :: k in s.messageIds ==> s.messageIds[k] <= {k}
  }

  /** RUN_STARTED has been emitted once when the flag is set and never otherwise, always with this run's ids. */
  predicate StartedOnce(s: AdapterState, out: seq<Event>)
  {
    && Count(out, IsStart) == (if s.runStarted then 1 else 0)
    && (forall e :: e in out && e.RunStarted? ==> e == StartedEvent(s))
  }

  /** A message id has had a TEXT_MESSAGE_END only if it is completed, and at most one. */
  ghost predicate EndsOnce(s: AdapterState, out: seq<Event>)
  {
    forall id :: multiset(out)[TextMessageEnd(id)] <= if IsCompleted(s, id) then 1 else 0
  }

  /** The run-finished flag holds exactly when a terminal event has been emitted. */
  predicate FinishedIff(s: AdapterState, out: seq<Event>)
  {
    s.runFinished <==> Count(out, IsTerminal) > 0
  }

  ghost predicate Inv(s: AdapterState, out: seq<Event>)
  {
    IdsAreOwn(s) && StartedOnce(s, out) && StartedFirst(out) && EndsOnce(s, out) && FinishedIff(s, out)
  }

  /** COMPLETED is never left, the run flags are never cleared, and the run's ids never change. */
  ghost predicate Grows(s: AdapterState, t: AdapterState)
  {
    && t.threadId == s.threadId && t.runId == s.runId
    && (s.runStarted ==> t.runStarted)
    && (s.runFinished ==> t.runFinished)
    && (forall id :: IsCompleted(s, id) ==> IsCompleted(t, id))
    && (forall id :: id in s.status ==> id in t.status)
  }

  lemma InitialInv(threadId: string, runId: string)
    ensures Inv(Initial(threadId, runId), [])
  {
  }

  /**
   * Appending message or tool events other than TEXT_MESSAGE_END to the
   * output of a started run keeps the invariant.
   */
  lemma AppendPlain(s: AdapterState, out: seq<Event>, evs: seq<Event>)
    requires Inv(s, out) && s.runStarted
    requires forall e :: e in evs ==> IsMessageEvent(e) && !e.TextMessageEnd?
    ensures Inv(s, out + evs)
  {
    CountNone(evs, IsStart);
    CountNone(evs, IsTerminal);
    CountAppend(out, evs, IsStart);
    CountAppend(out, evs, IsTerminal);
    StartedFirstAppend(out, evs);
    NoEnds(evs);
  }

  /** `StartStep` leaves the run started and keeps the invariant. */
  lemma StartStepInv(s: AdapterState, out: seq<Event>)
    requires Inv(s, out)
    ensures var (t, evs) := StartStep(s);
      && Inv(t, out + evs) && Grows(s, t) && t.runStarted
      && t.status == s.status && t.messageIds == s.messageIds && t.runFinished == s.runFinished
      && t.threadId == s.threadId && t.runId == s.runId
  {
    var (t, evs) := StartStep(s);
    CountAppend(out, evs, IsStart);
    CountAppend(out, evs, IsTerminal);
    assert StartedFirst(evs) by {
      if evs != [] {
        assert evs[0].RunStarted?;
      }
    }
    StartedFirstAppend(out, evs);
    assert evs == [] || evs == [StartedEvent(s)];
    NoEnds(evs);
  }

  /** A terminal event ends nothing and keeps RUN_STARTED first. */
  lemma AppendTerminal(s: AdapterState, out: seq<Event>, e: Event)
    requires Inv(s, out) && IsTerminal(e)
    ensures Inv(s.(runFinished := true), out + [e])
  {
    CountAppend(out, [e], IsStart);
    CountAppend(out, [e], IsTerminal);
    assert StartedFirst([e]) by {
      assert [e][1..] == [];
    }
    StartedFirstAppend(out, [e]);
    NoEnds([e]);
  }

  /** A response event keeps the invariant. */
  lemma ResponseStepInv(s: AdapterState, out: seq<Event>, status: RunStatus, error: Option<Dict<string>>)
    requires Inv(s, out)
    ensures var (t, evs) := ResponseStep(s, status, error);
      Inv(t, out + evs)
  {
    match status
    case Created => StartStepInv(s, out);
    case Failed => AppendTerminal(s, out, ErrorEvent(s, error));
    case Rejected => AppendTerminal(s, out, ErrorEvent(s, error));
    case Completed => AppendTerminal(s, out, RunFinished(s.threadId, s.runId, None));
    case Canceled => AppendTerminal(s, out, RunFinished(s.threadId, s.runId, Some("agent run canceled")));
    case InProgress => assert out + [] == out;
    case Unknown => assert out + [] == out;
  }

  /** Ending a started, not yet completed message of a started run keeps the invariant. */
  lemma AppendEnd(s: AdapterState, out: seq<Event>, id: string)
    requires Inv(s, out) && s.runStarted && id in s.status && !IsCompleted(s, id)
    ensures Inv(s.(status := s.status[id := MsgCompleted]), out + [TextMessageEnd(id)])
  {
    var t := s.(status := s.status[id := MsgCompleted]);
    var evs := [TextMessageEnd(id)];
    CountAppend(out, evs, IsStart);
    CountAppend(out, evs, IsTerminal);
    StartedFirstAppend(out, evs);
    assert multiset(out)[TextMessageEnd(id)] == 0;
    forall j
      ensures multiset(out + evs)[TextMessageEnd(j)] <= if IsCompleted(t, j) then 1 else 0
    {
      if j != id {
        assert IsCompleted(t, j) == IsCompleted(s, j);
      }
    }
  }

  lemma KeepIdsInv(s: AdapterState, out: seq<Event>, id: string)
    requires Inv(s, out)
    ensures Inv(KeepIds(s, id), out)
  {
  }

  lemma EndStepInv(s: AdapterState, out: seq<Event>, id: string, ids: set<string>)
    requires Inv(s, out) && s.runStarted
    ensures Inv(EndStep(s, id, ids).0, out + EndStep(s, id, ids).1)
  {
    if id in ids && id in s.status && s.status[id] != MsgCompleted {
      AppendEnd(s, out, id);
    } else {
      assert out + [] == out;
    }
  }

  /** A message event keeps the invariant. */
  lemma MessageStepInv(s: AdapterState, out: seq<Event>, id: string, status: RunStatus)
    requires Inv(s, out)
    ensures var (t, evs) := MessageStep(s, id, status);
      Inv(t, out + evs)
  {
    StartStepInv(s, out);
    var started := StartStep(s);
    if status == Completed {
      var pre := started.1;
      var s2 := KeepIds(started.0, id);
      KeepIdsInv(started.0, out + pre, id);
      var ended := EndStep(s2, id, IdsOf(started.0, id));
      EndStepInv(s2, out + pre, id, IdsOf(started.0, id));
      assert (out + pre) + ended.1 == out + (pre + ended.1);
    }
  }

  /** A text content on a started message of a started run keeps the invariant. */
  lemma TextStepInv(s: AdapterState, out: seq<Event>, id: string, text: string, delta: bool)
    requires Inv(s, out) && s.runStarted && id in s.status
    ensures var (t, evs) := TextStep(s, id, text, delta);
      Inv(t, out + evs)
  {
    var cur := s.status[id];
    if delta {
      if cur != MsgCompleted && text != "" {
        var t := s.(status := s.status[id := MsgInProgress]);
        assert Inv(t, out) by {
          forall j
            ensures multiset(out)[TextMessageEnd(j)] <= if IsCompleted(t, j) then 1 else 0
          {
            if j != id {
              assert IsCompleted(t, j) == IsCompleted(s, j);
            }
          }
        }
        AppendPlain(t, out, [TextMessageContent(id, text)]);
      } else {
        assert out + [] == out;
      }
    } else if cur == MsgInProgress {
      AppendEnd(s, out, id);
    } else if cur == MsgCreated {
      var t := s.(status := s.status[id := MsgCompleted]);
      assert Inv(t, out) by {
        forall j
          ensures multiset(out)[TextMessageEnd(j)] <= if IsCompleted(t, j) then 1 else 0
        {
          if j != id {
            assert IsCompleted(t, j) == IsCompleted(s, j);
          }
        }
      }
      AppendPlain(t, out, [TextMessageContent(id, text)]);
    } else {
      assert out + [] == out;
    }
  }

  /** A completed data content on a fresh AG-UI id of a started run keeps the invariant. */
  lemma DataStepInv(s: AdapterState, out: seq<Event>, id: string, data: CallData)
    requires Inv(s, out) && s.runStarted && id !in s.status
    ensures var (t, evs) := DataStep(s, id, data);
      Inv(t, out + evs)
  {
    match data
    case FunctionCallData(callId, name, arguments) =>
      var t := s.(status := s.status[id := MsgCompleted]);
      assert Inv(t, out) by {
        assert multiset(out)[TextMessageEnd(id)] == 0;
        forall j
          ensures multiset(out)[TextMessageEnd(j)] <= if IsCompleted(t, j) then 1 else 0
        {
          if j != id {
            assert IsCompleted(t, j) == IsCompleted(s, j);
          }
        }
      }
      AppendPlain(t, out, [ToolCallStart(callId, name), ToolCallArgs(callId, arguments), ToolCallEnd(callId)]);
    case FunctionCallOutputData(callId, output) =>
      AppendPlain(s, out, [ToolCallResult(id, callId, output)]);
    case InvalidData(_) =>
      assert out + [] == out;
  }

  /** Starting an unseen AG-UI text message of a started run keeps the invariant. */
  lemma EnsureTextStartedInv(s2: AdapterState, out1: seq<Event>, id: string)
    requires Inv(s2, out1) && s2.runStarted
    ensures var (s3, started) := EnsureTextStarted(s2, id);
      Inv(s3, out1 + started) && id in s3.status && s3.runStarted
  {
    if id !in s2.status {
      var s3 := s2.(status := s2.status[id := MsgCreated]);
      assert Inv(s3, out1) by {
        forall j
          ensures multiset(out1)[TextMessageEnd(j)] <= if IsCompleted(s3, j) then 1 else 0
        {
          if j != id {
            assert IsCompleted(s3, j) == IsCompleted(s2, j);
          }
        }
      }
      AppendPlain(s3, out1, [TextMessageStart(id)]);
    } else {
      assert out1 + [] == out1;
    }
  }

  /** The text branch of a content event, after the run start and the id bookkeeping. */
  lemma TextContentInv(s2: AdapterState, out1: seq<Event>, id: string, text: string, delta: bool)
    requires Inv(s2, out1) && s2.runStarted
    ensures var (s3, started) := EnsureTextStarted(s2, id);
      Inv(TextStep(s3, id, text, delta).0, out1 + (started + TextStep(s3, id, text, delta).1))
  {
    EnsureTextStartedInv(s2, out1, id);
    var (s3, started) := EnsureTextStarted(s2, id);
    TextStepInv(s3, out1 + started, id, text, delta);
    Regroup3(out1, started, TextStep(s3, id, text, delta).1);
  }

  lemma Regroup(a: seq<Event>, b: seq<Event>, c: seq<Event>, d: seq<Event>)
    ensures (a + b) + (c + d) == a + (b + c + d)
  {
  }

  lemma Regroup3(a: seq<Event>, b: seq<Event>, c: seq<Event>)
    ensures (a + b) + c == a + (b + c)
  {
  }

  /** Recording a content's own id under it keeps the invariant. */
  lemma RecordIdInv(s1: AdapterState, out: seq<Event>, id: string)
    requires Inv(s1, out)
    ensures Inv(RecordId(s1, id), out)
  {
  }

  lemma TextContentStepInv(s: AdapterState, out: seq<Event>, id: string, cstatus: RunStatus, text: string, delta: bool)
    requires Inv(s, out)
    ensures var (t, evs) := ContentStep(s, id, cstatus, TextBody(text, delta));
      Inv(t, out + evs)
  {
    StartStepInv(s, out);
    var (s1, pre) := StartStep(s);
    RecordIdInv(s1, out + pre, id);
    var s2 := RecordId(s1, id);
    TextContentInv(s2, out + pre, id, text, delta);
    var (s3, started) := EnsureTextStarted(s2, id);
    Regroup(out, pre, started, TextStep(s3, id, text, delta).1);
  }

  /** What a content event does once RUN_STARTED is settled and its id is recorded. */
  function BodyStep(s: AdapterState, id: string, cstatus: RunStatus, body: ContentBody): (AdapterState, seq<Event>)
  {
    match body
    case TextBody(text, delta) =>
      var started := EnsureTextStarted(s, id);
      var step := TextStep(started.0, id, text, delta);
      (step.0, started.1 + step.1)
    case DataBody(data) =>
      if id in s.status || cstatus != Completed then (s, []) else DataStep(s, id, data)
    case OtherBody => (s, [])
  }

  /** A content event is the RUN_STARTED step, the recorded id and then the body step. */
  lemma ContentStepSplit(s: AdapterState, id: string, cstatus: RunStatus, body: ContentBody)
    ensures var started := StartStep(s);
      var b := BodyStep(RecordId(started.0, id), id, cstatus, body);
      ContentStep(s, id, cstatus, body) == (b.0, started.1 + b.1)
  {
    var started := StartStep(s);
    var s2 := RecordId(started.0, id);
    match body
    case TextBody(text, delta) =>
      var st := EnsureTextStarted(s2, id);
      var step := TextStep(st.0, id, text, delta);
      assert started.1 + st.1 + step.1 == started.1 + (st.1 + step.1);
    case DataBody(data) =>
      assert started.1 + [] == started.1;
    case OtherBody =>
      assert started.1 + [] == started.1;
  }

  /** A data content unfolds into RUN_STARTED and, on an unseen completed id, the data step. */
  lemma DataContentUnfold(s: AdapterState, id: string, cstatus: RunStatus, data: CallData)
    ensures var (s1, pre) := StartStep(s);
      var s2 := RecordId(s1, id);
      ContentStep(s, id, cstatus, DataBody(data)) ==
        if id in s2.status || cstatus != Completed then (s2, pre)
        else (DataStep(s2, id, data).0, pre + DataStep(s2, id, data).1)
  {
  }

  lemma DataContentStepInv(s: AdapterState, out: seq<Event>, id: string, cstatus: RunStatus, data: CallData)
    requires Inv(s, out)
    ensures var (t, evs) := ContentStep(s, id, cstatus, DataBody(data));
      Inv(t, out + evs)
  {
    StartStepInv(s, out);
    var (s1, pre) := StartStep(s);
    RecordIdInv(s1, out + pre, id);
    var s2 := RecordId(s1, id);
    DataContentUnfold(s, id, cstatus, data);
    if !(id in s2.status || cstatus != Completed) {
      DataStepInv(s2, out + pre, id, data);
      Regroup3(out, pre, DataStep(s2, id, data).1);
    }
  }

  /** A content event keeps the invariant. */
  lemma ContentStepInv(s: AdapterState, out: seq<Event>, id: string, cstatus: RunStatus, body: ContentBody)
    requires Inv(s, out)
    ensures var (t, evs) := ContentStep(s, id, cstatus, body);
      Inv(t, out + evs)
  {
    match body
    case TextBody(text, delta) => TextContentStepInv(s, out, id, cstatus, text, delta);
    case DataBody(data) => DataContentStepInv(s, out, id, cstatus, data);
    case OtherBody =>
      StartStepInv(s, out);
      RecordIdInv(StartStep(s).0, out + StartStep(s).1, id);
  }

  lemma EventStepInv(s: AdapterState, out: seq<Event>, e: AgentEvent)
    requires Inv(s, out)
    ensures var (t, evs) := EventStep(s, e);
      Inv(t, out + evs)
  {
    match e
    case ResponseEvent(status, error) => ResponseStepInv(s, out, status, error);
    case MessageEvent(id, status) => MessageStepInv(s, out, id, status);
    case ContentEvent(id, cstatus, body) => ContentStepInv(s, out, id, cstatus, body);
    case OtherEvent => assert out + [] == out;
  }

  lemma GrowsTrans(s: AdapterState, t: AdapterState, u: AdapterState)
    requires Grows(s, t) && Grows(t, u)
    ensures Grows(s, u)
  {
  }

  lemma TextStepGrows(s: AdapterState, id: string, text: string, delta: bool)
    requires id in s.status
    ensures Grows(s, TextStep(s, id, text, delta).0)
  {
  }

  lemma ContentStepGrows(s: AdapterState, id: string, cstatus: RunStatus, body: ContentBody)
    ensures Grows(s, ContentStep(s, id, cstatus, body).0)
  {
    match body
    case TextBody(text, delta) =>
      TextContentUnfold(s, id, cstatus, text, delta);
      var s3 := EnsureTextStarted(RecordId(StartStep(s).0, id), id).0;
      assert Grows(s, s3);
      TextStepGrows(s3, id, text, delta);
      GrowsTrans(s, s3, TextStep(s3, id, text, delta).0);
    case DataBody(data) =>
    case OtherBody =>
  }

  /** A step changes neither the thread id nor the run id, never clears a flag, and never leaves COMPLETED. */
  lemma EventStepGrows(s: AdapterState, e: AgentEvent)
    ensures Grows(s, EventStep(s, e).0)
  {
    if e.ContentEvent? {
      ContentStepGrows(s, e.msgId, e.cstatus, e.body);
    }
  }

  lemma {:induction false} RunInv(s: AdapterState, evs: seq<AgentEvent>)
    requires Inv(s, [])
    ensures Inv(Run(s, evs).0, Run(s, evs).1)
    ensures Run(s, evs).0.threadId == s.threadId && Run(s, evs).0.runId == s.runId
    decreases |evs|
  {
    if evs != [] {
      RunInv(s, evs[..|evs| - 1]);
      var (s1, out1) := Run(s, evs[..|evs| - 1]);
      EventStepInv(s1, out1, evs[|evs| - 1]);
      EventStepGrows(s1, evs[|evs| - 1]);
    }
  }

  /**
   * Translating any stream from a fresh adapter: RUN_STARTED, carrying the
   * adapter's ids, is emitted at most once and before every message or
   * tool event; no message id gets two TEXT_MESSAGE_END events; and the
   * run-finished flag is set exactly when a terminal event was emitted.
   */
  lemma RunProperties(threadId: string, runId: string, evs: seq<AgentEvent>)
    ensures var (s, out) := Run(Initial(threadId, runId), evs);
      && Count(out, IsStart) <= 1
      && (forall e :: e in out && e.RunStarted? ==> e == RunStarted(threadId, runId))
      && (forall i :: 0 <= i < |out| && IsMessageEvent(out[i]) ==> exists j :: 0 <= j < i && out[j].RunStarted?)
      && (forall id :: multiset(out)[TextMessageEnd(id)] <= 1)
      && (s.runFinished <==> Count(out, IsTerminal) > 0)
  {
    InitialInv(threadId, runId);
    RunInv(Initial(threadId, runId), evs);
    var (s, out) := Run(Initial(threadId, runId), evs);
    forall i | 0 <= i < |out| && IsMessageEvent(out[i])
      ensures exists j :: 0 <= j < i && out[j].RunStarted?
    {
      StartedFirstAt(out, i);
    }
    assert forall id :: multiset(out)[TextMessageEnd(id)] <= if IsCompleted(s, id) then 1 else 0;
  }

  // ---------------------------------------------------------------------
  // One event at a time
  // ---------------------------------------------------------------------

  /**
   * Response statuses: CREATED ensures RUN_STARTED; FAILED and REJECTED
   * emit one RUN_ERROR (message and code from the error, defaulting to
   * "agent run failed" and "unknown_error"); COMPLETED emits RUN_FINISHED;
   * CANCELED emits RUN_FINISHED with result "agent run canceled". The last
   * four set the run-finished flag, and only they do.
   */
  lemma ResponseTransitions(s: AdapterState, status: RunStatus, error: Option<Dict<string>>)
    ensures var (t, evs) := ResponseStep(s, status, error);
      var terminal := status in {Failed, Rejected, Completed, Canceled};
      && (t.runFinished <==> s.runFinished || terminal)
      && t.status == s.status && t.messageIds == s.messageIds
      && (status == Created ==> t.runStarted && (evs == [] <==> s.runStarted) && (forall e :: e in evs ==> e == RunStarted(s.threadId, s.runId)))
      && (terminal ==> |evs| == 1 && IsTerminal(evs[0]))
      && (!terminal && status != Created ==> evs == [] && t == s)
      && ((status == Failed || status == Rejected) ==>
            evs[0] == RunError(Some(s.runId),
                               if error.Some? then Get(error.value, "message").GetOr("agent run failed") else "agent run failed",
                               if error.Some? then Get(error.value, "code").GetOr("unknown_error") else "unknown_error"))
      && (status == Failed && error == None ==> evs == [RunError(Some(s.runId), "agent run failed", "unknown_error")])
      && (status == Completed ==> evs == [RunFinished(s.threadId, s.runId, None)])
      && (status == Canceled ==> evs == [RunFinished(s.threadId, s.runId, Some("agent run canceled"))])
  {
  }

  /**
   * A message event: whatever its status it ensures RUN_STARTED; a
   * COMPLETED message emits TEXT_MESSAGE_END exactly when its own AG-UI
   * message has been started by one of its contents and is not completed
   * yet, and afterwards that AG-UI message is completed. No other status
   * changes.
   */
  lemma MessageTransitions(s: AdapterState, id: string, status: RunStatus)
    requires IdsAreOwn(s)
    ensures var (t, evs) := MessageStep(s, id, status);
      var pre := StartStep(s).1;
      var ends := status == Completed && id in IdsOf(s, id) && id in s.status && !IsCompleted(s, id);
      && t.runStarted && evs[..|pre|] == pre
      && (ends ==> evs == pre + [TextMessageEnd(id)] && t.status == s.status[id := MsgCompleted])
      && (!ends ==> evs == pre && t.status == s.status)
      && (status == Completed && id in IdsOf(s, id) && id in s.status ==> IsCompleted(t, id))
  {
    var (s1, pre) := StartStep(s);
    assert IdsOf(s1, id) == IdsOf(s, id);
    assert (pre + [TextMessageEnd(id)])[..|pre|] == pre;
  }

  /** The event of a message kind a translation step emits is about that message. */
  predicate TextEventOf(e: Event, id: string)
  {
    (e.TextMessageStart? || e.TextMessageContent? || e.TextMessageEnd?) && e.messageId == id
  }

  /** What a text content does once its AG-UI message has started. */
  lemma TextStepFacts(s: AdapterState, id: string, text: string, delta: bool)
    requires id in s.status
    ensures var (t, evs) := TextStep(s, id, text, delta);
      var cur := s.status[id];
      && id in t.status && t == s.(status := s.status[id := t.status[id]])
      && (forall e :: e in evs ==> TextEventOf(e, id) && !e.TextMessageStart?)
      && (cur == MsgCompleted ==> evs == [] && t == s)
      && (delta && text == "" ==> evs == [] && t == s)
      && (TextMessageContent(id, text) in evs <==> cur != MsgCompleted && (if delta then text != "" else cur == MsgCreated))
      && (TextMessageEnd(id) in evs <==> !delta && cur == MsgInProgress)
      && (delta && text != "" && cur != MsgCompleted ==> t.status[id] == MsgInProgress)
      && (IsCompleted(t, id) <==> cur == MsgCompleted || !delta)
      && TextOf(evs, id) == (if cur != MsgCompleted && (if delta then true else cur == MsgCreated) then text else "")
  {
    var (t, evs) := TextStep(s, id, text, delta);
    if |evs| == 1 {
      assert evs[..0] == [];
      assert TextOf(evs, id) == TextOf([], id) + (if evs[0].TextMessageContent? then evs[0].delta else "");
    }
  }

  lemma UpdateElsewhere(m: map<string, MessageStatus>, id: string, v: MessageStatus)
    ensures m[id := v] - {id} == m - {id}
  {
  }

  lemma InConcat3(a: seq<Event>, b: seq<Event>, c: seq<Event>)
    ensures forall e :: e in a + b + c ==> e in a || e in b || e in c
  {
  }

  /** How RUN_STARTED, the message start and the text step's events line up in a content's output. */
  lemma TextParts(pre: seq<Event>, started: seq<Event>, evs: seq<Event>, id: string, unseen: bool)
    requires forall e :: e in pre ==> e.RunStarted?
    requires started == if unseen then [TextMessageStart(id)] else []
    requires forall e :: e in evs ==> TextEventOf(e, id) && !e.TextMessageStart?
    ensures var all := pre + started + evs;
      && |pre| <= |all| && all[..|pre|] == pre
      && (forall e :: e in all[|pre|..] ==> TextEventOf(e, id))
      && (unseen <==> |all| > |pre| && all[|pre|] == TextMessageStart(id))
  {
    var all := pre + started + evs;
    assert all[..|pre|] == pre;
    assert all[|pre|..] == started + evs;
    if unseen {
      assert all[|pre|] == TextMessageStart(id);
    } else if |all| > |pre| {
      assert all[|pre|] == evs[0];
    }
  }

  /** A text content unfolds into RUN_STARTED, the message start and the text step. */
  lemma TextContentUnfold(s: AdapterState, id: string, cstatus: RunStatus, text: string, delta: bool)
    ensures var (s1, pre) := StartStep(s);
      var (s3, started) := EnsureTextStarted(RecordId(s1, id), id);
      ContentStep(s, id, cstatus, TextBody(text, delta)) == (TextStep(s3, id, text, delta).0, pre + started + TextStep(s3, id, text, delta).1)
  {
  }

  /**
   * Text contents, the events: an unseen AG-UI id emits TEXT_MESSAGE_START
   * right after RUN_STARTED, and every event after RUN_STARTED is about
   * this message.
   */
  lemma TextTransitionsShape(s: AdapterState, id: string, cstatus: RunStatus, text: string, delta: bool)
    ensures var (t, evs) := ContentStep(s, id, cstatus, TextBody(text, delta));
      var pre := StartStep(s).1;
      && t.runStarted && |pre| <= |evs| && evs[..|pre|] == pre
      && (forall e :: e in evs[|pre|..] ==> TextEventOf(e, id))
      && (id !in s.status <==> |evs| > |pre| && evs[|pre|] == TextMessageStart(id))
  {
    TextContentUnfold(s, id, cstatus, text, delta);
    var (s1, pre) := StartStep(s);
    var (s3, started) := EnsureTextStarted(RecordId(s1, id), id);
    TextStepFacts(s3, id, text, delta);
    TextParts(pre, started, TextStep(s3, id, text, delta).1, id, id !in s.status);
  }

  /**
   * Text contents, the message events: a delta with non-empty text on a
   * message that is not completed emits TEXT_MESSAGE_CONTENT; a non-delta
   * text ends a message IN_PROGRESS with TEXT_MESSAGE_END and sends a
   * CREATED (or unseen) one whole as one TEXT_MESSAGE_CONTENT; nothing else
   * emits either.
   */
  lemma TextTransitionsEvents(s: AdapterState, id: string, cstatus: RunStatus, text: string, delta: bool)
    ensures var (t, evs) := ContentStep(s, id, cstatus, TextBody(text, delta));
      var cur := if id in s.status then s.status[id] else MsgCreated;
      && (TextMessageContent(id, text) in evs <==>
            cur != MsgCompleted && (if delta then text != "" else cur == MsgCreated))
      && (TextMessageEnd(id) in evs <==> !delta && cur == MsgInProgress)
  {
    TextContentUnfold(s, id, cstatus, text, delta);
    var (s1, pre) := StartStep(s);
    var (s3, started) := EnsureTextStarted(RecordId(s1, id), id);
    TextStepFacts(s3, id, text, delta);
    var evs := TextStep(s3, id, text, delta).1;
    var all := pre + started + evs;
    InConcat3(pre, started, evs);
    assert TextMessageContent(id, text) !in pre + started;
    assert TextMessageEnd(id) !in pre + started;
    assert (TextMessageContent(id, text) in all) == (TextMessageContent(id, text) in evs);
    assert (TextMessageEnd(id) in all) == (TextMessageEnd(id) in evs);
  }

  /**
   * Text contents, the status: a delta with non-empty text moves a message
   * that is not completed to IN_PROGRESS; a non-delta text always leaves it
   * COMPLETED; COMPLETED is absorbing, the content then emitting nothing but
   * RUN_STARTED; and no other message's status changes.
   */
  lemma TextTransitionsStatus(s: AdapterState, id: string, cstatus: RunStatus, text: string, delta: bool)
    ensures var (t, evs) := ContentStep(s, id, cstatus, TextBody(text, delta));
      var cur := if id in s.status then s.status[id] else MsgCreated;
      && id in t.status && t.status - {id} == s.status - {id}
      && (IsCompleted(s, id) ==> evs == StartStep(s).1 && t.status == s.status)
      && (delta && text != "" && cur != MsgCompleted ==> t.status[id] == MsgInProgress)
      && (IsCompleted(t, id) <==> IsCompleted(s, id) || !delta)
  {
    TextContentUnfold(s, id, cstatus, text, delta);
    var (s1, pre) := StartStep(s);
    var (s3, started) := EnsureTextStarted(RecordId(s1, id), id);
    TextStepFacts(s3, id, text, delta);
    var (t, evs) := TextStep(s3, id, text, delta);
    UpdateElsewhere(s3.status, id, t.status[id]);
    UpdateElsewhere(s.status, id, MsgCreated);
    if IsCompleted(s, id) {
      assert pre + started + evs == pre;
    }
  }

  /**
   * Data contents: a COMPLETED function call on an AG-UI id without a
   * status emits TOOL_CALL_START, TOOL_CALL_ARGS and TOOL_CALL_END with its
   * call id, in that order, and completes the id; a completed function call
   * output emits one TOOL_CALL_RESULT; invalid data raises exactly there;
   * data on an id that has a status, or data that is not COMPLETED, emits
   * nothing but RUN_STARTED.
   */
  lemma DataTransitions(s: AdapterState, id: string, cstatus: RunStatus, data: CallData)
    ensures var (t, evs) := ContentStep(s, id, cstatus, DataBody(data));
      var pre := StartStep(s).1;
      var unseen := id !in s.status && cstatus == Completed;
      && t.runStarted
      && (!unseen ==> evs == pre && t.status == s.status)
      && (unseen && data.FunctionCallData? ==>
            evs == pre + [ToolCallStart(data.callId, data.name), ToolCallArgs(data.callId, data.arguments), ToolCallEnd(data.callId)]
            && t.status == s.status[id := MsgCompleted])
      && (unseen && data.FunctionCallOutputData? ==>
            evs == pre + [ToolCallResult(id, data.callId, data.output)] && t.status == s.status)
      && (Raises(s, ContentEvent(id, cstatus, DataBody(data))) <==> unseen && data.InvalidData?)
  {
  }

  // ---------------------------------------------------------------------
  // A streamed text message
  // ---------------------------------------------------------------------

  lemma RunSnoc(s: AdapterState, evs: seq<AgentEvent>, e: AgentEvent)
    ensures var (s1, out1) := Run(s, evs);
      Run(s, evs + [e]) == (EventStep(s1, e).0, out1 + EventStep(s1, e).1)
  {
    assert (evs + [e])[..|evs|] == evs;
  }

  /** A text content appended to a stream whose run has started. */
  lemma RunTextSnoc(s: AdapterState, evs: seq<AgentEvent>, id: string, cstatus: RunStatus, text: string, delta: bool)
    requires Run(s, evs).0.runStarted
    ensures var (t1, out1) := Run(s, evs);
      var (s3, started) := EnsureTextStarted(RecordId(t1, id), id);
      var (t, evs2) := TextStep(s3, id, text, delta);
      Run(s, evs + [ContentEvent(id, cstatus, TextBody(text, delta))]) == (t, out1 + (started + evs2))
  {
    var (t1, out1) := Run(s, evs);
    RunSnoc(s, evs, ContentEvent(id, cstatus, TextBody(text, delta)));
    TextContentUnfold(t1, id, cstatus, text, delta);
    assert StartStep(t1) == (t1, []);
    var (s3, started) := EnsureTextStarted(RecordId(t1, id), id);
    assert [] + started + TextStep(s3, id, text, delta).1 == started + TextStep(s3, id, text, delta).1;
  }

  /** The text a client rebuilds for a message: its TEXT_MESSAGE_CONTENT deltas joined in order. */
  function TextOf(out: seq<Event>, id: string): string
    decreases |out|
  {
    if out == [] then ""
    else
      var e := out[|out| - 1];
      TextOf(out[..|out| - 1], id) + (if e.TextMessageContent? && e.messageId == id then e.delta else "")
  }

  lemma {:induction false} TextOfAppend(a: seq<Event>, b: seq<Event>, id: string)
    ensures TextOf(a + b, id) == TextOf(a, id) + TextOf(b, id)
    decreases |b|
  {
    if b == [] {
      assert a + b == a;
    } else {
      var ab := a + b;
      var b1 := b[..|b| - 1];
      var e := b[|b| - 1];
      var x := if e.TextMessageContent? && e.messageId == id then e.delta else "";
      assert ab[..|ab| - 1] == a + b1;
      assert ab[|ab| - 1] == e;
      TextOfAppend(a, b1, id);
      calc {
        TextOf(ab, id);
        TextOf(a + b1, id) + x;
        (TextOf(a, id) + TextOf(b1, id)) + x;
        TextOf(a, id) + (TextOf(b1, id) + x);
      }
    }
  }

  function Concat(ds: seq<string>): string
    decreases |ds|
  {
    if ds == [] then "" else Concat(ds[..|ds| - 1]) + ds[|ds| - 1]
  }

  /** The delta text contents of one message, streamed in order. */
  function DeltaEvents(id: string, cstatus: RunStatus, ds: seq<string>): (r: seq<AgentEvent>)
    ensures |r| == |ds|
    decreases |ds|
  {
    if ds == [] then []
    else DeltaEvents(id, cstatus, ds[..|ds| - 1]) + [ContentEvent(id, cstatus, TextBody(ds[|ds| - 1], true))]
  }

  /**
   * Streaming deltas into a message not seen before: the output starts
   * with its TEXT_MESSAGE_START, every event is about that message, and
   * the deltas the client joins are the streamed text; the message is IN_PROGRESS
   * once some streamed text was non-empty.
   */
  /** One streamed delta, as sequences: the output stays about the message and starts with its TEXT_MESSAGE_START. */
  lemma DeltaStepEvents(out1: seq<Event>, started: seq<Event>, evs: seq<Event>, id: string, first: bool)
    requires forall e :: e in out1 ==> TextEventOf(e, id) && !e.TextMessageEnd?
    requires first ==> out1 == []
    requires started == if first then [TextMessageStart(id)] else []
    requires forall e :: e in evs ==> TextEventOf(e, id) && !e.TextMessageStart? && !e.TextMessageEnd?
    ensures var all := out1 + (started + evs);
      && (forall e :: e in all ==> TextEventOf(e, id) && !e.TextMessageEnd?)
      && (first ==> all != [] && all[0] == TextMessageStart(id))
      && (out1 != [] ==> all[0] == out1[0])
  {
    var all := out1 + (started + evs);
    assert forall e :: e in all ==> e in out1 || e in started || e in evs;
    if first {
      assert all[0] == started[0];
    }
  }

  /** One streamed delta, as text: the text grows by the delta. */
  lemma DeltaStepText(out1: seq<Event>, started: seq<Event>, evs: seq<Event>, id: string, d: string)
    requires forall e :: e in started ==> e.TextMessageStart?
    requires TextOf(evs, id) == d
    ensures TextOf(out1 + (started + evs), id) == TextOf(out1, id) + d
  {
    TextOfAppend(out1, started + evs, id);
    TextOfAppend(started, evs, id);
    TextOfStarts(started, id);
  }

  lemma {:induction false} TextOfStarts(out: seq<Event>, id: string)
    requires forall e :: e in out ==> e.TextMessageStart?
    ensures TextOf(out, id) == ""
    decreases |out|
  {
    if out != [] {
      assert forall e :: e in out[..|out| - 1] ==> e in out;
      TextOfStarts(out[..|out| - 1], id);
      assert out[|out| - 1] in out;
    }
  }

  lemma UpdateTwice(m: map<string, MessageStatus>, id: string, a: MessageStatus, b: MessageStatus)
    ensures m[id := a][id := b] == m[id := b]
  {
  }

  /**
   * Streaming deltas into a message not seen before: the output starts
   * with its TEXT_MESSAGE_START, every event is about that message, and
   * the deltas the client joins are the streamed text; the message is IN_PROGRESS
   * once some streamed text was non-empty.
   */
  lemma {:induction false} DeltaStream(s: AdapterState, id: string, cstatus: RunStatus, ds: seq<string>)
    requires s.runStarted && id !in s.status
    ensures var (t, out) := Run(s, DeltaEvents(id, cstatus, ds));
      && t.runStarted
      && (ds == [] <==> out == [])
      && (ds != [] ==> out[0] == TextMessageStart(id))
      && (forall e :: e in out ==> TextEventOf(e, id) && !e.TextMessageEnd?)
      && TextOf(out, id) == Concat(ds)
      && t.status == if ds == [] then s.status
                     else s.status[id := if Concat(ds) == "" then MsgCreated else MsgInProgress]
    decreases |ds|
  {
    if ds != [] {
      var ds1 := ds[..|ds| - 1];
      var d := ds[|ds| - 1];
      DeltaStream(s, id, cstatus, ds1);
      assert DeltaEvents(id, cstatus, ds) == DeltaEvents(id, cstatus, ds1) + [ContentEvent(id, cstatus, TextBody(d, true))];
      RunTextSnoc(s, DeltaEvents(id, cstatus, ds1), id, cstatus, d, true);
      var (t1, out1) := Run(s, DeltaEvents(id, cstatus, ds1));
      var s3 := EnsureTextStarted(RecordId(t1, id), id).0;
      var started := EnsureTextStarted(RecordId(t1, id), id).1;
      var (t, evs) := TextStep(s3, id, d, true);
      assert Run(s, DeltaEvents(id, cstatus, ds)) == (t, out1 + (started + evs));
      TextStepFacts(s3, id, d, true);
      DeltaStepEvents(out1, started, evs, id, ds1 == []);
      DeltaStepText(out1, started, evs, id, d);
      assert Concat(ds) == Concat(ds1) + d;
      var v1 := if Concat(ds1) == "" then MsgCreated else MsgInProgress;
      DeltaStatus(s.status, t1.status, s3.status, t.status, id, ds1 == [], v1, d);
    }
  }

  /** One streamed delta, on the statuses. */
  lemma DeltaStatus(m: map<string, MessageStatus>, m1: map<string, MessageStatus>, m3: map<string, MessageStatus>,
                    m4: map<string, MessageStatus>, id: string, first: bool, v1: MessageStatus, d: string)
    requires id !in m && v1 != MsgCompleted
    requires m1 == if first then m else m[id := v1]
    requires m3 == if id in m1 then m1 else m1[id := MsgCreated]
    requires id in m4 && m4 == m3[id := m4[id]]
    requires d == "" ==> m4 == m3
    requires d != "" ==> m4[id] == MsgInProgress
    ensures m4 == m[id := if (first || v1 == MsgCreated) && d == "" then MsgCreated else MsgInProgress]
  {
    if first {
      assert m3 == m[id := MsgCreated];
    } else {
      assert m3 == m[id := v1];
      UpdateTwice(m, id, v1, m4[id]);
    }
    UpdateTwice(m, id, MsgCreated, m4[id]);
  }

  /**
   * A streamed text message closed by its final non-delta content: the
   * text the client rebuilds is the joined deltas, or the final text when
   * every delta was empty; the message ends COMPLETED, with one
   * TEXT_MESSAGE_END when deltas carried its text and none otherwise, and
   * every event is about that message.
   */
  lemma StreamedMessage(s: AdapterState, id: string, cstatus: RunStatus, ds: seq<string>, full: string)
    requires s.runStarted && id !in s.status
    ensures var (t, out) := Run(s, DeltaEvents(id, cstatus, ds) + [ContentEvent(id, cstatus, TextBody(full, false))]);
      && |out| > 0 && out[0] == TextMessageStart(id)
      && (forall e :: e in out ==> TextEventOf(e, id))
      && TextOf(out, id) == (if Concat(ds) != "" then Concat(ds) else full)
      && IsCompleted(t, id)
      && multiset(out)[TextMessageEnd(id)] == (if Concat(ds) != "" then 1 else 0)
  {
    DeltaStream(s, id, cstatus, ds);
    RunTextSnoc(s, DeltaEvents(id, cstatus, ds), id, cstatus, full, false);
    var (t1, out1) := Run(s, DeltaEvents(id, cstatus, ds));
    ClosingText(t1, id, full, Concat(ds) != "");
    var s3 := EnsureTextStarted(RecordId(t1, id), id).0;
    var started := EnsureTextStarted(RecordId(t1, id), id).1;
    var evs := TextStep(s3, id, full, false).1;
    ClosingAll(out1, started, evs, id, full, ds == [], Concat(ds) != "", Concat(ds));
    ClosingEnds(out1, started, evs, id, full, Concat(ds) != "");
  }

  /** The closing content after the deltas, on the output so far. */
  lemma ClosingAll(out1: seq<Event>, started: seq<Event>, evs: seq<Event>, id: string, full: string, first: bool, streamed: bool, text: string)
    requires forall e :: e in out1 ==> TextEventOf(e, id) && !e.TextMessageEnd?
    requires first <==> out1 == []
    requires started == if first then [TextMessageStart(id)] else []
    requires evs == if streamed then [TextMessageEnd(id)] else [TextMessageContent(id, full)]
    requires out1 != [] ==> out1[0] == TextMessageStart(id)
    requires TextOf(out1, id) == text && (streamed <==> text != "")
    ensures var out := out1 + (started + evs);
      && |out| > 0 && out[0] == TextMessageStart(id)
      && (forall e :: e in out ==> TextEventOf(e, id))
      && TextOf(out, id) == (if streamed then text else full)
  {
    ClosingStep(out1, started, evs, id, first);
    TextOfSingle(evs[0], id);
    DeltaStepText(out1, started, evs, id, if streamed then "" else full);
  }

  /** The closing content ends a message IN_PROGRESS and sends a CREATED or unseen one whole. */
  lemma ClosingText(t1: AdapterState, id: string, full: string, streamed: bool)
    requires if streamed then id in t1.status && t1.status[id] == MsgInProgress
             else id !in t1.status || t1.status[id] == MsgCreated
    ensures var s3 := EnsureTextStarted(RecordId(t1, id), id).0;
      && TextStep(s3, id, full, false).1 == (if streamed then [TextMessageEnd(id)] else [TextMessageContent(id, full)])
      && IsCompleted(TextStep(s3, id, full, false).0, id)
      && EnsureTextStarted(RecordId(t1, id), id).1 == (if id in t1.status then [] else [TextMessageStart(id)])
  {
  }

  /** The closing content, as sequences. */
  lemma ClosingStep(out1: seq<Event>, started: seq<Event>, evs: seq<Event>, id: string, first: bool)
    requires forall e :: e in out1 ==> TextEventOf(e, id)
    requires first <==> out1 == []
    requires started == if first then [TextMessageStart(id)] else []
    requires out1 != [] ==> out1[0] == TextMessageStart(id)
    requires forall e :: e in evs ==> TextEventOf(e, id)
    ensures var all := out1 + (started + evs);
      && |all| > 0 && all[0] == TextMessageStart(id)
      && (forall e :: e in all ==> TextEventOf(e, id))
  {
    var all := out1 + (started + evs);
    assert forall e :: e in all ==> e in out1 || e in started || e in evs;
    if first {
      assert all[0] == started[0];
    }
  }

  lemma TextOfSingle(e: Event, id: string)
    ensures TextOf([e], id) == if e.TextMessageContent? && e.messageId == id then e.delta else ""
  {
    assert [e][..0] == [];
  }

  /** The closing content ends the message once when deltas carried its text, and not otherwise. */
  lemma ClosingEnds(out1: seq<Event>, started: seq<Event>, evs: seq<Event>, id: string, full: string, streamed: bool)
    requires forall e :: e in out1 ==> !e.TextMessageEnd?
    requires forall e :: e in started ==> !e.TextMessageEnd?
    requires evs == if streamed then [TextMessageEnd(id)] else [TextMessageContent(id, full)]
    ensures multiset(out1 + (started + evs))[TextMessageEnd(id)] == (if streamed then 1 else 0)
  {
    NoEnds(out1);
    NoEnds(started);
    assert multiset(out1 + (started + evs)) == multiset(out1) + multiset(started) + multiset(evs);
  }

}
