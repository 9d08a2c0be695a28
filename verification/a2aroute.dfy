/**
 * The A2A JSON-RPC route of `src/routes/a2a-agent-route.ts` (`POST
 * /a2a/agent/:agentId`) as one function from a request to a response: read
 * and parse the body, default and check `jsonrpc`, look the agent up, pick the
 * messages, call the agent's `generate`, build the task, optionally schedule a
 * push notification, and wrap everything in a JSON-RPC envelope sent with
 * HTTP 200.
 *
 * The nondeterministic inputs are explicit: how reading the body ended, the
 * registered agent ids, what `generate` did, a supply of fresh UUIDs consumed
 * in the order the handler calls `randomUUID`, and the ISO timestamp.
 */
module A2aRoute {
  import opened Wrappers
  import opened Js

  // ---------------------------------------------------------------------------
  // Inputs

  /** What the body-reading steps leave in `body`. */
  datatype Body =
    | Blank                       // no text (or only white space): `body` stays `{}`
    | Malformed(details: string)  // parsing throws; `details` is the error's message
    | Parsed(value: Value)        // the parsed JSON value

  /** What `agent.generate(...)` did. */
  datatype Generation =
    | Threw(details: string)      // it threw; `details` is `genErr?.message ?? String(genErr)`
    | Returned(response: Value)   // it resolved to `response`

  // ---------------------------------------------------------------------------
  // Outputs

  /** `{kind: "text", text}`. */
  datatype Part = TextPart(text: Value)

  /** The agent's reply message `{messageId, role, parts, kind: "message"}`. */
  datatype StatusMessage = StatusMessage(messageId: string, role: string, parts: seq<Part>)

  datatype TaskStatus = TaskStatus(state: string, timestamp: string, message: StatusMessage)

  datatype Artifact = Artifact(artifactId: string, name: string, parts: seq<Part>)

  /** One history message `{kind: "message", role, parts, messageId, taskId}`. */
  datatype HistoryEntry = HistoryEntry(role: Value, parts: seq<Part>, messageId: Value, taskId: Value)

  datatype Task = Task(
    id: Value,
    contextId: Value,
    status: TaskStatus,
    artifacts: seq<Artifact>,
    history: seq<HistoryEntry>,
    kind: string)

  datatype ErrorData =
    | NoData
    | Details(details: string)
    | AvailableAgents(agents: seq<string>)

  datatype RpcError = RpcError(code: int, message: string, data: ErrorData)

  datatype Payload = Success(result: Task) | Failure(error: RpcError)

  /** `{jsonrpc, id, result}` or `{jsonrpc, id, error}`. */
  datatype Envelope = Envelope(jsonrpc: string, id: Value, payload: Payload)

  /**
   * The fire-and-forget POST to the webhook: its URL, the token of the
   * `Authorization: Bearer <token>` header when one is sent, and the JSON
   * body. Its delivery never affects the response.
   */
  datatype PushNotification = PushNotification(url: Value, bearerToken: Option<Value>, body: Envelope)

  /**
   * What the handler does: the HTTP status and JSON body it answers with, the
   * message list it passed to `generate` (`None` when the agent was never
   * consulted), and the push notification it started, if any.
   */
  datatype Response = Response(
    status: int,
    envelope: Envelope,
    agentInput: Option<seq<Value>>,
    push: Option<PushNotification>)

  // ---------------------------------------------------------------------------
  // Constants

  const ParseErrorCode: int := -32700
  const InvalidRequestCode: int := -32600
  const AgentNotFoundCode: int := -32000
  const GenerationErrorCode: int := -32001
  const InternalErrorCode: int := -32603

  const DefaultAgentText: string := "No response generated"

  /** The engine's `TypeError` text when `messages` is not an array. */
  const NotAListDetails: string := "messages.filter is not a function"

  /** The message sent to `generate` when the request carries none. */
  const HelloMessage: Value := Obj(map["role" := Str("user"), "content" := Str("Hello")])

  // ---------------------------------------------------------------------------
  // The intermediate values of the handler

  /** `body` after the parsing steps, when they did not throw. */
  function BodyValue(body: Body): Value
    requires !body.Malformed?
  {
    if body.Blank? then Obj(map[]) else body.value
  }

  /** `body.id ?? randomUUID()`; `randomUUID` is called once before (line 15), so this is the second id. */
  function RequestId(v: Value, uuid: nat -> string): Value
    requires !Nullish(v)
  {
    Coalesce(Get(v, "id"), Str(uuid(1)))
  }

  /** `body.params ?? {}`. */
  function Params(v: Value): Value
    requires !Nullish(v)
  {
    Coalesce(Get(v, "params"), Obj(map[]))
  }

  /** `params.messages ?? (params.message ? [params.message] : [])`. */
  function MessageList(params: Value): Value
    requires !Nullish(params)
  {
    Coalesce(Get(params, "messages"), if Truthy(Get(params, "message")) then Arr([Get(params, "message")]) else Arr([]))
  }

  /** What `generate` receives: the list itself, or the single "Hello" message when the list is empty. */
  function AgentInput(messages: seq<Value>): seq<Value> {
    if |messages| > 0 then messages else [HelloMessage]
  }

  /** `response?.text ?? (typeof response === "string" ? response : "No response generated")`. */
  function AgentText(response: Value): Value {
    var text := if Nullish(response) then Undefined else Get(response, "text");
    Coalesce(text, if response.Str? then response else Str(DefaultAgentText))
  }

  /** A message that can be rendered but brings no `messageId`, so rendering it draws a fresh one. */
  predicate LacksId(m: Value) {
    !Nullish(m) && Nullish(Get(m, "messageId"))
  }

  /** How many of `messages` lack a `messageId`. */
  function Missing(messages: seq<Value>): nat {
    if messages == [] then 0
    else (if LacksId(messages[0]) then 1 else 0) + Missing(messages[1..])
  }

  /**
   * History entry `e` renders message `m`: role `m.role` or "user", one text
   * part `m.content` or "", the task id, and `m.messageId` when present.
   */
  predicate Mirrors(m: Value, e: HistoryEntry, taskId: Value) {
    && !Nullish(m)
    && e.role == Coalesce(Get(m, "role"), Str("user"))
    && e.parts == [TextPart(Coalesce(Get(m, "content"), Str("")))]
    && e.taskId == taskId
    && (!Nullish(Get(m, "messageId")) ==> e.messageId == Get(m, "messageId"))
  }

  /**
   * The history entry for readable message `m`, whose own `messageId` is
   * used when present and fresh id `id` otherwise.
   */
  function Render(m: Value, taskId: Value, id: string): (e: HistoryEntry)
    requires !Nullish(m)
    ensures Mirrors(m, e, taskId)
    ensures LacksId(m) ==> e.messageId == Str(id)
    ensures !Nullish(e.role) && !Nullish(e.messageId)
    ensures e.messageId == Get(m, "messageId") <==> !LacksId(m)
  {
    HistoryEntry(
      Coalesce(Get(m, "role"), Str("user")),
      [TextPart(Coalesce(Get(m, "content"), Str("")))],
      Coalesce(Get(m, "messageId"), Str(id)),
      taskId)
  }

  /**
   * The history messages for the request's messages, in order, or the index
   * of the first message that is `null` or `undefined` (reading its `role`
   * throws). Each message without an id draws the next fresh id, starting
   * from number `next`.
   */
  function History(messages: seq<Value>, taskId: Value, uuid: nat -> string, next: nat): (r: Result<seq<HistoryEntry>, nat>)
    ensures r.Ok? <==> forall k :: 0 <= k < |messages| ==> !Nullish(messages[k])
    ensures r.Ok? ==> |r.value| == |messages|
    ensures r.Err? ==> r.error < |messages| && Nullish(messages[r.error])
    ensures r.Err? ==> forall k :: 0 <= k < r.error ==> !Nullish(messages[k])
    decreases |messages|
  {
    if messages == [] then Ok([])
    else if Nullish(messages[0]) then Err(0)
    else
      var after := if LacksId(messages[0]) then next + 1 else next;
      match History(messages[1..], taskId, uuid, after)
      case Err(k) => Err(k + 1)
      case Ok(rest) => Ok([Render(messages[0], taskId, uuid(next))] + rest)
  }

  /**
   * The k-th history entry renders the k-th message; when that message has
   * no `messageId` it takes fresh id number `next` plus the number of
   * earlier messages that also had none.
   */
  lemma HistoryRenders(messages: seq<Value>, taskId: Value, uuid: nat -> string, next: nat)
    requires History(messages, taskId, uuid, next).Ok?
    ensures var h := History(messages, taskId, uuid, next).value;
            forall k {:trigger h[k]} :: 0 <= k < |messages| ==> h[k] == Render(messages[k], taskId, uuid(next + Missing(messages[..k])))
  {
    var h := History(messages, taskId, uuid, next).value;
    forall k | 0 <= k < |messages|
      ensures h[k] == Render(messages[k], taskId, uuid(next + Missing(messages[..k])))
    {
      HistoryEntryAt(messages, taskId, uuid, next, k);
    }
  }

  /** `HistoryRenders` for one position `k`, by induction on `k`. */
  lemma {:induction false} HistoryEntryAt(messages: seq<Value>, taskId: Value, uuid: nat -> string, next: nat, k: nat)
    requires History(messages, taskId, uuid, next).Ok?
    requires k < |messages|
    ensures History(messages, taskId, uuid, next).value[k] == Render(messages[k], taskId, uuid(next + Missing(messages[..k])))
    decreases k
  {
    HistoryStep(messages, taskId, uuid, next);
    if k == 0 {
      assert messages[..0] == [];
    } else {
      var after := if LacksId(messages[0]) then next + 1 else next;
      assert messages[1..][k - 1] == messages[k];
      HistoryEntryAt(messages[1..], taskId, uuid, after, k - 1);
      MissingShiftAt(messages, k);
    }
  }

  /** A readable first message becomes the first entry, with fresh id `next` if it needs one, and the rest draw on from there. */
  lemma HistoryStep(messages: seq<Value>, taskId: Value, uuid: nat -> string, next: nat)
    requires messages != [] && History(messages, taskId, uuid, next).Ok?
    ensures var after := if LacksId(messages[0]) then next + 1 else next;
            && !Nullish(messages[0])
            && History(messages[1..], taskId, uuid, after).Ok?
            && History(messages, taskId, uuid, next).value
               == [Render(messages[0], taskId, uuid(next))] + History(messages[1..], taskId, uuid, after).value
  {
  }

  /** Counting the first `k` messages: the first one, then the `k - 1` after it. */
  lemma MissingShiftAt(messages: seq<Value>, k: nat)
    requires 1 <= k <= |messages|
    ensures Missing(messages[..k]) == (if LacksId(messages[0]) then 1 else 0) + Missing(messages[1..][..k - 1])
  {
    assert messages[..k][1..] == messages[1..][..k - 1];
  }

  /** One more message in the prefix counts one more exactly when it lacks an id. */
  lemma {:induction false} MissingStep(messages: seq<Value>, k: nat)
    requires k < |messages|
    ensures Missing(messages[..k + 1]) == Missing(messages[..k]) + (if LacksId(messages[k]) then 1 else 0)
    decreases k
  {
    if k > 0 {
      MissingShiftAt(messages, k);
      MissingShiftAt(messages, k + 1);
      MissingStep(messages[1..], k - 1);
      assert messages[1..][k - 1] == messages[k];
    }
  }

  /** Later prefixes never count fewer, and they count strictly more once they pass a message without an id. */
  lemma {:induction false} MissingGrows(messages: seq<Value>, i: nat, j: nat)
    requires i < j <= |messages|
    ensures Missing(messages[..i]) <= Missing(messages[..j])
    ensures LacksId(messages[i]) ==> Missing(messages[..i]) < Missing(messages[..j])
    decreases j - i
  {
    MissingStep(messages, i);
    if i + 1 < j {
      MissingGrows(messages, i + 1, j);
    }
  }

  /**
   * `params.configuration ?? {}` asks for a push when `blocking === false`
   * and `pushNotificationConfig?.url` is truthy; the header is added when
   * `token` is truthy.
   */
  function PushFor(params: Value, envelope: Envelope): Option<PushNotification>
    requires !Nullish(params)
  {
    var config := Coalesce(Get(params, "configuration"), Obj(map[]));
    var target := Get(config, "pushNotificationConfig");
    var url := if Nullish(target) then Undefined else Get(target, "url");
    if Get(config, "blocking") == Bool(false) && Truthy(url) then
      var token := Get(target, "token");
      Some(PushNotification(url, if Truthy(token) then Some(token) else None, envelope))
    else None
  }

  /** An answer that consulted nobody and pushes nothing. */
  function Reply(id: Value, error: RpcError): Response {
    Response(200, Envelope("2.0", id, Failure(error)), None, None)
  }

  // ---------------------------------------------------------------------------
  // The handler

  /**
   * The route handler. Whatever happens, it answers HTTP 200 with a "2.0"
   * envelope, and a push notification only ever repeats a successful answer.
   */
  function Handle(agentId: string, body: Body, registry: seq<string>, generation: Generation,
                  uuid: nat -> string, timestamp: string): (r: Response)
    ensures r.status == 200 && r.envelope.jsonrpc == "2.0"
    ensures r.push.Some? ==> r.push.value.body == r.envelope && r.envelope.payload.Success?
  {
    if body.Malformed? then
      Reply(Null, RpcError(ParseErrorCode, "Parse error: Invalid JSON", Details(body.details)))
    else if Nullish(BodyValue(body)) then
      Reply(Null, RpcError(ParseErrorCode, "Parse error: Invalid JSON", Details(ReadOfNullishMessage(BodyValue(body), "jsonrpc"))))
    else
      var v := BodyValue(body);
      var requestId := RequestId(v, uuid);
      var next: nat := if Nullish(Get(v, "id")) then 2 else 1;
      if Coalesce(Get(v, "jsonrpc"), Str("2.0")) != Str("2.0") then
        Reply(requestId, RpcError(InvalidRequestCode, "Invalid Request: JSON-RPC version must be 2.0", NoData))
      else if agentId !in registry then
        Reply(requestId, RpcError(AgentNotFoundCode, "Agent '" + agentId + "' not found", AvailableAgents(registry)))
      else
        var params := Params(v);
        var listed := MessageList(params);
        if !listed.Arr? then
          Reply(Null, RpcError(InternalErrorCode, "Internal error", Details(NotAListDetails)))
        else
          Dispatch(agentId, params, listed.items, requestId, generation, uuid, next, timestamp)
  }

  /** The ids of a completed task, and the number of the first fresh id left for its history. */
  datatype TaskIds = TaskIds(taskId: Value, contextId: Value, messageId: string, artifactId: string, historyFrom: nat)

  /**
   * The ids a completed task draws, in the order the handler calls
   * `randomUUID` from fresh id number `next` on: the task id and the context
   * id unless the request brought them, then the status message's, then the
   * artifact's; history messages without an id draw from `historyFrom` on.
   */
  function DrawIds(params: Value, uuid: nat -> string, next: nat): TaskIds
    requires !Nullish(params)
  {
    var taskId := Coalesce(Get(params, "taskId"), Str(uuid(next)));
    var next1 := if Nullish(Get(params, "taskId")) then next + 1 else next;
    var contextId := Coalesce(Get(params, "contextId"), Str(uuid(next1)));
    var next2 := if Nullish(Get(params, "contextId")) then next1 + 1 else next1;
    TaskIds(taskId, contextId, uuid(next2), uuid(next2 + 1), next2 + 2)
  }

  /** The completed task: the agent's text as status message and single artifact, the history followed by the reply. */
  function CompletedTask(agentId: string, ids: TaskIds, entries: seq<HistoryEntry>, text: Value, timestamp: string): Task {
    Task(
      ids.taskId,
      ids.contextId,
      TaskStatus("completed", timestamp, StatusMessage(ids.messageId, "agent", [TextPart(text)])),
      [Artifact(ids.artifactId, agentId + "Response", [TextPart(text)])],
      entries + [HistoryEntry(Str("agent"), [TextPart(text)], Str(ids.messageId), ids.taskId)],
      "task")
  }

  /** From the call to `generate` on: the agent was found and the messages form a list. */
  function Dispatch(agentId: string, params: Value, messages: seq<Value>, requestId: Value, generation: Generation,
                    uuid: nat -> string, next: nat, timestamp: string): (r: Response)
    requires !Nullish(params)
    ensures r.status == 200 && r.envelope.jsonrpc == "2.0"
    ensures r.agentInput == Some(AgentInput(messages))
    ensures r.envelope.payload.Success? ==> r.envelope.id == requestId
    ensures r.envelope.payload.Failure? ==> r.envelope.payload.error.code in {GenerationErrorCode, InternalErrorCode}
    ensures r.push.Some? ==> r.envelope.payload.Success? && r.push.value.body == r.envelope
  {
    var input := AgentInput(messages);
    match generation
    case Threw(details) =>
      Response(200, Envelope("2.0", requestId, Failure(RpcError(GenerationErrorCode, "Agent generation error", Details(details)))),
               Some(input), None)
    case Returned(response) =>
      var ids := DrawIds(params, uuid, next);
      match History(messages, ids.taskId, uuid, ids.historyFrom)
      case Err(k) =>
        Response(200, Envelope("2.0", Null, Failure(RpcError(InternalErrorCode, "Internal error", Details(ReadOfNullishMessage(messages[k], "role"))))),
                 Some(input), None)
      case Ok(entries) =>
        var envelope := Envelope("2.0", requestId, Success(CompletedTask(agentId, ids, entries, AgentText(response), timestamp)));
        Response(200, envelope, Some(input), PushFor(params, envelope))
  }

  // ---------------------------------------------------------------------------
  // Properties

  /** The body parsed to something whose properties can be read. */
  predicate Readable(body: Body) {
    !body.Malformed? && !Nullish(BodyValue(body))
  }

  /** The request reaches `generate`: readable, version "2.0" (or none), a registered agent, and a message list that is an array. */
  predicate Accepted(agentId: string, body: Body, registry: seq<string>) {
    && Readable(body)
    && Coalesce(Get(BodyValue(body), "jsonrpc"), Str("2.0")) == Str("2.0")
    && agentId in registry
    && MessageList(Params(BodyValue(body))).Arr?
  }

  /** The request's message list, once it is known to be an array. */
  function Messages(body: Body): seq<Value>
    requires Readable(body) && MessageList(Params(BodyValue(body))).Arr?
  {
    MessageList(Params(BodyValue(body))).items
  }

  predicate FailsWith(r: Response, code: int) {
    r.envelope.payload.Failure? && r.envelope.payload.error.code == code
  }

  /**
   * -32700 is the answer exactly when the body is not readable; it carries a
   * null id and the parse error's text, and the agent is never consulted.
   */
  lemma ParseErrorIff(agentId: string, body: Body, registry: seq<string>, generation: Generation,
                      uuid: nat -> string, timestamp: string)
    ensures var r := Handle(agentId, body, registry, generation, uuid, timestamp);
            && (FailsWith(r, ParseErrorCode) <==> !Readable(body))
            && (body.Malformed? ==> r == Reply(Null, RpcError(ParseErrorCode, "Parse error: Invalid JSON", Details(body.details))))
            && (!Readable(body) ==> r.envelope.id == Null && r.agentInput.None?)
  {
    if Accepted(agentId, body, registry) {
      AcceptedDispatches(agentId, body, registry, generation, uuid, timestamp);
      DispatchAnswers(agentId, Params(BodyValue(body)), Messages(body), RequestId(BodyValue(body), uuid),
                      generation, uuid, TaskIdIndex(BodyValue(body)), timestamp);
    }
  }

  /** A JSON `null` body fails on reading its `jsonrpc`, and the parse error carries the engine's text for that. */
  lemma NullBodyText(agentId: string, registry: seq<string>, generation: Generation, uuid: nat -> string, timestamp: string)
    ensures var r := Handle(agentId, Parsed(Null), registry, generation, uuid, timestamp);
            && FailsWith(r, ParseErrorCode)
            && r.envelope.payload.error.data == Details("Cannot read properties of null (reading 'jsonrpc')")
  {
    assert ReadOfNullishMessage(Null, "jsonrpc") == "Cannot read properties of null (reading 'jsonrpc')";
  }

  /** Once `generate` is called, the answer is a success, -32001 or -32603, and never a parse error. */
  lemma DispatchAnswers(agentId: string, params: Value, messages: seq<Value>, requestId: Value, generation: Generation,
                        uuid: nat -> string, next: nat, timestamp: string)
    requires !Nullish(params)
    ensures var r := Dispatch(agentId, params, messages, requestId, generation, uuid, next, timestamp);
            r.envelope.payload.Success? || FailsWith(r, GenerationErrorCode) || FailsWith(r, InternalErrorCode)
  {
  }

  /**
   * A readable body whose `jsonrpc` is present and not "2.0" is rejected with
   * -32600 before the agent is looked up, echoing the request id; a missing
   * `jsonrpc` counts as "2.0".
   */
  lemma VersionChecked(agentId: string, body: Body, registry: seq<string>, generation: Generation,
                       uuid: nat -> string, timestamp: string)
    requires Readable(body)
    ensures var r := Handle(agentId, body, registry, generation, uuid, timestamp);
            var version := Get(BodyValue(body), "jsonrpc");
            && (FailsWith(r, InvalidRequestCode) <==> !Nullish(version) && version != Str("2.0"))
            && (FailsWith(r, InvalidRequestCode) ==>
                  r == Reply(RequestId(BodyValue(body), uuid), RpcError(InvalidRequestCode, "Invalid Request: JSON-RPC version must be 2.0", NoData)))
  {
  }

  /** An agent id outside the registry is answered with -32000, naming the agent and listing the registry. */
  lemma UnknownAgentListed(agentId: string, body: Body, registry: seq<string>, generation: Generation,
                           uuid: nat -> string, timestamp: string)
    requires Readable(body) && Coalesce(Get(BodyValue(body), "jsonrpc"), Str("2.0")) == Str("2.0")
    ensures var r := Handle(agentId, body, registry, generation, uuid, timestamp);
            && (FailsWith(r, AgentNotFoundCode) <==> agentId !in registry)
            && (agentId !in registry ==>
                  r == Reply(RequestId(BodyValue(body), uuid), RpcError(AgentNotFoundCode, "Agent '" + agentId + "' not found", AvailableAgents(registry))))
  {
  }

  /**
   * `generate` is called exactly for accepted requests, and it receives the
   * request's messages unchanged, or a single user "Hello" when there are none.
   */
  lemma AgentConsultedIff(agentId: string, body: Body, registry: seq<string>, generation: Generation,
                          uuid: nat -> string, timestamp: string)
    ensures var r := Handle(agentId, body, registry, generation, uuid, timestamp);
            && (r.agentInput.Some? <==> Accepted(agentId, body, registry))
            && (r.agentInput.Some? ==>
                  && |r.agentInput.value| >= 1
                  && (|Messages(body)| > 0 ==> r.agentInput.value == Messages(body))
                  && (|Messages(body)| == 0 ==> r.agentInput.value == [HelloMessage]))
  {
  }

  /** The single `message` is wrapped in a list when `messages` is absent; `messages` wins when both are given. */
  lemma MessageSelection(params: Value)
    requires !Nullish(params)
    ensures !Nullish(Get(params, "messages")) ==> MessageList(params) == Get(params, "messages")
    ensures Nullish(Get(params, "messages")) && Truthy(Get(params, "message")) ==> MessageList(params) == Arr([Get(params, "message")])
    ensures Nullish(Get(params, "messages")) && !Truthy(Get(params, "message")) ==> MessageList(params) == Arr([])
  {
  }

  /** A readable, accepted-looking request whose message list is not an array fails with -32603 and a null id. */
  lemma NonListMessagesFail(agentId: string, body: Body, registry: seq<string>, generation: Generation,
                            uuid: nat -> string, timestamp: string)
    requires Readable(body) && Coalesce(Get(BodyValue(body), "jsonrpc"), Str("2.0")) == Str("2.0") && agentId in registry
    requires !MessageList(Params(BodyValue(body))).Arr?
    ensures Handle(agentId, body, registry, generation, uuid, timestamp)
            == Reply(Null, RpcError(InternalErrorCode, "Internal error", Details(NotAListDetails)))
  {
  }

  /** A throwing `generate` turns every accepted request into -32001 with its message, whatever the messages hold. */
  lemma GenerationErrorIff(agentId: string, body: Body, registry: seq<string>, generation: Generation,
                           uuid: nat -> string, timestamp: string)
    ensures var r := Handle(agentId, body, registry, generation, uuid, timestamp);
            && (FailsWith(r, GenerationErrorCode) <==> Accepted(agentId, body, registry) && generation.Threw?)
            && (FailsWith(r, GenerationErrorCode) ==>
                  && r.envelope.id == RequestId(BodyValue(body), uuid)
                  && r.envelope.payload.error.data == Details(generation.details)
                  && r.push.None?)
  {
  }

  /**
   * The request succeeds exactly when it is accepted, `generate` returns, and
   * no message is `null`; otherwise a null message is reported as -32603
   * naming the first such message.
   */
  lemma SuccessIff(agentId: string, body: Body, registry: seq<string>, generation: Generation,
                   uuid: nat -> string, timestamp: string)
    ensures var r := Handle(agentId, body, registry, generation, uuid, timestamp);
            && (r.envelope.payload.Success? <==>
                  && Accepted(agentId, body, registry)
                  && generation.Returned?
                  && forall k :: 0 <= k < |Messages(body)| ==> !Nullish(Messages(body)[k]))
            && (Accepted(agentId, body, registry) && generation.Returned? && !r.envelope.payload.Success? ==>
                  && r.envelope.id == Null
                  && FailsWith(r, InternalErrorCode)
                  && exists k :: 0 <= k < |Messages(body)| && Nullish(Messages(body)[k])
                       && r.envelope.payload.error.data == Details(ReadOfNullishMessage(Messages(body)[k], "role")))
  {
    if Accepted(agentId, body, registry) {
      AcceptedDispatches(agentId, body, registry, generation, uuid, timestamp);
      var r := Handle(agentId, body, registry, generation, uuid, timestamp);
      if generation.Returned? && !r.envelope.payload.Success? {
        var ids := DrawIds(Params(BodyValue(body)), uuid, TaskIdIndex(BodyValue(body)));
        var h := History(Messages(body), ids.taskId, uuid, ids.historyFrom);
        assert h.Err?;
        assert Nullish(Messages(body)[h.error]);
      }
    }
  }

  /** The reply text: the response's `text` when present, else the response itself when it is a string, else the default. */
  lemma AgentTextChoice(response: Value)
    ensures !Nullish(response) && !Nullish(Get(response, "text")) ==> AgentText(response) == Get(response, "text")
    ensures response.Str? ==> AgentText(response) == response
    ensures !response.Str? && (Nullish(response) || Nullish(Get(response, "text"))) ==> AgentText(response) == Str(DefaultAgentText)
  {
  }

  /** The request can only succeed: accepted, `generate` returned, and every message can be read. */
  predicate Succeeds(agentId: string, body: Body, registry: seq<string>, generation: Generation) {
    && Accepted(agentId, body, registry)
    && generation.Returned?
    && forall k :: 0 <= k < |Messages(body)| ==> !Nullish(Messages(body)[k])
  }

  /**
   * A successful answer echoes the request id and carries a completed task:
   * the given task and context ids when present, one status message and one
   * artifact named after the agent, both with the reply text, and a history
   * that renders each request message in order followed by the agent's reply,
   * every entry tagged with the task id.
   */
  lemma SuccessfulTask(agentId: string, body: Body, registry: seq<string>, generation: Generation,
                       uuid: nat -> string, timestamp: string)
    requires Succeeds(agentId, body, registry, generation)
    ensures var r := Handle(agentId, body, registry, generation, uuid, timestamp);
            var v := BodyValue(body);
            var params := Params(v);
            var text := AgentText(generation.response);
            var messages := Messages(body);
            && r.envelope.payload.Success?
            && var t := r.envelope.payload.result;
            && r.envelope.id == RequestId(v, uuid)
            && (!Nullish(Get(v, "id")) ==> r.envelope.id == Get(v, "id"))
            && t.kind == "task"
            && t.status.state == "completed"
            && t.status.timestamp == timestamp
            && t.status.message.role == "agent"
            && t.status.message.parts == [TextPart(text)]
            && (!Nullish(Get(params, "taskId")) ==> t.id == Get(params, "taskId"))
            && (!Nullish(Get(params, "contextId")) ==> t.contextId == Get(params, "contextId"))
            && |t.artifacts| == 1
            && t.artifacts[0].name == agentId + "Response"
            && t.artifacts[0].parts == [TextPart(text)]
            && |t.history| == |messages| + 1
            && (forall k :: 0 <= k < |messages| ==> Mirrors(messages[k], t.history[k], t.id))
            && t.history[|messages|] == HistoryEntry(Str("agent"), [TextPart(text)], Str(t.status.message.messageId), t.id)
  {
    var v := BodyValue(body);
    var messages := Messages(body);
    AcceptedDispatches(agentId, body, registry, generation, uuid, timestamp);
    DispatchCompletes(agentId, Params(v), messages, RequestId(v, uuid), generation, uuid, TaskIdIndex(v), timestamp);
    var ids := DrawIds(Params(v), uuid, TaskIdIndex(v));
    var h := History(messages, ids.taskId, uuid, ids.historyFrom);
    HistoryRenders(messages, ids.taskId, uuid, ids.historyFrom);
    var t := CompletedTask(agentId, ids, h.value, AgentText(generation.response), timestamp);
    assert forall k :: 0 <= k < |messages| ==> t.history[k] == h.value[k];
  }

  /** The number of the first UUID drawn after the request id: the task id's, when one is generated. */
  function TaskIdIndex(v: Value): nat
    requires !Nullish(v)
  {
    if Nullish(Get(v, "id")) then 2 else 1
  }

  /** An accepted request goes on to the call to `generate` with its parameters, messages and request id. */
  lemma AcceptedDispatches(agentId: string, body: Body, registry: seq<string>, generation: Generation,
                           uuid: nat -> string, timestamp: string)
    requires Accepted(agentId, body, registry)
    ensures Handle(agentId, body, registry, generation, uuid, timestamp)
            == Dispatch(agentId, Params(BodyValue(body)), Messages(body), RequestId(BodyValue(body), uuid),
                        generation, uuid, TaskIdIndex(BodyValue(body)), timestamp)
  {
  }

  /**
   * Which UUID each generated id of task `t` is, counting from fresh id
   * number `next`: the task id's is `next` when the request brought none,
   * the context id's the next one, then the status message's, then the
   * artifact's, then one per history message without an id, in order.
   */
  predicate DrawnInOrder(t: Task, params: Value, messages: seq<Value>, uuid: nat -> string, next: nat)
    requires !Nullish(params)
    requires |t.artifacts| == 1 && |t.history| == |messages| + 1
  {
    var n1 := next + (if Nullish(Get(params, "taskId")) then 1 else 0);
    var n := n1 + (if Nullish(Get(params, "contextId")) then 1 else 0);
    && (Nullish(Get(params, "taskId")) ==> t.id == Str(uuid(next)))
    && (Nullish(Get(params, "contextId")) ==> t.contextId == Str(uuid(n1)))
    && t.status.message.messageId == uuid(n)
    && t.artifacts[0].artifactId == uuid(n + 1)
    && (forall k {:trigger t.history[k]} :: 0 <= k < |messages| && LacksId(messages[k]) ==>
          t.history[k].messageId == Str(uuid(n + 2 + Missing(messages[..k]))))
  }

  /** A successful dispatch draws its ids in the order `DrawnInOrder` describes, from fresh id number `next` on. */
  lemma DispatchIds(agentId: string, params: Value, messages: seq<Value>, requestId: Value, generation: Generation,
                    uuid: nat -> string, next: nat, timestamp: string)
    requires !Nullish(params) && generation.Returned?
    requires forall k :: 0 <= k < |messages| ==> !Nullish(messages[k])
    ensures var r := Dispatch(agentId, params, messages, requestId, generation, uuid, next, timestamp);
            && r.envelope.payload.Success?
            && |r.envelope.payload.result.artifacts| == 1
            && |r.envelope.payload.result.history| == |messages| + 1
            && DrawnInOrder(r.envelope.payload.result, params, messages, uuid, next)
  {
    DispatchCompletes(agentId, params, messages, requestId, generation, uuid, next, timestamp);
    DrawIdsOrder(params, uuid, next);
    RenderedTaskIds(agentId, params, messages, uuid, next, DrawIds(params, uuid, next), AgentText(generation.response), timestamp);
  }

  /** The completed task over the rendered history carries its ids in drawing order. */
  lemma RenderedTaskIds(agentId: string, params: Value, messages: seq<Value>, uuid: nat -> string, next: nat,
                        ids: TaskIds, text: Value, timestamp: string)
    requires !Nullish(params) && IdsInOrder(ids, params, uuid, next)
    requires History(messages, ids.taskId, uuid, ids.historyFrom).Ok?
    ensures var t := CompletedTask(agentId, ids, History(messages, ids.taskId, uuid, ids.historyFrom).value, text, timestamp);
            && |t.artifacts| == 1 && |t.history| == |messages| + 1
            && DrawnInOrder(t, params, messages, uuid, next)
  {
    var h := History(messages, ids.taskId, uuid, ids.historyFrom);
    HistoryRenders(messages, ids.taskId, uuid, ids.historyFrom);
    CompletedTaskIds(agentId, params, messages, uuid, next, ids, h.value, text, timestamp);
  }

  /** When `generate` returned and every message is readable, the answer is the completed task over the rendered history. */
  lemma DispatchCompletes(agentId: string, params: Value, messages: seq<Value>, requestId: Value, generation: Generation,
                          uuid: nat -> string, next: nat, timestamp: string)
    requires !Nullish(params) && generation.Returned?
    requires forall k :: 0 <= k < |messages| ==> !Nullish(messages[k])
    ensures var ids := DrawIds(params, uuid, next);
            var h := History(messages, ids.taskId, uuid, ids.historyFrom);
            && h.Ok?
            && Dispatch(agentId, params, messages, requestId, generation, uuid, next, timestamp).envelope.payload
               == Success(CompletedTask(agentId, ids, h.value, AgentText(generation.response), timestamp))
  {
  }

  /** The ids `DrawIds` draws from fresh id number `next` on, in the order of `DrawnInOrder`. */
  predicate IdsInOrder(ids: TaskIds, params: Value, uuid: nat -> string, next: nat)
    requires !Nullish(params)
  {
    var n1 := next + (if Nullish(Get(params, "taskId")) then 1 else 0);
    var n := n1 + (if Nullish(Get(params, "contextId")) then 1 else 0);
    && (Nullish(Get(params, "taskId")) ==> ids.taskId == Str(uuid(next)))
    && (Nullish(Get(params, "contextId")) ==> ids.contextId == Str(uuid(n1)))
    && ids.messageId == uuid(n)
    && ids.artifactId == uuid(n + 1)
    && ids.historyFrom == n + 2
  }

  /** `DrawIds` draws the task id, the context id, the status message's and the artifact's in that order. */
  lemma DrawIdsOrder(params: Value, uuid: nat -> string, next: nat)
    requires !Nullish(params)
    ensures IdsInOrder(DrawIds(params, uuid, next), params, uuid, next)
  {
  }

  /** A completed task whose history entries render the messages with ids drawn after `ids` carries its ids in drawing order. */
  lemma CompletedTaskIds(agentId: string, params: Value, messages: seq<Value>, uuid: nat -> string, next: nat,
                         ids: TaskIds, entries: seq<HistoryEntry>, text: Value, timestamp: string)
    requires !Nullish(params) && IdsInOrder(ids, params, uuid, next)
    requires forall k :: 0 <= k < |messages| ==> !Nullish(messages[k])
    requires |entries| == |messages|
    requires forall k {:trigger entries[k]} :: 0 <= k < |messages| ==>
               entries[k] == Render(messages[k], ids.taskId, uuid(ids.historyFrom + Missing(messages[..k])))
    ensures var t := CompletedTask(agentId, ids, entries, text, timestamp);
            && |t.artifacts| == 1 && |t.history| == |messages| + 1
            && DrawnInOrder(t, params, messages, uuid, next)
  {
    var t := CompletedTask(agentId, ids, entries, text, timestamp);
    forall k | 0 <= k < |messages| && LacksId(messages[k])
      ensures t.history[k].messageId == Str(uuid(ids.historyFrom + Missing(messages[..k])))
    {
      assert t.history[k] == entries[k];
    }
  }

  /** The ids task `t` generated differ pairwise (the request id is covered by `DiffersFromGenerated`). */
  predicate DistinctGeneratedIds(t: Task, params: Value, messages: seq<Value>)
    requires !Nullish(params)
    requires |t.artifacts| == 1 && |t.history| == |messages| + 1
  {
    var generated := {Str(t.status.message.messageId), Str(t.artifacts[0].artifactId)};
    && t.status.message.messageId != t.artifacts[0].artifactId
    && (Nullish(Get(params, "taskId")) ==> t.id !in generated)
    && (Nullish(Get(params, "contextId")) ==> t.contextId !in generated)
    && (Nullish(Get(params, "taskId")) && Nullish(Get(params, "contextId")) ==> t.id != t.contextId)
    && (forall k :: 0 <= k < |messages| && LacksId(messages[k]) ==> t.history[k].messageId !in generated)
    && (Nullish(Get(params, "taskId")) ==>
          forall k :: 0 <= k < |messages| && LacksId(messages[k]) ==> t.history[k].messageId != t.id)
    && (Nullish(Get(params, "contextId")) ==>
          forall k :: 0 <= k < |messages| && LacksId(messages[k]) ==> t.history[k].messageId != t.contextId)
    && (forall k1, k2 :: 0 <= k1 < k2 < |messages| && LacksId(messages[k1]) && LacksId(messages[k2]) ==>
          t.history[k1].messageId != t.history[k2].messageId)
  }

  lemma DispatchIdsDistinct(agentId: string, params: Value, messages: seq<Value>, requestId: Value, generation: Generation,
                            uuid: nat -> string, next: nat, timestamp: string)
    requires !Nullish(params) && generation.Returned?
    requires forall k :: 0 <= k < |messages| ==> !Nullish(messages[k])
    requires forall i, j :: uuid(i) == uuid(j) ==> i == j
    ensures var r := Dispatch(agentId, params, messages, requestId, generation, uuid, next, timestamp);
            && r.envelope.payload.Success?
            && |r.envelope.payload.result.artifacts| == 1
            && |r.envelope.payload.result.history| == |messages| + 1
            && DistinctGeneratedIds(r.envelope.payload.result, params, messages)
  {
    DispatchIds(agentId, params, messages, requestId, generation, uuid, next, timestamp);
    var t := Dispatch(agentId, params, messages, requestId, generation, uuid, next, timestamp).envelope.payload.result;
    IndexedIdsDistinct(t, params, messages, uuid, next);
  }

  /** Ids drawn as `DrawnInOrder` describes, from distinct UUIDs, are distinct. */
  lemma IndexedIdsDistinct(t: Task, params: Value, messages: seq<Value>, uuid: nat -> string, next: nat)
    requires !Nullish(params)
    requires forall i, j :: uuid(i) == uuid(j) ==> i == j
    requires |t.artifacts| == 1 && |t.history| == |messages| + 1
    requires DrawnInOrder(t, params, messages, uuid, next)
    ensures DistinctGeneratedIds(t, params, messages)
  {
    forall k1, k2 | 0 <= k1 < k2 < |messages| && LacksId(messages[k1]) && LacksId(messages[k2])
      ensures Missing(messages[..k1]) < Missing(messages[..k2])
    {
      MissingGrows(messages, k1, k2);
    }
  }

  /** Id `id` differs from every id task `t` generated: status message, artifact, task and context when generated, fresh history ids. */
  predicate DiffersFromGenerated(id: Value, t: Task, params: Value, messages: seq<Value>)
    requires !Nullish(params)
    requires |t.artifacts| == 1 && |t.history| == |messages| + 1
  {
    && id != Str(t.status.message.messageId)
    && id != Str(t.artifacts[0].artifactId)
    && (Nullish(Get(params, "taskId")) ==> id != t.id)
    && (Nullish(Get(params, "contextId")) ==> id != t.contextId)
    && (forall k :: 0 <= k < |messages| && LacksId(messages[k]) ==> id != t.history[k].messageId)
  }

  /** A UUID drawn before fresh id number `next` differs from every id drawn from `next` on. */
  lemma EarlierIdDiffers(t: Task, params: Value, messages: seq<Value>, uuid: nat -> string, next: nat, i: nat)
    requires !Nullish(params)
    requires forall i, j :: uuid(i) == uuid(j) ==> i == j
    requires |t.artifacts| == 1 && |t.history| == |messages| + 1
    requires DrawnInOrder(t, params, messages, uuid, next)
    requires i < next
    ensures DiffersFromGenerated(Str(uuid(i)), t, params, messages)
  {
  }

  /**
   * With distinct UUIDs, the ids the handler generates for one successful
   * request never coincide: the status message, the artifact, the task and
   * context when generated, every history message that brought no id, and
   * the request id when the body brought none.
   */
  lemma GeneratedIdsDistinct(agentId: string, body: Body, registry: seq<string>, generation: Generation,
                             uuid: nat -> string, timestamp: string)
    requires Succeeds(agentId, body, registry, generation)
    requires forall i, j :: uuid(i) == uuid(j) ==> i == j
    ensures var r := Handle(agentId, body, registry, generation, uuid, timestamp);
            && r.envelope.payload.Success?
            && |r.envelope.payload.result.artifacts| == 1
            && |r.envelope.payload.result.history| == |Messages(body)| + 1
            && DistinctGeneratedIds(r.envelope.payload.result, Params(BodyValue(body)), Messages(body))
            && (Nullish(Get(BodyValue(body), "id")) ==>
                  && r.envelope.id == Str(uuid(1))
                  && DiffersFromGenerated(r.envelope.id, r.envelope.payload.result, Params(BodyValue(body)), Messages(body)))
  {
    var v := BodyValue(body);
    AcceptedDispatches(agentId, body, registry, generation, uuid, timestamp);
    DispatchIdsDistinct(agentId, Params(v), Messages(body), RequestId(v, uuid), generation, uuid, TaskIdIndex(v), timestamp);
    if Nullish(Get(v, "id")) {
      DispatchRequestIdDiffers(agentId, Params(v), Messages(body), generation, uuid, timestamp);
    }
  }

  /** A request id generated as UUID number 1 differs from every id the successful dispatch from number 2 on generates. */
  lemma DispatchRequestIdDiffers(agentId: string, params: Value, messages: seq<Value>, generation: Generation,
                                 uuid: nat -> string, timestamp: string)
    requires !Nullish(params) && generation.Returned?
    requires forall k :: 0 <= k < |messages| ==> !Nullish(messages[k])
    requires forall i, j :: uuid(i) == uuid(j) ==> i == j
    ensures var r := Dispatch(agentId, params, messages, Str(uuid(1)), generation, uuid, 2, timestamp);
            && r.envelope.payload.Success?
            && |r.envelope.payload.result.artifacts| == 1
            && |r.envelope.payload.result.history| == |messages| + 1
            && r.envelope.id == Str(uuid(1))
            && DiffersFromGenerated(r.envelope.id, r.envelope.payload.result, params, messages)
  {
    DispatchIds(agentId, params, messages, Str(uuid(1)), generation, uuid, 2, timestamp);
    DispatchCompletes(agentId, params, messages, Str(uuid(1)), generation, uuid, 2, timestamp);
    var t := Dispatch(agentId, params, messages, Str(uuid(1)), generation, uuid, 2, timestamp).envelope.payload.result;
    EarlierIdDiffers(t, params, messages, uuid, 2, 1);
  }

  /** `params.configuration` asks for a webhook: `blocking` is exactly `false` and the push config has a truthy `url`. */
  predicate PushRequested(params: Value)
    requires !Nullish(params)
  {
    var config := Coalesce(Get(params, "configuration"), Obj(map[]));
    var target := Get(config, "pushNotificationConfig");
    && Get(config, "blocking") == Bool(false)
    && !Nullish(target)
    && Truthy(Get(target, "url"))
  }

  /**
   * A push notification is sent exactly for a successful request that asked
   * for one; it goes to the configured URL, carries a bearer token exactly
   * when the configured token is truthy, and its body is the answer itself.
   */
  lemma PushIff(agentId: string, body: Body, registry: seq<string>, generation: Generation,
                uuid: nat -> string, timestamp: string)
    requires Readable(body)
    ensures var r := Handle(agentId, body, registry, generation, uuid, timestamp);
            var params := Params(BodyValue(body));
            && (r.push.Some? <==> r.envelope.payload.Success? && PushRequested(params))
            && (r.push.Some? ==>
                  var target := Get(Coalesce(Get(params, "configuration"), Obj(map[])), "pushNotificationConfig");
                  && r.push.value.url == Get(target, "url")
                  && (r.push.value.bearerToken.Some? <==> Truthy(Get(target, "token")))
                  && (r.push.value.bearerToken.Some? ==> r.push.value.bearerToken.value == Get(target, "token"))
                  && r.push.value.body == r.envelope)
  {
  }

  /** Without `blocking: false` (absent, `true`, or any other value) no push is ever sent. */
  lemma BlockingNeverPushes(agentId: string, body: Body, registry: seq<string>, generation: Generation,
                            uuid: nat -> string, timestamp: string)
    requires Readable(body)
    requires Get(Coalesce(Get(Params(BodyValue(body)), "configuration"), Obj(map[])), "blocking") != Bool(false)
    ensures Handle(agentId, body, registry, generation, uuid, timestamp).push.None?
  {
  }
}
