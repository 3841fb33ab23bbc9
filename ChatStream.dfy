/** The chat stream route: request validation, conversion of the stored history into
    model messages, the latest user message, and the agent loop. The model (creating a
    response and reading its stream) is the oracle `llm`, running a tool is the oracle
    `run`, `JSON.stringify` is `stringify`, and generated ids and timestamps are
    parameters. */
module ChatStream {
  import opened Wrappers
  import opened Json
  import opened Text
  import opened Types
  import opened Storage
  import opened Registry
  import Seqs

  /** `String(value)`, as a template literal renders it. */
  function JsString(v: Json): string {
    match v
    case JUndefined => "undefined"
    case JNull => "null"
    case JBool(b) => if b then "true" else "false"
    case JNum(n) => IntToString(n)
    case JStr(s) => s
    case JArr(items) =>
      Join(seq(|items|, i requires 0 <= i < |items| =>
        if items[i].JNull? || items[i].JUndefined? then "" else JsString(items[i])))
    case JObj(_) => "[object Object]"
  }

  /** `join(',')`. */
  function Join(parts: seq<string>): string {
    if parts == [] then "" else if |parts| == 1 then parts[0] else Join(parts[..|parts| - 1]) + "," + parts[|parts| - 1]
  }

  datatype Speaker = UserSpeaker | AssistantSpeaker

  datatype Block =
    | TextBlock(text: string)
    | ToolUseBlock(id: Json, name: string, input: Json)
    | ToolResultBlock(toolUseId: Json, content: string, isError: bool)

  datatype Content = PlainText(text: string) | Blocks(blocks: seq<Block>)

  /** A message as sent to the model. */
  datatype LlmMessage = LlmMessage(role: Speaker, content: Content)

  /** The ids `tool-${Date.now()}-${Math.random()}` drawn for tool call `j` of stored
      message `k`; the tool_use draw and the tool_result draw (`isResult`) are separate. */
  type FreshIds = (nat, nat, bool) -> string

  /** The tool calls an assistant message records (none when absent). */
  function Calls(m: Message): seq<StoredToolCall> {
    m.toolCalls.GetOr([])
  }

  /** `result?.toolCallId || fallback`. */
  function ToolUseId(call: StoredToolCall, fallback: string): (r: Json)
    ensures Truthy(Get(call.result, "toolCallId")) ==> r == Get(call.result, "toolCallId")
    ensures !Truthy(Get(call.result, "toolCallId")) ==> r == JStr(fallback)
  {
    var id := Get(call.result, "toolCallId");
    if Truthy(id) then id else JStr(fallback)
  }

  /** When a call stores its id, its tool_use block and its tool_result block both use it. */
  lemma StoredIdShared(call: StoredToolCall, useFallback: string, resultFallback: string)
    requires Truthy(Get(call.result, "toolCallId"))
    ensures ToolUseId(call, useFallback) == ToolUseId(call, resultFallback) == Get(call.result, "toolCallId")
  {
  }

  /** One tool_use block per stored call of message `k`, in order. */
  function ToolUseBlocks(calls: seq<StoredToolCall>, k: nat, ids: FreshIds): (r: seq<Block>)
    ensures |r| == |calls|
  {
    if calls == [] then []
    else
      var j := |calls| - 1;
      ToolUseBlocks(calls[..j], k, ids) + [ToolUseBlock(ToolUseId(calls[j], ids(k, j, false)), calls[j].name, calls[j].args)]
  }

  /** Block `j` replays call `j`: its name, its arguments, and its stored id (or a fresh one). */
  lemma {:induction false} ToolUseBlocksAt(calls: seq<StoredToolCall>, k: nat, ids: FreshIds, j: nat)
    requires j < |calls|
    ensures ToolUseBlocks(calls, k, ids)[j] == ToolUseBlock(ToolUseId(calls[j], ids(k, j, false)), calls[j].name, calls[j].args)
    decreases |calls|
  {
    var n := |calls| - 1;
    if j < n {
      assert calls[..n][j] == calls[j];
      ToolUseBlocksAt(calls[..n], k, ids, j);
    }
  }

  /** The content blocks of a stored assistant message: its text, when non-empty, then its
      tool calls. */
  function AssistantBlocks(m: Message, k: nat, ids: FreshIds): (r: seq<Block>)
    ensures |r| == (if m.content != "" then 1 else 0) + |Calls(m)|
    ensures m.content != "" ==> r[0] == TextBlock(m.content)
    ensures r[(if m.content != "" then 1 else 0)..] == ToolUseBlocks(Calls(m), k, ids)
  {
    (if m.content != "" then [TextBlock(m.content)] else []) + ToolUseBlocks(Calls(m), k, ids)
  }

  /** `JSON.stringify(result?.result || toolCall.result)`'s argument. */
  function ResultContent(call: StoredToolCall): Json {
    var inner := Get(call.result, "result");
    if Truthy(inner) then inner else call.result
  }

  function ResultBlock(call: StoredToolCall, fallback: string, stringify: Json -> string): Block {
    ToolResultBlock(ToolUseId(call, fallback), stringify(ResultContent(call)), false)
  }

  /** The tool_result blocks replayed for message `k`: one per call that has a result. */
  function ResultBlocks(calls: seq<StoredToolCall>, k: nat, ids: FreshIds, stringify: Json -> string): (r: seq<Block>)
    ensures |r| <= |calls|
    ensures forall b :: b in r ==> b.ToolResultBlock? && !b.isError
  {
    if calls == [] then []
    else
      var j := |calls| - 1;
      var init := ResultBlocks(calls[..j], k, ids, stringify);
      if Truthy(calls[j].result) then init + [ResultBlock(calls[j], ids(k, j, true), stringify)] else init
  }

  /** No tool_result is replayed exactly when no call has a result. */
  lemma {:induction false} ResultBlocksEmpty(calls: seq<StoredToolCall>, k: nat, ids: FreshIds, stringify: Json -> string)
    ensures ResultBlocks(calls, k, ids, stringify) == [] <==> forall j :: 0 <= j < |calls| ==> !Truthy(calls[j].result)
    decreases |calls|
  {
    if calls != [] {
      var n := |calls| - 1;
      assert forall i :: 0 <= i < n ==> calls[..n][i] == calls[i];
      ResultBlocksEmpty(calls[..n], k, ids, stringify);
    }
  }

  /** When every call has a result, there is one tool_result per call, in order. */
  lemma {:induction false} ResultBlocksAllPresent(calls: seq<StoredToolCall>, k: nat, ids: FreshIds, stringify: Json -> string)
    requires forall j :: 0 <= j < |calls| ==> Truthy(calls[j].result)
    ensures |ResultBlocks(calls, k, ids, stringify)| == |calls|
    ensures forall j :: 0 <= j < |calls| ==>
      ResultBlocks(calls, k, ids, stringify)[j] == ResultBlock(calls[j], ids(k, j, true), stringify)
    decreases |calls|
  {
    if calls != [] {
      var j := |calls| - 1;
      var init := calls[..j];
      assert forall i :: 0 <= i < j ==> init[i] == calls[i];
      ResultBlocksAllPresent(init, k, ids, stringify);
      var blocks, initBlocks := ResultBlocks(calls, k, ids, stringify), ResultBlocks(init, k, ids, stringify);
      assert blocks == initBlocks + [ResultBlock(calls[j], ids(k, j, true), stringify)];
      forall i | 0 <= i < |calls|
        ensures blocks[i] == ResultBlock(calls[i], ids(k, i, true), stringify)
      {
        if i < j {
          assert blocks[i] == initBlocks[i] && init[i] == calls[i];
        }
      }
    }
  }

  /** The positions of the calls that have a result, in increasing order. */
  function ResultPositions(calls: seq<StoredToolCall>): (r: seq<nat>)
    ensures forall t :: 0 <= t < |r| ==> r[t] < |calls| && Truthy(calls[r[t]].result)
    ensures forall s, t :: 0 <= s < t < |r| ==> r[s] < r[t]
    ensures forall j :: 0 <= j < |calls| && Truthy(calls[j].result) ==> j in r
  {
    if calls == [] then []
    else
      var j := |calls| - 1;
      var init := ResultPositions(calls[..j]);
      assert forall t :: 0 <= t < |init| ==> calls[..j][init[t]] == calls[init[t]];
      if Truthy(calls[j].result) then init + [j] else init
  }

  /** The replayed tool_results are exactly those of the calls with a result, in order:
      the `t`-th replays the `t`-th such call, under its id or fallback `j`. */
  lemma {:induction false} ResultBlocksAt(calls: seq<StoredToolCall>, k: nat, ids: FreshIds, stringify: Json -> string)
    ensures |ResultBlocks(calls, k, ids, stringify)| == |ResultPositions(calls)|
    ensures forall t :: 0 <= t < |ResultPositions(calls)| ==>
      var j := ResultPositions(calls)[t];
      ResultBlocks(calls, k, ids, stringify)[t] == ResultBlock(calls[j], ids(k, j, true), stringify)
    decreases |calls|
  {
    if calls != [] {
      var n := |calls| - 1;
      var init := calls[..n];
      ResultBlocksAt(init, k, ids, stringify);
      var p := ResultPositions(init);
      var b := ResultBlocks(init, k, ids, stringify);
      forall t | 0 <= t < |p|
        ensures b[t] == ResultBlock(calls[p[t]], ids(k, p[t], true), stringify)
      {
        assert init[p[t]] == calls[p[t]];
      }
      if Truthy(calls[n].result) {
        assert ResultPositions(calls) == p + [n];
        assert ResultBlocks(calls, k, ids, stringify) == b + [ResultBlock(calls[n], ids(k, n, true), stringify)];
      } else {
        assert ResultPositions(calls) == p;
        assert ResultBlocks(calls, k, ids, stringify) == b;
      }
    }
  }

  /** The model messages for stored message `k`: a user message as plain text; an
      assistant message as its blocks (when there are any) followed by a user message of
      replayed tool results (when there are any); a system message as nothing. */
  function ConvertMessage(m: Message, k: nat, ids: FreshIds, stringify: Json -> string): (r: seq<LlmMessage>)
    ensures m.role == User ==> r == [LlmMessage(UserSpeaker, PlainText(m.content))]
    ensures m.role == System ==> r == []
    ensures m.role == Assistant ==> |r| <= 2
    ensures m.role == Assistant && m.content == "" && Calls(m) == [] ==> r == []
    ensures m.role == Assistant && (m.content != "" || Calls(m) != []) ==>
      |r| >= 1 && r[0] == LlmMessage(AssistantSpeaker, Blocks(AssistantBlocks(m, k, ids)))
    ensures m.role == Assistant && ResultBlocks(Calls(m), k, ids, stringify) != [] ==>
      |r| == 2 && r[1] == LlmMessage(UserSpeaker, Blocks(ResultBlocks(Calls(m), k, ids, stringify)))
    ensures m.role == Assistant && ResultBlocks(Calls(m), k, ids, stringify) == [] ==>
      |r| == (if AssistantBlocks(m, k, ids) == [] then 0 else 1)
  {
    match m.role
    case User => [LlmMessage(UserSpeaker, PlainText(m.content))]
    case System => []
    case Assistant =>
      var blocks := AssistantBlocks(m, k, ids);
      var results := ResultBlocks(Calls(m), k, ids, stringify);
      (if blocks == [] then [] else [LlmMessage(AssistantSpeaker, Blocks(blocks))])
      + (if results == [] then [] else [LlmMessage(UserSpeaker, Blocks(results))])
  }

  /** The conversion of the first `n` stored messages. */
  function History(msgs: seq<Message>, n: nat, ids: FreshIds, stringify: Json -> string): seq<LlmMessage>
    requires n <= |msgs|
  {
    if n == 0 then [] else History(msgs, n - 1, ids, stringify) + ConvertMessage(msgs[n - 1], n - 1, ids, stringify)
  }

  /** A history of user messages converts message for message, with the same contents. */
  lemma {:induction false} UserHistory(msgs: seq<Message>, n: nat, ids: FreshIds, stringify: Json -> string)
    requires n <= |msgs| && forall i :: 0 <= i < n ==> msgs[i].role == User
    ensures |History(msgs, n, ids, stringify)| == n
    ensures forall i :: 0 <= i < n ==> History(msgs, n, ids, stringify)[i] == LlmMessage(UserSpeaker, PlainText(msgs[i].content))
  {
    if n > 0 {
      UserHistory(msgs, n - 1, ids, stringify);
    }
  }

  /** System messages contribute nothing to the history. */
  lemma SystemDropped(msgs: seq<Message>, n: nat, ids: FreshIds, stringify: Json -> string)
    requires 0 < n <= |msgs| && msgs[n - 1].role == System
    ensures History(msgs, n, ids, stringify) == History(msgs, n - 1, ids, stringify)
  {
  }

  /** The blocks of an assistant message, built with `push` as the route does. */
  method BuildAssistantBlocks(m: Message, k: nat, ids: FreshIds) returns (blocks: seq<Block>)
    ensures blocks == AssistantBlocks(m, k, ids)
  {
    blocks := [];
    if m.content != "" {
      blocks := blocks + [TextBlock(m.content)];
    }
    var prefix := blocks;
    var calls := Calls(m);
    if |calls| > 0 {
      for j := 0 to |calls|
        invariant blocks == prefix + ToolUseBlocks(calls[..j], k, ids)
      {
        assert calls[..j + 1][..j] == calls[..j];
        blocks := blocks + [ToolUseBlock(ToolUseId(calls[j], ids(k, j, false)), calls[j].name, calls[j].args)];
      }
      assert calls[..|calls|] == calls;
    }
  }

  /** The replayed tool results of an assistant message, built with `push`. */
  method BuildResultBlocks(m: Message, k: nat, ids: FreshIds, stringify: Json -> string) returns (results: seq<Block>)
    ensures results == ResultBlocks(Calls(m), k, ids, stringify)
  {
    results := [];
    var calls := Calls(m);
    for j := 0 to |calls|
      invariant results == ResultBlocks(calls[..j], k, ids, stringify)
    {
      assert calls[..j + 1][..j] == calls[..j];
      if Truthy(calls[j].result) {
        results := results + [ResultBlock(calls[j], ids(k, j, true), stringify)];
      }
    }
    assert calls[..|calls|] == calls;
  }

  /** The messages pushed for one stored message. */
  method ConvertOne(msg: Message, k: nat, ids: FreshIds, stringify: Json -> string) returns (out: seq<LlmMessage>)
    ensures out == ConvertMessage(msg, k, ids, stringify)
  {
    out := [];
    if msg.role == User {
      out := [LlmMessage(UserSpeaker, PlainText(msg.content))];
    } else if msg.role == Assistant {
      var blocks := BuildAssistantBlocks(msg, k, ids);
      if |blocks| > 0 {
        out := out + [LlmMessage(AssistantSpeaker, Blocks(blocks))];
      }
      if |Calls(msg)| > 0 {
        var results := BuildResultBlocks(msg, k, ids, stringify);
        if |results| > 0 {
          out := out + [LlmMessage(UserSpeaker, Blocks(results))];
        }
      }
    }
  }

  /** The conversion loop over the stored messages. */
  method ConvertStoredHistory(existing: seq<Message>, ids: FreshIds, stringify: Json -> string)
    returns (converted: seq<LlmMessage>)
    ensures converted == History(existing, |existing|, ids, stringify)
  {
    converted := [];
    for k := 0 to |existing|
      invariant converted == History(existing, k, ids, stringify)
    {
      var out := ConvertOne(existing[k], k, ids, stringify);
      converted := converted + out;
    }
  }

  /** The `details` field of an error reply: absent, a message the model knows, or the
      message of an error the JavaScript engine throws, whose text is not modelled. */
  datatype Details = NoDetails | ErrorText(text: string) | EngineError

  datatype HttpResponse = JsonError(status: nat, error: string, details: Details) | EventStream

  const BadRequest: string := "Session ID and messages array are required"
  const MissingApiKey: string := "Anthropic API key not configured"
  const GenerationFailed: string := "Failed to generate response"

  /** `!sessionId || !messages || !Array.isArray(messages)` fails. */
  predicate ValidRequest(body: Json) {
    Truthy(Get(body, "sessionId")) && Get(body, "messages").JArr?
  }

  /** `null` or `undefined`: reading a property of it throws. */
  predicate Nullish(v: Json) {
    v.JNull? || v.JUndefined?
  }

  /** `messages[messages.length - 1]`: `undefined` for an empty array. */
  function LatestMessage(body: Json): (r: Json)
    requires Get(body, "messages").JArr?
    ensures Get(body, "messages").items == [] ==> r.JUndefined?
    ensures Get(body, "messages").items != [] ==> r == Get(body, "messages").items[|Get(body, "messages").items| - 1]
  {
    var items := Get(body, "messages").items;
    if items == [] then JUndefined else items[|items| - 1]
  }

  /** The response the route gives before it touches storage, if it stops there. A body
      that is not JSON, or is `null`, throws in the destructuring; then come the bad
      request and the missing API key; then `latestUserMessage.content` throws when the
      latest message is `null` or `undefined` (as for an empty `messages` array). Every
      throw reaches the outer catch, which answers 500. */
  function Rejection(body: Option<Json>, apiKeyConfigured: bool): (r: Option<HttpResponse>)
    ensures r.None? <==>
      && body.Some? && !Nullish(body.value) && ValidRequest(body.value) && apiKeyConfigured
      && !Nullish(LatestMessage(body.value))
    ensures body.None? || Nullish(body.value) ==> r == Some(JsonError(500, GenerationFailed, EngineError))
    ensures body.Some? && !Nullish(body.value) && !ValidRequest(body.value) ==> r == Some(JsonError(400, BadRequest, NoDetails))
    ensures body.Some? && !Nullish(body.value) && ValidRequest(body.value) && !apiKeyConfigured ==>
      r == Some(JsonError(500, MissingApiKey, NoDetails))
    ensures (body.Some? && !Nullish(body.value) && ValidRequest(body.value) && apiKeyConfigured
             && Get(body.value, "messages").items == []) ==> r == Some(JsonError(500, GenerationFailed, EngineError))
    ensures r.Some? && r.value != JsonError(400, BadRequest, NoDetails) && r.value != JsonError(500, MissingApiKey, NoDetails) ==>
      r == Some(JsonError(500, GenerationFailed, EngineError))
  {
    if body.None? || Nullish(body.value) then Some(JsonError(500, GenerationFailed, EngineError))
    else if !ValidRequest(body.value) then Some(JsonError(400, BadRequest, NoDetails))
    else if !apiKeyConfigured then Some(JsonError(500, MissingApiKey, NoDetails))
    else if Nullish(LatestMessage(body.value)) then Some(JsonError(500, GenerationFailed, EngineError))
    else None
  }

  /** The file name the session id is used as (`String(sessionId)`). */
  function SessionKeyOf(body: Json): string {
    JsString(Get(body, "sessionId"))
  }

  /** The text of the latest request message (a non-string `content` as `String()` renders it). */
  function LatestContent(body: Json): string
    requires Get(body, "messages").JArr? && Get(body, "messages").items != []
  {
    var items := Get(body, "messages").items;
    var c := Get(items[|items| - 1], "content");
    if c.JStr? then c.s else JsString(c)
  }

  /** The model messages of a request: the converted history, then the latest message. */
  function RequestHistory(stored: seq<Message>, latest: string, ids: FreshIds, stringify: Json -> string): (r: seq<LlmMessage>)
    ensures |r| >= 1 && r[|r| - 1] == LlmMessage(UserSpeaker, PlainText(latest))
    ensures r[..|r| - 1] == History(stored, |stored|, ids, stringify)
  {
    History(stored, |stored|, ids, stringify) + [LlmMessage(UserSpeaker, PlainText(latest))]
  }

  /** The request part of the route, up to the start of the stream: validate, convert the
      stored history, append the latest message, and store it. `body` is `None` when the
      request body is not JSON. */
  method Post(store: ChatStore, body: Option<Json>, apiKeyConfigured: bool, ids: FreshIds,
              stringify: Json -> string, messageId: string, now: Timestamp)
    returns (response: HttpResponse, sessionId: string, history: seq<LlmMessage>)
    modifies store
    ensures Rejection(body, apiKeyConfigured).Some? ==>
      response == Rejection(body, apiKeyConfigured).value
      && store.messageFiles == old(store.messageFiles) && store.sessionsFile == old(store.sessionsFile)
    ensures Rejection(body, apiKeyConfigured).None? ==>
      var text := LatestContent(body.value);
      && sessionId == SessionKeyOf(body.value)
      && history == RequestHistory(old(store.Messages(sessionId)), text, ids, stringify)
      && store.messageFiles == old(store.messageFiles)[sessionId := old(store.Messages(sessionId)) + [Message(messageId, User, text, now, None)]]
      && store.sessionsFile == TouchSession(old(store.sessionsFile), sessionId, now)
      && (response == EventStream <==> FindIndex(old(store.Sessions()), SessionKey, sessionId).Some?)
      && (response != EventStream ==> response == JsonError(500, GenerationFailed, ErrorText("Session " + sessionId + " not found")))
  {
    sessionId, history := "", [];
    var rejected := Rejection(body, apiKeyConfigured);
    if rejected.Some? {
      return rejected.value, sessionId, history;
    }
    var request := body.value;
    sessionId := SessionKeyOf(request);
    var existing := store.GetMessages(sessionId);
    var converted := ConvertStoredHistory(existing, ids, stringify);
    var text := LatestContent(request);
    history := converted + [LlmMessage(UserSpeaker, PlainText(text))];
    var saved := store.AddMessage(sessionId, NewMessage(User, text, None), messageId, now);
    if saved.Failure? {
      return JsonError(500, GenerationFailed, ErrorText(saved.error)), sessionId, history;
    }
    response := EventStream;
  }

  const MaxIterations: nat := 2

  datatype ToolUse = ToolUse(id: string, name: string, input: Json)

  /** What one model call yields once its stream is read: the text and the tool uses. */
  datatype LlmReply = LlmReply(text: string, toolUses: seq<ToolUse>)

  function ErrorPayload(message: string): Json {
    JObj([("error", JStr(message))])
  }

  /** The tool_result block for one tool use and its outcome. */
  function ResultFor(use: ToolUse, outcome: Result<Json>, stringify: Json -> string): (b: Block)
    ensures b.ToolResultBlock? && b.toolUseId == JStr(use.id)
    ensures b.isError <==> outcome.Failure?
  {
    match outcome
    case Success(v) => ToolResultBlock(JStr(use.id), stringify(v), false)
    case Failure(e) => ToolResultBlock(JStr(use.id), stringify(ErrorPayload(e)), true)
  }

  /** The record saved for a successful tool call. */
  function SavedCall(use: ToolUse, value: Json): StoredToolCall {
    StoredToolCall(use.name, use.input, JObj([("toolCallId", JStr(use.id)), ("result", value)]))
  }

  /** The tool_result blocks for the tool uses, one per use. */
  function ToolResults(tools: map<string, AgentTool>, uses: seq<ToolUse>, run: (AgentTool, Json) -> Result<Json>,
                       stringify: Json -> string): (r: seq<Block>)
    ensures |r| == |uses|
    ensures forall i :: 0 <= i < |uses| ==>
      r[i] == ResultFor(uses[i], Dispatch(tools, uses[i].name, uses[i].input, run), stringify)
  {
    if uses == [] then []
    else
      var i := |uses| - 1;
      ToolResults(tools, uses[..i], run, stringify) + [ResultFor(uses[i], Dispatch(tools, uses[i].name, uses[i].input, run), stringify)]
  }

  /** Running `use` succeeds and `c` is the record saved for it. */
  predicate Saves(tools: map<string, AgentTool>, use: ToolUse, run: (AgentTool, Json) -> Result<Json>, c: StoredToolCall) {
    var o := Dispatch(tools, use.name, use.input, run);
    o.Success? && c == SavedCall(use, o.value)
  }

  /** The calls saved to storage: the successful ones, in order. */
  function SavedCalls(tools: map<string, AgentTool>, uses: seq<ToolUse>, run: (AgentTool, Json) -> Result<Json>)
    : (r: seq<StoredToolCall>)
    ensures |r| <= |uses|
    ensures (forall i :: 0 <= i < |uses| ==> Dispatch(tools, uses[i].name, uses[i].input, run).Failure?) ==> r == []
    ensures forall c :: c in r ==> exists i :: 0 <= i < |uses| && Saves(tools, uses[i], run, c)
  {
    if uses == [] then []
    else
      var i := |uses| - 1;
      var init := SavedCalls(tools, uses[..i], run);
      assert forall j :: 0 <= j < i ==> uses[..i][j] == uses[j];
      var o := Dispatch(tools, uses[i].name, uses[i].input, run);
      if o.Success? then init + [SavedCall(uses[i], o.value)] else init
  }

  /** When every tool succeeds, every call is saved, in order. */
  lemma {:induction false} AllSaved(tools: map<string, AgentTool>, uses: seq<ToolUse>, run: (AgentTool, Json) -> Result<Json>)
    requires forall i :: 0 <= i < |uses| ==> Dispatch(tools, uses[i].name, uses[i].input, run).Success?
    ensures |SavedCalls(tools, uses, run)| == |uses|
    ensures forall i :: 0 <= i < |uses| ==>
      SavedCalls(tools, uses, run)[i] == SavedCall(uses[i], Dispatch(tools, uses[i].name, uses[i].input, run).value)
    decreases |uses|
  {
    if uses != [] {
      var i := |uses| - 1;
      assert forall j :: 0 <= j < i ==> uses[..i][j] == uses[j];
      AllSaved(tools, uses[..i], run);
    }
  }

  /** A saved call replays, in a later request, under its own id and with its own result. */
  lemma SavedCallReplays(use: ToolUse, value: Json, useFallback: string, resultFallback: string)
    requires use.id != ""
    ensures Truthy(SavedCall(use, value).result)
    ensures ToolUseId(SavedCall(use, value), useFallback) == JStr(use.id)
    ensures ToolUseId(SavedCall(use, value), resultFallback) == JStr(use.id)
    ensures Truthy(value) ==> ResultContent(SavedCall(use, value)) == value
  {
    var fields := SavedCall(use, value).result.fields;
    assert "result"[0] != "toolCallId"[0];
    assert fields[1..] == [("result", value)];
    assert Lookup(fields, "result") == Lookup(fields[1..], "result") == value;
  }

  /** The tool-execution loop of one iteration: one result per use, an `is_error` result
      for a tool that fails, and a saved record for each one that succeeds. */
  method ExecuteToolUses(registry: ToolRegistry, uses: seq<ToolUse>, run: (AgentTool, Json) -> Result<Json>,
                         stringify: Json -> string) returns (results: seq<Block>, saved: seq<StoredToolCall>)
    ensures results == ToolResults(registry.tools, uses, run, stringify)
    ensures saved == SavedCalls(registry.tools, uses, run)
  {
    results, saved := [], [];
    for i := 0 to |uses|
      invariant results == ToolResults(registry.tools, uses[..i], run, stringify)
      invariant saved == SavedCalls(registry.tools, uses[..i], run)
    {
      assert uses[..i + 1][..i] == uses[..i];
      var outcome := registry.Execute(uses[i].name, uses[i].input, run);
      results := results + [ResultFor(uses[i], outcome, stringify)];
      if outcome.Success? {
        saved := saved + [SavedCall(uses[i], outcome.value)];
      }
    }
    assert uses[..|uses|] == uses;
  }

  /** The tool_use blocks of the live assistant turn, one per tool use, in order. */
  function UseBlocks(uses: seq<ToolUse>): (r: seq<Block>)
    ensures |r| == |uses|
  {
    if uses == [] then []
    else
      var i := |uses| - 1;
      UseBlocks(uses[..i]) + [ToolUseBlock(JStr(uses[i].id), uses[i].name, uses[i].input)]
  }

  lemma {:induction false} UseBlocksAt(uses: seq<ToolUse>, i: nat)
    requires i < |uses|
    ensures UseBlocks(uses)[i] == ToolUseBlock(JStr(uses[i].id), uses[i].name, uses[i].input)
    decreases |uses|
  {
    var n := |uses| - 1;
    if i < n {
      assert uses[..n][i] == uses[i];
      UseBlocksAt(uses[..n], i);
    }
  }

  /** The assistant turn appended for a reply with tool uses: its text, when there is
      any, then its tool uses. */
  function AssistantTurn(reply: LlmReply): (m: LlmMessage)
    ensures m.role == AssistantSpeaker && m.content.Blocks?
    ensures |m.content.blocks| == (if reply.text != "" then 1 else 0) + |reply.toolUses|
    ensures reply.text != "" ==> m.content.blocks[0] == TextBlock(reply.text)
    ensures m.content.blocks[(if reply.text != "" then 1 else 0)..] == UseBlocks(reply.toolUses)
  {
    LlmMessage(AssistantSpeaker, Blocks((if reply.text != "" then [TextBlock(reply.text)] else []) + UseBlocks(reply.toolUses)))
  }

  /** A round whose tools all succeed, with non-empty ids and truthy results, is replayed
      by a later request as the blocks the live transcript held: the same tool_use blocks
      and the same tool_result blocks. */
  lemma ReplayMatchesLive(tools: map<string, AgentTool>, uses: seq<ToolUse>, run: (AgentTool, Json) -> Result<Json>,
                          stringify: Json -> string, k: nat, ids: FreshIds)
    requires forall i :: 0 <= i < |uses| ==> uses[i].id != "" && Dispatch(tools, uses[i].name, uses[i].input, run).Success?
    requires forall i :: 0 <= i < |uses| ==> Truthy(Dispatch(tools, uses[i].name, uses[i].input, run).value)
    ensures |ToolUseBlocks(SavedCalls(tools, uses, run), k, ids)| == |UseBlocks(uses)|
    ensures forall j :: 0 <= j < |uses| ==> ToolUseBlocks(SavedCalls(tools, uses, run), k, ids)[j] == UseBlocks(uses)[j]
    ensures |ResultBlocks(SavedCalls(tools, uses, run), k, ids, stringify)| == |uses|
    ensures forall j :: 0 <= j < |uses| ==>
      ResultBlocks(SavedCalls(tools, uses, run), k, ids, stringify)[j] == ToolResults(tools, uses, run, stringify)[j]
  {
    var calls := SavedCalls(tools, uses, run);
    AllSaved(tools, uses, run);
    forall j | 0 <= j < |calls|
      ensures Truthy(calls[j].result)
    {
      SavedCallReplays(uses[j], Dispatch(tools, uses[j].name, uses[j].input, run).value, "", "");
    }
    ResultBlocksAllPresent(calls, k, ids, stringify);
    forall j | 0 <= j < |uses|
      ensures ToolUseBlocks(calls, k, ids)[j] == UseBlocks(uses)[j]
      ensures ResultBlocks(calls, k, ids, stringify)[j] == ToolResults(tools, uses, run, stringify)[j]
    {
      var v := Dispatch(tools, uses[j].name, uses[j].input, run).value;
      SavedCallReplays(uses[j], v, ids(k, j, false), ids(k, j, true));
      ToolUseBlocksAt(calls, k, ids, j);
      UseBlocksAt(uses, j);
    }
  }

  /** The number of replies that asked for tools. */
  function ToolRounds(replies: seq<LlmReply>): nat {
    if replies == [] then 0
    else ToolRounds(replies[..|replies| - 1]) + (if replies[|replies| - 1].toolUses != [] then 1 else 0)
  }

  /** The messages one round saves when nothing fails: the reply's text, when there is
      any, then a record of the successful tool calls, when tools were asked for. */
  function RoundMessages(reply: LlmReply, saved: seq<StoredToolCall>, textStamp: (string, Timestamp),
                         toolStamp: (string, Timestamp)): (r: seq<Message>)
    ensures |r| == (if reply.text != "" then 1 else 0) + (if reply.toolUses != [] then 1 else 0)
    ensures reply.text != "" ==> r[0] == Message(textStamp.0, Assistant, reply.text, textStamp.1, None)
    ensures reply.toolUses != [] ==> r[|r| - 1] == Message(toolStamp.0, Assistant, "", toolStamp.1, Some(saved))
  {
    (if reply.text != "" then [Message(textStamp.0, Assistant, reply.text, textStamp.1, None)] else [])
    + (if reply.toolUses != [] then [Message(toolStamp.0, Assistant, "", toolStamp.1, Some(saved))] else [])
  }

  /** The session exists in the sessions file. */
  predicate Known(sessions: seq<ChatSession>, sessionId: string) {
    FindIndex(sessions, SessionKey, sessionId).Some?
  }

  /** What a round writes to the session's file when its messages are `msgs`: all of
      them when the session exists; otherwise the first `addMessage` writes its message
      and throws, and the round stops there. */
  function Written(msgs: seq<Message>, known: bool): seq<Message> {
    if known || msgs == [] then msgs else msgs[..1]
  }

  /** One `addMessage` of the agent loop: the message is appended to the session's file,
      the session is touched at the message's time, and the call fails exactly when the
      session does not exist. */
  method SaveMessage(store: ChatStore, sessionId: string, content: string, toolCalls: Option<seq<StoredToolCall>>,
                     stamp: (string, Timestamp)) returns (error: Option<string>)
    modifies store
    ensures store.messageFiles ==
      AppendMessages(old(store.messageFiles), sessionId, [Message(stamp.0, Assistant, content, stamp.1, toolCalls)])
    ensures store.sessionsFile == TouchSession(old(store.sessionsFile), sessionId, stamp.1)
    ensures error.None? <==> Known(old(store.Sessions()), sessionId)
    ensures error.Some? ==> error == Some("Session " + sessionId + " not found")
    ensures Known(store.Sessions(), sessionId) <==> Known(old(store.Sessions()), sessionId)
  {
    var saved := store.AddMessage(sessionId, NewMessage(Assistant, content, toolCalls), stamp.0, stamp.1);
    if saved.Failure? {
      return Some(saved.error);
    }
    error := None;
  }

  /** The text half of a round: a reply with text is saved as an assistant message. */
  method SaveText(store: ChatStore, sessionId: string, text: string, stamp: (string, Timestamp))
    returns (error: Option<string>)
    modifies store
    ensures text == "" ==>
      error.None? && store.messageFiles == old(store.messageFiles) && store.sessionsFile == old(store.sessionsFile)
    ensures var msgs := if text == "" then [] else [Message(stamp.0, Assistant, text, stamp.1, None)];
      && store.messageFiles == AppendMessages(old(store.messageFiles), sessionId, msgs)
      && store.sessionsFile == TouchAll(old(store.sessionsFile), sessionId, msgs)
    ensures text != "" ==> (error.None? <==> Known(old(store.Sessions()), sessionId))
    ensures error.Some? ==> error == Some("Session " + sessionId + " not found")
    ensures Known(store.Sessions(), sessionId) <==> Known(old(store.Sessions()), sessionId)
  {
    error := None;
    if text != "" {
      ghost var m := Message(stamp.0, Assistant, text, stamp.1, None);
      assert [m][..0] == [];
      error := SaveMessage(store, sessionId, text, None, stamp);
    }
  }

  /** The tool half of a round: run every tool asked for, then save the record of the
      successful calls as an assistant message without text. */
  method RunTools(store: ChatStore, registry: ToolRegistry, sessionId: string, uses: seq<ToolUse>,
                  run: (AgentTool, Json) -> Result<Json>, stringify: Json -> string, stamp: (string, Timestamp))
    returns (results: seq<Block>, error: Option<string>)
    modifies store
    ensures results == ToolResults(registry.tools, uses, run, stringify)
    ensures var msgs := [Message(stamp.0, Assistant, "", stamp.1, Some(SavedCalls(registry.tools, uses, run)))];
      && store.messageFiles == AppendMessages(old(store.messageFiles), sessionId, msgs)
      && store.sessionsFile == TouchAll(old(store.sessionsFile), sessionId, msgs)
    ensures error.None? <==> Known(old(store.Sessions()), sessionId)
    ensures error.Some? ==> error == Some("Session " + sessionId + " not found")
    ensures Known(store.Sessions(), sessionId) <==> Known(old(store.Sessions()), sessionId)
  {
    var calls;
    results, calls := ExecuteToolUses(registry, uses, run, stringify);
    ghost var m := Message(stamp.0, Assistant, "", stamp.1, Some(calls));
    assert [m][..0] == [];
    error := SaveMessage(store, sessionId, "", Some(calls), stamp);
  }

  /** What one reply adds to the transcript: nothing, or, when it asks for tools, the
      assistant turn followed by a user message with one tool result per tool use. */
  function Turn(tools: map<string, AgentTool>, reply: LlmReply, run: (AgentTool, Json) -> Result<Json>,
                stringify: Json -> string): (r: seq<LlmMessage>)
    ensures reply.toolUses == [] ==> r == []
    ensures reply.toolUses != [] ==> |r| == 2 && r[0] == AssistantTurn(reply)
    ensures reply.toolUses != [] ==>
      r[1].role == UserSpeaker && r[1].content.Blocks? && |r[1].content.blocks| == |reply.toolUses|
  {
    if reply.toolUses == [] then []
    else [AssistantTurn(reply), LlmMessage(UserSpeaker, Blocks(ToolResults(tools, reply.toolUses, run, stringify)))]
  }

  /** What one reply of the model does: save its text, run the tools it asks for, save
      their record, and extend the transcript with the assistant turn and the tool
      results. An unknown session stops the round at its first save. */
  method Respond(store: ChatStore, registry: ToolRegistry, sessionId: string, transcript: seq<LlmMessage>,
                 r: LlmReply, run: (AgentTool, Json) -> Result<Json>, stringify: Json -> string,
                 textStamp: (string, Timestamp), toolStamp: (string, Timestamp), ghost known: bool)
    returns (next: seq<LlmMessage>, error: Option<string>)
    modifies store
    requires Known(store.Sessions(), sessionId) == known
    ensures transcript <= next
    ensures error.None? && r.toolUses == [] ==> next == transcript
    ensures error.None? && r.toolUses != [] ==>
      next == transcript + [AssistantTurn(r), LlmMessage(UserSpeaker, Blocks(ToolResults(registry.tools, r.toolUses, run, stringify)))]
    ensures error.None? ==> next == transcript + Turn(registry.tools, r, run, stringify)
    ensures var msgs := RoundMessages(r, SavedCalls(registry.tools, r.toolUses, run), textStamp, toolStamp);
      && store.messageFiles == AppendMessages(old(store.messageFiles), sessionId, Written(msgs, known))
      && store.sessionsFile == TouchAll(old(store.sessionsFile), sessionId, Written(msgs, known))
    ensures error.None? <==> RoundMessages(r, [], textStamp, toolStamp) == [] || known
    ensures error.Some? ==> error == Some("Session " + sessionId + " not found")
    ensures Known(store.Sessions(), sessionId) == known
  {
    next := transcript;
    ghost var files := store.messageFiles;
    ghost var file := store.sessionsFile;
    ghost var calls := SavedCalls(registry.tools, r.toolUses, run);
    RoundWritten(r, calls, textStamp, toolStamp, known);
    ghost var textPart := TextPart(r, textStamp);
    error := SaveText(store, sessionId, r.text, textStamp);
    if error.Some? {
      return;
    }
    if |r.toolUses| > 0 {
      next := next + [AssistantTurn(r)];
      var results;
      results, error := RunTools(store, registry, sessionId, r.toolUses, run, stringify, toolStamp);
      ghost var toolPart := [Message(toolStamp.0, Assistant, "", toolStamp.1, Some(calls))];
      AppendMessagesAppend(files, sessionId, textPart, toolPart);
      TouchAllAppend(file, sessionId, textPart, toolPart);
      if error.Some? {
        return;
      }
      next := next + [LlmMessage(UserSpeaker, Blocks(results))];
      Seqs.SnocTwice(transcript, AssistantTurn(r), LlmMessage(UserSpeaker, Blocks(results)));
    } else {
      assert textPart + [] == textPart;
    }
  }

  /** The message a round saves for its text, if any. */
  function TextPart(r: LlmReply, textStamp: (string, Timestamp)): seq<Message> {
    if r.text != "" then [Message(textStamp.0, Assistant, r.text, textStamp.1, None)] else []
  }

  /** What a round writes: its text message, then its tool message, except that for an
      unknown session a text message is the only one written. */
  lemma RoundWritten(r: LlmReply, calls: seq<StoredToolCall>, textStamp: (string, Timestamp),
                     toolStamp: (string, Timestamp), known: bool)
    ensures var toolPart := if r.toolUses != [] then [Message(toolStamp.0, Assistant, "", toolStamp.1, Some(calls))] else [];
      && RoundMessages(r, calls, textStamp, toolStamp) == TextPart(r, textStamp) + toolPart
      && (known || r.text == "" ==> Written(RoundMessages(r, calls, textStamp, toolStamp), known) == TextPart(r, textStamp) + toolPart)
      && (!known && r.text != "" ==> Written(RoundMessages(r, calls, textStamp, toolStamp), known) == TextPart(r, textStamp))
  {
  }

  /** Every reply asked for tools (so the loop went on after each). */
  predicate AllAskedForTools(replies: seq<LlmReply>) {
    forall i :: 0 <= i < |replies| ==> replies[i].toolUses != []
  }

  /** One iteration of the agent loop: call the model on the transcript, then handle its
      reply. `reply` is `None` when the model call fails, and then nothing is saved. */
  method Step(store: ChatStore, registry: ToolRegistry, sessionId: string, transcript: seq<LlmMessage>,
              llm: seq<LlmMessage> -> Result<LlmReply>, run: (AgentTool, Json) -> Result<Json>,
              stringify: Json -> string, textStamp: (string, Timestamp), toolStamp: (string, Timestamp),
              ghost known: bool)
    returns (reply: Option<LlmReply>, next: seq<LlmMessage>, error: Option<string>)
    modifies store
    requires Known(store.Sessions(), sessionId) == known
    ensures llm(transcript).Failure? ==> reply.None? && error == Some(llm(transcript).error) && next == transcript
    ensures llm(transcript).Failure? ==>
      store.messageFiles == old(store.messageFiles) && store.sessionsFile == old(store.sessionsFile)
    ensures llm(transcript).Success? ==> reply == Some(llm(transcript).value)
    ensures llm(transcript).Success? ==>
      var msgs := RoundMessages(reply.value, SavedCalls(registry.tools, reply.value.toolUses, run), textStamp, toolStamp);
      && store.messageFiles == AppendMessages(old(store.messageFiles), sessionId, Written(msgs, known))
      && store.sessionsFile == TouchAll(old(store.sessionsFile), sessionId, Written(msgs, known))
      && (error.None? <==> msgs == [] || known)
      && (error.Some? ==> error == Some("Session " + sessionId + " not found"))
      && (error.None? ==> next == transcript + Turn(registry.tools, reply.value, run, stringify))
    ensures Known(store.Sessions(), sessionId) == known
    ensures transcript <= next
    ensures error.None? ==> reply.Some? && |next| == |transcript| + (if reply.value.toolUses != [] then 2 else 0)
  {
    var outcome := llm(transcript);
    if outcome.Failure? {
      return None, transcript, Some(outcome.error);
    }
    reply := Some(outcome.value);
    next, error := Respond(store, registry, sessionId, transcript, outcome.value, run, stringify, textStamp, toolStamp, known);
  }

  /** The transcript entries the loop appends for `replies`, reply by reply. */
  function Turns(tools: map<string, AgentTool>, replies: seq<LlmReply>, run: (AgentTool, Json) -> Result<Json>,
                 stringify: Json -> string): (r: seq<LlmMessage>)
    ensures |r| == 2 * ToolRounds(replies)
    decreases |replies|
  {
    if replies == [] then []
    else
      var j := |replies| - 1;
      Turns(tools, replies[..j], run, stringify) + Turn(tools, replies[j], run, stringify)
  }

  /** The messages the loop saves for `replies` when the session exists: the messages of
      each round `j`, with the stamps `2 j` and `2 j + 1` of its iteration. */
  function SavedMessages(tools: map<string, AgentTool>, replies: seq<LlmReply>, run: (AgentTool, Json) -> Result<Json>,
                         stamps: nat -> (string, Timestamp)): (r: seq<Message>)
    ensures forall m :: m in r ==> m.role == Assistant
    ensures ToolRounds(replies) <= |r| <= 2 * |replies|
    decreases |replies|
  {
    if replies == [] then []
    else
      var j := |replies| - 1;
      var reply := replies[j];
      SavedMessages(tools, replies[..j], run, stamps)
      + RoundMessages(reply, SavedCalls(tools, reply.toolUses, run), stamps(2 * j), stamps(2 * j + 1))
  }

  /** The agent loop: up to `MaxIterations` rounds, going on while the model asks for
      tools. Round `j` calls the model on the request history and the turns of the rounds
      before it, and `stamps(n)` is the id and time of the `n`-th message saved. A failing
      model call or an unknown session ends the loop with `error` set. */
  method Converse(store: ChatStore, registry: ToolRegistry, sessionId: string, history: seq<LlmMessage>,
                  llm: seq<LlmMessage> -> Result<LlmReply>, run: (AgentTool, Json) -> Result<Json>,
                  stringify: Json -> string, stamps: nat -> (string, Timestamp))
    returns (transcript: seq<LlmMessage>, replies: seq<LlmReply>, iterations: nat, error: Option<string>)
    modifies store
    ensures 1 <= iterations <= MaxIterations && |replies| <= iterations
    ensures |replies| > 0 ==> llm(history) == Success(replies[0])
    ensures forall j :: 0 <= j < |replies| ==>
      llm(history + Turns(registry.tools, replies[..j], run, stringify)) == Success(replies[j])
    ensures |replies| > 0 ==> AllAskedForTools(replies[..|replies| - 1])
    ensures error.None? ==> |replies| == iterations
    ensures error.None? && iterations < MaxIterations ==> replies[|replies| - 1].toolUses == []
    ensures history <= transcript
    ensures error.None? ==> |transcript| == |history| + 2 * ToolRounds(replies)
    ensures error.None? || Known(old(store.Sessions()), sessionId) ==>
      transcript == history + Turns(registry.tools, replies, run, stringify)
    ensures var written := Written(SavedMessages(registry.tools, replies, run, stamps), Known(old(store.Sessions()), sessionId));
      && store.messageFiles == AppendMessages(old(store.messageFiles), sessionId, written)
      && store.sessionsFile == TouchAll(old(store.sessionsFile), sessionId, written)
    ensures Known(old(store.Sessions()), sessionId) && error.Some? ==>
      |replies| == iterations - 1 && llm(transcript).Failure? && error == Some(llm(transcript).error)
    ensures !Known(old(store.Sessions()), sessionId) && SavedMessages(registry.tools, replies, run, stamps) != [] ==>
      error == Some("Session " + sessionId + " not found")
  {
    ghost var files := store.messageFiles;
    ghost var file := store.sessionsFile;
    ghost var known := Known(store.Sessions(), sessionId);
    transcript := history;
    replies := [];
    iterations := 0;
    error := None;
    var continueLoop := true;
    Started(registry.tools, sessionId, history, llm, run, stringify, stamps, files, file, known);
    while continueLoop && iterations < MaxIterations
      invariant Known(store.Sessions(), sessionId) == known
      invariant Progress(registry.tools, sessionId, history, llm, run, stringify, stamps, files, file, known,
                         store.messageFiles, store.sessionsFile, transcript, replies, iterations, error, continueLoop)
      decreases MaxIterations - iterations
    {
      transcript, replies, error, continueLoop :=
        Round(store, registry, sessionId, history, llm, run, stringify, stamps, transcript, replies, iterations, files, file, known);
      iterations := iterations + 1;
    }
    Concluded(registry.tools, sessionId, history, llm, run, stringify, stamps, files, file, known,
              store.messageFiles, store.sessionsFile, transcript, replies, iterations, error, continueLoop);
  }

  /** The agent loop's invariant after `iterations` rounds that answered `replies` and
      left `transcript`, `error` and whether to go on: the store's files `files1` and
      `file1` hold what the rounds wrote to `files` and `file`, and `known` says whether
      the session exists. */
  predicate Progress(tools: map<string, AgentTool>, sessionId: string, history: seq<LlmMessage>,
                   llm: seq<LlmMessage> -> Result<LlmReply>, run: (AgentTool, Json) -> Result<Json>,
                   stringify: Json -> string, stamps: nat -> (string, Timestamp),
                   files: map<string, seq<Message>>, file: Option<seq<ChatSession>>, known: bool,
                     files1: map<string, seq<Message>>, file1: Option<seq<ChatSession>>,
                     transcript: seq<LlmMessage>, replies: seq<LlmReply>, iterations: nat, error: Option<string>,
                     continueLoop: bool)
  {
    && iterations <= MaxIterations && |replies| <= iterations
    && (error.None? ==> |replies| == iterations)
    && (continueLoop ==> error.None? && AllAskedForTools(replies))
    && (!continueLoop ==> iterations >= 1)
    && (|replies| > 0 ==> AllAskedForTools(replies[..|replies| - 1]))
    && Answered(tools, history, llm, run, stringify, replies)
    && (!continueLoop && error.None? ==> replies[|replies| - 1].toolUses == [])
    && history <= transcript
    && (error.None? || known ==> transcript == history + Turns(tools, replies, run, stringify))
    && files1 == AppendMessages(files, sessionId, Written(SavedMessages(tools, replies, run, stamps), known))
    && file1 == TouchAll(file, sessionId, Written(SavedMessages(tools, replies, run, stamps), known))
    && (known && error.Some? ==>
          !continueLoop && |replies| == iterations - 1 && llm(transcript).Failure? && error == Some(llm(transcript).error))
    && (!known && SavedMessages(tools, replies, run, stamps) != [] ==>
          !continueLoop && error == Some("Session " + sessionId + " not found"))
  }

  /** Before the first round, nothing is answered or written. */
  lemma Started(tools: map<string, AgentTool>, sessionId: string, history: seq<LlmMessage>,
                   llm: seq<LlmMessage> -> Result<LlmReply>, run: (AgentTool, Json) -> Result<Json>,
                   stringify: Json -> string, stamps: nat -> (string, Timestamp),
                   files: map<string, seq<Message>>, file: Option<seq<ChatSession>>, known: bool)
    ensures Progress(tools, sessionId, history, llm, run, stringify, stamps, files, file, known,
                     files, file, history, [], 0, None, true)
  {
    assert history + [] == history;
  }

  /** What the agent loop establishes once it stops, from its loop invariant. */
  lemma Concluded(tools: map<string, AgentTool>, sessionId: string, history: seq<LlmMessage>,
                   llm: seq<LlmMessage> -> Result<LlmReply>, run: (AgentTool, Json) -> Result<Json>,
                   stringify: Json -> string, stamps: nat -> (string, Timestamp),
                   files: map<string, seq<Message>>, file: Option<seq<ChatSession>>, known: bool,
                  files1: map<string, seq<Message>>, file1: Option<seq<ChatSession>>,
                  transcript: seq<LlmMessage>, replies: seq<LlmReply>, iterations: nat, error: Option<string>,
                  continueLoop: bool)
    requires !(continueLoop && iterations < MaxIterations)
    requires Progress(tools, sessionId, history, llm, run, stringify, stamps, files, file, known,
                      files1, file1, transcript, replies, iterations, error, continueLoop)
    ensures 1 <= iterations <= MaxIterations && |replies| <= iterations
    ensures |replies| > 0 ==> llm(history) == Success(replies[0])
    ensures forall j :: 0 <= j < |replies| ==>
      llm(history + Turns(tools, replies[..j], run, stringify)) == Success(replies[j])
    ensures |replies| > 0 ==> AllAskedForTools(replies[..|replies| - 1])
    ensures error.None? ==> |replies| == iterations
    ensures error.None? && iterations < MaxIterations ==> replies[|replies| - 1].toolUses == []
    ensures history <= transcript
    ensures error.None? ==> |transcript| == |history| + 2 * ToolRounds(replies)
    ensures error.None? || known ==> transcript == history + Turns(tools, replies, run, stringify)
    ensures files1 == AppendMessages(files, sessionId, Written(SavedMessages(tools, replies, run, stamps), known))
    ensures file1 == TouchAll(file, sessionId, Written(SavedMessages(tools, replies, run, stamps), known))
    ensures known && error.Some? ==>
      |replies| == iterations - 1 && llm(transcript).Failure? && error == Some(llm(transcript).error)
    ensures !known && SavedMessages(tools, replies, run, stamps) != [] ==>
      error == Some("Session " + sessionId + " not found")
  {
    AnsweredInOrder(tools, history, llm, run, stringify, replies);
  }

  /** The first reply answers the request history itself; each later one answers the turns
      of the replies before it. */
  lemma AnsweredInOrder(tools: map<string, AgentTool>, history: seq<LlmMessage>,
                        llm: seq<LlmMessage> -> Result<LlmReply>, run: (AgentTool, Json) -> Result<Json>,
                        stringify: Json -> string, replies: seq<LlmReply>)
    requires Answered(tools, history, llm, run, stringify, replies)
    ensures |replies| > 0 ==> llm(history) == Success(replies[0])
    ensures forall j :: 0 <= j < |replies| ==>
      llm(history + Turns(tools, replies[..j], run, stringify)) == Success(replies[j])
  {
    AnsweredAt(tools, history, llm, run, stringify, replies);
    if |replies| > 0 {
      assert replies[..0] == [];
      assert history + Turns(tools, replies[..0], run, stringify) == history;
    }
  }

  /** One round of the loop, from a state in which it goes on: round `iterations` calls
      the model on the transcript so far and handles the reply; the loop goes on when the
      round succeeded and asked for tools. */
  method Round(store: ChatStore, registry: ToolRegistry, sessionId: string, history: seq<LlmMessage>,
               llm: seq<LlmMessage> -> Result<LlmReply>, run: (AgentTool, Json) -> Result<Json>,
               stringify: Json -> string, stamps: nat -> (string, Timestamp),
               transcript: seq<LlmMessage>, replies: seq<LlmReply>, iterations: nat,
               ghost files: map<string, seq<Message>>, ghost file: Option<seq<ChatSession>>, ghost known: bool)
    returns (transcript': seq<LlmMessage>, replies': seq<LlmReply>, error: Option<string>, goOn: bool)
    modifies store
    requires iterations < MaxIterations
    requires Known(store.Sessions(), sessionId) == known
    requires Progress(registry.tools, sessionId, history, llm, run, stringify, stamps, files, file, known,
                      store.messageFiles, store.sessionsFile, transcript, replies, iterations, None, true)
    ensures Known(store.Sessions(), sessionId) == known
    ensures Progress(registry.tools, sessionId, history, llm, run, stringify, stamps, files, file, known,
                     store.messageFiles, store.sessionsFile, transcript', replies', iterations + 1, error, goOn)
  {
    ghost var files0, file0 := store.messageFiles, store.sessionsFile;
    var reply;
    reply, transcript', error := Step(store, registry, sessionId, transcript, llm, run, stringify, stamps(2 * |replies|), stamps(2 * |replies| + 1), known);
    replies' := if reply.Some? then replies + [reply.value] else replies;
    goOn := reply.Some? && error.None? && reply.value.toolUses != [];
    RoundFacts(registry.tools, sessionId, history, llm, run, stringify, stamps, files, file, known,
               transcript, replies, iterations, files0, file0, store.messageFiles, store.sessionsFile,
               reply, transcript', error, replies', goOn);
  }

  /** What a round establishes, from what `Step` promises about its one call. */
  lemma RoundFacts(tools: map<string, AgentTool>, sessionId: string, history: seq<LlmMessage>,
                   llm: seq<LlmMessage> -> Result<LlmReply>, run: (AgentTool, Json) -> Result<Json>,
                   stringify: Json -> string, stamps: nat -> (string, Timestamp),
                   files: map<string, seq<Message>>, file: Option<seq<ChatSession>>, known: bool,
                   transcript: seq<LlmMessage>, replies: seq<LlmReply>, iterations: nat,
                   files0: map<string, seq<Message>>, file0: Option<seq<ChatSession>>,
                   files1: map<string, seq<Message>>, file1: Option<seq<ChatSession>>,
                   reply: Option<LlmReply>, next: seq<LlmMessage>, error: Option<string>,
                   replies': seq<LlmReply>, goOn: bool)
    requires iterations < MaxIterations
    requires Progress(tools, sessionId, history, llm, run, stringify, stamps, files, file, known,
                      files0, file0, transcript, replies, iterations, None, true)
    requires llm(transcript).Failure? ==> reply.None? && error == Some(llm(transcript).error) && next == transcript
    requires llm(transcript).Failure? ==> files1 == files0 && file1 == file0
    requires llm(transcript).Success? ==> reply == Some(llm(transcript).value)
    requires llm(transcript).Success? ==>
      var msgs := RoundMessages(reply.value, SavedCalls(tools, reply.value.toolUses, run), stamps(2 * |replies|), stamps(2 * |replies| + 1));
      && files1 == AppendMessages(files0, sessionId, Written(msgs, known))
      && file1 == TouchAll(file0, sessionId, Written(msgs, known))
      && (error.None? <==> msgs == [] || known)
      && (error.Some? ==> error == Some("Session " + sessionId + " not found"))
      && (error.None? ==> next == transcript + Turn(tools, reply.value, run, stringify))
    requires transcript <= next
    requires replies' == if reply.Some? then replies + [reply.value] else replies
    requires goOn == (reply.Some? && error.None? && reply.value.toolUses != [])
    ensures Progress(tools, sessionId, history, llm, run, stringify, stamps, files, file, known,
                     files1, file1, next, replies', iterations + 1, error, goOn)
  {
    if reply.Some? {
      var v := reply.value;
      var msgs := RoundMessages(v, SavedCalls(tools, v.toolUses, run), stamps(2 * |replies|), stamps(2 * |replies| + 1));
      Succeeded(tools, sessionId, history, llm, run, stringify, stamps, files, file, known,
                transcript, replies, iterations, files0, file0, files1, file1, v, msgs, next, error, goOn);
    } else {
      Failed(tools, sessionId, history, llm, run, stringify, stamps, files, file, known,
             transcript, replies, iterations, files0, file0, next, error);
    }
  }

  /** A round whose model call failed ends the loop and writes nothing. */
  lemma Failed(tools: map<string, AgentTool>, sessionId: string, history: seq<LlmMessage>,
                   llm: seq<LlmMessage> -> Result<LlmReply>, run: (AgentTool, Json) -> Result<Json>,
                   stringify: Json -> string, stamps: nat -> (string, Timestamp),
                   files: map<string, seq<Message>>, file: Option<seq<ChatSession>>, known: bool,
               transcript: seq<LlmMessage>, replies: seq<LlmReply>, iterations: nat,
               files0: map<string, seq<Message>>, file0: Option<seq<ChatSession>>,
               next: seq<LlmMessage>, error: Option<string>)
    requires iterations < MaxIterations
    requires Progress(tools, sessionId, history, llm, run, stringify, stamps, files, file, known,
                      files0, file0, transcript, replies, iterations, None, true)
    requires llm(transcript).Failure? && error == Some(llm(transcript).error) && next == transcript
    ensures Progress(tools, sessionId, history, llm, run, stringify, stamps, files, file, known,
                     files0, file0, next, replies, iterations + 1, error, false)
  {
    if |replies| > 0 {
      assert replies[..|replies| - 1] <= replies;
    }
  }

  /** A round whose model call answered `v` records it, with what the round wrote. */
  lemma Succeeded(tools: map<string, AgentTool>, sessionId: string, history: seq<LlmMessage>,
                   llm: seq<LlmMessage> -> Result<LlmReply>, run: (AgentTool, Json) -> Result<Json>,
                   stringify: Json -> string, stamps: nat -> (string, Timestamp),
                   files: map<string, seq<Message>>, file: Option<seq<ChatSession>>, known: bool,
                  transcript: seq<LlmMessage>, replies: seq<LlmReply>, iterations: nat,
                  files0: map<string, seq<Message>>, file0: Option<seq<ChatSession>>,
                  files1: map<string, seq<Message>>, file1: Option<seq<ChatSession>>,
                  v: LlmReply, msgs: seq<Message>, next: seq<LlmMessage>, error: Option<string>, goOn: bool)
    requires iterations < MaxIterations
    requires Progress(tools, sessionId, history, llm, run, stringify, stamps, files, file, known,
                      files0, file0, transcript, replies, iterations, None, true)
    requires llm(transcript) == Success(v)
    requires msgs == RoundMessages(v, SavedCalls(tools, v.toolUses, run), stamps(2 * |replies|), stamps(2 * |replies| + 1))
    requires files1 == AppendMessages(files0, sessionId, Written(msgs, known))
    requires file1 == TouchAll(file0, sessionId, Written(msgs, known))
    requires error.None? <==> msgs == [] || known
    requires error.Some? ==> error == Some("Session " + sessionId + " not found")
    requires error.None? ==> next == transcript + Turn(tools, v, run, stringify)
    requires transcript <= next
    requires goOn == (error.None? && v.toolUses != [])
    ensures Progress(tools, sessionId, history, llm, run, stringify, stamps, files, file, known,
                     files1, file1, next, replies + [v], iterations + 1, error, goOn)
  {
    Advanced(tools, sessionId, history, llm, run, stringify, stamps, transcript, replies, v,
             files, file, known, files0, file0, files1, file1, msgs, next, error);
  }

  /** The loop's state after round `|replies|` answered `v`: the reply is recorded, the
      files hold what all rounds wrote, and the transcript holds the turns of all replies
      unless an unknown session stopped the round. */
  lemma Advanced(tools: map<string, AgentTool>, sessionId: string, history: seq<LlmMessage>,
                 llm: seq<LlmMessage> -> Result<LlmReply>, run: (AgentTool, Json) -> Result<Json>,
                 stringify: Json -> string, stamps: nat -> (string, Timestamp),
                 transcript: seq<LlmMessage>, replies: seq<LlmReply>, v: LlmReply,
                 files: map<string, seq<Message>>, file: Option<seq<ChatSession>>, known: bool,
                 files0: map<string, seq<Message>>, file0: Option<seq<ChatSession>>,
                 files1: map<string, seq<Message>>, file1: Option<seq<ChatSession>>,
                 msgs: seq<Message>, next: seq<LlmMessage>, error: Option<string>)
    requires transcript == history + Turns(tools, replies, run, stringify)
    requires AllAskedForTools(replies)
    requires Answered(tools, history, llm, run, stringify, replies)
    requires !known ==> SavedMessages(tools, replies, run, stamps) == []
    requires files0 == AppendMessages(files, sessionId, Written(SavedMessages(tools, replies, run, stamps), known))
    requires file0 == TouchAll(file, sessionId, Written(SavedMessages(tools, replies, run, stamps), known))
    requires llm(transcript) == Success(v)
    requires msgs == RoundMessages(v, SavedCalls(tools, v.toolUses, run), stamps(2 * |replies|), stamps(2 * |replies| + 1))
    requires files1 == AppendMessages(files0, sessionId, Written(msgs, known))
    requires file1 == TouchAll(file0, sessionId, Written(msgs, known))
    requires error.None? <==> msgs == [] || known
    requires error.Some? ==> error == Some("Session " + sessionId + " not found")
    requires error.None? ==> next == transcript + Turn(tools, v, run, stringify)
    ensures (replies + [v])[..|replies|] == replies
    ensures error.None? && v.toolUses != [] ==> AllAskedForTools(replies + [v])
    ensures Answered(tools, history, llm, run, stringify, replies + [v])
    ensures error.None? || known ==> next == history + Turns(tools, replies + [v], run, stringify)
    ensures files1 == AppendMessages(files, sessionId, Written(SavedMessages(tools, replies + [v], run, stamps), known))
    ensures file1 == TouchAll(file, sessionId, Written(SavedMessages(tools, replies + [v], run, stamps), known))
    ensures !known && SavedMessages(tools, replies + [v], run, stamps) != [] ==>
      error == Some("Session " + sessionId + " not found")
    ensures known ==> error.None?
  {
    ExtendFiles(tools, sessionId, run, stamps, replies, v, msgs, files, file, known, files0, file0, files1, file1);
    ExtendTranscript(tools, history, run, stringify, replies, v);
    AskedSnoc(replies, v);
    SavedMessagesSnoc(tools, replies, v, run, stamps);
  }

  /** A reply that asks for tools keeps every reply asking for tools. */
  lemma AskedSnoc(replies: seq<LlmReply>, v: LlmReply)
    requires AllAskedForTools(replies)
    ensures (replies + [v])[..|replies|] == replies
    ensures v.toolUses != [] ==> AllAskedForTools(replies + [v])
  {
    Seqs.SnocParts(replies, v);
  }

  /** The files after one more reply `v`, round `|replies|`: what the round writes
      follows what the earlier rounds wrote. */
  lemma ExtendFiles(tools: map<string, AgentTool>, sessionId: string, run: (AgentTool, Json) -> Result<Json>,
                    stamps: nat -> (string, Timestamp), replies: seq<LlmReply>, v: LlmReply,
                    msgs: seq<Message>,
                    files: map<string, seq<Message>>, file: Option<seq<ChatSession>>, known: bool,
                    files0: map<string, seq<Message>>, file0: Option<seq<ChatSession>>,
                    files1: map<string, seq<Message>>, file1: Option<seq<ChatSession>>)
    requires !known ==> SavedMessages(tools, replies, run, stamps) == []
    requires files0 == AppendMessages(files, sessionId, Written(SavedMessages(tools, replies, run, stamps), known))
    requires file0 == TouchAll(file, sessionId, Written(SavedMessages(tools, replies, run, stamps), known))
    requires msgs == RoundMessages(v, SavedCalls(tools, v.toolUses, run), stamps(2 * |replies|), stamps(2 * |replies| + 1))
    requires files1 == AppendMessages(files0, sessionId, Written(msgs, known))
    requires file1 == TouchAll(file0, sessionId, Written(msgs, known))
    ensures files1 == AppendMessages(files, sessionId, Written(SavedMessages(tools, replies + [v], run, stamps), known))
    ensures file1 == TouchAll(file, sessionId, Written(SavedMessages(tools, replies + [v], run, stamps), known))
  {
    SavedMessagesSnoc(tools, replies, v, run, stamps);
    StepSaves(files, file, sessionId, SavedMessages(tools, replies, run, stamps), msgs,
              SavedMessages(tools, replies + [v], run, stamps), known);
  }

  /** Each reply answers the model call on the request history and the turns of the
      replies before it. */
  predicate Answered(tools: map<string, AgentTool>, history: seq<LlmMessage>, llm: seq<LlmMessage> -> Result<LlmReply>,
                     run: (AgentTool, Json) -> Result<Json>, stringify: Json -> string, replies: seq<LlmReply>)
    decreases |replies|
  {
    replies == [] ||
    var n := |replies| - 1;
    Answered(tools, history, llm, run, stringify, replies[..n])
    && llm(history + Turns(tools, replies[..n], run, stringify)) == Success(replies[n])
  }

  /** Reply `j` is the model's answer on the turns of the `j` replies before it. */
  lemma AnsweredAt(tools: map<string, AgentTool>, history: seq<LlmMessage>,
                   llm: seq<LlmMessage> -> Result<LlmReply>, run: (AgentTool, Json) -> Result<Json>,
                   stringify: Json -> string, replies: seq<LlmReply>)
    requires Answered(tools, history, llm, run, stringify, replies)
    ensures forall j :: 0 <= j < |replies| ==>
      llm(history + Turns(tools, replies[..j], run, stringify)) == Success(replies[j])
  {
    forall j | 0 <= j < |replies|
      ensures llm(history + Turns(tools, replies[..j], run, stringify)) == Success(replies[j])
    {
      AnsweredOne(tools, history, llm, run, stringify, replies, j);
    }
  }

  /** Reply `j` alone, by induction on the replies after it. */
  lemma {:induction false} AnsweredOne(tools: map<string, AgentTool>, history: seq<LlmMessage>,
                                       llm: seq<LlmMessage> -> Result<LlmReply>, run: (AgentTool, Json) -> Result<Json>,
                                       stringify: Json -> string, replies: seq<LlmReply>, j: nat)
    requires Answered(tools, history, llm, run, stringify, replies)
    requires j < |replies|
    ensures llm(history + Turns(tools, replies[..j], run, stringify)) == Success(replies[j])
    decreases |replies|
  {
    var n := |replies| - 1;
    if j < n {
      var init := replies[..n];
      AnsweredOne(tools, history, llm, run, stringify, init, j);
      Seqs.PrefixOfPrefix(replies, n, j);
    }
  }

  /** The transcript after one more reply `v` holds the turns of all replies. */
  lemma ExtendTranscript(tools: map<string, AgentTool>, history: seq<LlmMessage>, run: (AgentTool, Json) -> Result<Json>,
                         stringify: Json -> string, replies: seq<LlmReply>, v: LlmReply)
    ensures history + Turns(tools, replies, run, stringify) + Turn(tools, v, run, stringify)
      == history + Turns(tools, replies + [v], run, stringify)
  {
    TurnsSnoc(tools, replies, v, run, stringify);
    Seqs.ConcatAssoc(history, Turns(tools, replies, run, stringify), Turn(tools, v, run, stringify));
  }

  /** One more reply adds its round's messages, with the stamps of its iteration. */
  lemma SavedMessagesSnoc(tools: map<string, AgentTool>, replies: seq<LlmReply>, v: LlmReply,
                          run: (AgentTool, Json) -> Result<Json>, stamps: nat -> (string, Timestamp))
    ensures SavedMessages(tools, replies + [v], run, stamps) == SavedMessages(tools, replies, run, stamps)
      + RoundMessages(v, SavedCalls(tools, v.toolUses, run), stamps(2 * |replies|), stamps(2 * |replies| + 1))
  {
    var all := replies + [v];
    var j := |all| - 1;
    SavedMessagesLast(tools, all, run, stamps);
    Seqs.SnocParts(replies, v);
    var r := RoundMessages(v, SavedCalls(tools, v.toolUses, run), stamps(2 * j), stamps(2 * j + 1));
    Seqs.AppendCongruence(SavedMessages(tools, all, run, stamps), SavedMessages(tools, all[..j], run, stamps), r,
                          SavedMessages(tools, replies, run, stamps), r);
  }

  lemma SavedMessagesLast(tools: map<string, AgentTool>, all: seq<LlmReply>,
                          run: (AgentTool, Json) -> Result<Json>, stamps: nat -> (string, Timestamp))
    requires all != []
    ensures var j := |all| - 1;
      SavedMessages(tools, all, run, stamps) == SavedMessages(tools, all[..j], run, stamps)
        + RoundMessages(all[j], SavedCalls(tools, all[j].toolUses, run), stamps(2 * j), stamps(2 * j + 1))
  {
  }

  /** One more reply adds its turn to the transcript. */
  lemma TurnsSnoc(tools: map<string, AgentTool>, replies: seq<LlmReply>, v: LlmReply,
                  run: (AgentTool, Json) -> Result<Json>, stringify: Json -> string)
    ensures Turns(tools, replies + [v], run, stringify) == Turns(tools, replies, run, stringify) + Turn(tools, v, run, stringify)
  {
    Seqs.SnocParts(replies, v);
  }

  /** The files after one more round of the loop: what the round writes follows what the
      earlier rounds wrote, and only the first round of an unknown session writes. */
  lemma StepSaves(files: map<string, seq<Message>>, file: Option<seq<ChatSession>>, sessionId: string,
                  saved: seq<Message>, msgs: seq<Message>, total: seq<Message>, known: bool)
    requires known || saved == []
    requires total == saved + msgs
    ensures AppendMessages(AppendMessages(files, sessionId, Written(saved, known)), sessionId, Written(msgs, known))
      == AppendMessages(files, sessionId, Written(total, known))
    ensures TouchAll(TouchAll(file, sessionId, Written(saved, known)), sessionId, Written(msgs, known))
      == TouchAll(file, sessionId, Written(total, known))
  {
    AppendMessagesAppend(files, sessionId, Written(saved, known), Written(msgs, known));
    TouchAllAppend(file, sessionId, Written(saved, known), Written(msgs, known));
    if !known {
      assert total == msgs;
    }
  }

  /** The streaming part of the route: the agent loop, then, unless it failed, the touch of
      the session's `updatedAt` when the session exists. The route streams a done event,
      or an error event when `error` is set. */
  method AgentLoop(store: ChatStore, registry: ToolRegistry, sessionId: string, history: seq<LlmMessage>,
                   llm: seq<LlmMessage> -> Result<LlmReply>, run: (AgentTool, Json) -> Result<Json>,
                   stringify: Json -> string, stamps: nat -> (string, Timestamp), doneAt: Timestamp)
    returns (transcript: seq<LlmMessage>, replies: seq<LlmReply>, iterations: nat, error: Option<string>)
    modifies store
    ensures 1 <= iterations <= MaxIterations && |replies| <= iterations
    ensures |replies| > 0 ==> llm(history) == Success(replies[0])
    ensures forall j :: 0 <= j < |replies| ==>
      llm(history + Turns(registry.tools, replies[..j], run, stringify)) == Success(replies[j])
    ensures |replies| > 0 ==> AllAskedForTools(replies[..|replies| - 1])
    ensures error.None? ==> |replies| == iterations
    ensures error.None? && iterations < MaxIterations ==> replies[|replies| - 1].toolUses == []
    ensures history <= transcript
    ensures error.None? ==> |transcript| == |history| + 2 * ToolRounds(replies)
    ensures error.None? || Known(old(store.Sessions()), sessionId) ==>
      transcript == history + Turns(registry.tools, replies, run, stringify)
    ensures var written := Written(SavedMessages(registry.tools, replies, run, stamps), Known(old(store.Sessions()), sessionId));
      && store.messageFiles == AppendMessages(old(store.messageFiles), sessionId, written)
      && store.sessionsFile == (if error.None? then TouchSession(TouchAll(old(store.sessionsFile), sessionId, written), sessionId, doneAt)
                                else TouchAll(old(store.sessionsFile), sessionId, written))
    ensures Known(old(store.Sessions()), sessionId) && error.Some? ==>
      |replies| == iterations - 1 && llm(transcript).Failure? && error == Some(llm(transcript).error)
    ensures !Known(old(store.Sessions()), sessionId) && SavedMessages(registry.tools, replies, run, stamps) != [] ==>
      error == Some("Session " + sessionId + " not found")
  {
    transcript, replies, iterations, error := Converse(store, registry, sessionId, history, llm, run, stringify, stamps);
    if error.None? {
      TouchOnDone(store, sessionId, doneAt);
    }
  }

  /** After a loop without error: when the session exists, an empty update sets its
      `updatedAt` to `now`; the messages are left alone. */
  method TouchOnDone(store: ChatStore, sessionId: string, now: Timestamp)
    modifies store
    ensures store.messageFiles == old(store.messageFiles)
    ensures store.sessionsFile == TouchSession(old(store.sessionsFile), sessionId, now)
  {
    var session := store.GetSession(sessionId);
    if session.Some? {
      var _ := store.UpdateSession(sessionId, SessionPatch(None, None, None), now);
    }
  }
}
