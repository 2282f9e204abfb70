/** Processing one user message: the stored history is trimmed, wrapped
    between the system message and the user's turn, and sent to the LLM API
    with the MCP tools if the user has them enabled. A `BadRequestError`
    clears the stored history and retries with the system message and the
    user's text alone. A reply with tool calls goes through the tool loop;
    the answer is stored after the trimmed history and the user's text. */
module Processor {
  import opened Wrappers
  import opened Json
  import opened Chat
  import McpManager
  import ToolExecutor
  import UserSettings

  const MaxHistoryLength := 50
  const MaxVisionTokens := 4000
  const McpMaxIterations := 5
  const ApiMaxRetries := 2
  const VisionModel := "gpt-4-vision-preview"
  const BadRequest := "BadRequestError"
  const NoResponse := "No response."
  const RetryFailure := "Произошла ошибка при обработке запроса. Попробуйте позже."
  const SystemPrompt := "Keep your responses concise and to the point. Prefer shorter answers over long explanations. If listing items, limit to the most important ones. Maximum response length: ~3000 characters."

  /** Stored conversations by chat; a chat with none reads as empty. */
  class ChatHistories {
    var histories: map<int, seq<Message>>

    constructor ()
      ensures histories == map[]
    {
      histories := map[];
    }

    function Get(chatId: int): seq<Message>
      reads this
    {
      if chatId in histories then histories[chatId] else []
    }

    method Save(chatId: int, history: seq<Message>)
      modifies this
      ensures histories == old(histories)[chatId := history]
    {
      histories := histories[chatId := history];
    }

    method Clear(chatId: int)
      modifies this
      ensures histories == old(histories)[chatId := []]
    {
      histories := histories[chatId := []];
    }
  }

  /** The last `MaxHistoryLength` messages, in order. */
  function TrimHistory(history: seq<Message>): (r: seq<Message>)
    ensures |r| == if |history| > MaxHistoryLength then MaxHistoryLength else |history|
    ensures r == history[|history| - |r|..]
  {
    if |history| > MaxHistoryLength then history[|history| - MaxHistoryLength..] else history
  }

  /** Trimming twice is trimming once, and a short history is kept whole. */
  lemma TrimIdempotent(history: seq<Message>)
    ensures TrimHistory(TrimHistory(history)) == TrimHistory(history)
    ensures |history| <= MaxHistoryLength ==> TrimHistory(history) == history
  {
  }

  /** The user's turn: the text, or the text and the image as a JPEG data URL
      (`image` is the base64 text of the picture). */
  function UserTurn(text: string, image: Option<string>): (u: UserContent)
    ensures image.None? ==> u == Text(text)
    ensures image.Some? ==> u.TextAndImage? && u.text == text && "data:image/jpeg;base64," <= u.imageUrl
  {
    if image.Some? then TextAndImage(text, "data:image/jpeg;base64," + image.value) else Text(text)
  }

  /** The model: the vision model with an image, else the user's setting. */
  function ModelFor(settings: UserSettings.Store, chatId: int, image: Option<string>): (model: Json)
    ensures image.Some? ==> model == JStr(VisionModel)
    ensures image.None? ==> model == UserSettings.GetUserModel(settings, chatId)
  {
    if image.Some? then JStr(VisionModel) else UserSettings.GetUserModel(settings, chatId)
  }

  function MaxTokensFor(image: Option<string>): (limit: Option<int>)
    ensures limit.Some? <==> image.Some?
    ensures limit.Some? ==> limit.value == MaxVisionTokens
  {
    if image.Some? then Some(MaxVisionTokens) else None
  }

  /** The conversation sent first: the system message, the trimmed history,
      the user's turn. */
  function Conversation(history: seq<Message>, text: string, image: Option<string>): (r: seq<Message>)
    ensures |r| == |TrimHistory(history)| + 2 && |r| <= MaxHistoryLength + 2
    ensures r[0] == System(SystemPrompt)
    ensures r[|r| - 1] == User(UserTurn(text, image))
    ensures r[1..|r| - 1] == TrimHistory(history)
  {
    var r := [System(SystemPrompt)] + TrimHistory(history) + [User(UserTurn(text, image))];
    assert r[1..|r| - 1] == TrimHistory(history);
    r
  }

  /** The conversation of every retry after a `BadRequestError`. */
  function RetryConversation(text: string): seq<Message> {
    [System(SystemPrompt), User(Text(text))]
  }

  /** What is stored after a reply: the trimmed history, the user's text
      (never the image) and the reply. */
  function Persisted(history: seq<Message>, text: string, reply: string): (r: seq<Message>)
    ensures |r| == |TrimHistory(history)| + 2
    ensures r[..|r| - 2] == TrimHistory(history)
    ensures r[|r| - 2..] == [User(Text(text)), Assistant(reply)]
    ensures |r| <= MaxHistoryLength + 2
  {
    TrimHistory(history) + [User(Text(text)), Assistant(reply)]
  }

  /** A stored conversation holds only user text and plain replies. */
  predicate TextOnly(history: seq<Message>) {
    forall i :: 0 <= i < |history| ==> (history[i].User? && history[i].turn.Text?) || history[i].Assistant?
  }

  /** Storing keeps a text-only history text-only: no system message, image,
      tool call or tool result is ever stored. */
  lemma PersistedTextOnly(history: seq<Message>, text: string, reply: string)
    requires TextOnly(history)
    ensures TextOnly(Persisted(history, text, reply))
  {
    var r := Persisted(history, text, reply);
    var t := TrimHistory(history);
    forall i | 0 <= i < |r|
      ensures (r[i].User? && r[i].turn.Text?) || r[i].Assistant?
    {
      if i < |t| {
        assert r[i] == history[|history| - |t| + i];
      }
    }
  }

  /** The reply text without tool calls. */
  function ContentOr(message: Reply): (text: string)
    ensures text != ""
    ensures message.content.Some? && message.content.value != "" ==> text == message.content.value
  {
    if message.content.Some? && message.content.value != "" then message.content.value else NoResponse
  }

  /** The first of the API calls `from .. from + count - 1` answered for `request`. */
  function FirstAnswered(api: Api, request: Request, from: nat, count: nat): (k: Option<nat>)
    decreases count
    ensures k.Some? ==> from <= k.value < from + count && api(k.value, request).Answered?
    ensures k.Some? ==> forall j :: from <= j < k.value ==> api(j, request).ApiError?
    ensures k.None? ==> forall j :: from <= j < from + count ==> api(j, request).ApiError?
  {
    if count == 0 then None
    else if api(from, request).Answered? then Some(from)
    else FirstAnswered(api, request, from + 1, count - 1)
  }

  datatype Outcome = Replied(text: string) | RetriesExhausted | Raised(error: string)
  {
    /** What `process_text_message` returns, if it returns. */
    function Returned(): Option<string> {
      match this
      case Replied(text) => Some(text)
      case RetriesExhausted => Some(RetryFailure)
      case Raised(_) => None
    }
  }

  /** How the user's turn was answered: by the API call `index`, or not at
      all after the retries, or by an exception other than a bad request. */
  datatype Asked = Got(index: nat, message: Reply) | GaveUp | Failed(error: string)

  /** What the first API call and, after a `BadRequestError`, the retries
      make of the user's turn. */
  function Asking(api: Api, first: Request, retry: Request): (a: Asked)
    ensures api(0, first).Answered? ==> a == Got(0, api(0, first).message)
    ensures api(0, first).ApiError? && api(0, first).kind != BadRequest ==> a == Failed(api(0, first).error)
    ensures api(0, first).ApiError? && api(0, first).kind == BadRequest ==>
              (a == GaveUp <==> forall j :: 1 <= j <= ApiMaxRetries ==> api(j, retry).ApiError?)
    ensures Retried(api, first) && FirstAnswered(api, retry, 1, ApiMaxRetries).Some? ==>
              var k := FirstAnswered(api, retry, 1, ApiMaxRetries).value;
              a == Got(k, api(k, retry).message)
    ensures a.Got? && a.index > 0 ==>
              a.index <= ApiMaxRetries && api(a.index, retry).Answered? && a.message == api(a.index, retry).message
              && forall j :: 1 <= j < a.index ==> api(j, retry).ApiError?
  {
    match api(0, first)
    case Answered(message) => Got(0, message)
    case ApiError(kind, error) =>
      if kind != BadRequest then Failed(error)
      else
        match FirstAnswered(api, retry, 1, ApiMaxRetries)
        case None => GaveUp
        case Some(k) => Got(k, api(k, retry).message)
  }

  /** Whether answering the turn went through the retries. */
  predicate Retried(api: Api, first: Request) {
    api(0, first).ApiError? && api(0, first).kind == BadRequest
  }

  /** `Asking`, run: every retry clears the stored history first. */
  method Ask(store: ChatHistories, chatId: int, api: Api, first: Request, retry: Request) returns (a: Asked)
    modifies store
    ensures a == Asking(api, first, retry)
    ensures store.histories == if Retried(api, first) then old(store.histories)[chatId := []] else old(store.histories)
  {
    var response := api(0, first);
    if response.Answered? {
      return Got(0, response.message);
    }
    if response.kind != BadRequest {
      return Failed(response.error);
    }
    var attempt := 0;
    while true
      invariant 0 <= attempt < ApiMaxRetries
      invariant forall j :: 1 <= j < 1 + attempt ==> api(j, retry).ApiError?
      invariant attempt > 0 ==> store.histories == old(store.histories)[chatId := []]
      invariant attempt == 0 ==> store.histories == old(store.histories)
      decreases ApiMaxRetries - attempt
    {
      store.Clear(chatId);
      response := api(1 + attempt, retry);
      if response.Answered? {
        return Got(1 + attempt, response.message);
      }
      if attempt == ApiMaxRetries - 1 {
        return GaveUp;
      }
      attempt := attempt + 1;
    }
  }

  const UnpackCoroutine := "cannot unpack non-iterable coroutine object"

  /** The reply step as the source writes it: `execute_tool_loop` is a
      coroutine function called without `await`, so unpacking its result
      into two names raises a `TypeError` whenever the reply calls tools. */
  function RespondAsWritten(message: Reply): (reply: Result<string, string>)
    ensures message.toolCalls == [] ==> reply == Success(ContentOr(message))
    ensures message.toolCalls != [] ==> reply.Failure?
  {
    if message.toolCalls != [] then Failure(UnpackCoroutine) else Success(ContentOr(message))
  }

  /** A reply asking for one tool call never reaches the tool loop as written. */
  lemma ToolCallReplyRaises()
    ensures RespondAsWritten(Reply(None, [ToolCall("call_1", "get_time", "{}")])) == Failure(UnpackCoroutine)
  {
  }

  /** What `execute_tool_loop` hands back to `process_text_message`: the
      answer, or the exception it raised. */
  function LoopReply(outcome: ToolExecutor.LoopOutcome): (reply: Result<string, string>)
    ensures reply.Failure? <==> outcome.Raised?
    ensures outcome.Raised? ==> reply.error == outcome.error
    ensures outcome.Finished? ==> reply.value == outcome.text
  {
    if outcome.Raised? then Failure(outcome.error) else Success(outcome.text)
  }

  /** The tool loop ran on `conversation` from `message`, resubmitting by
      `c`, with calls run by `step` against the manager seen as `env`, from
      `pool` to `pool'`, and ended with `outcome` as `ToolExecutor.Loop`
      says, capped at `McpMaxIterations` rounds. */
  ghost predicate Looped(c: ToolExecutor.Resubmit, conversation: seq<Message>, message: Reply,
                         step: ToolExecutor.CallStep, env: ToolExecutor.Env, pool: ToolExecutor.Pool,
                         pool': ToolExecutor.Pool, outcome: ToolExecutor.LoopOutcome, t: ToolExecutor.Trace,
                         parse: string -> Result<Json, string>, now: int, servers: McpManager.Servers) {
    && ToolExecutor.Runs(step, env, parse, now, servers)
    && ToolExecutor.Loop(c, conversation, message, McpMaxIterations, step, pool, pool', outcome, t)
  }

  /** The tool loop's view of a reply that does not enter it: no rounds,
      the reply itself as the answer. */
  ghost method Unlooped(mgr: McpManager.ServerManager?, message: Reply, parse: string -> Result<Json, string>,
                        now: int, servers: McpManager.Servers)
    returns (outcome: ToolExecutor.LoopOutcome, step: ToolExecutor.CallStep, trace: ToolExecutor.Trace)
    ensures ToolExecutor.Runs(step, ToolExecutor.EnvOf(mgr), parse, now, servers)
    ensures trace.rounds == [] && trace.last == message && outcome == ToolExecutor.Finished(ContentOr(message), false)
  {
    step := ToolExecutor.StepOf(ToolExecutor.EnvOf(mgr), parse, now, servers);
    trace := ToolExecutor.Trace([], [], [ToolExecutor.PoolOf(mgr)], [], message);
    outcome := ToolExecutor.Finished(ContentOr(message), false);
  }

  /** The reply text for an answered turn: the tool loop's answer when the
      message calls tools, else the content or "No response.". */
  method Respond(mgr: McpManager.ServerManager?, conversation: seq<Message>, message: Reply, next: nat,
                 api: Api, model: Json, maxTokens: Option<int>, tools: Option<seq<McpManager.FunctionTool>>,
                 parse: string -> Result<Json, string>, now: int, servers: McpManager.Servers)
    returns (reply: Result<string, string>, ghost outcome: ToolExecutor.LoopOutcome,
             ghost step: ToolExecutor.CallStep, ghost trace: ToolExecutor.Trace)
    modifies mgr
    ensures message.toolCalls == [] ==>
              reply == Success(ContentOr(message)) && ToolExecutor.PoolOf(mgr) == old(ToolExecutor.PoolOf(mgr))
    ensures message.toolCalls != [] ==>
              Looped(ToolExecutor.Resubmit(api, next, model, maxTokens, tools), conversation, message, step,
                     old(ToolExecutor.EnvOf(mgr)), old(ToolExecutor.PoolOf(mgr)), ToolExecutor.PoolOf(mgr),
                     outcome, trace, parse, now, servers)
              && reply == LoopReply(outcome)
    ensures ToolExecutor.EnvOf(mgr) == old(ToolExecutor.EnvOf(mgr))
    ensures reply.Success? ==> reply.value != ""
  {
    if message.toolCalls == [] {
      reply := Success(ContentOr(message));
      outcome, step, trace := Unlooped(mgr, message, parse, now, servers);
      return;
    }
    var conversationLog := new ToolExecutor.History(conversation);
    var ended;
    ended, step, trace := ToolExecutor.ExecuteToolLoop(
      mgr, conversationLog, message, ToolExecutor.Resubmit(api, next, model, maxTokens, tools),
      McpMaxIterations, parse, now, servers);
    outcome := ended;
    reply := LoopReply(ended);
  }

  /** The tools offered to the model: every server's tools, as
      `get_all_tools` lists them, when there is a manager and the user wants
      MCP; else none, and the manager is left alone. */
  method OfferedTools(mgr: McpManager.ServerManager?, wanted: bool, now: int, servers: McpManager.Servers)
    returns (tools: Option<seq<McpManager.FunctionTool>>)
    modifies mgr
    ensures mgr != null && wanted ==>
              var a := McpManager.AllTools(mgr.configs, mgr.cacheTtl, old(mgr.Snapshot()), now, servers);
              tools == Some(a.tools) && mgr.Snapshot() == a.state
    ensures !(mgr != null && wanted) ==> tools.None? && (mgr != null ==> mgr.Snapshot() == old(mgr.Snapshot()))
  {
    tools := None;
    if mgr != null && wanted {
      var listed := mgr.GetAllTools(now, servers);
      tools := Some(listed);
    }
  }

  /** What follows the API's answer: the exception re-raised, the retry
      failure message, or the reply, stored after the trimmed history. The
      tool loop resubmits from API call `asked.index + 1`. */
  method Conclude(store: ChatHistories, chatId: int, stored: seq<Message>, text: string, asked: Asked,
                  mgr: McpManager.ServerManager?, conversation: seq<Message>, api: Api, model: Json,
                  maxTokens: Option<int>, tools: Option<seq<McpManager.FunctionTool>>,
                  parse: string -> Result<Json, string>, now: int, servers: McpManager.Servers)
    returns (r: Outcome, ghost outcome: ToolExecutor.LoopOutcome, ghost step: ToolExecutor.CallStep,
             ghost trace: ToolExecutor.Trace)
    modifies store, mgr
    ensures asked.Failed? ==> r == Raised(asked.error)
    ensures asked.GaveUp? ==> r == RetriesExhausted
    ensures asked.Got? && asked.message.toolCalls == [] ==> r == Replied(ContentOr(asked.message))
    ensures asked.Got? && asked.message.toolCalls != [] ==>
              Looped(ToolExecutor.Resubmit(api, asked.index + 1, model, maxTokens, tools), conversation,
                     asked.message, step, old(ToolExecutor.EnvOf(mgr)), old(ToolExecutor.PoolOf(mgr)),
                     ToolExecutor.PoolOf(mgr), outcome, trace, parse, now, servers)
              && r == (if outcome.Raised? then Raised(outcome.error) else Replied(outcome.text))
    ensures !(asked.Got? && asked.message.toolCalls != []) ==> ToolExecutor.PoolOf(mgr) == old(ToolExecutor.PoolOf(mgr))
    ensures ToolExecutor.EnvOf(mgr) == old(ToolExecutor.EnvOf(mgr))
    ensures r.Replied? ==>
              asked.Got? && r.text != ""
              && store.histories == old(store.histories)[chatId := Persisted(stored, text, r.text)]
    ensures !r.Replied? ==> store.histories == old(store.histories)
  {
    outcome, step, trace := Unlooped(mgr, Reply(None, []), parse, now, servers);
    match asked
    case Failed(error) =>
      r := Raised(error);
    case GaveUp =>
      r := RetriesExhausted;
    case Got(index, message) =>
      var reply;
      reply, outcome, step, trace := Respond(mgr, conversation, message, index + 1, api, model, maxTokens, tools,
                                             parse, now, servers);
      if reply.Failure? {
        r := Raised(reply.error);
      } else {
        store.Save(chatId, Persisted(stored, text, reply.value));
        r := Replied(reply.value);
      }
  }

  /** A second update of the same key replaces the first. */
  lemma UpdateOverwrites<K, V>(m: map<K, V>, k: K, v: V, w: V)
    ensures m[k := v][k := w] == m[k := w]
  {
  }

  /** The first request for the user's turn. */
  function FirstRequest(model: Json, stored: seq<Message>, text: string, image: Option<string>,
                        tools: Option<seq<McpManager.FunctionTool>>): Request {
    RequestOf(model, Conversation(stored, text, image), MaxTokensFor(image), tools)
  }

  /** The request of every retry after a `BadRequestError`. */
  function RetryRequest(model: Json, text: string, image: Option<string>,
                        tools: Option<seq<McpManager.FunctionTool>>): Request {
    RequestOf(model, RetryConversation(text), MaxTokensFor(image), tools)
  }

  /** The first half of `process_text_message`: the tools are listed, then
      the user's turn is asked, with the retries. `env` and `pool` are the
      manager once the tools are listed. */
  method AskWithTools(text: string, chatId: int, image: Option<string>, store: ChatHistories,
                      settings: UserSettings.Store, mgr: McpManager.ServerManager?, servers: McpManager.Servers,
                      api: Api, now: int)
    returns (tools: Option<seq<McpManager.FunctionTool>>, asked: Asked, ghost env: ToolExecutor.Env,
             ghost pool: ToolExecutor.Pool)
    modifies store, mgr
    ensures var wanted := Truthy(UserSettings.ShouldUseMcp(settings, chatId));
            mgr != null && wanted ==>
              var a := McpManager.AllTools(mgr.configs, mgr.cacheTtl, old(mgr.Snapshot()), now, servers);
              tools == Some(a.tools)
              && env == ToolExecutor.Present(mgr.configs, a.state.stamp, mgr.cacheTtl)
              && pool == ToolExecutor.Pool(a.state.toolCache, a.state.sessions)
    ensures !(mgr != null && Truthy(UserSettings.ShouldUseMcp(settings, chatId))) ==>
              tools.None? && env == old(ToolExecutor.EnvOf(mgr)) && pool == old(ToolExecutor.PoolOf(mgr))
    ensures ToolExecutor.EnvOf(mgr) == env && ToolExecutor.PoolOf(mgr) == pool
    ensures var model := ModelFor(settings, chatId, image);
            var first := FirstRequest(model, old(store.Get(chatId)), text, image, tools);
            asked == Asking(api, first, RetryRequest(model, text, image, tools))
            && store.histories == if Retried(api, first) then old(store.histories)[chatId := []] else old(store.histories)
  {
    var model := ModelFor(settings, chatId, image);
    var stored := store.Get(chatId);
    tools := OfferedTools(mgr, Truthy(UserSettings.ShouldUseMcp(settings, chatId)), now, servers);
    env, pool := ToolExecutor.EnvOf(mgr), ToolExecutor.PoolOf(mgr);
    asked := Ask(store, chatId, api, FirstRequest(model, stored, text, image, tools), RetryRequest(model, text, image, tools));
  }

  /** `process_text_message`. `tools` is the tools argument of every API
      call; `asked` says which API call answered the user's turn; `env` and
      `pool` are the manager as the tool loop starts from it, after listing
      the tools. */
  method ProcessTextMessage(text: string, chatId: int, image: Option<string>, store: ChatHistories,
                            settings: UserSettings.Store, mgr: McpManager.ServerManager?,
                            servers: McpManager.Servers, api: Api, parse: string -> Result<Json, string>, now: int)
    returns (r: Outcome, tools: Option<seq<McpManager.FunctionTool>>, asked: Asked,
             ghost env: ToolExecutor.Env, ghost pool: ToolExecutor.Pool, ghost outcome: ToolExecutor.LoopOutcome,
             ghost step: ToolExecutor.CallStep, ghost trace: ToolExecutor.Trace)
    modifies store, mgr
    ensures var wanted := Truthy(UserSettings.ShouldUseMcp(settings, chatId));
            mgr != null && wanted ==>
              var a := McpManager.AllTools(mgr.configs, mgr.cacheTtl, old(mgr.Snapshot()), now, servers);
              tools == Some(a.tools)
              && env == ToolExecutor.Present(mgr.configs, a.state.stamp, mgr.cacheTtl)
              && pool == ToolExecutor.Pool(a.state.toolCache, a.state.sessions)
    ensures !(mgr != null && Truthy(UserSettings.ShouldUseMcp(settings, chatId))) ==>
              tools.None? && env == old(ToolExecutor.EnvOf(mgr)) && pool == old(ToolExecutor.PoolOf(mgr))
    ensures var model := ModelFor(settings, chatId, image);
            asked == Asking(api, FirstRequest(model, old(store.Get(chatId)), text, image, tools),
                            RetryRequest(model, text, image, tools))
    ensures asked.Failed? ==> r == Raised(asked.error)
    ensures asked.GaveUp? ==> r == RetriesExhausted && store.histories == old(store.histories)[chatId := []]
    ensures asked.Got? && asked.message.toolCalls == [] ==> r == Replied(ContentOr(asked.message))
    ensures asked.Got? && asked.message.toolCalls != [] ==>
              Looped(ToolExecutor.Resubmit(api, asked.index + 1, ModelFor(settings, chatId, image),
                                           MaxTokensFor(image), tools),
                     Conversation(old(store.Get(chatId)), text, image), asked.message, step, env, pool,
                     ToolExecutor.PoolOf(mgr), outcome, trace, parse, now, servers)
              && r == (if outcome.Raised? then Raised(outcome.error) else Replied(outcome.text))
    ensures !(asked.Got? && asked.message.toolCalls != []) ==> ToolExecutor.PoolOf(mgr) == pool
    ensures ToolExecutor.EnvOf(mgr) == env
    ensures r.Replied? ==>
              asked.Got? && r.text != ""
              && store.histories == old(store.histories)[chatId := Persisted(old(store.Get(chatId)), text, r.text)]
    ensures !r.Replied? ==>
              store.histories == if Retried(api, FirstRequest(ModelFor(settings, chatId, image), old(store.Get(chatId)),
                                                             text, image, tools))
                                 then old(store.histories)[chatId := []] else old(store.histories)
  {
    var model := ModelFor(settings, chatId, image);
    var stored := store.Get(chatId);
    tools, asked, env, pool := AskWithTools(text, chatId, image, store, settings, mgr, servers, api, now);
    r, outcome, step, trace := Conclude(store, chatId, stored, text, asked, mgr, Conversation(stored, text, image), api,
                                        model, MaxTokensFor(image), tools, parse, now, servers);
    if r.Replied? && Retried(api, FirstRequest(model, stored, text, image, tools)) {
      UpdateOverwrites(old(store.histories), chatId, [], Persisted(stored, text, r.text));
    }
  }
}
