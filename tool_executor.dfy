/** The bounded tool-calling loop. While the model's latest reply asks for
    tools and the round cap is not reached, one round appends the assistant
    message with the calls and one tool message per call to the
    conversation, runs each call through the MCP manager, and resubmits the
    conversation to the LLM API. */
module ToolExecutor {
  import opened Wrappers
  import opened Json
  import opened Chat
  import McpManager

  const Fallback := "I used tools but couldn't generate a text response."
  /** The message of the `AttributeError` raised when there is no manager. */
  const NoManager := "'NoneType' object has no attribute 'execute_tool'"

  /** The conversation list the loop appends to, shared with its caller. */
  class History {
    var messages: seq<Message>

    constructor (initial: seq<Message>)
      ensures messages == initial
    {
      messages := initial;
    }
  }

  /** What one tool call yields: the tool's text, or the `{"error": ...}`
      dict that replaces an exception of `execute_tool`. */
  datatype ToolValue = TextValue(text: string) | ErrorValue(error: string)

  function ErrorText(tool: string, message: string): string {
    "Error executing tool " + tool + ": " + message
  }

  /** The content of a tool message: a dict goes through `json.dumps`, a
      string is kept as it is. */
  function ResultContent(v: ToolValue): (s: string)
    ensures v.TextValue? ==> s == v.text
    ensures v.ErrorValue? ==>
              PrintableAscii(s) && |s| >= 12 && s[..10] == "{\"error\": " && s[10] == '"' && s[|s| - 1] == '}'
    ensures v.ErrorValue? ==> s == "{\"error\": " + Quote(v.error) + "}"
    ensures v.ErrorValue? ==> Unquote(s[10..|s| - 1]) == Some(v.error)
  {
    match v
    case TextValue(t) => t
    case ErrorValue(e) =>
      var q := Quote(e);
      var s := "{\"error\": " + q + "}";
      assert s[10] == q[0];
      assert forall i :: 10 <= i < |s| - 1 ==> s[i] == q[i - 10];
      assert s[10..|s| - 1] == q;
      UnquoteRoundTrip(e);
      s
  }

  function CallMessage(reply: Reply): Message {
    AssistantCalls(reply.content, reply.toolCalls)
  }

  function ToolMessage(call: ToolCall, v: ToolValue): Message {
    ToolResult(call.id, call.name, ResultContent(v))
  }

  predicate ToolMessageFor(call: ToolCall, m: Message) {
    m.ToolResult? && m.toolCallId == call.id && m.name == call.name
  }

  /** The messages of one completed round: the assistant message carrying
      every call verbatim, then one tool message per call, in call order. */
  ghost predicate RoundShape(reply: Reply, batch: seq<Message>) {
    && |batch| == 1 + |reply.toolCalls|
    && batch[0] == CallMessage(reply)
    && forall k :: 0 <= k < |reply.toolCalls| ==> ToolMessageFor(reply.toolCalls[k], batch[k + 1])
  }

  /** The messages of a round cut short by call `|batch| - 1`. */
  ghost predicate PartialRound(reply: Reply, batch: seq<Message>) {
    && 1 <= |batch| <= |reply.toolCalls|
    && batch[0] == CallMessage(reply)
    && forall k :: 0 <= k < |batch| - 1 ==> ToolMessageFor(reply.toolCalls[k], batch[k + 1])
  }

  /** `batch` records `reply`'s calls with `values`: the assistant message,
      then one tool message per value, carrying that value, in call order. */
  ghost predicate Recorded(reply: Reply, values: seq<ToolValue>, batch: seq<Message>) {
    && |values| <= |reply.toolCalls|
    && |batch| == 1 + |values|
    && batch[0] == CallMessage(reply)
    && forall k :: 0 <= k < |values| ==> batch[k + 1] == ToolMessage(reply.toolCalls[k], values[k])
  }

  /** A round recorded with a value for every call has the round's shape,
      one cut short has the shape of a partial round. */
  lemma RecordedShape(reply: Reply, values: seq<ToolValue>, batch: seq<Message>)
    requires Recorded(reply, values, batch)
    ensures |values| == |reply.toolCalls| ==> RoundShape(reply, batch)
    ensures |values| < |reply.toolCalls| ==> PartialRound(reply, batch)
  {
    forall k | 0 <= k < |values|
      ensures ToolMessageFor(reply.toolCalls[k], batch[k + 1])
    {
    }
  }

  // ------------------------------------------------------------- values

  /** What the loop sees of the manager: none, or its servers, the time of
      its last tool refresh and its cache TTL. */
  datatype Env = Absent | Present(configs: seq<McpManager.ServerConfig>, stamp: int, ttl: int)

  /** The part of the manager that tool calls change: the tool cache and
      the session pool. */
  datatype Pool = Pool(cache: map<string, string>, sessions: map<string, int>)

  function EnvOf(mgr: McpManager.ServerManager?): Env
    reads mgr
  {
    if mgr == null then Absent else Present(mgr.configs, mgr.cacheTimestamp, mgr.cacheTtl)
  }

  function PoolOf(mgr: McpManager.ServerManager?): Pool
    reads mgr
  {
    if mgr == null then Pool(map[], map[]) else Pool(mgr.toolCache, mgr.activeSessions)
  }

  datatype Called = Called(value: Result<ToolValue, string>, pool: Pool)

  /** One call on values: arguments that are not JSON raise and change
      nothing; without a manager the call yields the `AttributeError` as an
      error value; otherwise `execute_tool` runs, its text or its error
      message becomes the value, and the pool is what it leaves. */
  function CallValue(env: Env, pool: Pool, call: ToolCall, parse: string -> Result<Json, string>, now: int,
                     servers: McpManager.Servers): (c: Called)
    ensures c.value.Failure? <==> parse(call.arguments).Failure?
    ensures c.value.Failure? ==> c.value.error == parse(call.arguments).error && c.pool == pool
    ensures env.Absent? ==> c.pool == pool
  {
    match parse(call.arguments)
    case Failure(err) => Called(Failure(err), pool)
    case Success(args) =>
      match env
      case Absent => Called(Success(ErrorValue(ErrorText(call.name, NoManager))), pool)
      case Present(cfgs, stamp, ttl) =>
        var e := McpManager.Execute(cfgs, pool.cache, stamp, ttl, pool.sessions, call.name, args, now, servers);
        var v := if e.result.Success? then TextValue(e.result.value)
                 else ErrorValue(ErrorText(call.name, e.result.error.Message()));
        Called(Success(v), Pool(e.cache, e.sessions))
  }

  /** How one call runs from a pool. The rounds below are stated for any
      such step; the loop's is the one of `_execute_single_tool_call`. */
  type CallStep = (Pool, ToolCall) -> Called

  /** `step` runs calls as `_execute_single_tool_call` does for a manager
      seen as `env`. */
  ghost predicate Runs(step: CallStep, env: Env, parse: string -> Result<Json, string>, now: int,
                       servers: McpManager.Servers) {
    forall pool: Pool, call: ToolCall {:trigger CallValue(env, pool, call, parse, now, servers)} ::
      step(pool, call) == CallValue(env, pool, call, parse, now, servers)
  }

  lemma StepOf(env: Env, parse: string -> Result<Json, string>, now: int, servers: McpManager.Servers)
    returns (step: CallStep)
    ensures Runs(step, env, parse, now, servers)
  {
    step := (pool: Pool, call: ToolCall) => CallValue(env, pool, call, parse, now, servers);
  }

  /** The values of a round's calls, whether one raised, and the pool left. */
  datatype Round = Round(values: seq<ToolValue>, raised: Option<string>, pool: Pool)

  /** Calls `i..` of a round run in order from `pool`: each call's value in
      order; the first call that raises stops the round. */
  function RunCalls(step: CallStep, pool: Pool, calls: seq<ToolCall>, i: nat): (t: Round)
    requires i <= |calls|
    decreases |calls| - i
    ensures t.raised.None? ==> |t.values| == |calls| - i
    ensures t.raised.Some? ==> i + |t.values| < |calls|
  {
    if i == |calls| then Round([], None, pool)
    else
      var c := step(pool, calls[i]);
      if c.value.Failure? then Round([], Some(c.value.error), c.pool)
      else
        var t := RunCalls(step, c.pool, calls, i + 1);
        Round([c.value.value] + t.values, t.raised, t.pool)
  }

  /** A step of `_execute_single_tool_call` fails exactly when the
      arguments do not parse, with the parse error. */
  lemma StepParses(step: CallStep, env: Env, pool: Pool, call: ToolCall, parse: string -> Result<Json, string>,
                   now: int, servers: McpManager.Servers)
    requires Runs(step, env, parse, now, servers)
    ensures step(pool, call).value.Failure? <==> parse(call.arguments).Failure?
    ensures step(pool, call).value.Failure? ==> step(pool, call).value.error == parse(call.arguments).error
  {
    assert step(pool, call) == CallValue(env, pool, call, parse, now, servers);
  }

  /** A round of `_execute_single_tool_call` steps stops exactly at the
      first call whose arguments are not JSON, with that parse error. */
  lemma {:induction false} RunCallsRaised(step: CallStep, env: Env, pool: Pool, calls: seq<ToolCall>, i: nat,
                                          parse: string -> Result<Json, string>, now: int, servers: McpManager.Servers)
    requires i <= |calls| && Runs(step, env, parse, now, servers)
    decreases |calls| - i
    ensures var t := RunCalls(step, pool, calls, i);
            && (t.raised.Some? ==> parse(calls[i + |t.values|].arguments) == Failure(t.raised.value))
            && (forall k :: i <= k < i + |t.values| ==> parse(calls[k].arguments).Success?)
            && (t.raised.None? <==> forall k :: i <= k < |calls| ==> parse(calls[k].arguments).Success?)
  {
    if i < |calls| {
      StepParses(step, env, pool, calls[i], parse, now, servers);
      var c := step(pool, calls[i]);
      if c.value.Success? {
        RunCallsRaised(step, env, c.pool, calls, i + 1, parse, now, servers);
      }
    }
  }

  /** Call `k` of a round: it raises, or its value comes first. */
  lemma RunCallsNext(step: CallStep, pool: Pool, calls: seq<ToolCall>, k: nat)
    requires k < |calls|
    ensures step(pool, calls[k]).value.Failure? ==>
              RunCalls(step, pool, calls, k) == Round([], Some(step(pool, calls[k]).value.error), step(pool, calls[k]).pool)
    ensures var c := step(pool, calls[k]);
            var t := RunCalls(step, c.pool, calls, k + 1);
            c.value.Success? ==> RunCalls(step, pool, calls, k) == Round([c.value.value] + t.values, t.raised, t.pool)
  {
  }

  /** The calls of `reply` run from `pool`. */
  function RoundOf(step: CallStep, pool: Pool, reply: Reply): Round {
    RunCalls(step, pool, reply.toolCalls, 0)
  }

  /** One round's effect: `reply`'s calls ran from `pool`, left `pool'` and
      `batch` records their values. */
  ghost predicate Stepped(step: CallStep, pool: Pool, reply: Reply, values: seq<ToolValue>, batch: seq<Message>,
                          pool': Pool) {
    var t := RoundOf(step, pool, reply);
    t.values == values && t.pool == pool' && Recorded(reply, values, batch)
  }

  /** Round `k` ran `rounds[k]`'s calls from `pools[k]`, left `pools[k + 1]`
      and recorded its values in `batches[k]`; only the last round may have
      stopped at a call that raised. */
  ghost predicate Effects(step: CallStep, pools: seq<Pool>, rounds: seq<Reply>, valuess: seq<seq<ToolValue>>,
                          batches: seq<seq<Message>>) {
    && |pools| == |rounds| + 1 && |valuess| == |rounds| && |batches| == |rounds|
    && (forall k :: 0 <= k < |rounds| ==> Stepped(step, pools[k], rounds[k], valuess[k], batches[k], pools[k + 1]))
    && (forall k :: 0 <= k < |rounds| - 1 ==> RoundOf(step, pools[k], rounds[k]).raised.None?)
  }

  lemma ExtendEffects(step: CallStep, pools: seq<Pool>, rounds: seq<Reply>, valuess: seq<seq<ToolValue>>,
                      batches: seq<seq<Message>>, message: Reply, values: seq<ToolValue>, batch: seq<Message>,
                      pool': Pool)
    requires Effects(step, pools, rounds, valuess, batches)
    requires rounds != [] ==> RoundOf(step, pools[|rounds| - 1], rounds[|rounds| - 1]).raised.None?
    requires Stepped(step, pools[|rounds|], message, values, batch, pool')
    ensures Effects(step, pools + [pool'], rounds + [message], valuess + [values], batches + [batch])
  {
    var pools', rounds', valuess', batches' := pools + [pool'], rounds + [message], valuess + [values], batches + [batch];
    forall k | 0 <= k < |rounds'|
      ensures Stepped(step, pools'[k], rounds'[k], valuess'[k], batches'[k], pools'[k + 1])
    {
      if k < |rounds| {
        assert pools'[k] == pools[k] && pools'[k + 1] == pools[k + 1];
      }
    }
    forall k | 0 <= k < |rounds'| - 1
      ensures RoundOf(step, pools'[k], rounds'[k]).raised.None?
    {
      assert pools'[k] == pools[k];
    }
  }

  /** Calls `..k` of `reply` ran from `pool`, leaving `pool'`, and `batch`
      records their `values`; the round from here is what is left of it. */
  ghost predicate Partway(step: CallStep, pool: Pool, reply: Reply, k: nat, values: seq<ToolValue>, batch: seq<Message>,
                          pool': Pool) {
    && |values| == k && Recorded(reply, values, batch)
    && RoundOf(step, pool, reply)
       == var t := RunCalls(step, pool', reply.toolCalls, k);
          Round(values + t.values, t.raised, t.pool)
  }

  lemma PartwayNext(step: CallStep, pool: Pool, reply: Reply, k: nat, values: seq<ToolValue>, batch: seq<Message>,
                    before: Pool)
    requires k < |reply.toolCalls|
    requires Partway(step, pool, reply, k, values, batch, before)
    ensures var c := step(before, reply.toolCalls[k]);
            c.value.Failure? ==> RoundOf(step, pool, reply) == Round(values, Some(c.value.error), c.pool)
    ensures var c := step(before, reply.toolCalls[k]);
            c.value.Success? ==>
              Partway(step, pool, reply, k + 1, values + [c.value.value],
                      batch + [ToolMessage(reply.toolCalls[k], c.value.value)], c.pool)
  {
    var c := step(before, reply.toolCalls[k]);
    RunCallsNext(step, before, reply.toolCalls, k);
    if c.value.Failure? {
      assert values + [] == values;
    } else {
      var v := c.value.value;
      var rest := RunCalls(step, c.pool, reply.toolCalls, k + 1);
      assert values + ([v] + rest.values) == (values + [v]) + rest.values;
      RecordedSnoc(reply, values, batch, v);
    }
  }

  lemma RecordedSnoc(reply: Reply, values: seq<ToolValue>, batch: seq<Message>, v: ToolValue)
    requires Recorded(reply, values, batch) && |values| < |reply.toolCalls|
    ensures Recorded(reply, values + [v], batch + [ToolMessage(reply.toolCalls[|values|], v)])
  {
  }

  function Flatten(batches: seq<seq<Message>>): seq<Message> {
    if batches == [] then [] else Flatten(batches[..|batches| - 1]) + batches[|batches| - 1]
  }

  lemma {:induction false} FlattenSnoc(batches: seq<seq<Message>>, b: seq<Message>)
    ensures Flatten(batches + [b]) == Flatten(batches) + b
  {
    assert (batches + [b])[..|batches|] == batches;
  }

  function CallCount(rounds: seq<Reply>): nat {
    if rounds == [] then 0 else CallCount(rounds[..|rounds| - 1]) + |rounds[|rounds| - 1].toolCalls|
  }

  /** Completed rounds add one assistant message per round and one tool
      message per call. */
  lemma {:induction false} RoundsLength(rounds: seq<Reply>, batches: seq<seq<Message>>)
    requires |rounds| == |batches|
    requires forall k :: 0 <= k < |rounds| ==> RoundShape(rounds[k], batches[k])
    ensures |Flatten(batches)| == |rounds| + CallCount(rounds)
  {
    if rounds != [] {
      var n := |rounds| - 1;
      RoundsLength(rounds[..n], batches[..n]);
    }
  }

  /** The fixed arguments of every resubmission: the API, the index of
      the loop's first API call, the model, the token limit and the tools. */
  datatype Resubmit = Resubmit(api: Api, first: nat, model: Json, maxTokens: Option<int>,
                               tools: Option<seq<McpManager.FunctionTool>>)
  {
    /** The API's answer at the end of round `k`, sent the conversation as it
        stood after that round's messages. */
    function Answer(base: seq<Message>, batches: seq<seq<Message>>, k: nat): ApiResponse
      requires k < |batches|
    {
      api(first + k, RequestOf(model, base + Flatten(batches[..k + 1]), maxTokens, tools))
    }
  }

  /** `rounds` ran from `initial`: each asked for tools, and every round but
      the last completed and was answered by the reply the next round ran. */
  ghost predicate Ran(c: Resubmit, base: seq<Message>, initial: Reply, rounds: seq<Reply>, batches: seq<seq<Message>>) {
    && |rounds| == |batches|
    && (rounds != [] ==> rounds[0] == initial)
    && (forall k :: 0 <= k < |rounds| ==> rounds[k].toolCalls != [])
    && (forall k :: 0 <= k < |rounds| - 1 ==>
          RoundShape(rounds[k], batches[k]) && c.Answer(base, batches, k) == Answered(rounds[k + 1]))
  }

  /** Running `message` next extends the trace: it is the initial reply, or
      the answer that ended the last, completed, round. */
  lemma {:induction false} ExtendRan(c: Resubmit, base: seq<Message>, initial: Reply, rounds: seq<Reply>, batches: seq<seq<Message>>,
                  message: Reply, batch: seq<Message>)
    requires Ran(c, base, initial, rounds, batches)
    requires rounds == [] ==> message == initial
    requires rounds != [] ==>
               RoundShape(rounds[|rounds| - 1], batches[|rounds| - 1])
               && c.Answer(base, batches, |rounds| - 1) == Answered(message)
    requires message.toolCalls != []
    ensures Ran(c, base, initial, rounds + [message], batches + [batch])
  {
    var batches' := batches + [batch];
    forall k | 0 <= k < |batches|
      ensures c.Answer(base, batches', k) == c.Answer(base, batches, k)
    {
      assert batches'[..k + 1] == batches[..k + 1];
    }
  }

  /** The answer to the last round is the API call `first + n - 1` on the
      conversation `history` holds after `n` rounds. */
  lemma {:induction false} LastAnswer(c: Resubmit, base: seq<Message>, batches: seq<seq<Message>>,
                                      history: seq<Message>, n: nat)
    requires batches != [] && n == |batches| && history == base + Flatten(batches)
    ensures c.Answer(base, batches, n - 1) == c.api(c.first + n - 1, RequestOf(c.model, history, c.maxTokens, c.tools))
  {
    assert batches[..|batches|] == batches;
  }

  /** The loop's answer: the reply's content when non-empty, else the fixed text. */
  function FinalText(last: Reply): (text: string)
    ensures text != ""
    ensures last.content.Some? && last.content.value != "" ==> text == last.content.value
  {
    if last.content.Some? && last.content.value != "" then last.content.value else Fallback
  }

  datatype LoopOutcome = Finished(text: string, maxReached: bool) | Raised(error: string)

  method AddToolCallToHistory(history: History, reply: Reply)
    modifies history
    ensures history.messages == old(history.messages) + [CallMessage(reply)]
  {
    history.messages := history.messages + [CallMessage(reply)];
  }

  method AddToolResultToHistory(history: History, call: ToolCall, v: ToolValue)
    modifies history
    ensures history.messages == old(history.messages) + [ToolMessage(call, v)]
  {
    history.messages := history.messages + [ToolMessage(call, v)];
  }

  /** `_execute_single_tool_call`. Arguments that are not JSON raise out of
      the loop (`Failure`); every exception of `execute_tool` becomes an
      error value naming the tool. */
  method ExecuteSingleToolCall(mgr: McpManager.ServerManager?, call: ToolCall,
                               parse: string -> Result<Json, string>, now: int, servers: McpManager.Servers)
    returns (r: Result<ToolValue, string>)
    modifies mgr
    ensures Called(r, PoolOf(mgr)) == CallValue(old(EnvOf(mgr)), old(PoolOf(mgr)), call, parse, now, servers)
    ensures EnvOf(mgr) == old(EnvOf(mgr))
    ensures mgr != null ==> mgr.toolsListCache == old(mgr.toolsListCache)
    ensures parse(call.arguments).Failure? ==>
              r == Failure(parse(call.arguments).error)
              && (mgr != null ==> mgr.activeSessions == old(mgr.activeSessions) && mgr.toolCache == old(mgr.toolCache))
    ensures parse(call.arguments).Success? && mgr == null ==>
              r == Success(ErrorValue(ErrorText(call.name, NoManager)))
    ensures parse(call.arguments).Success? && mgr != null ==>
              var e := McpManager.Execute(mgr.configs, old(mgr.toolCache), mgr.cacheTimestamp, mgr.cacheTtl,
                                          old(mgr.activeSessions), call.name, parse(call.arguments).value, now, servers);
              mgr.toolCache == e.cache && mgr.activeSessions == e.sessions
              && r == Success(if e.result.Success? then TextValue(e.result.value)
                              else ErrorValue(ErrorText(call.name, e.result.error.Message())))
  {
    var parsed := parse(call.arguments);
    if parsed.Failure? {
      return Failure(parsed.error);
    }
    if mgr == null {
      return Success(ErrorValue(ErrorText(call.name, NoManager)));
    }
    var res := mgr.ExecuteTool(call.name, parsed.value, now, servers);
    match res
    case Success(text) =>
      r := Success(TextValue(text));
    case Failure(e) =>
      r := Success(ErrorValue(ErrorText(call.name, e.Message())));
  }

  /** One call of a round: run it and record its result. */
  method RunCall(mgr: McpManager.ServerManager?, history: History, call: ToolCall,
                 parse: string -> Result<Json, string>, now: int, servers: McpManager.Servers)
    returns (r: Result<ToolValue, string>)
    modifies history, mgr
    ensures Called(r, PoolOf(mgr)) == CallValue(old(EnvOf(mgr)), old(PoolOf(mgr)), call, parse, now, servers)
    ensures EnvOf(mgr) == old(EnvOf(mgr))
    ensures mgr != null ==> mgr.toolsListCache == old(mgr.toolsListCache)
    ensures r.Failure? <==> parse(call.arguments).Failure?
    ensures r.Failure? ==> r.error == parse(call.arguments).error && history.messages == old(history.messages)
    ensures r.Success? ==> history.messages == old(history.messages) + [ToolMessage(call, r.value)]
  {
    r := ExecuteSingleToolCall(mgr, call, parse, now, servers);
    if r.Success? {
      AddToolResultToHistory(history, call, r.value);
    }
  }

  /** Call `k` of a round, run and recorded. */
  method NextCall(mgr: McpManager.ServerManager?, history: History, reply: Reply, k: nat,
                  ghost step: CallStep, ghost pool: Pool, ghost values: seq<ToolValue>, ghost batch: seq<Message>,
                  parse: string -> Result<Json, string>, now: int, servers: McpManager.Servers)
    returns (r: Result<ToolValue, string>)
    requires k < |reply.toolCalls| && Runs(step, EnvOf(mgr), parse, now, servers)
    requires Partway(step, pool, reply, k, values, batch, PoolOf(mgr))
    modifies history, mgr
    ensures EnvOf(mgr) == old(EnvOf(mgr))
    ensures mgr != null ==> mgr.toolsListCache == old(mgr.toolsListCache)
    ensures r.Failure? ==>
              history.messages == old(history.messages)
              && parse(reply.toolCalls[k].arguments) == Failure(r.error)
              && RoundOf(step, pool, reply) == Round(values, Some(r.error), PoolOf(mgr))
    ensures r.Success? ==>
              history.messages == old(history.messages) + [ToolMessage(reply.toolCalls[k], r.value)]
              && Partway(step, pool, reply, k + 1, values + [r.value], batch + [ToolMessage(reply.toolCalls[k], r.value)],
                         PoolOf(mgr))
  {
    ghost var before := PoolOf(mgr);
    r := RunCall(mgr, history, reply.toolCalls[k], parse, now, servers);
    PartwayNext(step, pool, reply, k, values, batch, before);
  }

  /** One round's messages: the assistant message, then each call's result
      in order. An error of a call does not stop the others; arguments that
      are not JSON stop the round. `values` are the values recorded. */
  method RunRound(mgr: McpManager.ServerManager?, history: History, reply: Reply, ghost step: CallStep,
                  parse: string -> Result<Json, string>, now: int, servers: McpManager.Servers)
    returns (raised: Option<string>, ghost batch: seq<Message>, ghost values: seq<ToolValue>)
    requires Runs(step, EnvOf(mgr), parse, now, servers)
    modifies history, mgr
    ensures var t := RoundOf(step, old(PoolOf(mgr)), reply);
            raised == t.raised && values == t.values && PoolOf(mgr) == t.pool
    ensures Recorded(reply, values, batch)
    ensures EnvOf(mgr) == old(EnvOf(mgr))
    ensures mgr != null ==> mgr.toolsListCache == old(mgr.toolsListCache)
    ensures history.messages == old(history.messages) + batch
    ensures raised.None? ==> RoundShape(reply, batch)
    ensures raised.Some? ==>
              PartialRound(reply, batch) && parse(reply.toolCalls[|batch| - 1].arguments) == Failure(raised.value)
  {
    ghost var pool := PoolOf(mgr);
    AddToolCallToHistory(history, reply);
    batch, values := [CallMessage(reply)], [];
    for k := 0 to |reply.toolCalls|
      invariant Partway(step, pool, reply, k, values, batch, PoolOf(mgr))
      invariant EnvOf(mgr) == old(EnvOf(mgr))
      invariant mgr != null ==> mgr.toolsListCache == old(mgr.toolsListCache)
      invariant history.messages == old(history.messages) + batch
    {
      var r := NextCall(mgr, history, reply, k, step, pool, values, batch, parse, now, servers);
      if r.Failure? {
        raised := Some(r.error);
        RecordedShape(reply, values, batch);
        return;
      }
      batch, values := batch + [ToolMessage(reply.toolCalls[k], r.value)], values + [r.value];
    }
    raised := None;
    assert values + [] == values;
    RecordedShape(reply, values, batch);
  }

  /** What a run of the loop did: the replies whose calls ran, the messages
      each round appended, the pool before each round and after the last,
      the values each round recorded, and the reply the answer is taken from. */
  datatype Trace = Trace(rounds: seq<Reply>, batches: seq<seq<Message>>, pools: seq<Pool>,
                         valuess: seq<seq<ToolValue>>, last: Reply)

  /** The promise of `execute_tool_loop` started on `base` with `initial`:
      the rounds ran and were answered as `Ran` says, their calls ran by
      `step` and were recorded as `Effects` says, from `pool` to `pool'`;
      at most `maxIterations` rounds; a raise comes from the last round;
      otherwise the answer is the text of the last reply, which ends the
      loop because it calls no tools, the API failed, or the cap was reached. */
  ghost predicate Loop(c: Resubmit, base: seq<Message>, initial: Reply, maxIterations: int, step: CallStep,
                       pool: Pool, pool': Pool, outcome: LoopOutcome, t: Trace) {
    var rounds, batches, n := t.rounds, t.batches, |t.rounds|;
    && Ran(c, base, initial, rounds, batches)
    && Effects(step, t.pools, rounds, t.valuess, batches)
    && t.pools[0] == pool && t.pools[n] == pool'
    && (rounds == [] || n <= maxIterations)
    && (initial.toolCalls == [] ==> rounds == [])
    && (outcome.Raised? ==>
          rounds != [] && t.last == rounds[n - 1]
          && RoundOf(step, t.pools[n - 1], t.last).raised == Some(outcome.error))
    && (outcome.Finished? ==>
          outcome.maxReached == (n >= maxIterations)
          && outcome.text == FinalText(t.last)
          && (rounds == [] ==> t.last == initial))
    && (outcome.Finished? && rounds != [] ==>
          RoundOf(step, t.pools[n - 1], rounds[n - 1]).raised.None?
          && RoundShape(rounds[n - 1], batches[n - 1])
          && (c.Answer(base, batches, n - 1) == Answered(t.last)
              || (c.Answer(base, batches, n - 1).ApiError? && t.last == rounds[n - 1])))
    && (outcome.Finished? && n < maxIterations ==>
          t.last.toolCalls == [] || (rounds != [] && c.Answer(base, batches, n - 1).ApiError?))
  }

  /** The state of the loop before a round: what has run so far, and the
      message the next round (if any) runs. */
  ghost predicate Running(c: Resubmit, base: seq<Message>, initial: Reply, step: CallStep, pool: Pool, pool': Pool,
                          t: Trace, message: Reply) {
    var rounds, batches, n := t.rounds, t.batches, |t.rounds|;
    && Ran(c, base, initial, rounds, batches)
    && Effects(step, t.pools, rounds, t.valuess, batches)
    && t.pools[0] == pool && t.pools[n] == pool'
    && (rounds == [] ==> message == initial)
    && (rounds != [] ==>
          RoundOf(step, t.pools[n - 1], rounds[n - 1]).raised.None?
          && RoundShape(rounds[n - 1], batches[n - 1])
          && c.Answer(base, batches, n - 1) == Answered(message))
  }

  /** Just after a round: `t` ran as `Ran` and `Effects` say, from `pool`
      to `pool'`, and its last reply is the round's. */
  ghost predicate Rounded(c: Resubmit, base: seq<Message>, initial: Reply, step: CallStep, pool: Pool, pool': Pool,
                          t: Trace) {
    var n := |t.rounds|;
    && n > 0
    && Ran(c, base, initial, t.rounds, t.batches)
    && Effects(step, t.pools, t.rounds, t.valuess, t.batches)
    && t.pools[0] == pool && t.pools[n] == pool'
    && t.last == t.rounds[n - 1]
  }

  /** A round that completed and was answered by `next` lets the loop go on. */
  lemma ContinueRunning(c: Resubmit, base: seq<Message>, initial: Reply, step: CallStep, pool: Pool, pool': Pool,
                        t: Trace, next: Reply)
    requires Rounded(c, base, initial, step, pool, pool', t)
    requires RoundOf(step, t.pools[|t.rounds| - 1], t.last).raised.None?
    requires RoundShape(t.last, t.batches[|t.rounds| - 1])
    requires c.Answer(base, t.batches, |t.rounds| - 1) == Answered(next)
    ensures Running(c, base, initial, step, pool, pool', t.(last := next), next)
  {
  }

  /** A round that raised ends the loop with that error. */
  lemma LoopRaised(c: Resubmit, base: seq<Message>, initial: Reply, maxIterations: int, step: CallStep, pool: Pool,
                   pool': Pool, t: Trace, error: string)
    requires Rounded(c, base, initial, step, pool, pool', t) && |t.rounds| <= maxIterations
    requires RoundOf(step, t.pools[|t.rounds| - 1], t.last).raised == Some(error)
    ensures Loop(c, base, initial, maxIterations, step, pool, pool', Raised(error), t)
  {
  }

  /** A completed round whose resubmission failed ends the loop with the
      text of that round's reply. */
  lemma LoopApiFailed(c: Resubmit, base: seq<Message>, initial: Reply, maxIterations: int, step: CallStep,
                      pool: Pool, pool': Pool, t: Trace)
    requires Rounded(c, base, initial, step, pool, pool', t) && |t.rounds| <= maxIterations
    requires RoundOf(step, t.pools[|t.rounds| - 1], t.last).raised.None?
    requires RoundShape(t.last, t.batches[|t.rounds| - 1])
    requires c.Answer(base, t.batches, |t.rounds| - 1).ApiError?
    ensures Loop(c, base, initial, maxIterations, step, pool, pool',
                 Finished(FinalText(t.last), |t.rounds| >= maxIterations), t)
  {
  }

  /** The loop ends on a reply without calls or at the cap. */
  lemma LoopEnded(c: Resubmit, base: seq<Message>, initial: Reply, maxIterations: int, step: CallStep, pool: Pool,
                  pool': Pool, t: Trace)
    requires Running(c, base, initial, step, pool, pool', t, t.last)
    requires t.rounds == [] || |t.rounds| <= maxIterations
    requires t.last.toolCalls == [] || |t.rounds| >= maxIterations
    ensures Loop(c, base, initial, maxIterations, step, pool, pool',
                 Finished(FinalText(t.last), |t.rounds| >= maxIterations), t)
  {
  }

  /** The history after one more round's messages. */
  lemma HistoryGrows(base: seq<Message>, batches: seq<seq<Message>>, batch: seq<Message>, before: seq<Message>,
                     after: seq<Message>)
    requires before == base + Flatten(batches) && after == before + batch
    ensures after == base + Flatten(batches + [batch])
  {
    FlattenSnoc(batches, batch);
  }

  /** The last round of `t` stopped at the call whose arguments `parse`
      rejected with `error`: its messages record the calls before that one. */
  ghost predicate StoppedAt(t: Trace, parse: string -> Result<Json, string>, error: string) {
    && 0 < |t.rounds| <= |t.batches|
    && var batch := t.batches[|t.rounds| - 1];
       PartialRound(t.last, batch) && parse(t.last.toolCalls[|batch| - 1].arguments) == Failure(error)
  }

  /** A round of the loop, with the trace extended by it. */
  method TracedRound(mgr: McpManager.ServerManager?, history: History, message: Reply, c: Resubmit,
                     ghost base: seq<Message>, ghost initial: Reply, ghost step: CallStep, ghost pool: Pool,
                     ghost t: Trace, parse: string -> Result<Json, string>, now: int, servers: McpManager.Servers)
    returns (raised: Option<string>, ghost t': Trace)
    requires Runs(step, EnvOf(mgr), parse, now, servers)
    requires Running(c, base, initial, step, pool, PoolOf(mgr), t, message)
    requires history.messages == base + Flatten(t.batches)
    requires message.toolCalls != []
    modifies history, mgr
    ensures EnvOf(mgr) == old(EnvOf(mgr))
    ensures mgr != null ==> mgr.toolsListCache == old(mgr.toolsListCache)
    ensures t'.rounds == t.rounds + [message] && t'.last == message
    ensures Rounded(c, base, initial, step, pool, PoolOf(mgr), t')
    ensures t'.pools[|t.rounds|] == old(PoolOf(mgr))
    ensures history.messages == base + Flatten(t'.batches)
    ensures raised == RoundOf(step, old(PoolOf(mgr)), message).raised
    ensures raised.None? ==> RoundShape(message, t'.batches[|t.rounds|])
    ensures raised.Some? ==> StoppedAt(t', parse, raised.value)
  {
    ghost var before := history.messages;
    ghost var batch, values;
    raised, batch, values := RunRound(mgr, history, message, step, parse, now, servers);
    ExtendRan(c, base, initial, t.rounds, t.batches, message, batch);
    ExtendEffects(step, t.pools, t.rounds, t.valuess, t.batches, message, values, batch, PoolOf(mgr));
    HistoryGrows(base, t.batches, batch, before, history.messages);
    t' := Trace(t.rounds + [message], t.batches + [batch], t.pools + [PoolOf(mgr)], t.valuess + [values], message);
  }

  /** One pass of the loop: a round, then the resubmission. `done` is the
      loop's outcome when the pass ends it, else `next` is the reply the
      next pass runs. */
  method Iterate(mgr: McpManager.ServerManager?, history: History, message: Reply, c: Resubmit, iteration: nat,
                 maxIterations: int, ghost base: seq<Message>, ghost initial: Reply, ghost step: CallStep,
                 ghost pool: Pool, ghost t: Trace, parse: string -> Result<Json, string>, now: int,
                 servers: McpManager.Servers)
    returns (done: Option<LoopOutcome>, next: Reply, ghost t': Trace)
    requires Runs(step, EnvOf(mgr), parse, now, servers)
    requires Running(c, base, initial, step, pool, PoolOf(mgr), t, message) && t.last == message
    requires history.messages == base + Flatten(t.batches)
    requires message.toolCalls != [] && iteration == |t.rounds| + 1 && iteration <= maxIterations
    modifies history, mgr
    ensures EnvOf(mgr) == old(EnvOf(mgr))
    ensures mgr != null ==> mgr.toolsListCache == old(mgr.toolsListCache)
    ensures |t'.rounds| == iteration && history.messages == base + Flatten(t'.batches)
    ensures done.Some? ==> Loop(c, base, initial, maxIterations, step, pool, PoolOf(mgr), done.value, t')
    ensures done.Some? && done.value.Raised? ==> StoppedAt(t', parse, done.value.error)
    ensures done.None? ==> Running(c, base, initial, step, pool, PoolOf(mgr), t', next) && t'.last == next
  {
    var raised;
    raised, t' := TracedRound(mgr, history, message, c, base, initial, step, pool, t, parse, now, servers);
    next := message;
    if raised.Some? {
      done := Some(Raised(raised.value));
      LoopRaised(c, base, initial, maxIterations, step, pool, PoolOf(mgr), t', raised.value);
      return;
    }
    LastAnswer(c, base, t'.batches, history.messages, iteration);
    var response := c.api(c.first + iteration - 1, RequestOf(c.model, history.messages, c.maxTokens, c.tools));
    if response.ApiError? {
      done := Some(Finished(FinalText(message), iteration >= maxIterations));
      LoopApiFailed(c, base, initial, maxIterations, step, pool, PoolOf(mgr), t');
      return;
    }
    done, next := None, response.message;
    ContinueRunning(c, base, initial, step, pool, PoolOf(mgr), t', next);
    t' := t'.(last := next);
  }

  /** `execute_tool_loop`: `step` is how it runs calls, `trace` records the
      rounds, their messages, the manager's pool along the way and the reply
      the answer is taken from. */
  method ExecuteToolLoop(mgr: McpManager.ServerManager?, history: History, initial: Reply, c: Resubmit,
                         maxIterations: int, parse: string -> Result<Json, string>, now: int,
                         servers: McpManager.Servers)
    returns (outcome: LoopOutcome, ghost step: CallStep, ghost trace: Trace)
    modifies history, mgr
    ensures Runs(step, old(EnvOf(mgr)), parse, now, servers)
    ensures Loop(c, old(history.messages), initial, maxIterations, step, old(PoolOf(mgr)), PoolOf(mgr), outcome, trace)
    ensures history.messages == old(history.messages) + Flatten(trace.batches)
    ensures outcome.Raised? ==> StoppedAt(trace, parse, outcome.error)
    ensures EnvOf(mgr) == old(EnvOf(mgr))
    ensures mgr != null ==> mgr.toolsListCache == old(mgr.toolsListCache)
  {
    ghost var base, pool := history.messages, PoolOf(mgr);
    step := StepOf(EnvOf(mgr), parse, now, servers);
    var message := initial;
    var iteration := 0;
    trace := Trace([], [], [pool], [], initial);
    while message.toolCalls != [] && iteration < maxIterations
      invariant iteration == |trace.rounds| && trace.last == message
      invariant trace.rounds == [] || |trace.rounds| <= maxIterations
      invariant Running(c, base, initial, step, pool, PoolOf(mgr), trace, message)
      invariant EnvOf(mgr) == old(EnvOf(mgr))
      invariant mgr != null ==> mgr.toolsListCache == old(mgr.toolsListCache)
      invariant history.messages == base + Flatten(trace.batches)
      decreases maxIterations - iteration
    {
      iteration := iteration + 1;
      var done;
      done, message, trace := Iterate(mgr, history, message, c, iteration, maxIterations, base, initial, step, pool,
                                      trace, parse, now, servers);
      if done.Some? {
        outcome := done.value;
        return;
      }
    }
    outcome := Finished(FinalText(message), iteration >= maxIterations);
    LoopEnded(c, base, initial, maxIterations, step, pool, PoolOf(mgr), trace);
  }
}
