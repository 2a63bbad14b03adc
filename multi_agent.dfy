/**
 * The supervisor pattern: a supervisor agent hands a request to one worker
 * through a `transfer_to_{worker}` tool call, or answers it itself; the
 * worker's answer, or an apology when it fails, ends the run.
 *
 * The agents themselves and the graph library are not part of this model:
 * what an agent answered is a parameter.
 */
module MultiAgent {
  import opened Wrappers
  import opened PyStr
  import opened Json
  import opened AgentBase
  import Middleware

  /** A message of the graph: its content and the names of the tool calls it holds (none when it has no calls). */
  datatype GraphMessage = GraphMessage(role: string, content: string, toolCalls: seq<Option<string>>)

  /** Where the graph goes after a node: a worker, or the end. */
  datatype Goto = ToWorker(name: string) | End

  /** `Command(update={"messages": ...}, goto=...)`. */
  datatype Command = Command(messages: seq<GraphMessage>, goto: Goto)

  /** The name of the tool that hands a request to a worker. */
  function HandoffTool(worker: string): string
  {
    "transfer_to_" + worker
  }

  /** What a handoff tool answers: `"Transferring to {name}: {request}"`. */
  function HandoffReply(worker: string, request: string): string
  {
    "Transferring to " + worker + ": " + request
  }

  // ---------------------------------------------------------------- the supervisor's routing scan

  /** The first worker whose handoff tool has the given name. */
  function WorkerCalled(toolName: string, workers: seq<string>): (r: Option<string>)
    ensures r.Some? ==> r.value in workers && toolName == HandoffTool(r.value)
    ensures r.None? <==> forall w :: w in workers ==> toolName != HandoffTool(w)
  {
    if workers == [] then None
    else if toolName == HandoffTool(workers[0]) then Some(workers[0])
    else WorkerCalled(toolName, workers[1..])
  }

  /** The worker of the first call, in order, that names a handoff tool. */
  function FirstHandoffIn(calls: seq<Option<string>>, workers: seq<string>): (r: Option<string>)
    ensures r.Some? ==> r.value in workers && exists k :: 0 <= k < |calls| && calls[k].GetOr("") == HandoffTool(r.value)
    ensures r.None? <==> forall k :: 0 <= k < |calls| ==> WorkerCalled(calls[k].GetOr(""), workers).None?
  {
    if calls == [] then None
    else
      match WorkerCalled(calls[0].GetOr(""), workers)
      case Some(w) => Some(w)
      case None => FirstHandoffIn(calls[1..], workers)
  }

  /**
   * The scan of `supervisor_node`: the messages in order, and the tool
   * calls of each in order; the first call naming a worker's handoff tool
   * decides.
   */
  function Route(messages: seq<GraphMessage>, workers: seq<string>): (r: Option<string>)
    ensures r.Some? ==> r.value in workers
    ensures r.None? <==> forall i :: 0 <= i < |messages| ==> FirstHandoffIn(messages[i].toolCalls, workers).None?
  {
    if messages == [] then None
    else
      match FirstHandoffIn(messages[0].toolCalls, workers)
      case Some(w) => Some(w)
      case None => Route(messages[1..], workers)
  }

  /** The earliest handoff wins: what follows a message with a handoff call does not matter. */
  lemma {:induction false} RouteFirstWins(first: seq<GraphMessage>, rest: seq<GraphMessage>, workers: seq<string>)
    requires Route(first, workers).Some?
    ensures Route(first + rest, workers) == Route(first, workers)
  {
    var all := first + rest;
    assert all[0] == first[0];
    var h := FirstHandoffIn(first[0].toolCalls, workers);
    if h.Some? {
      assert Route(all, workers) == h == Route(first, workers);
    } else {
      assert all[1..] == first[1..] + rest;
      RouteFirstWins(first[1..], rest, workers);
      assert Route(all, workers) == Route(all[1..], workers);
    }
  }

  /** Messages without a handoff call are passed over. */
  lemma {:induction false} RouteSkipsPlain(first: seq<GraphMessage>, rest: seq<GraphMessage>, workers: seq<string>)
    requires Route(first, workers).None?
    ensures Route(first + rest, workers) == Route(rest, workers)
  {
    if first == [] {
      assert first + rest == rest;
    } else {
      assert (first + rest)[1..] == first[1..] + rest;
      assert FirstHandoffIn(first[0].toolCalls, workers).None?;
      RouteSkipsPlain(first[1..], rest, workers);
    }
  }

  /**
   * `supervisor_node`: on a handoff, the original input goes to the chosen
   * worker; otherwise the run ends with the supervisor's own messages.
   */
  function SupervisorNode(input: seq<GraphMessage>, response: seq<GraphMessage>, workers: seq<string>): (c: Command)
    ensures Route(response, workers).Some? ==> c == Command(input, ToWorker(Route(response, workers).value))
    ensures Route(response, workers).None? ==> c == Command(response, End)
    ensures c.goto.ToWorker? ==> c.goto.name in workers
  {
    match Route(response, workers)
    case Some(w) => Command(input, ToWorker(w))
    case None => Command(response, End)
  }

  // ---------------------------------------------------------------- workers

  /** The apology of a failed worker. */
  function WorkerErrorText(name: string): string
  {
    "The " + name + " specialist encountered an error. Please try again."
  }

  /**
   * `worker_node`: the worker's messages when it answered, else exactly one
   * assistant message with the apology; the run ends either way.
   */
  function WorkerNode(name: string, outcome: Result<seq<GraphMessage>, string>): (c: Command)
    ensures c.goto == End
    ensures outcome.Ok? ==> c.messages == outcome.value
    ensures outcome.Err? ==> c.messages == [GraphMessage("ai", WorkerErrorText(name), [])]
  {
    match outcome
    case Ok(messages) => Command(messages, End)
    case Err(_) => Command([GraphMessage("ai", WorkerErrorText(name), [])], End)
  }

  /** `V1MultiAgentConfig`'s switches and the sensitive patterns. */
  datatype AgentConfig = AgentConfig(
    enableHitl: bool, enableTracing: bool, enableMetrics: bool, enableMemory: bool,
    sensitivePatterns: Option<seq<string>>)

  /** The defaults: every switch on, no patterns of its own. */
  const DefaultConfig := AgentConfig(true, true, true, true, None)

  /** The approval middleware of a worker, with the default timeout. */
  function WorkerApproval(config: AgentConfig, configuredPatterns: seq<string>): Middleware.Layer
  {
    Middleware.Approval(Middleware.NewHitlMiddleware(config.sensitivePatterns, Middleware.DefaultTimeoutSeconds,
                                                     configuredPatterns))
  }

  /**
   * `_build_worker_middleware`: tracing, metrics and approval, each when
   * its switch is on; never the prompt, summarization or tool filter.
   */
  function WorkerMiddleware(config: AgentConfig, configuredPatterns: seq<string>): (r: seq<Middleware.Layer>)
    ensures |r| <= 3
  {
    Middleware.When(config.enableTracing, Middleware.Tracing) +
    Middleware.When(config.enableMetrics, Middleware.Metrics) +
    Middleware.When(config.enableHitl, WorkerApproval(config, configuredPatterns))
  }

  /** A worker's middleware is each switched-on one of tracing, metrics and approval, in that order. */
  lemma WorkerMiddlewareShape(config: AgentConfig, configuredPatterns: seq<string>)
    ensures var r := WorkerMiddleware(config, configuredPatterns);
      (Middleware.Tracing in r <==> config.enableTracing) &&
      (Middleware.Metrics in r <==> config.enableMetrics) &&
      (WorkerApproval(config, configuredPatterns) in r <==> config.enableHitl) &&
      Middleware.Ordered(r) && Middleware.DynamicPrompt !in r && Middleware.ToolFilter !in r
  {
    var hitl := WorkerApproval(config, configuredPatterns);
    var r0: seq<Middleware.Layer> := [];
    var r1 := r0 + Middleware.When(config.enableTracing, Middleware.Tracing);
    var r2 := r1 + Middleware.When(config.enableMetrics, Middleware.Metrics);
    var r3 := r2 + Middleware.When(config.enableHitl, hitl);
    assert r0 + Middleware.When(config.enableTracing, Middleware.Tracing) == Middleware.When(config.enableTracing, Middleware.Tracing);
    Middleware.AppendNext(r0, 2, config.enableTracing, Middleware.Tracing);
    Middleware.AppendNext(r1, 3, config.enableMetrics, Middleware.Metrics);
    Middleware.AppendNext(r2, 4, config.enableHitl, hitl);
    forall y | y in {Middleware.Tracing, Middleware.Metrics, hitl, Middleware.DynamicPrompt, Middleware.ToolFilter}
      ensures y in r3 <==>
        (config.enableTracing && y == Middleware.Tracing) || (config.enableMetrics && y == Middleware.Metrics) ||
        (config.enableHitl && y == hitl)
    {
      Middleware.InAppendWhen(r0, config.enableTracing, Middleware.Tracing, y);
      Middleware.InAppendWhen(r1, config.enableMetrics, Middleware.Metrics, y);
      Middleware.InAppendWhen(r2, config.enableHitl, hitl, y);
    }
  }

  /** The supervisor's middleware: tracing and metrics when tracing is on, else none. */
  function SupervisorMiddleware(config: AgentConfig): (r: seq<Middleware.Layer>)
    ensures config.enableTracing ==> r == [Middleware.Tracing, Middleware.Metrics]
    ensures !config.enableTracing ==> r == []
  {
    if config.enableTracing then [Middleware.Tracing, Middleware.Metrics] else []
  }

  // ---------------------------------------------------------------- answering a request

  const NoMemoryFound := "No relevant memory found."

  /** The hint placed before the conversation. */
  function MemoryHint(memory: string): Message
  {
    Message("system", "Relevant memory from previous conversations:\n" + memory)
  }

  /**
   * The input of `get_response` and `get_stream_response`: the messages as
   * they are, preceded, for a known user with memory switched on, by the
   * memory hint; the memory of the last message's content is looked up
   * (`lookup`), and an empty answer becomes `No relevant memory found.`.
   * Looking up the memory of an empty conversation raises (`None`).
   */
  function InputMessages(messages: seq<Message>, userId: Option<string>, config: AgentConfig,
                         lookup: (string, string) -> string): (r: Option<seq<Message>>)
    ensures r.None? <==> userId.Some? && userId.value != "" && config.enableMemory && messages == []
    ensures r.Some? && !(userId.Some? && userId.value != "" && config.enableMemory) ==> r.value == messages
    ensures r.Some? && userId.Some? && userId.value != "" && config.enableMemory ==>
      var found := lookup(userId.value, messages[|messages| - 1].content);
      r.value == [MemoryHint(if found != "" then found else NoMemoryFound)] + messages
  {
    if userId.Some? && userId.value != "" && config.enableMemory then
      if messages == [] then None
      else
        var found := lookup(userId.value, messages[|messages| - 1].content);
        var memory := if found != "" then found else NoMemoryFound;
        Some([MemoryHint(memory)] + messages)
    else Some(messages)
  }

  /** With memory on for a known user the hint always comes first, and the conversation follows unchanged. */
  lemma MemoryHintFirst(messages: seq<Message>, userId: string, config: AgentConfig, lookup: (string, string) -> string)
    requires userId != "" && config.enableMemory && messages != []
    ensures var r := InputMessages(messages, Some(userId), config, lookup);
      r.Some? && |r.value| == |messages| + 1 && r.value[0].role == "system" && r.value[1..] == messages
  {
  }

  /**
   * `get_response`: the run's messages, processed, or none at all when the
   * run raised; `None` when the memory lookup itself raises.
   */
  function GetResponse(messages: seq<Message>, userId: Option<string>, config: AgentConfig,
                       lookup: (string, string) -> string, run: seq<Message> -> Result<seq<ChatEntry>, string>,
                       containerText: Json -> string): (r: Option<seq<Message>>)
    ensures r.None? <==> InputMessages(messages, userId, config, lookup).None?
    ensures r.Some? && run(InputMessages(messages, userId, config, lookup).value).Err? ==> r.value == []
    ensures r.Some? && run(InputMessages(messages, userId, config, lookup).value).Ok? ==>
      r.value == ProcessMessages(run(InputMessages(messages, userId, config, lookup).value).value, containerText)
    ensures r.Some? ==> forall i :: 0 <= i < |r.value| ==> r.value[i].role == "assistant" || r.value[i].role == "user"
  {
    match InputMessages(messages, userId, config, lookup)
    case None => None
    case Some(input) =>
      match run(input)
      case Ok(entries) => Some(ProcessMessages(entries, containerText))
      case Err(_) => Some([])
  }
}
