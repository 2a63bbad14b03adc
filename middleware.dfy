/**
 * The agent middleware: the role-based tool filter placed around each
 * model call, the approval middleware placed around each tool call, and
 * the factory that assembles the default middleware stack.
 *
 * The model call and the tool execution are the `handler` parameters; what
 * they return is opaque here.
 */
module Middleware {
  import opened Wrappers
  import opened PyStr

  /** `AgentContext`: who is calling, from which session, with which role. */
  datatype AgentContext = AgentContext(userId: string, sessionId: string, relevantMemory: string, userRole: string)

  /** The context's defaults: empty ids and memory, role `user`. */
  const DefaultContext := AgentContext("", "", "", "user")

  /** A tool offered to the model, known by its name. */
  datatype Tool = Tool(name: string)

  /** A model request: the tools on offer and the runtime context, when there is one. */
  datatype ModelRequest = ModelRequest(tools: seq<Tool>, context: Option<AgentContext>)

  // ---------------------------------------------------------------- role-based tool filter

  /** The tools only an admin may use. */
  predicate AdminOnly(name: string)
  {
    name == "create_skill" || name == "update_skill"
  }

  /** The role of the caller: the context's role, or `user` without a context. */
  function RoleOf(context: Option<AgentContext>): (role: string)
    ensures context.None? ==> role == DefaultContext.userRole
  {
    match context
    case None => "user"
    case Some(ctx) => ctx.userRole
  }

  /** `[t for t in tools if t.name not in _ADMIN_ONLY_TOOLS]`. */
  function WithoutAdminTools(tools: seq<Tool>): (r: seq<Tool>)
    ensures |r| <= |tools|
    ensures forall t :: t in r <==> t in tools && !AdminOnly(t.name)
  {
    if tools == [] then []
    else
      var rest := WithoutAdminTools(tools[1..]);
      if AdminOnly(tools[0].name) then rest else [tools[0]] + rest
  }

  /** Filtering two lists of tools one after the other keeps their order. */
  lemma {:induction false} WithoutAdminToolsAppend(a: seq<Tool>, b: seq<Tool>)
    ensures WithoutAdminTools(a + b) == WithoutAdminTools(a) + WithoutAdminTools(b)
  {
    if a == [] {
      assert a + b == b;
    } else {
      assert (a + b)[1..] == a[1..] + b;
      WithoutAdminToolsAppend(a[1..], b);
    }
  }

  /** The filter removes a tool exactly when it is admin-only: it changes nothing when there is none. */
  lemma {:induction false} WithoutAdminToolsCount(tools: seq<Tool>)
    ensures |WithoutAdminTools(tools)| == |tools| <==> forall i :: 0 <= i < |tools| ==> !AdminOnly(tools[i].name)
    ensures (forall i :: 0 <= i < |tools| ==> !AdminOnly(tools[i].name)) ==> WithoutAdminTools(tools) == tools
  {
    if tools != [] {
      WithoutAdminToolsCount(tools[1..]);
      assert forall i :: 1 <= i < |tools| ==> tools[i] == tools[1..][i - 1];
    }
  }

  /**
   * The request `role_based_tool_filter` passes on: for a caller other
   * than an admin, the request with the admin-only tools removed, replaced
   * only when something was removed; an admin's request as it is.
   */
  function FilteredRequest(request: ModelRequest): (r: ModelRequest)
    ensures r.context == request.context
    ensures RoleOf(request.context) == "admin" ==> r == request
    ensures RoleOf(request.context) != "admin" ==> r.tools == WithoutAdminTools(request.tools)
  {
    if RoleOf(request.context) != "admin" then
      var filtered := WithoutAdminTools(request.tools);
      WithoutAdminToolsCount(request.tools);
      if |filtered| != |request.tools| then request.(tools := filtered) else request
    else request
  }

  /** `role_based_tool_filter`: the model call on the filtered request. */
  function RoleBasedToolFilter<R>(request: ModelRequest, handler: ModelRequest -> R): (r: R)
    ensures r == handler(FilteredRequest(request))
    ensures RoleOf(request.context) == "admin" ==> r == handler(request)
  {
    handler(FilteredRequest(request))
  }

  /** What the filter hands on to a caller other than an admin holds no admin-only tool and loses no other tool. */
  lemma FilterIsExact(request: ModelRequest, t: Tool)
    requires RoleOf(request.context) != "admin"
    ensures t in FilteredRequest(request).tools <==> t in request.tools && !AdminOnly(t.name)
  {
  }

  // ---------------------------------------------------------------- approval middleware

  /** `HITLApprovalMiddleware`: the name patterns of sensitive tools and the approval timeout. */
  datatype HitlMiddleware = HitlMiddleware(sensitivePatterns: seq<string>, timeoutSeconds: int)

  const DefaultTimeoutSeconds := 3600

  /**
   * The constructor: the given patterns, or the configured ones when none
   * or an empty list is given.
   */
  function NewHitlMiddleware(patterns: Option<seq<string>>, timeoutSeconds: int, configured: seq<string>)
    : (m: HitlMiddleware)
    ensures patterns.Some? && patterns.value != [] ==> m.sensitivePatterns == patterns.value
    ensures patterns.None? || patterns.value == [] ==> m.sensitivePatterns == configured
    ensures m.timeoutSeconds == timeoutSeconds
  {
    var chosen := if patterns.Some? && patterns.value != [] then patterns.value else configured;
    HitlMiddleware(chosen, timeoutSeconds)
  }

  /** `any(pattern in name for pattern in patterns)`. */
  function AnyPatternIn(patterns: seq<string>, name: string): (r: bool)
    ensures r <==> exists i :: 0 <= i < |patterns| && Contains(name, patterns[i])
  {
    if patterns == [] then false
    else Contains(name, patterns[0]) || AnyPatternIn(patterns[1..], name)
  }

  /** `_is_sensitive`: some pattern occurs in the lower-cased name. */
  predicate IsSensitive(m: HitlMiddleware, toolName: string)
  {
    AnyPatternIn(m.sensitivePatterns, Lower(toolName))
  }

  /** A pattern that occurs in a tool's lower-cased name makes the tool sensitive, and only such a pattern does. */
  lemma SensitiveIff(m: HitlMiddleware, toolName: string)
    ensures IsSensitive(m, toolName) <==>
      exists p :: p in m.sensitivePatterns && Contains(Lower(toolName), p)
  {
    if IsSensitive(m, toolName) {
      var i :| 0 <= i < |m.sensitivePatterns| && Contains(Lower(toolName), m.sensitivePatterns[i]);
      assert m.sensitivePatterns[i] in m.sensitivePatterns;
    }
  }

  /** A tool call's `name` and `id` entries. */
  datatype ToolCall = ToolCall(name: Option<string>, id: Option<string>)

  /**
   * What a tool-call middleware receives: a request carrying a tool call
   * and a runtime context, or a bare dictionary with a `name` entry.
   */
  datatype ToolCallRequest =
    | CallRequest(toolCall: ToolCall, context: Option<AgentContext>)
    | DictRequest(name: Option<string>)

  /** `ToolMessage`: the text sent back to the model in place of a tool's result, and the call it answers. */
  datatype ToolMessage = ToolMessage(content: string, toolCallId: string)

  /** The result of a tool call through the middleware: the handler's, or the approval notice. */
  datatype ToolReply<R> = Passed(result: R) | ApprovalRequired(message: ToolMessage)

  /** The name of the called tool, `""` when it has none. */
  function ToolNameOf(request: ToolCallRequest): string
  {
    match request
    case CallRequest(call, _) => call.name.GetOr("")
    case DictRequest(name) => name.GetOr("")
  }

  /** The id of the call the notice answers: the call's `id`, `""` for a bare dictionary. */
  function ToolCallIdOf(request: ToolCallRequest): string
  {
    match request
    case CallRequest(call, _) => call.id.GetOr("")
    case DictRequest(_) => ""
  }

  /** The notice returned in place of running a sensitive tool. */
  function ApprovalNotice(toolName: string): string
  {
    NoticeHead() + Quoted(toolName) + NoticeTail()
  }

  function NoticeHead(): string { "\U{1F512} Action " }

  function NoticeTail(): string { " requires human approval. Please use the approval API to approve or reject this action." }

  /** A name between backquotes. */
  function Quoted(name: string): string
  {
    "`" + name + "`"
  }

  /**
   * `wrap_tool_call`: a call of a tool that is not sensitive goes to the
   * handler and its result comes back unchanged; a sensitive one never
   * reaches the handler and is answered with the approval notice for the
   * tool, carrying the call's id.
   */
  function WrapToolCall<R>(m: HitlMiddleware, request: ToolCallRequest, handler: ToolCallRequest -> R)
    : (r: ToolReply<R>)
    ensures !IsSensitive(m, ToolNameOf(request)) ==> r == Passed(handler(request))
    ensures IsSensitive(m, ToolNameOf(request)) ==>
      r == ApprovalRequired(ToolMessage(ApprovalNotice(ToolNameOf(request)), ToolCallIdOf(request)))
  {
    var toolName := ToolNameOf(request);
    if !IsSensitive(m, toolName) then Passed(handler(request))
    else ApprovalRequired(ToolMessage(ApprovalNotice(toolName), ToolCallIdOf(request)))
  }

  /** The approval notice names the tool, in backquotes. */
  lemma NoticeNamesTool(toolName: string)
    ensures Contains(ApprovalNotice(toolName), Quoted(toolName))
  {
    ContainsMiddle(NoticeHead(), Quoted(toolName), NoticeTail());
  }

  lemma ContainsMiddle(x: string, y: string, z: string)
    ensures Contains(x + y + z, y)
  {
    assert (x + y + z)[|x|..|x| + |y|] == y;
    assert OccursAt(x + y + z, y, |x|);
  }

  // ---------------------------------------------------------------- default stack

  /** The configured defaults the factory falls back on. */
  datatype Settings = Settings(
    summarizationModel: string,
    summarizationTriggerTokens: int,
    summarizationKeepMessages: int,
    sensitiveToolPatterns: seq<string>)

  /** A middleware of the default stack. */
  datatype Layer =
    | DynamicPrompt
    | Summarization(model: string, triggerTokens: int, keepMessages: int)
    | ToolFilter
    | Tracing
    | Metrics
    | Approval(hitl: HitlMiddleware)

  /** Where each kind of middleware sits in the stack. */
  function Rank(l: Layer): nat
  {
    match l
    case DynamicPrompt => 0
    case Summarization(_, _, _) => 1
    case ToolFilter => 2
    case Tracing => 3
    case Metrics => 4
    case Approval(_) => 5
  }

  /** The factory's switches and overrides; an override that is absent or empty falls back on the settings. */
  datatype StackOptions = StackOptions(
    enableHitl: bool,
    enableTracing: bool,
    enableMetrics: bool,
    enableSummarization: bool,
    enableToolFilter: bool,
    summarizationModel: Option<string>,
    summarizationTriggerTokens: Option<int>,
    summarizationKeepMessages: Option<int>,
    sensitivePatterns: Option<seq<string>>)

  /** All switches on and no overrides, as the factory's defaults are. */
  const DefaultOptions := StackOptions(true, true, true, true, true, None, None, None, None)

  /** `x or default` for a string. */
  function OrString(x: Option<string>, default: string): (r: string)
    ensures x.Some? && x.value != "" ==> r == x.value
    ensures x.None? || x.value == "" ==> r == default
  {
    if x.Some? && x.value != "" then x.value else default
  }

  /** `x or default` for an int. */
  function OrInt(x: Option<int>, default: int): (r: int)
    ensures x.Some? && x.value != 0 ==> r == x.value
    ensures x.None? || x.value == 0 ==> r == default
  {
    if x.Some? && x.value != 0 then x.value else default
  }

  /** `[x] if on else []`. */
  function When(on: bool, x: Layer): (r: seq<Layer>)
    ensures on ==> r == [x]
    ensures !on ==> r == []
  {
    if on then [x] else []
  }

  /** The summarization middleware as configured. */
  function SummarizationLayer(options: StackOptions, settings: Settings): Layer
  {
    Summarization(OrString(options.summarizationModel, settings.summarizationModel),
                  OrInt(options.summarizationTriggerTokens, settings.summarizationTriggerTokens),
                  OrInt(options.summarizationKeepMessages, settings.summarizationKeepMessages))
  }

  /** The approval middleware as configured, with the default timeout. */
  function ApprovalLayer(options: StackOptions, settings: Settings): Layer
  {
    Approval(NewHitlMiddleware(options.sensitivePatterns, DefaultTimeoutSeconds, settings.sensitiveToolPatterns))
  }

  /** `create_default_middleware`: the dynamic prompt, then each middleware whose switch is on. */
  function DefaultMiddleware(options: StackOptions, settings: Settings): (r: seq<Layer>)
    ensures |r| >= 1 && r[0] == DynamicPrompt
  {
    [DynamicPrompt] +
    When(options.enableSummarization, SummarizationLayer(options, settings)) +
    When(options.enableToolFilter, ToolFilter) +
    When(options.enableTracing, Tracing) +
    When(options.enableMetrics, Metrics) +
    When(options.enableHitl, ApprovalLayer(options, settings))
  }

  /** Each middleware is in the stack exactly when its switch is on. */
  lemma DefaultMiddlewarePresence(options: StackOptions, settings: Settings)
    ensures var r := DefaultMiddleware(options, settings);
      (SummarizationLayer(options, settings) in r <==> options.enableSummarization) &&
      (ToolFilter in r <==> options.enableToolFilter) &&
      (Tracing in r <==> options.enableTracing) &&
      (Metrics in r <==> options.enableMetrics) &&
      (ApprovalLayer(options, settings) in r <==> options.enableHitl)
  {
    var sum := SummarizationLayer(options, settings);
    var app := ApprovalLayer(options, settings);
    var r0: seq<Layer> := [DynamicPrompt];
    var r1 := r0 + When(options.enableSummarization, sum);
    var r2 := r1 + When(options.enableToolFilter, ToolFilter);
    var r3 := r2 + When(options.enableTracing, Tracing);
    var r4 := r3 + When(options.enableMetrics, Metrics);
    var r5 := r4 + When(options.enableHitl, app);
    forall y | y in {sum, ToolFilter, Tracing, Metrics, app}
      ensures y in r5 <==>
        (options.enableSummarization && y == sum) || (options.enableToolFilter && y == ToolFilter) ||
        (options.enableTracing && y == Tracing) || (options.enableMetrics && y == Metrics) ||
        (options.enableHitl && y == app)
    {
      InAppendWhen(r0, options.enableSummarization, sum, y);
      InAppendWhen(r1, options.enableToolFilter, ToolFilter, y);
      InAppendWhen(r2, options.enableTracing, Tracing, y);
      InAppendWhen(r3, options.enableMetrics, Metrics, y);
      InAppendWhen(r4, options.enableHitl, app, y);
    }
  }

  lemma InAppendWhen(r: seq<Layer>, on: bool, x: Layer, y: Layer)
    ensures y in r + When(on, x) <==> y in r || (on && y == x)
  {
  }

  /** Every middleware comes after all those of lower rank. */
  predicate Ordered(r: seq<Layer>)
  {
    forall i, j :: 0 <= i < j < |r| ==> Rank(r[i]) < Rank(r[j])
  }

  /** No middleware ranks above `k`. */
  predicate RankedBelow(r: seq<Layer>, k: nat)
  {
    forall i :: 0 <= i < |r| ==> Rank(r[i]) <= k
  }

  lemma AppendNext(r: seq<Layer>, k: nat, on: bool, x: Layer)
    requires Ordered(r) && RankedBelow(r, k) && Rank(x) == k + 1
    ensures Ordered(r + When(on, x)) && RankedBelow(r + When(on, x), k + 1)
  {
    if on {
      var s := r + [x];
      forall i, j | 0 <= i < j < |s|
        ensures Rank(s[i]) < Rank(s[j])
      {
        if j < |r| {
          assert s[i] == r[i] && s[j] == r[j];
        } else {
          assert s[i] == r[i] && s[j] == x;
        }
      }
    } else {
      assert r + [] == r;
    }
  }

  /** The stack is in the documented order: prompt, summarization, tool filter, tracing, metrics, approval. */
  lemma DefaultMiddlewareOrdered(options: StackOptions, settings: Settings)
    ensures Ordered(DefaultMiddleware(options, settings))
  {
    var r0: seq<Layer> := [DynamicPrompt];
    AppendNext(r0, 0, options.enableSummarization, SummarizationLayer(options, settings));
    var r1 := r0 + When(options.enableSummarization, SummarizationLayer(options, settings));
    AppendNext(r1, 1, options.enableToolFilter, ToolFilter);
    var r2 := r1 + When(options.enableToolFilter, ToolFilter);
    AppendNext(r2, 2, options.enableTracing, Tracing);
    var r3 := r2 + When(options.enableTracing, Tracing);
    AppendNext(r3, 3, options.enableMetrics, Metrics);
    var r4 := r3 + When(options.enableMetrics, Metrics);
    AppendNext(r4, 4, options.enableHitl, ApprovalLayer(options, settings));
  }

  /** The stack holds one middleware per switch that is on, after the dynamic prompt. */
  lemma DefaultMiddlewareSize(options: StackOptions, settings: Settings)
    ensures |DefaultMiddleware(options, settings)| ==
      1 + (if options.enableSummarization then 1 else 0) + (if options.enableToolFilter then 1 else 0) +
      (if options.enableTracing then 1 else 0) + (if options.enableMetrics then 1 else 0) +
      (if options.enableHitl then 1 else 0)
  {
  }

  /** With the factory's defaults the stack is complete, in the documented order. */
  lemma DefaultStackComplete(settings: Settings)
    ensures DefaultMiddleware(DefaultOptions, settings) ==
      [DynamicPrompt, SummarizationLayer(DefaultOptions, settings), ToolFilter, Tracing, Metrics,
       ApprovalLayer(DefaultOptions, settings)]
    ensures ApprovalLayer(DefaultOptions, settings).hitl ==
      HitlMiddleware(settings.sensitiveToolPatterns, DefaultTimeoutSeconds)
  {
  }
}
