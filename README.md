# A verified model of the agent template's core

This project models, in Dafny, the logic at the heart of a FastAPI and
LangGraph agent template: the parts that decide, schedule, filter, parse
and format, with every language-model, network, database and file-system
call replaced by a parameter of the operation that makes it.

What is modelled, one module per source file:

- **Workflows** (`WorkflowSchema`, `WorkflowGraph`, `Planner`, `Templates`):
  the orchestrator-worker round scheduler, a method whose loop runs a plan
  round by round. Each round dispatches every step whose dependencies all
  have results and appends one result per step. The scheduler stops when
  no step can run and folds the result log into the synthesis report. The
  module also covers the planner (a template by name, model planning with
  fence stripping, worker filtering and defaults, the one-step fallback
  plan) and the YAML template registry.
- **Workers and the supervisor** (`Workers`, `MultiAgent`, `AgentBase`,
  `Middleware`): the worker registry and a worker call with its error
  fallback, and the supervisor's handoff scan. It also covers the message
  filter, the memory bullets, the run-once MCP tool loading, the role-based
  tool filter, the approval middleware's sensitive-tool match and the
  default middleware stack.
- **Human approval** (`Hitl`, `ApprovalApi`): the approval manager, a
  class over a dictionary of requests. A request moves from PENDING to
  APPROVED, REJECTED or EXPIRED and never leaves those. Listing expires
  requests lazily and the sweep expires them eagerly. The HTTP layer above
  it maps failures to 404, 403 and 400. No agent path files a request with the
  manager: the class docstring of `HITLApprovalMiddleware`
  (app/core/langgraph/v1/middleware.py:131-133) says it creates an approval
  request and blocks, but `wrap_tool_call` (lines 157-191) only answers a
  sensitive call with the approval notice, and `Middleware.WrapToolCall`
  models that code. Only the tests call `create_request`.
- **Knowledge bases** (`RagSchema`, `RagManager`, `RagHttp`, `RagIngest`,
  `RagApi`, `RagTool`): the retrieval records and their context strings.
  It also covers the provider registry with its targeting, deduplicating,
  sorting and truncating merge; the generic HTTP provider, with dotted-path
  navigation of the response; ingestion, with extension handling, batching
  and document listing; the upload endpoint's validation order; and the
  retrieval tool's output.
- **Streaming** (`Sse`): server-sent events framing (a `data:` event per
  chunk and a closing `done` event). Beside it sits a reference client that
  decodes the events per section 9.2.6 of the WHATWG HTML Living Standard
  and the JSON strings per section 7 of RFC 8259, and gets the chunks back.
- **MCP** (`McpClient`): the enabled servers of the configuration and
  loading their tools once.
- **Skills** (`SkillFormat`, `SkillsRegistry`, `SkillPrompts`,
  `SkillCreator`): the `---` frontmatter parser and the serializer whose
  files it reads back unchanged. It also covers the skill registry (load,
  register, version-incrementing upsert, unregister, the prompt section,
  `load_skill`) and the skill creator (its prompts and the two messages it
  sends, unfencing the model's answer, conversation formatting,
  `NO_SKILL_FOUND`, update carry-over).

`PyStr` holds the Python string operations the source relies on (`strip`,
`lower`, `split`, `join`, `find`, `int()` and `str()` of integers).
`PyRepr` holds `repr` of a string, as `str()` of a `KeyError` shows its
message, with the reader that gets the text back.
`Sorting` holds the stable sort by key that `sorted` performs. `Json`
holds the values the JSON and YAML loaders produce. `Wrappers` holds
`Option` and `Result`.

The clock is an integer parameter `now`, and fresh identifiers are
parameters. Concurrent fan-outs (`asyncio.gather`, LangGraph `Send`) are
modelled as sequential calls in dispatch order. Waiting on an approval is
modelled as an outcome: signalled, or timed out.

One behaviour of the approval manager shows in the model. A request that
listing expires lazily is never signalled, so a coroutine still waiting on
it runs into its timeout. The timeout then stamps the request's resolution
time again, while its status stays EXPIRED.

## Model

| member | source | states |
|---|---|---|
| WorkflowSchema.CompletedIdsAppend | app/core/langgraph/workflow/graph.py:121 | the set of step ids with a result, over a log extended by more results, is the union of the two logs' id sets |
| WorkflowGraph.EligibleSteps | app/core/langgraph/workflow/graph.py:106-114 | selecting the round's steps never yields more steps than the plan has |
| WorkflowGraph.EligibleStepsMember | app/core/langgraph/workflow/graph.py:106-114 | a step is selected exactly when it is in the plan, has no result yet and each of its dependencies has one |
| WorkflowGraph.EligibleStepsAppend | app/core/langgraph/workflow/graph.py:109-113 | selection keeps plan order: selecting from two concatenated step lists concatenates the two selections |
| WorkflowGraph.GetStepsForRound | app/core/langgraph/workflow/graph.py:106-114 | the loop returns exactly the eligible steps in plan order, whatever the round number |
| WorkflowGraph.NoDependencyInSameRound | app/core/langgraph/workflow/graph.py:106-114 | no two steps dispatched in one round depend on each other |
| WorkflowGraph.NothingEligibleWhenAllDone | app/core/langgraph/workflow/graph.py:106-114 | once every step id has a result, no step is eligible |
| WorkflowGraph.EligibleMeansWorkLeft | app/core/langgraph/workflow/graph.py:106-114 | while some step is eligible, some step id still lacks a result |
| WorkflowGraph.ResultsById | app/core/langgraph/workflow/graph.py:129 | the id-to-output map has exactly the ids with a result as keys |
| WorkflowGraph.ResultsByIdLatest | app/core/langgraph/workflow/graph.py:129 | an id's output in the map is the output of that id's last result in the log |
| WorkflowGraph.DepParts | app/core/langgraph/workflow/graph.py:135-138 | one non-empty entry per dependency that has a result; no entries exactly when no dependency has a result |
| WorkflowGraph.DepContextEmpty | app/core/langgraph/workflow/graph.py:133-139 | the dependency context is empty exactly when none of the step's dependencies has a result |
| WorkflowGraph.Dispatch | app/core/langgraph/workflow/graph.py:131-151 | one worker send per eligible step, in order, each carrying that step and its own dependency context |
| WorkflowGraph.AssignWorkersSpec | app/core/langgraph/workflow/graph.py:116-160 | the only send is to the synthesizer exactly when there is no plan or no eligible step; otherwise every send is a worker task, one per eligible step in plan order |
| WorkflowGraph.TaskPrompt | app/core/langgraph/workflow/graph.py:181-183 | the step's task alone without context; otherwise that task, the context heading and the context |
| WorkflowGraph.WorkerTask | app/core/langgraph/workflow/graph.py:162-249 | every outcome yields one result for the step: "not found" for an unknown worker, the reply's content, or "failed" with the error |
| WorkflowGraph.RoundResults | app/core/langgraph/workflow/graph.py:141-151 | one result per worker send, the i-th for the i-th send's step |
| WorkflowGraph.ExecuteRound | app/core/langgraph/workflow/graph.py:141-151 | the loop collects exactly the round's results, one per send in dispatch order |
| WorkflowGraph.CheckCompletion | app/core/langgraph/workflow/graph.py:251-273 | the round is bumped by one exactly when there is a plan and some step id has no result; otherwise no update |
| WorkflowGraph.RouteAfterCheck | app/core/langgraph/workflow/graph.py:359-371 | routing goes to the synthesizer exactly when there is no plan or every step id has a result; otherwise it fans out as `_assign_workers` does |
| WorkflowGraph.RouteDispatchesIffEligible | app/core/langgraph/workflow/graph.py:359-371 | routing starts workers exactly when some step is eligible |
| WorkflowGraph.SynthesizeEmptyIff | app/core/langgraph/workflow/graph.py:275-281 | the report is the "no results" text exactly when the log is empty |
| WorkflowGraph.SynthesizeAppend | app/core/langgraph/workflow/graph.py:284-297 | one more result adds one separated section and raises the reported step count by one |
| WorkflowGraph.SynthesizeSingle | app/core/langgraph/workflow/graph.py:284-297 | a one-result log is reported as the header followed by that result's section |
| WorkflowGraph.Sections | app/core/langgraph/workflow/graph.py:284-290 | one section per result, in log order |
| WorkflowGraph.CompletedIdsPrefix | app/core/langgraph/workflow/graph.py:121 | a longer prefix of the append-only log has at least the ids of a shorter one |
| WorkflowGraph.PendingCount | app/core/langgraph/workflow/graph.py:256-258 | the number of steps without a result is at most the number of steps |
| WorkflowGraph.PendingCountZero | app/core/langgraph/workflow/graph.py:256-260 | no step is pending exactly when every step id has a result (`remaining` is empty) |
| WorkflowGraph.PendingCountShrinks | app/core/langgraph/workflow/graph.py:256-258 | completing the id of a pending step strictly lowers the pending count |
| WorkflowGraph.PendingCountMono | app/core/langgraph/workflow/graph.py:256-258 | more completed ids never mean more pending steps |
| WorkflowGraph.RoundProgress | app/core/langgraph/workflow/graph.py:116-160 | a round that dispatches workers completes at least one pending step |
| WorkflowGraph.OrderedLogExtend | app/core/langgraph/workflow/graph.py:106-151 | appending a round's results keeps the log ordered: each result's dependencies have results earlier in the log |
| WorkflowGraph.RunInvStep | app/core/langgraph/workflow/graph.py:251-371 | one dispatching round keeps the run invariant and strictly lowers the pending count |
| WorkflowGraph.Round | app/core/langgraph/workflow/graph.py:106-371 | a round runs exactly the eligible steps, appends one result per step in order, bumps the round while steps remain and routes as `_route_after_check` does |
| WorkflowGraph.PendingReachesEligible | app/core/langgraph/workflow/graph.py:106-114 | in a plan whose dependencies are ranked below their steps, any step without a result leads down its dependencies to an eligible step |
| WorkflowGraph.AcyclicStopMeansDone | app/core/langgraph/workflow/graph.py:256-272 | when the plan's dependencies name only its steps and form no cycle, a state in which no step can run has a result for every step |
| WorkflowGraph.RunRounds | app/core/langgraph/workflow/graph.py:329-335 | the rounds end with no eligible step left, after at most one round per pending step, with the log in dependency order; an acyclic plan ends with every step completed |
| WorkflowGraph.WorkflowState.constructor | app/core/langgraph/workflow/graph.py:104 | the planner sets the plan and round 0 and nothing else: the result log and final output are the session's checkpointed ones (empty for a fresh session) |
| WorkflowGraph.WorkflowState.Run | app/core/langgraph/workflow/graph.py:313-336 | the run keeps the plan, stops only when no step can run, with every step completed when the plan is acyclic, keeps the log in dependency order, and its final output is the synthesis of the log; without a plan nothing runs |
| Planner.InjectSteps | app/core/langgraph/workflow/planner.py:96-105 | one step per template step, the i-th being the template's i-th with the request appended to its task |
| Planner.InjectUserContext | app/core/langgraph/workflow/planner.py:94-110 | name, reasoning, and every step's id, worker and dependencies are kept; each task gains the user's request |
| Planner.InjectStepsAppend | app/core/langgraph/workflow/planner.py:96-105 | injection distributes over concatenation of step lists |
| Planner.InjectKeepsSchedule | app/core/langgraph/workflow/planner.py:94-110 | the injected plan is scheduled like the template: its eligible steps are the template's eligible steps, injected |
| Planner.InjectKeepsIds | app/core/langgraph/workflow/planner.py:99-104 | the injected plan has the template's step ids |
| Planner.PlanJsonText | app/core/langgraph/workflow/planner.py:177-184 | the text handed to the decoder has no surrounding whitespace |
| Planner.ParsePlanJson | app/core/langgraph/workflow/planner.py:175-189 | the decoder's value when it succeeds, else the planner's own parse error carrying the decoder's message |
| Planner.PlanJsonTextTagged | app/core/langgraph/workflow/planner.py:178-182 | a reply with a `json`-tagged fence decodes the stripped fenced body alone |
| Planner.PlanJsonTextUntagged | app/core/langgraph/workflow/planner.py:178-182 | a reply with an untagged fence decodes the stripped fenced body alone |
| Planner.ConvertStep | app/core/langgraph/workflow/planner.py:126-142 | an entry raises exactly when it is malformed, is skipped exactly when it is well formed and names no registered worker, and is otherwise kept with its own fields |
| Planner.ConvertSteps | app/core/langgraph/workflow/planner.py:125-142 | the loop never keeps more steps than there are entries |
| Planner.SelectedItems | app/core/langgraph/workflow/planner.py:127-134 | the entries naming a registered worker are at most all entries |
| Planner.ConvertStepsLoop | app/core/langgraph/workflow/planner.py:125-142 | the loop over the step entries yields the kept steps, or the entry that made it raise, as the conversion function says |
| Planner.ConvertStepsSpec | app/core/langgraph/workflow/planner.py:125-142 | the loop raises exactly when some entry is malformed; otherwise it keeps one step per entry naming a registered worker, in order, the k-th kept step defaulting to id `step_{k+1}` |
| Planner.ConvertStepsErrStays | app/core/langgraph/workflow/planner.py:125-142 | once the loop has raised on a prefix of the entries, it raises on the whole list with the same culprit |
| Planner.StepItems | app/core/langgraph/workflow/planner.py:126 | iterating a list value gives its entries |
| Planner.PlanFromData | app/core/langgraph/workflow/planner.py:123-148 | a plan needs an object; its name and reasoning are the reply's or the defaults `dynamic` and `LLM-generated plan`, and its steps are what the loop keeps |
| Planner.FallbackPlan | app/core/langgraph/workflow/planner.py:159-173 | the fallback is named `fallback` and is one `step_1` step giving the whole request to the coder worker |
| Planner.LlmPlan | app/core/langgraph/workflow/planner.py:112-173 | the method's plan is the model's plan when every step succeeds, else the fallback |
| Planner.Plan | app/core/langgraph/workflow/planner.py:70-92 | a non-empty template name the registry knows yields that template with the request injected; anything else goes to model planning |
| Planner.LlmPlanWorkersRegistered | app/core/langgraph/workflow/planner.py:126-171 | every step of a model-path plan names a registered worker, given that `coder` is registered |
| Templates.TemplateStep | app/core/langgraph/workflow/templates.py:70-78 | an entry gives a step exactly when it is an object with string `id`, `worker` and `task` and a string-list (or absent) `depends_on`; the step carries those fields |
| Templates.TemplateSteps | app/core/langgraph/workflow/templates.py:69-78 | one bad entry spoils the file; otherwise one step per entry, in file order |
| Templates.ParseTemplate | app/core/langgraph/workflow/templates.py:61-86 | a template comes only from an object with a string `name` and a `steps` entry; its steps are the file's, its reasoning names the file, its description defaults to `""`; a falsy document is no template |
| Templates.FileTemplate | app/core/langgraph/workflow/templates.py:44-52 | only `.yaml` and `.yml` files yield a template, the one their loaded document parses to |
| Templates.LoadFilesStep | app/core/langgraph/workflow/templates.py:44-59 | loading one more file is one more iteration of the loop |
| Templates.StoreWellFormed | app/core/langgraph/workflow/templates.py:52-80 | storing a template keeps the name list, the template map and the description map in agreement |
| Templates.LoadFilesWellFormed | app/core/langgraph/workflow/templates.py:44-59 | loading any files keeps the registry well formed |
| Templates.LoadLastWins | app/core/langgraph/workflow/templates.py:44-80 | the last file defining a name wins: the registry holds its plan and description under that name, whichever files failed |
| Templates.LoadProvenance | app/core/langgraph/workflow/templates.py:44-59 | every stored template was there before or comes from one of the files |
| Templates.LoadedFromYaml | app/core/langgraph/workflow/templates.py:44-85 | every loaded template was read from a `.yaml` or `.yml` file in the listing, and its reasoning names that file |
| Templates.TemplateLines | app/core/langgraph/workflow/templates.py:105-109 | two prompt lines per template |
| Templates.TemplateLinesAt | app/core/langgraph/workflow/templates.py:105-109 | template k owns lines 2k (name and description) and 2k+1 (its worker flow) |
| Templates.Listing | app/core/langgraph/workflow/templates.py:92-97 | one entry per template in insertion order, with its description or `""` |
| Templates.ListingExact | app/core/langgraph/workflow/templates.py:92-97 | the listing names every stored template and only those, each exactly once |
| Templates.PromptHeader | app/core/langgraph/workflow/templates.py:99-110 | without templates the prompt is the fixed "none available" text; otherwise it opens with the section header |
| Templates.PromptContainsLine | app/core/langgraph/workflow/templates.py:104-110 | every template line appears in the prompt |
| Templates.PromptMentionsTemplate | app/core/langgraph/workflow/templates.py:104-110 | the prompt holds each template's name-and-description line and its flow line |
| Templates.TemplateRegistry.constructor | app/core/langgraph/workflow/templates.py:31-42 | a missing directory leaves the registry empty; otherwise it holds what loading the listing in sorted name order gives |
| Templates.TemplateRegistry.LoadTemplates | app/core/langgraph/workflow/templates.py:37-59 | the loop over the sorted listing leaves the state that loading those files gives, and changes nothing when the directory is missing |
| Templates.TemplateRegistry.Lookup | app/core/langgraph/workflow/templates.py:88-90 | the stored plan exactly when the name is stored, else nothing |
| Templates.PromptMentionsAll | app/core/langgraph/workflow/templates.py:104-110 | the prompt holds the name-and-description line and the flow line of every stored template |
| Templates.TemplateRegistry.ListTemplates | app/core/langgraph/workflow/templates.py:92-97 | one entry per stored name in insertion order, carrying its description or `""`; in a well-formed registry a name is listed exactly when a template is stored under it |
| Templates.TemplateRegistry.TemplatesPrompt | app/core/langgraph/workflow/templates.py:99-110 | the "none available" text exactly when no template is stored; otherwise the text opens with the section header and holds every template's line and flow line |
| Sorting.SortedStrings | app/core/langgraph/workflow/templates.py:44 | the sorted listing is a permutation of the listing, in ascending code-point order |
| RagSchema.Document | app/core/rag/schema.py:7-14 | a document built from content alone has no source, score 0 and no metadata |
| RagSchema.ContextString | app/core/rag/schema.py:16-21 | the content alone without a source; otherwise the content, a space and `(Source: …)` |
| RagSchema.ContextStringShowsDocument | app/core/rag/schema.py:16-21 | the context string starts with the content and names the source whenever there is one |
| RagSchema.Query | app/core/rag/schema.py:24-31 | a query built from text alone asks for five documents, with no filters, from every provider |
| RagSchema.EmptyResult | app/core/rag/schema.py:34-40 | a default result has no documents, no provider name and no error |
| RagSchema.NumberedEntries | app/core/rag/schema.py:51 | one entry per document, in order, the i-th numbered i+1 |
| RagSchema.ResultContextString | app/core/rag/schema.py:47-51 | empty without documents; otherwise the numbered entries separated by blank lines |
| RagSchema.ResultContextStringLists | app/core/rag/schema.py:47-51 | a result with documents has a non-empty context string holding every document's numbered entry |
| RagManager.Registered | app/core/rag/manager.py:29-36 | registering stores the provider under its name, replacing a provider of that name; a new name goes last in the order |
| RagManager.RegisteredWellFormed | app/core/rag/manager.py:29-52 | after registering, the name list is still exactly the registry's keys, each once |
| RagManager.RegisterAllWellFormed | app/core/rag/manager.py:184-203 | registering a list of providers gives a well-formed registry whose names are exactly those of the list |
| RagManager.Filter | app/core/rag/manager.py:83 | filtering keeps exactly the registered names the request holds, in registry order |
| RagManager.FilterKeepsAll | app/core/rag/manager.py:82-83 | filtering by a list holding every name keeps them all |
| RagManager.Targets | app/core/rag/manager.py:82-83 | every target is registered; a non-empty request targets exactly the registered names it holds |
| RagManager.TargetsAll | app/core/rag/manager.py:82 | a missing or empty request targets every registered provider, in order |
| RagManager.RetrieveResults | app/core/rag/manager.py:73-104 | one result per target, in order, named after its provider: its documents, or its error and no documents |
| RagManager.Tag | app/core/rag/manager.py:123-124 | a document keeps content, source and score; its metadata gains the provider name unless it already names a truthy provider |
| RagManager.TagAll | app/core/rag/manager.py:122-125 | each document of a result is tagged with the result's provider, in order |
| RagManager.KeysOfSnoc | app/core/rag/manager.py:128-134 | the keys seen grow by the key of each document visited |
| RagManager.KeysOfMember | app/core/rag/manager.py:128-134 | every visited document's key is among the keys seen |
| RagManager.DedupSnoc | app/core/rag/manager.py:130-134 | a document is kept exactly when its key has not been seen before |
| RagManager.DedupSameKeys | app/core/rag/manager.py:127-135 | deduplication loses no key |
| RagManager.DedupDistinct | app/core/rag/manager.py:127-135 | deduplication keeps at most one document per key |
| RagManager.FirstOfKeyGrows | app/core/rag/manager.py:130-134 | a document that was the first of its key stays so as more documents are visited |
| RagManager.DedupKeepsFirst | app/core/rag/manager.py:127-135 | every kept document is the first of its key in the collected list |
| RagManager.ScoreOrder | app/core/rag/manager.py:137 | "score at least" is a total preorder, so sorting by it is well defined |
| RagManager.MergedRanked | app/core/rag/manager.py:106-138 | the merged documents are in descending score order, at most `top_k` of them, and each is a candidate |
| RagManager.TaggedNone | app/core/rag/manager.py:120-125 | results without documents contribute nothing |
| RagManager.MergedNothingWhenAllFail | app/core/rag/manager.py:99-138 | when every provider fails, merging yields no document |
| RagManager.PrefixSubMultiset | app/core/rag/manager.py:138 | the first `top_k` documents hold no document more often than the ranked list |
| RagManager.RankedStable | app/core/rag/manager.py:137 | ranking is stable: documents of equal score keep their merge order |
| RagManager.MergedDistinct | app/core/rag/manager.py:127-138 | with deduplication, no two merged documents share a key |
| RagManager.DistinctPermuted | app/core/rag/manager.py:137 | sorting a list with distinct keys keeps the keys distinct |
| RagManager.DistinctPrefix | app/core/rag/manager.py:138 | taking the first `top_k` keeps the keys distinct |
| RagManager.EntryProviders | app/core/rag/manager.py:184-203 | a non-object entry raises; an entry registers at most one provider |
| RagManager.LoadedProvidersRaised | app/core/rag/manager.py:184-203 | once an entry raises, the whole load raises |
| RagManager.LoadedProvidersFromEntries | app/core/rag/manager.py:184-203 | every loaded provider was created from an enabled entry of a known type, with that entry's name and configuration |
| RagManager.ProviderEntries | app/core/rag/manager.py:183-184 | a configuration that is not an object cannot be read |
| RagManager.ConfiguredProviders | app/core/rag/manager.py:166-181 | a missing or unreadable file gives a manager without providers |
| RagManager.RetrieverManager.constructor | app/core/rag/manager.py:24-27 | an empty registry, not initialized |
| RagManager.RetrieverManager.Register | app/core/rag/manager.py:29-36 | the registry becomes that of `Registered`, stays well formed, and the initialized flag is unchanged |
| RagManager.RetrieverManager.GetProvider | app/core/rag/manager.py:38-47 | the registered provider exactly when the name is registered, else nothing |
| RagManager.RetrieverManager.InitializeAll | app/core/rag/manager.py:54-62 | failures are caught; the manager ends initialized with the registry unchanged |
| RagManager.RetrieverManager.CloseAll | app/core/rag/manager.py:64-71 | failures are caught; the manager ends not initialized with the registry unchanged |
| RagManager.RetrieverManager.RetrieveAndMerge | app/core/rag/manager.py:106-138 | the method returns exactly the merge of the retrieved results: tagged, deduplicated when asked, ranked, cut to `top_k` |
| RagManager.RetrieverManager.HealthCheckAll | app/core/rag/manager.py:140-152 | one entry per registered provider, in registration order, with its reported health or `false` when the check raised |
| RagManager.CollectTagged | app/core/rag/manager.py:119-125 | the loop collects exactly the tagged documents of the results that have any, in order |
| RagManager.Deduplicate | app/core/rag/manager.py:127-135 | the loop keeps exactly the first document of each key, in order |
| RagManager.LoadProvidersFromConfig | app/core/rag/manager.py:155-206 | the manager holds the configured providers registered in order, and is absent exactly when reading the configuration raises |
| Sorting.SortByPermutes | app/core/rag/manager.py:137 | sorting keeps exactly the same documents |
| Sorting.SortBySorted | app/core/rag/manager.py:137 | under a total preorder the sorted list is ordered |
| Sorting.SortByStable | app/core/rag/manager.py:137 | the sort is stable: elements with equal keys keep their relative order |
| RagTool.ToolQuery | app/core/langgraph/tools/rag_retrieve.py:40-44 | the query keeps the text and `top_k`, has no filters, and names the provider only when one is given |
| RagTool.ToolQueryTargets | app/core/langgraph/tools/rag_retrieve.py:40-46 | an empty provider argument targets every registered provider; a named one targets that provider alone, if registered |
| RagTool.Blocks | app/core/langgraph/tools/rag_retrieve.py:57-64 | one entry per document |
| RagTool.BlocksAt | app/core/langgraph/tools/rag_retrieve.py:57-64 | the i-th entry is that of the i-th document, numbered i+1 |
| RagTool.DocBlockShows | app/core/langgraph/tools/rag_retrieve.py:58-63 | an entry names the document's source (or `unknown`) and ends with a line break and its content |
| RagTool.FormattedListsDocument | app/core/langgraph/tools/rag_retrieve.py:51-73 | the answer holds every document's entry, its source and its content |
| RagTool.FormattedOpens | app/core/langgraph/tools/rag_retrieve.py:51-73 | the answer opens with the title, the query and the document count, separated by blank lines |
| RagTool.FormattedCloses | app/core/langgraph/tools/rag_retrieve.py:66-73 | the answer ends with an empty part and the instruction to cite the sources |
| RagTool.AllFailingProvidersFindNothing | app/core/langgraph/tools/rag_retrieve.py:46-49 | when every provider fails, the tool answers that nothing was found for the query |
| RagTool.FormatResults | app/core/langgraph/tools/rag_retrieve.py:51-73 | the loop builds exactly the formatted answer: header, one entry per document, an empty part and the instruction, joined by blank lines |
| RagTool.RetrieveKnowledge | app/core/langgraph/tools/rag_retrieve.py:34-77 | the failure message when the manager cannot be had; the fixed message when no provider is registered; otherwise the "nothing found" message or the formatted answer for the merged documents |
| RagHttp.Setting | app/core/rag/providers/http.py:70 | an absent setting takes its default; a present one is usable exactly when it is a string, and then is that string |
| RagHttp.ResponseKeysOf | app/core/rag/providers/http.py:125-128 | each response setting is the configured value of any type; each one absent from the configuration is `data`, `content`, `source` or `score` respectively |
| RagHttp.Lookup | app/core/rag/providers/http.py:149-151 | `item.get(key, default)` finds a string key's value when present; any other key of a hashable type finds nothing and gives the default |
| RagHttp.PathKeys | app/core/rag/providers/http.py:130-131 | a falsy path means no walk, a truthy string is split at its dots, and a truthy value of another type raises |
| RagHttp.Step | app/core/rag/providers/http.py:133-140 | a mapping steps to the key's value (an empty list when absent); anything but a list with a digit key ends the walk on an empty list |
| RagHttp.ItemsOf | app/core/rag/providers/http.py:142-143 | a list gives its items, another truthy value a one-item list, a falsy value no items |
| RagHttp.WalkNest | app/core/rag/providers/http.py:131-140 | walking a dotted path through nested mappings reaches the value stored at its end |
| RagHttp.WalkEmpty | app/core/rag/providers/http.py:134-135 | once the walk is on an empty list it stays there |
| RagHttp.Metadata | app/core/rag/providers/http.py:154 | the metadata holds exactly the item's keys other than the content, source and score keys, with their values |
| RagHttp.ItemDocument | app/core/rag/providers/http.py:149-156 | a mapping item gives a document exactly when the three keys are hashable and its score converts; its content and source are the `str()` of the configured keys' values, `""` when absent, and its metadata every other field |
| RagHttp.Documents | app/core/rag/providers/http.py:145-157 | the loop never gives more documents than there are items |
| RagHttp.DocumentsFromItems | app/core/rag/providers/http.py:145-157 | every document comes from a mapping item of the list |
| RagHttp.DocumentsOfMappings | app/core/rag/providers/http.py:145-157 | when every item is a mapping with a convertible score, there is one document per item |
| RagHttp.DocumentsUnhashable | app/core/rag/providers/http.py:145-157 | with a list or mapping as a key, the loop raises exactly when it reaches a mapping item, and otherwise gives no documents |
| RagHttp.Parsed | app/core/rag/providers/http.py:116-157 | a falsy path reads the answer's top level as the items; a truthy non-string path raises; an unhashable key yields no documents when it does not raise |
| RagHttp.ParsedMissingPath | app/core/rag/providers/http.py:131-143 | an answer whose path's first key is missing gives no documents |
| RagHttp.ParseResponse | app/core/rag/providers/http.py:116-157 | the walk and the item loop give exactly the parsed documents, or raise as the parse does |
| RagHttp.DocumentsRaised | app/core/rag/providers/http.py:145-157 | once a score fails to convert, the whole parse raises |
| RagHttp.Headers | app/core/rag/providers/http.py:45-54 | JSON content type plus the extra headers; with an API key, `"{prefix} {key}"` under the auth header name |
| RagHttp.BearerHeaders | app/core/rag/providers/http.py:46-54 | with only an API key configured, the headers are JSON content and `Authorization: Bearer <key>` |
| RagHttp.DefaultBody | app/core/rag/providers/http.py:77-79 | the body holds the query and `top_k`, and the filters exactly when there are any; nothing else |
| RagHttp.Body | app/core/rag/providers/http.py:73-79 | without a template the default body is sent |
| RagHttp.NewClient | app/core/rag/providers/http.py:45-60 | the client has the built headers, the configured base URL and timeout, and an empty base URL or a 30-second timeout where either is absent |
| RagHttp.Request | app/core/rag/providers/http.py:69-85 | POST by default, sent through the client to the configured endpoint (`/retrieve` by default) with the body |
| RagHttp.Retrieved | app/core/rag/providers/http.py:81-93 | a failed request gives no documents; an answered request gives `Parsed` of the answer with the configured response settings, of whatever type |
| RagHttp.HttpRetriever.constructor | app/core/rag/providers/http.py:38-41 | a provider with its name and configuration, no client and not initialized |
| RagHttp.HttpRetriever.Initialize | app/core/rag/providers/http.py:43-62 | the client is built and the provider initialized exactly when the headers can be built; otherwise nothing changes |
| RagHttp.HttpRetriever.Retrieve | app/core/rag/providers/http.py:64-93 | initializes first when needed, then returns what sending and parsing give for the provider's client; a response setting of an unexpected type behaves as `Parsed` states |
| RagHttp.HttpRetriever.HealthCheck | app/core/rag/providers/http.py:159-167 | no client is unhealthy; healthy only when the root answers with a status below 500 |
| RagHttp.HttpRetriever.Close | app/core/rag/providers/http.py:169-173 | the provider is no longer initialized |
| RagIngest.RFind | app/core/rag/ingest.py:348-353 | the last index of the character, or -1 when it does not occur |
| RagIngest.RFindLast | app/core/rag/ingest.py:348-353 | every occurrence of the character is at or before the index found |
| RagIngest.SplitExt | app/core/rag/ingest.py:352 | the extension is empty or a dot followed by neither dots nor slashes, and it ends the path |
| RagIngest.SplitExtAt | app/core/rag/ingest.py:352 | in a path without slashes, the extension starts at the last dot when a non-dot precedes it |
| RagIngest.ExtensionOfName | app/core/rag/ingest.py:348-353 | a name `base.e` (base without slashes and not only dots) has the extension `.e` in lower case |
| RagIngest.NoDotNoExtension | app/core/rag/ingest.py:348-353 | a name without a dot has no extension |
| RagIngest.HiddenFileNoExtension | app/core/rag/ingest.py:348-353 | a hidden file `.e` has no extension |
| RagIngest.ParserFor | app/core/rag/ingest.py:69-74 | a parser exists exactly for the four supported extensions; `.txt` and `.md` share the text parser |
| RagIngest.ParseDocument | app/core/rag/ingest.py:77-94 | an unsupported extension raises a `ValueError` naming it and the supported list; otherwise the extension's parser runs |
| RagIngest.Payload | app/core/rag/ingest.py:190-198 | a payload has the six chunk keys plus the extra metadata's keys; each chunk key holds its value unless the extra metadata overrides it |
| RagIngest.Points | app/core/rag/ingest.py:187-199 | one point per chunk, in order, the i-th built from chunk i and vector i |
| RagIngest.PointsNameTheirChunk | app/core/rag/ingest.py:188-199 | unless overridden, point i carries chunk i, position i, the shared document id and vector i |
| RagIngest.Rest | app/core/rag/ingest.py:203 | the slice from `start`, empty past the end |
| RagIngest.BatchesCover | app/core/rag/ingest.py:201-204 | the batches, joined, give back every point exactly once and in order |
| RagIngest.BatchesSized | app/core/rag/ingest.py:201-204 | every batch is non-empty and at most one hundred points; all but the last are full |
| RagIngest.BatchesCount | app/core/rag/ingest.py:201-204 | the number of batches is the point count divided by one hundred, rounded up; no points means no batch |
| RagIngest.BatchesFrom | app/core/rag/ingest.py:202-203 | the batches from `start` are the slice at `start` followed by the batches from `start + 100` |
| RagIngest.Ingested | app/core/rag/ingest.py:116-223 | a parse error or blank text raises; a success has a supported extension, one point per chunk, and a record with the document id, file name, extension, chunk count, time, user, byte size and metadata |
| RagIngest.VectorStore.constructor | app/core/rag/ingest.py:170-174 | a store with nothing written |
| RagIngest.VectorStore.Upsert | app/core/rag/ingest.py:204 | one more batch is written |
| RagIngest.IngestDocument | app/core/rag/ingest.py:116-225 | a raising ingestion writes nothing; a successful one returns the record and writes its points in batches of one hundred |
| RagIngest.BuildPoints | app/core/rag/ingest.py:187-199 | the loop builds exactly one point per chunk, in order |
| RagIngest.UpsertBatches | app/core/rag/ingest.py:201-204 | the loop writes exactly the batches of one hundred, in order |
| RagIngest.IntValue | app/core/rag/ingest.py:288-289 | an integer chunk index is its own value |
| RagIngest.Greater | app/core/rag/ingest.py:289 | the comparison succeeds exactly on two numeric indices, and then says whether the first is larger |
| RagIngest.FoldStep | app/core/rag/ingest.py:275-290 | a point without a document id changes nothing; a new id is recorded last with its first point's fields; a known id keeps its fields and takes the larger chunk index; other records are untouched |
| RagIngest.Fold | app/core/rag/ingest.py:261-294 | the recorded ids are exactly the listed ones, and each is a non-empty id |
| RagIngest.EntriesOf | app/core/rag/ingest.py:296-306 | one entry per recorded document in first-seen order, with chunk count = largest index + 1; raises exactly when some index is not a number |
| RagIngest.FoldDistinct | app/core/rag/ingest.py:278-285 | each document is recorded once |
| RagIngest.FoldCovers | app/core/rag/ingest.py:275-285 | every point with a non-empty document id has its document recorded |
| RagIngest.FoldFirstSeen | app/core/rag/ingest.py:278-285 | a recorded document keeps the file name, user and time of its first point |
| RagIngest.FoldNewAtLast | app/core/rag/ingest.py:278-285 | a document first recorded at the last point is named by no earlier point |
| RagIngest.FoldMax | app/core/rag/ingest.py:286-290 | a recorded chunk index is the largest among the document's points, and is one of them |
| Seqs.ConcatAppend | app/core/rag/ingest.py:264-294 | the points of two runs of pages are those of the first run followed by the second |
| RagIngest.FoldRaised | app/core/rag/ingest.py:275-290 | once the fold raises, it raises whatever points follow |
| RagIngest.FoldSnoc | app/core/rag/ingest.py:275-290 | one more point is one more step of the fold |
| RagIngest.ListingPermutes | app/core/rag/ingest.py:308 | the listing reorders the entries of the recorded documents and keeps all of them |
| RagIngest.ListingOrigin | app/core/rag/ingest.py:296-308 | each listed entry is the entry of a recorded document |
| RagIngest.ListingNewestFirst | app/core/rag/ingest.py:308 | the listing is newest first: each `created_at` is a string no later than the one before it |
| RagIngest.ListingDistinct | app/core/rag/ingest.py:278-308 | no document is listed twice |
| RagIngest.ListingComplete | app/core/rag/ingest.py:264-308 | every stored point with a non-empty document id has its document listed |
| RagIngest.ListingEntryOf | app/core/rag/ingest.py:296-306 | a listed entry shows its recorded document's fields, and its count is the recorded index + 1 |
| RagIngest.ListingFirstSeen | app/core/rag/ingest.py:278-306 | a listed document shows the file name, user and time of its first stored point |
| RagIngest.ListingChunkCount | app/core/rag/ingest.py:286-304 | a listed document's chunk count is one more than the largest chunk index among its stored points |
| RagIngest.AppendSplit | app/core/rag/ingest.py:275 | the points before and after one point of a page make up the page |
| RagIngest.FoldPage | app/core/rag/ingest.py:275-290 | the loop over one page's points gives exactly the fold over the points so far, raising where the fold raises |
| RagIngest.BuildEntries | app/core/rag/ingest.py:296-306 | the loop builds exactly the entries of the recorded documents |
| RagIngest.ListDocuments | app/core/rag/ingest.py:228-311 | the method returns exactly the listing: nothing for a missing collection, otherwise the entries newest first, or it raises as the source does |
| RagApi.UserIdOf | app/api/v1/rag.py:37-42 | the caller is the token's user exactly when the token verifies; otherwise 401 "Invalid or expired token" |
| RagApi.TooLargeDetailText | app/api/v1/rag.py:71 | the size limit is reported as `50MB` |
| RagApi.UploadCheck | app/api/v1/rag.py:57-74 | the file passes exactly when it has a name, a supported lower-cased extension and 1 to 50 MiB of content; every refusal is a 400 |
| RagApi.UploadCheckOrder | app/api/v1/rag.py:57-74 | the refusal names the first check that fails: missing name, then unsupported type, then too large, then empty |
| RagApi.IngestFailure | app/api/v1/rag.py:97-101 | a `ValueError` from ingestion becomes a 400 with its message; anything else a 500 "Document ingestion failed: …" |
| RagApi.Upload | app/api/v1/rag.py:57-101 | the upload succeeds exactly when the checks pass and ingestion succeeds, and then returns the ingested record's six fields; a failed ingestion is mapped by `IngestFailure` |
| RagApi.RefusedBeforeIngestion | app/api/v1/rag.py:57-74 | a refused file gets the refusal whatever ingestion would have done |
| RagApi.UploadedFileFacts | app/api/v1/rag.py:62-96 | after the checks the parser of the file's extension runs; a successful upload reports the file's name, a supported type, its byte size (1 to 50 MiB), the document id and the time |
| RagApi.UploadDocument | app/api/v1/rag.py:45-101 | a refused file leaves the store untouched; otherwise the answer is `Upload` of the ingestion outcome and the store gains exactly the ingested points in batches |
| Sse.HexDigit | app/api/v1/sse.py:34 | each hexadecimal digit `json.dumps` writes is printable |
| Sse.HexValue | app/api/v1/sse.py:34 | a digit read back is below sixteen |
| Sse.HexValueOfDigit | app/api/v1/sse.py:34 | reading a written digit gives back its value |
| Sse.Hex4 | app/api/v1/sse.py:34 | a code unit is written as exactly four digits |
| Sse.ParseHex4 | app/api/v1/sse.py:34 | four digits read back give a 16-bit code unit |
| Sse.ParseHex4Of | app/api/v1/sse.py:34 | reading four written digits gives back the code unit |
| Sse.UEscape | app/api/v1/sse.py:34 | a `\uXXXX` escape is a backslash, `u` and the four digits |
| Sse.HighSurrogate | app/api/v1/sse.py:34 | a character beyond the basic plane opens with a high surrogate (D800 to DBFF) |
| Sse.LowSurrogate | app/api/v1/sse.py:34 | and closes with a low surrogate (DC00 to DFFF) |
| Sse.EscapeChar | app/api/v1/sse.py:34 | a character is written as an escape, or as itself when it is printable ASCII other than a quote or backslash |
| Sse.UEscapePrintable | app/api/v1/sse.py:34 | a `\u` escape is printable ASCII |
| Sse.EscapeCharPrintable | app/api/v1/sse.py:34 | every escaped character is printable ASCII |
| Sse.EscapePrintable | app/api/v1/sse.py:34 | an escaped string is printable ASCII, as `json.dumps` with `ensure_ascii` writes it |
| Sse.Unit | app/api/v1/sse.py:34 | a client reading one escape or character consumes at least two and at most all remaining characters |
| Sse.Pair | app/api/v1/sse.py:34 | a surrogate pair is read from exactly twelve characters |
| Sse.UnitOfSurrogates | app/api/v1/sse.py:34 | a character written as a surrogate pair is read back as itself from twelve characters |
| Sse.UnitOfBmp | app/api/v1/sse.py:34 | a basic-plane character written as one `\u` escape is read back as itself |
| Sse.UnitOfEscape | app/api/v1/sse.py:34 | whatever escape a character gets, a client reads back that character from exactly the escape |
| Sse.DecodeEscapedChar | app/api/v1/sse.py:34 | decoding after an escaped character yields that character ahead of the rest |
| Sse.DecodeEscaped | app/api/v1/sse.py:34 | an escaped string followed by a closing quote decodes to the original string and leaves the rest untouched |
| Sse.DumpsPrintable | app/api/v1/sse.py:34-42 | every event payload is printable ASCII, so it holds no line break |
| Sse.ParsePayloadDumps | app/api/v1/sse.py:33-34 | a client parsing the JSON of a response gets back that response |
| Sse.DumpsParts | app/api/v1/sse.py:34 | the JSON is `{"content": "`, the escaped content, `", "done": ` and the flag, then `}` |
| Sse.ParsePayloadOf | app/api/v1/sse.py:34 | text of that shape parses to the response it encodes |
| Sse.Final | app/api/v1/sse.py:36-42 | the closing response is done, with empty content, or with the error's text when the stream failed |
| Sse.Responses | app/api/v1/sse.py:31-42 | one response per chunk plus one closing response |
| Sse.EventsOf | app/api/v1/sse.py:34-42 | one event per response |
| Sse.EventsInOrder | app/api/v1/sse.py:31-42 | the events are one `data: …` frame per chunk, not done, in order, then the closing frame |
| Sse.ChunkPayload | app/api/v1/sse.py:33-34 | a chunk's payload is `{"content": "<escaped chunk>", "done": false}` |
| Sse.ResponsesAt | app/api/v1/sse.py:31-42 | response i carries chunk i, not done, and the last one is the closing response |
| Sse.LineEnd | app/api/v1/sse.py:34 | the end of a line is the first line break, or the end of the text |
| Sse.LineEndAfter | app/api/v1/sse.py:34 | a line without breaks ends where the following text's first line ends |
| Sse.FirstColon | app/api/v1/sse.py:34 | the field name ends at the first colon, or the end of the line |
| Sse.DataLine | app/api/v1/sse.py:34 | the line `data: p` is the `data` field with value `p`, the one space after the colon dropped |
| Sse.DataFieldLine | app/api/v1/sse.py:34 | a `data` line appends its value and a line feed to the data buffer |
| Sse.DataLineNoBreak | app/api/v1/sse.py:34 | a `data:` line with a printable payload holds no line break |
| Sse.FrameDataLine | app/api/v1/sse.py:34 | reading an event's first line fills the buffer with its payload |
| Sse.BlankLineDispatches | app/api/v1/sse.py:34 | a blank line dispatches the buffer without its last line feed and empties it |
| Sse.ParseFrame | app/api/v1/sse.py:34 | a frame `data: p\n\n` is read back as exactly one event with data `p` |
| Sse.ClientReadsResponses | app/api/v1/sse.py:31-42 | a client reading the concatenated events gets one data item per response, each parsing back to that response |
| Sse.ClientReadsStream | app/api/v1/sse.py:14-42 | a client reading `sse_event_generator`'s output gets the chunks, not done, in order, then the closing response with the error text if any |
| Workers.Role | app/core/langgraph/agents/workers.py:56-60 | the role is `user` for `human` or a missing type, `assistant` for `ai`, and the type itself otherwise; never `human` or `ai` |
| Workers.ConvertedAppend | app/core/langgraph/agents/workers.py:54-63 | converting a conversation in two parts is converting each part and joining them |
| Workers.ConvertedPointwise | app/core/langgraph/agents/workers.py:54-63 | a conversation of messages with content or dicts keeps its length and order, each message converted in place |
| Workers.ConvertedDropsOpaque | app/core/langgraph/agents/workers.py:54-63 | exactly the messages that have no content and are not dicts are dropped |
| Workers.FullMessagesRoles | app/core/langgraph/agents/workers.py:53-61 | the system prompt comes first, and no converted message keeps a `human` or `ai` role |
| Workers.Invoke | app/core/langgraph/agents/workers.py:43-78 | the loop builds the system prompt plus the converted conversation; the reply is the model's answer, or `[name] I encountered an error processing your request: …` when the call raised |
| Workers.WorkerRegistry.constructor | app/core/langgraph/agents/workers.py:81-134 | the registry holds researcher, coder and analyst, in that order, with their prompts and descriptions |
| Workers.WorkerRegistry.GetWorker | app/core/langgraph/agents/workers.py:137-146 | the worker filed under the name, or none exactly when the name is not registered |
| Workers.WorkerRegistry.ListWorkers | app/core/langgraph/agents/workers.py:149-155 | one name and description per registered worker, in registry order |
| Workers.WorkerRegistry.WorkerConfigs | app/core/langgraph/agents/workers.py:158-166 | every registered name maps to its worker's prompt and description, and nothing else is listed |
| Workers.WorkerRegistry.ListWorkersExact | app/core/langgraph/agents/workers.py:149-155 | a name is listed exactly when it is registered, and no name is listed twice |
| Workers.WorkerRegistry.RegisterWorker | app/core/langgraph/agents/workers.py:169-188 | the name now maps to a new worker with the given prompt, description and tools, replacing any old one in place; a new name goes last; the registry stays well formed |
| MultiAgent.WorkerCalled | app/core/langgraph/v1/multi_agent.py:207-208 | the first worker whose `transfer_to_{worker}` tool has the called name, and none exactly when no worker's tool has that name |
| MultiAgent.FirstHandoffIn | app/core/langgraph/v1/multi_agent.py:205-208 | the worker of the first tool call of a message that names a handoff tool, none exactly when no call does |
| MultiAgent.Route | app/core/langgraph/v1/multi_agent.py:201-208 | the scan picks a registered worker, and finds none exactly when no message holds a handoff call |
| MultiAgent.RouteFirstWins | app/core/langgraph/v1/multi_agent.py:203-217 | once a handoff is found, later messages do not change the route |
| MultiAgent.RouteSkipsPlain | app/core/langgraph/v1/multi_agent.py:203-208 | messages without a handoff call are passed over |
| MultiAgent.SupervisorNode | app/core/langgraph/v1/multi_agent.py:198-220 | on a handoff the original input goes to the chosen, registered worker; otherwise the run ends with the supervisor's messages |
| MultiAgent.WorkerNode | app/core/langgraph/v1/multi_agent.py:227-245 | the run ends with the worker's messages, or with exactly one apology naming the worker when it failed |
| MultiAgent.WorkerMiddleware | app/core/langgraph/v1/multi_agent.py:99-116 | a worker has at most three middleware layers |
| MultiAgent.WorkerMiddlewareShape | app/core/langgraph/v1/multi_agent.py:99-116 | tracing, metrics and approval are present exactly when switched on, in that order, and never the dynamic prompt or the tool filter |
| MultiAgent.SupervisorMiddleware | app/core/langgraph/v1/multi_agent.py:185 | the supervisor has tracing and metrics when tracing is on, and no middleware otherwise |
| MultiAgent.InputMessages | app/core/langgraph/v1/multi_agent.py:287-301 | the conversation is sent as it is, or, for a known user with memory on, after a system hint with the memory found (or `No relevant memory found.`); an empty conversation then raises |
| MultiAgent.MemoryHintFirst | app/core/langgraph/v1/multi_agent.py:296-301 | with memory on, the hint is one system message in front and the conversation follows unchanged |
| MultiAgent.GetResponse | app/core/langgraph/v1/multi_agent.py:268-330 | the processed messages of the run, only assistant and user ones, or no messages when the run raised; it raises only where the memory lookup does |
| Middleware.RoleOf | app/core/langgraph/v1/middleware.py:111-112 | without a runtime context the caller's role is `user` |
| Middleware.WithoutAdminTools | app/core/langgraph/v1/middleware.py:96-115 | a tool is kept exactly when it is not `create_skill` or `update_skill`; nothing is added |
| Middleware.WithoutAdminToolsAppend | app/core/langgraph/v1/middleware.py:115 | the filter keeps the tools' order |
| Middleware.WithoutAdminToolsCount | app/core/langgraph/v1/middleware.py:115-122 | the filter shortens the list exactly when it holds an admin-only tool, and otherwise returns it unchanged |
| Middleware.FilteredRequest | app/core/langgraph/v1/middleware.py:111-122 | an admin's request goes on as it is; anyone else's loses the admin-only tools; the context is kept |
| Middleware.RoleBasedToolFilter | app/core/langgraph/v1/middleware.py:99-124 | the model call runs on the filtered request, and on the request itself for an admin |
| Middleware.FilterIsExact | app/core/langgraph/v1/middleware.py:114-122 | for a caller other than an admin, a tool reaches the model exactly when it was offered and is not admin-only |
| Middleware.NewHitlMiddleware | app/core/langgraph/v1/middleware.py:142-150 | the given patterns, or the configured ones when none or an empty list is given; the timeout as given |
| Middleware.AnyPatternIn | app/core/langgraph/v1/middleware.py:155 | true exactly when some pattern occurs in the name |
| Middleware.SensitiveIff | app/core/langgraph/v1/middleware.py:152-155 | a tool is sensitive exactly when one of the patterns occurs in its lower-cased name |
| Middleware.WrapToolCall | app/core/langgraph/v1/middleware.py:157-191 | a call of a tool that is not sensitive runs the handler and returns its result unchanged; a sensitive one never runs and is answered with the approval notice carrying the call's id |
| Middleware.NoticeNamesTool | app/core/langgraph/v1/middleware.py:185-189 | the approval notice names the tool between backquotes |
| Middleware.OrString | app/core/langgraph/v1/middleware.py:290 | `x or default` for a string: the given value unless it is absent or empty |
| Middleware.OrInt | app/core/langgraph/v1/middleware.py:291-292 | `x or default` for a number: the given value unless it is absent or zero |
| Middleware.When | app/core/langgraph/v1/middleware.py:287-309 | a switched-on middleware is appended, a switched-off one is not |
| Middleware.DefaultMiddleware | app/core/langgraph/v1/middleware.py:251-321 | the stack opens with the dynamic prompt |
| Middleware.DefaultMiddlewarePresence | app/core/langgraph/v1/middleware.py:286-309 | summarization, tool filter, tracing, metrics and approval are each in the stack exactly when switched on |
| Middleware.AppendNext | app/core/langgraph/v1/middleware.py:283-309 | appending a middleware ranked next keeps the stack in order |
| Middleware.DefaultMiddlewareOrdered | app/core/langgraph/v1/middleware.py:283-309 | the stack is in the documented order: prompt, summarization, tool filter, tracing, metrics, approval |
| Middleware.DefaultMiddlewareSize | app/core/langgraph/v1/middleware.py:281-309 | the stack holds the prompt plus one middleware per switch that is on |
| Middleware.DefaultStackComplete | app/core/langgraph/v1/middleware.py:251-321 | with the defaults the stack holds all six middlewares in order, the approval one using the configured patterns and a 3600-second timeout |
| AgentBase.ProcessMessages | app/core/langgraph/base.py:210-226 | only user and assistant messages come out, never more than went in, each the stringified form of an input entry with a user or assistant role and a truthy content |
| AgentBase.ProcessMessagesAppend | app/core/langgraph/base.py:222-226 | the messages keep the order of the entries |
| AgentBase.ProcessMessagesKeepsText | app/core/langgraph/base.py:222-226 | a conversation of user and assistant entries with non-empty text comes back unchanged |
| AgentBase.Bullets | app/core/langgraph/base.py:164 | one `* memory` line per memory, in order |
| AgentBase.RelevantMemory | app/core/langgraph/base.py:149-167 | the empty text when there is no memory store or the search fails, else the bullet lines joined by line breaks |
| AgentBase.RelevantMemoryLists | app/core/langgraph/base.py:163-164 | each memory found appears as a bullet, and the text is then not empty |
| AgentBase.McpInitialized | app/core/langgraph/base.py:188-206 | after loading the flag is set; a first load appends the fetched tools after the existing ones, a failed fetch adds nothing, and a loaded agent keeps its tools |
| AgentBase.McpInitIdempotent | app/core/langgraph/base.py:188-194 | a second load changes nothing, whatever it would fetch |
| AgentBase.AgentTools.constructor | app/core/langgraph/v1/multi_agent.py:88-91 | an agent starts with its own tools and no MCP tools loaded |
| AgentBase.AgentTools.InitializeMcpTools | app/core/langgraph/base.py:188-206 | the new tools and flag are those `McpInitialized` gives; once loaded, the tools do not change |
| PyRepr.Quote | app/core/langgraph/hitl/manager.py:137 | `repr` quotes with `"` exactly when the text holds `'` and no `"` |
| PyRepr.Repr | app/core/langgraph/hitl/manager.py:137 | the quoted, escaped text: the chosen quote at both ends around the escaped body |
| PyRepr.UnescapeChar | app/core/langgraph/hitl/manager.py:137 | each escape `repr` writes reads back as its character |
| PyRepr.UnescapeBody | app/core/langgraph/hitl/manager.py:137 | reading a `repr` body back as a string literal gives the original text, under either quote |
| PyRepr.BodyAppend | app/core/langgraph/hitl/manager.py:137 | escaping works character by character: it distributes over concatenation |
| PyRepr.BodyPlain | app/core/langgraph/hitl/manager.py:137 | text with no quote, backslash or unprintable character is written as it is |
| PyRepr.BodyQuoted | app/core/langgraph/hitl/manager.py:137 | in `a'mid'b` with plain parts only the two `'` may change, escaped under single quotes |
| PyRepr.QuoteOfQuoted | app/core/langgraph/hitl/manager.py:137 | `a'mid'b` gets single quotes exactly when `mid` holds a `"` (given none in `a` and `b`) |
| Hitl.NotFoundReadsBack | app/core/langgraph/hitl/manager.py:137 | `str()` of the not-found `KeyError` is the `repr` of its message, which reads back between its quotes as that message |
| Hitl.NotFoundDoubleQuoted | app/core/langgraph/hitl/manager.py:137 | an id needing no escape and without `"` is shown as `"Approval request '<id>' not found"` |
| Hitl.NotFoundSingleQuoted | app/core/langgraph/hitl/manager.py:137 | an id holding `"` makes the text single-quoted with the message's own `'` escaped |
| Hitl.ExpireOverdue | app/core/langgraph/hitl/manager.py:249-274 | expiring overdue requests keeps the same request ids |
| Hitl.PendingFor | app/core/langgraph/hitl/manager.py:247-260 | never more requests are reported than there are |
| Hitl.OverdueIds | app/core/langgraph/hitl/manager.py:268-274 | never more ids are expired than there are |
| Hitl.PendingForExact | app/core/langgraph/hitl/manager.py:249-259 | a request is reported exactly when it is stored, pending, not past its deadline, and in the session (no filter, or an empty one, lets all through) |
| Hitl.OverdueIdsExact | app/core/langgraph/hitl/manager.py:270-274 | the sweep expires exactly the pending requests past their deadline, each once |
| Hitl.ExpireOverdueAt | app/core/langgraph/hitl/manager.py:253-273 | after the sweep an overdue request is expired at `now`, and every other request is as it was |
| Hitl.ExpireOverdueEffect | app/core/langgraph/hitl/manager.py:253-273 | after the sweep no request is overdue, and no approved, rejected or expired request changes status |
| Hitl.SweepStep | app/core/langgraph/hitl/manager.py:249-274 | one more request visited is one more step of the expiry, the listing and the sweep |
| Hitl.ExpireKeepsInv | app/core/langgraph/hitl/manager.py:253-278 | expiring requests, and setting more events, keeps the manager's bookkeeping: one event per request, each approved or rejected request signalled |
| Hitl.ApprovalManager.constructor | app/core/langgraph/hitl/manager.py:74-77 | a manager starts with no requests and no events |
| Hitl.ApprovalManager.CreateRequest | app/core/langgraph/hitl/manager.py:79-120 | a new pending request is filed under the fresh id, with `{}` for missing action data and a deadline `timeout` after now, and gets an unset event |
| Hitl.ApprovalManager.GetRequest | app/core/langgraph/hitl/manager.py:227-236 | the request filed under the id, or none exactly when there is none |
| Hitl.ApprovalManager.Resolve | app/core/langgraph/hitl/manager.py:153-225 | an unknown id raises `KeyError` and a request no longer pending raises `ValueError`, changing nothing; otherwise the request takes the new status, the time and the comment, and its waiter is woken; no resolved request changes status |
| Hitl.ApprovalManager.WaitForApproval | app/core/langgraph/hitl/manager.py:122-151 | an id without an event raises `KeyError`; a set event returns the stored request; otherwise the request is expired at now and the call raises `TimeoutError` |
| Hitl.ApprovalManager.GetPendingRequests | app/core/langgraph/hitl/manager.py:238-260 | the overdue pending requests are expired, and the reported ones are exactly the other pending requests of the session, in insertion order |
| Hitl.ApprovalManager.CleanupExpired | app/core/langgraph/hitl/manager.py:262-283 | every overdue pending request is expired and its waiter woken; the count is how many there were |
| Hitl.SweepPending | app/core/langgraph/hitl/manager.py:247-260 | the loop gives exactly the expired requests and the reported ones |
| Hitl.SweepOverdue | app/core/langgraph/hitl/manager.py:268-274 | the loop gives exactly the expired requests and the ids it expired, in order |
| Hitl.SignalAll | app/core/langgraph/hitl/manager.py:276-278 | the loop sets the event of every expired id that has one |
| ApprovalApi.CommentOf | app/api/v1/approval.py:116 | no body means no comment; a body gives its comment |
| ApprovalApi.Authorize | app/api/v1/approval.py:74-79 | 404 exactly for an unknown id, 403 exactly for a request of another session, and otherwise the stored request |
| ApprovalApi.GetApprovalRequest | app/api/v1/approval.py:56-86 | the caller gets a stored request of their own session, or a 404 or 403 |
| ApprovalApi.BadRequest | app/api/v1/approval.py:128-129 | a manager `KeyError` or `ValueError` becomes a 400 carrying its text |
| ApprovalApi.ActOnRequest | app/api/v1/approval.py:89-178 | 404 and 403 leave the manager untouched; a request no longer pending gets a 400 "Request '…' is already …"; otherwise it is resolved with the body's comment; requests of other sessions never change |
| ApprovalApi.ListPendingApprovals | app/api/v1/approval.py:28-53 | the caller's session's pending requests, as the manager lists them, with `total` their number; overdue requests are expired on the way |
| ApprovalApi.ListIsScoped | app/api/v1/approval.py:44 | a request is listed exactly when it is stored, of the caller's session, pending and not overdue |
| McpClient.NewServerConfig | app/core/mcp/client.py:35-52 | the fields are kept as given, except that falsy args become `[]` and falsy env becomes `{}` |
| McpClient.DefaultServer | app/core/mcp/client.py:38-43 | a server with only a name is `sse`, with no url or command, no args or env, and enabled |
| McpClient.Kept | app/core/mcp/client.py:91-92 | an entry's server is kept exactly when its `enabled` is truthy |
| McpClient.EnabledServers | app/core/mcp/client.py:81-96 | every server read is enabled, and there are never more servers than entries |
| McpClient.ServerEntries | app/core/mcp/client.py:81 | a mapping with a `servers` list gives that list's entries |
| McpClient.LoadedServers | app/core/mcp/client.py:69-98 | a missing or unreadable file gives no server; a decoded one gives the enabled servers of its entries |
| McpClient.EnabledServersFromEntries | app/core/mcp/client.py:81-92 | each server read is an enabled mapping entry of the list, read with its defaults |
| McpClient.EnabledServersAppend | app/core/mcp/client.py:81-92 | the servers keep the file's order |
| McpClient.EnabledServersStep | app/core/mcp/client.py:81-92 | one more mapping entry adds its server when it is enabled |
| McpClient.EnabledServersStop | app/core/mcp/client.py:81-96 | an entry that is not a mapping raises and ends the reading with the servers read before it |
| McpClient.ServerTools | app/core/mcp/client.py:124-192 | a server adds the tools its session loads, none when it lacks a url (sse) or a command (stdio), has another transport, or its session fails |
| McpClient.NoConnectableNoTools | app/core/mcp/client.py:146-192 | servers none of which can be connected add no tools |
| McpClient.Initialized | app/core/mcp/client.py:100-135 | the flag is set in every case; tools change only on a first call with servers and the adapter library present, and then each server's tools are appended in order |
| McpClient.InitializeIdempotent | app/core/mcp/client.py:106-107 | a second `initialize` leaves the tools as the first left them |
| McpClient.McpManager.constructor | app/core/mcp/client.py:62-67 | a new manager has the file's enabled servers, no tools, and is not initialized |
| McpClient.McpManager.LoadConfig | app/core/mcp/client.py:69-98 | the loop appends exactly the file's enabled servers, stopping at an entry that raises |
| McpClient.McpManager.Initialize | app/core/mcp/client.py:100-135 | the new tools and flag are those `Initialized` gives; the servers do not change |
| McpClient.GetMcpTools | app/core/mcp/client.py:217-225 | the manager is initialized if it was not, and the result is its tools; an initialized manager's tools come back unchanged |
| SkillFormat.SplitDocument | app/core/skills/registry.py:96-107 | a document splits only when it opens with `---` (and then only if a closing `---` follows); frontmatter and body come out stripped |
| SkillFormat.LineEntry | app/core/skills/registry.py:112-114 | a frontmatter line yields an entry exactly when it holds a colon; key and value are stripped |
| SkillFormat.ReadMetadata | app/core/skills/registry.py:110-114 | the loop over the frontmatter lines builds the metadata of the lines read in order, a later line overriding an earlier key |
| SkillFormat.MetadataAppend | app/core/skills/registry.py:110-114 | one more line adds its entry over the metadata read so far, or leaves it unchanged when the line has no colon |
| SkillFormat.Lookup | app/core/skills/registry.py:116-125 | `metadata.get(key, default)` is the stored value for a present key and the default otherwise |
| SkillFormat.CleanTags | app/core/skills/registry.py:122 | the kept tags are never more than the comma pieces, and each is non-empty and stripped |
| SkillFormat.LineEntryOf | app/core/skills/registry.py:223-233 | a written `key: value` line, with a colon-free stripped key and a stripped value, reads back as exactly that entry |
| SkillFormat.TagsOfJoin | app/core/skills/registry.py:222 | tags written joined by `, ` read back as the same tags, in order, when each is non-empty, stripped and comma-free |
| SkillFormat.SplitLines | app/core/skills/registry.py:223-233 | lines joined by newlines split back into the same lines when none holds a newline |
| SkillFormat.SplitDocumentOf | app/core/skills/registry.py:223-233 | a fenced frontmatter with no inner fence, followed by a body, splits into the stripped frontmatter and the stripped body |
| SkillsRegistry.FromMetadata | app/core/skills/registry.py:116-135 | no skill exactly when name or description is missing or empty; a version `int()` rejects raises; otherwise the skill carries name, description, body, cleaned tags, the parsed version (1 by default), the given or default source, and auto-generated exactly when the value lower-cases to `true` |
| SkillsRegistry.ParseSkillText | app/core/skills/registry.py:75-135 | a text not opening with `---` is no skill; a parsed skill has a non-empty name and description, stripped content and non-empty stripped tags |
| SkillsRegistry.ParseSkillFile | app/core/skills/registry.py:93-135 | the parser that reads the frontmatter line by line gives the same result as the parse of the whole text |
| SkillsRegistry.SavedSkillReadsBack | app/core/skills/registry.py:213-233 | the file written for a skill with one-line fence-free fields, comma-free tags and stripped content parses back to the same name, description, content, tags, version and source, auto-generated and without timestamps |
| SkillsRegistry.Put | app/core/skills/registry.py:143-176 | storing a skill maps its name to it; a present name keeps its place in the order, a new name goes last |
| SkillsRegistry.Remove | app/core/skills/registry.py:199 | popping a name drops it from the dictionary and from the order, and keeps every other name |
| SkillsRegistry.PutKeepsInv | app/core/skills/registry.py:143-176 | storing a skill keeps the dictionary keyed by skill name with each key listed once in order |
| SkillsRegistry.RemoveKeepsInv | app/core/skills/registry.py:199 | popping a name keeps the dictionary keyed by skill name with each key listed once in order |
| SkillsRegistry.Values | app/core/skills/registry.py:257 | the values come one per key, each the skill of the key at that position |
| SkillsRegistry.NamesOfValues | app/core/skills/registry.py:257 | the names of the listed skills are the dictionary's keys in insertion order |
| SkillsRegistry.LoadEntriesKeepsInv | app/core/skills/registry.py:58-73 | loading a directory's entries keeps the dictionary keyed by skill name with each key listed once |
| SkillsRegistry.LoadedFromFiles | app/core/skills/registry.py:58-73 | every skill present after loading was either there before, unchanged, or parsed from a `.md` file entry of the directory |
| SkillsRegistry.SkillLine | app/core/skills/registry.py:276-279 | a skill's prompt line opens with its bold name and version and ends with its tags in brackets, or with its description when it has no tags |
| SkillsRegistry.SkillLines | app/core/skills/registry.py:276-279 | one prompt line per skill |
| SkillsRegistry.SkillLinesAt | app/core/skills/registry.py:276-279 | the prompt line at each position is the line of the skill at that position |
| SkillsRegistry.JoinPrompt | app/core/skills/registry.py:271-281 | the loop over the listed skills builds exactly the prompt section: the heading, then one line per skill in order, joined by newlines |
| SkillsRegistry.PromptListsSkills | app/core/skills/registry.py:259-281 | the prompt section is empty exactly when there are no skills; otherwise it opens with the `## Available Skills` heading and contains every skill's line |
| SkillsRegistry.SkillRegistry.constructor | app/core/skills/registry.py:29-41 | a new registry holds the skills of the manual directory, then those of the auto directory over them, with sources `manual` and `agent`; a missing directory adds nothing |
| SkillsRegistry.SkillRegistry.LoadDirectory | app/core/skills/registry.py:43-73 | the loop loads the entries in listing order, as the directory load function says, and keeps the dictionary well formed |
| SkillsRegistry.SkillRegistry.Register | app/core/skills/registry.py:137-144 | the skill replaces any skill of its name; every other name keeps its skill |
| SkillsRegistry.SkillRegistry.RegisterOrUpdate | app/core/skills/registry.py:146-187 | a skill replacing one of its name gets the old version plus one and keeps the old creation time (or now); a new one keeps its version and creation time (or now); both are updated now and stored; a file is written exactly when persisting an auto-generated skill, and it reads back as the stored skill |
| SkillsRegistry.SkillRegistry.Unregister | app/core/skills/registry.py:189-211 | true exactly when the name was registered, which then is gone with every other skill kept; the file is removed exactly for an auto-generated skill; otherwise nothing changes |
| SkillsRegistry.SkillRegistry.Get | app/core/skills/registry.py:240-249 | the skill of the name when registered, none otherwise |
| SkillsRegistry.SkillRegistry.ListSkills | app/core/skills/registry.py:251-257 | the registered skills, one per name, in registration order |
| SkillsRegistry.SkillRegistry.SkillsPrompt | app/core/skills/registry.py:259-281 | the loop builds the prompt section of the listed skills |
| SkillsRegistry.SkillRegistry.LoadSkill | app/core/skills/registry.py:288-308 | the skill's heading and full content when registered; otherwise a not-found message followed by the registered names |
| SkillsRegistry.NotFoundNamesEverySkill | app/core/skills/registry.py:306-308 | the not-found message of `load_skill` names every registered skill |
| SkillCreator.Unfence | app/core/skills/creator.py:314-322 | an answer that does not open with three backticks is only stripped |
| SkillCreator.AfterFirstLine | app/core/skills/creator.py:318-320 | with a newline the text loses at least its first line; without one it is kept whole |
| SkillCreator.CloseFence | app/core/skills/creator.py:321-322 | a text ending in the fence loses it and comes out stripped; any other text is kept as it is |
| SkillCreator.UnfenceFenced | app/core/skills/creator.py:314-322 | a document wrapped in a fence with a one-line language tag comes out as the stripped document |
| SkillCreator.ParsedResponse | app/core/skills/creator.py:298-364 | a skill exactly when the unwrapped answer has a fenced frontmatter naming and describing it; the skill is version 1, auto-generated, of the given source, created and updated now, with non-empty name and description, stripped content and non-empty stripped tags |
| SkillCreator.Described | app/core/skills/creator.py:344-364 | a skill exactly when name and description are present and non-empty; it carries them, the body and the cleaned tags |
| SkillCreator.ResponseAgreesWithFile | app/core/skills/creator.py:325-364 | the creator finds no skill in an answer exactly when the registry's file parser finds none in the unwrapped answer; when the file parser loads one, the creator gives the same skill as a fresh generated first version |
| SkillCreator.ParseSkillResponse | app/core/skills/creator.py:298-364 | the parser that reads the frontmatter line by line gives the same result as the whole-answer parse |
| SkillCreator.ConversationLines | app/core/skills/creator.py:276-296 | no more lines than messages, each the rendering of some shown message with its speaker |
| SkillCreator.ConversationLinesCount | app/core/skills/creator.py:286-294 | every message but a system message gives exactly one line |
| SkillCreator.ConversationLinesAppend | app/core/skills/creator.py:286-294 | the lines of two stretches of a conversation are the lines of the first followed by those of the second |
| SkillCreator.FormatConversation | app/core/skills/creator.py:276-296 | the loop yields the lines of the shown messages, in order, separated by blank lines |
| SkillCreator.OnlySystemFormatsEmpty | app/core/skills/creator.py:276-296 | a conversation of system messages only formats as the empty text |
| SkillCreator.Messages | app/core/skills/creator.py:154-160 | a request is sent as two messages |
| SkillCreator.MessagesRoles | app/core/skills/creator.py:241-250 | the first message is a system message holding the update system prompt for a merge and the create system prompt otherwise; the second is a human message holding the request's user prompt |
| SkillCreator.InstructionCarried | app/core/skills/creator.py:156-159 | the user prompt of an instruction request contains the instruction and names its source type `instruction` |
| SkillCreator.ConversationCarried | app/core/skills/creator.py:199-201 | the user prompt of a conversation request contains the formatted conversation and the `NO_SKILL_FOUND` answer the creator checks for |
| SkillCreator.MergeCarried | app/core/skills/creator.py:243-249 | the user prompt of an update contains the existing skill's name, description, `, `-joined tags and content, and the new information |
| SkillCreator.CreateFromInstruction | app/core/skills/creator.py:138-175 | none when the model call on the instruction request raises; otherwise the skill parsed from the answer, a version-1 generated skill of the given source |
| SkillCreator.CreateFromConversation | app/core/skills/creator.py:177-219 | none when the call raises or the answer mentions `NO_SKILL_FOUND`; otherwise the skill parsed from the answer to the formatted conversation |
| SkillCreator.UpdateSkill | app/core/skills/creator.py:221-274 | none when the call raises or the answer holds no skill; otherwise the answer's name, description, content and tags at the existing version plus one, with the existing creation time, generated flag and source, updated now |

## Left out

- Unicode: `strip`, `lower`, `upper`, `isdigit` and `int()` are modelled on ASCII whitespace, letters and digits only.
- PyStr.ParseInt: rejects the single underscores Python's `int()` allows between digits (`int("1_0") == 10`), so such a version or number is modelled as raising.
- Floating point: retrieval scores are integers, and `float(...)` conversion of HTTP scores is not modelled.
- Time and identifiers: `datetime.now`/`utcnow` are the integer parameter `now`, and `uuid4` is a fresh-id parameter.
- Concurrency: `asyncio.Event`, `wait_for`, `gather`, background tasks and LangGraph's parallel `Send` are modelled as sequential steps; within a round, results come in dispatch order.
- Language-model, agent and graph runtimes (`llm_service.call`, `create_agent`, `ainvoke`, `StateGraph` compilation, token streaming) are parameters giving content or failure; the supervisor's prompt text and handoff tool objects are not modelled.
- Persistence and services: the Postgres pool and checkpointer, mem0 memory initialization and updates, `_clear_chat_history`, Langfuse tracing and Prometheus metrics (the timing of `MetricsMiddleware`, the logging of the tracing middleware) are not part of this model.
- Logging is not modelled anywhere.
- PyRepr.Repr: characters above U+00FF that Python's `str.isprintable` rejects (U+2028, unassigned code points and the like) are kept as they are rather than written as `\x`, `\u` or `\U` escapes, since the Unicode database's printable property is not part of this model.
- File and OS I/O: `listdir`, `makedirs`, `open`, `os.remove` and reading the MCP and RAG JSON configurations; directories are lists of entries with their text, and a written or removed file is an output of the operation.
- Library parsers and encoders: `yaml.safe_load`, `json.loads`, the recursive text splitter, pypdf and python-docx are parameters; `str()` and `repr` of lists and dicts are a parameter; `json.dumps` is modelled for strings only, as SSE frames need it.
- `_render_template` of the HTTP provider is a parameter. Of the HTTP settings, only the method and the auth header name are required to be strings: `.upper()` raises on any other method, and an auth header name of another type is treated as raising (what the HTTP client does with it is not part of this model).
- The order in which Python iterates the supported-extensions set is the parameter `supportedText`.
- MCP SSE and stdio transports are the parameter `session`.
- `verify_token`, `get_current_session` and the rate limiter of the API endpoints are given by their outcome or left out.
- `get_shared_manager`, `app/core/langgraph/workflow/schema.py`, `app/core/skills/schema.py` and `app/schemas/chat.py` are not part of this model; their records are reconstructed from their uses, and a stream response is its content and its done flag.
- RAG ingestion: `delete_document` (app/core/rag/ingest.py:314-345), the Qdrant collection setup, the user filter of the scroll, storage failures, and Python's `1 == True` in document-id equality are not modelled; scroll paging arrives as a sequence of pages.
- RagIngest.ListingNewestFirst: two or more listed documents whose `created_at` values are not all strings are modelled as a listing that raises, although Python also sorts values of one comparable non-string type.
- The planner's system prompt (`_build_planning_prompt`, app/core/langgraph/workflow/planner.py:34-68) is text the model call receives and is not modelled.
- The RAG endpoints for getting and removing documents (app/api/v1/rag.py:104-133) are not modelled.
- Qdrant, RAGFlow and pgvector providers are not modelled: their pure logic repeats ingestion's per-document fold and the manager's sort and truncate.
- Skills: the registry's tools `create_skill`, `update_skill` and `list_all_skills` (app/core/skills/registry.py:311-396), and the prompt loader of `skills_aware_prompt` are not modelled. The creator's prompt texts are modelled (`SkillPrompts`); only the model call that answers them is a parameter.
- SSE: the reference client ignores the byte-order mark and the `event`, `id` and `retry` fields, and rejects lone surrogate escapes.
- `_create_worker_agents` and the graph builders of the multi-agent module, and `get_stream_response`'s token streaming and background memory update, are not modelled.
