/**
 * The worker agents of the multi-agent system and their registry: a
 * name-keyed table, created with the researcher, coder and analyst workers,
 * that other components look workers up in, list, export and extend.
 *
 * A worker call prefixes the conversation with the worker's system prompt,
 * renames message roles to the chat-completion vocabulary, and turns any
 * failure of the language-model call into an apology text. The call itself
 * is the parameter `call`.
 */
module Workers {
  import opened Wrappers
  import opened Json
  import opened Llm

  /** A registered worker; `tools` names the tools bound to it. */
  datatype Worker = Worker(name: string, description: string, systemPrompt: string, tools: seq<string>)

  /** `{"name": …, "description": …}` of `list_workers`. */
  datatype WorkerInfo = WorkerInfo(name: string, description: string)

  /** `{"system_prompt": …, "description": …}` of `get_worker_configs`. */
  datatype WorkerConfig = WorkerConfig(systemPrompt: string, description: string)

  // ---------------------------------------------------------------- the built-in workers

  const ResearcherPrompt: string :=
    "You are an expert researcher. Your strengths:\n" +
    "- Thorough web searching and information gathering\n" +
    "- Fact-checking and source verification\n" +
    "- Summarizing complex findings clearly\n" +
    "- Providing well-structured research reports\n\n" +
    "Always cite sources when possible. Present findings in a clear, organized format."

  const CoderPrompt: string :=
    "You are an expert software engineer. Your strengths:\n" +
    "- Writing clean, production-ready code\n" +
    "- Debugging and troubleshooting\n" +
    "- Code review with security and performance focus\n" +
    "- Technical architecture and design patterns\n" +
    "- Multiple languages: Python, JavaScript, TypeScript, SQL, etc.\n\n" +
    "Always follow best practices. Include error handling and type hints. " +
    "Explain your code decisions."

  const AnalystPrompt: string :=
    "You are an expert data analyst. Your strengths:\n" +
    "- Statistical analysis and interpretation\n" +
    "- Data visualization recommendations\n" +
    "- Business intelligence and insights\n" +
    "- SQL query optimization\n" +
    "- Clear presentation of quantitative findings\n\n" +
    "Always explain your methodology. Present results with context and actionable recommendations."

  const Researcher := Worker("researcher",
    "Specializes in web search, information gathering, fact-checking, and summarizing findings.",
    ResearcherPrompt, [])
  const Coder := Worker("coder",
    "Specializes in writing code, debugging, code review, and technical architecture.",
    CoderPrompt, [])
  const Analyst := Worker("analyst",
    "Specializes in data analysis, statistics, visualization recommendations, and business insights.",
    AnalystPrompt, [])

  // ---------------------------------------------------------------- messages

  /**
   * A message handed to a worker: an object with `content` (and a `type`,
   * when it has one), a plain dict, or anything else.
   */
  datatype InMessage = WithContent(kind: Option<string>, content: string) | Dict(fields: map<string, Json>) | Opaque

  /** A message as the language model receives it. */
  datatype OutMessage = Chat(role: string, content: string) | Passed(fields: map<string, Json>)

  /** `getattr(msg, "type", "user")` with `human` and `ai` renamed. */
  function Role(kind: Option<string>): (role: string)
    ensures role != "human" && role != "ai"
    ensures kind == Some("human") || kind.None? ==> role == "user"
    ensures kind == Some("ai") ==> role == "assistant"
    ensures kind.Some? && kind.value != "human" && kind.value != "ai" ==> role == kind.value
  {
    match kind
    case None => "user"
    case Some(k) => if k == "human" then "user" else if k == "ai" then "assistant" else k
  }

  /** What one incoming message contributes: nothing for a message that is neither. */
  function Convert(m: InMessage): Option<OutMessage>
  {
    match m
    case WithContent(kind, content) => Some(Chat(Role(kind), content))
    case Dict(fields) => Some(Passed(fields))
    case Opaque => None
  }

  /** The converted conversation, in order. */
  function Converted(ms: seq<InMessage>): seq<OutMessage>
  {
    if ms == [] then []
    else
      var last := ms[|ms| - 1];
      Converted(ms[..|ms| - 1]) + (if last.Opaque? then [] else [Convert(last).value])
  }

  /** What `invoke` sends: the system prompt, then the converted conversation. */
  function FullMessages(systemPrompt: string, ms: seq<InMessage>): seq<OutMessage>
  {
    [Chat("system", systemPrompt)] + Converted(ms)
  }

  lemma {:induction false} ConvertedAppend(a: seq<InMessage>, b: seq<InMessage>)
    ensures Converted(a + b) == Converted(a) + Converted(b)
    decreases |b|
  {
    if b == [] {
      assert a + b == a;
    } else {
      var n := |b| - 1;
      assert (a + b)[..|a + b| - 1] == a + b[..n];
      ConvertedAppend(a, b[..n]);
    }
  }

  /**
   * A conversation without opaque entries keeps its length and order, each
   * message converted in place.
   */
  lemma {:induction false} ConvertedPointwise(ms: seq<InMessage>)
    requires forall i :: 0 <= i < |ms| ==> !ms[i].Opaque?
    ensures |Converted(ms)| == |ms|
    ensures forall i :: 0 <= i < |ms| ==> Some(Converted(ms)[i]) == Convert(ms[i])
  {
    if ms != [] {
      var n := |ms| - 1;
      ConvertedPointwise(ms[..n]);
      assert forall i :: 0 <= i < n ==> ms[..n][i] == ms[i];
    }
  }

  /** Opaque entries are dropped and nothing else is: the output counts the others. */
  lemma {:induction false} ConvertedDropsOpaque(ms: seq<InMessage>)
    ensures |Converted(ms)| == |ms| - OpaqueCount(ms)
  {
    if ms != [] {
      ConvertedDropsOpaque(ms[..|ms| - 1]);
    }
  }

  function OpaqueCount(ms: seq<InMessage>): (n: nat)
    ensures n <= |ms|
  {
    if ms == [] then 0 else OpaqueCount(ms[..|ms| - 1]) + (if ms[|ms| - 1].Opaque? then 1 else 0)
  }

  /**
   * The system prompt comes first, and no message the worker converts keeps
   * a `human` or `ai` role.
   */
  lemma {:induction false} FullMessagesRoles(systemPrompt: string, ms: seq<InMessage>)
    ensures FullMessages(systemPrompt, ms)[0] == Chat("system", systemPrompt)
    ensures forall i :: 0 <= i < |Converted(ms)| && Converted(ms)[i].Chat? ==>
      Converted(ms)[i].role != "human" && Converted(ms)[i].role != "ai"
  {
    if ms != [] {
      FullMessagesRoles(systemPrompt, ms[..|ms| - 1]);
    }
  }

  /** `"[{name}] I encountered an error processing your request: {e}"`. */
  function ErrorReply(name: string, error: string): string
  {
    "[" + name + "] I encountered an error processing your request: " + error
  }

  /**
   * `BaseWorker.invoke`: builds the message list, makes the call, and
   * answers with the model's content or, when the call raised, the apology.
   */
  method Invoke(w: Worker, messages: seq<InMessage>, call: seq<OutMessage> -> Outcome) returns (reply: string)
    ensures call(FullMessages(w.systemPrompt, messages)).Responded? ==>
      reply == call(FullMessages(w.systemPrompt, messages)).content
    ensures call(FullMessages(w.systemPrompt, messages)).Raised? ==>
      reply == ErrorReply(w.name, call(FullMessages(w.systemPrompt, messages)).error)
  {
    var full := [Chat("system", w.systemPrompt)];
    var i := 0;
    while i < |messages|
      invariant 0 <= i <= |messages|
      invariant full == FullMessages(w.systemPrompt, messages[..i])
    {
      assert messages[..i + 1][..i] == messages[..i];
      match messages[i] {
        case WithContent(kind, content) =>
          full := full + [Chat(Role(kind), content)];
        case Dict(fields) =>
          full := full + [Passed(fields)];
        case Opaque =>
      }
      i := i + 1;
    }
    assert messages[..i] == messages;
    match call(full)
    case Responded(content) => reply := content;
    case Raised(e) => reply := ErrorReply(w.name, e);
  }

  // ---------------------------------------------------------------- the registry

  /** `WORKER_REGISTRY` and its insertion order. */
  class WorkerRegistry {
    var entries: map<string, Worker>
    var order: seq<string>

    /** Keys are listed once each, in insertion order, and each worker is filed under its own name. */
    ghost predicate Valid()
      reads this
    {
      (forall k :: k in entries <==> k in order) &&
      (forall i, j :: 0 <= i < j < |order| ==> order[i] != order[j]) &&
      (forall k :: k in entries ==> entries[k].name == k)
    }

    /** The module-level registry: researcher, coder and analyst, in that order. */
    constructor ()
      ensures Valid()
      ensures entries.Keys == {"researcher", "coder", "analyst"}
      ensures order == ["researcher", "coder", "analyst"]
      ensures entries["researcher"] == Researcher && entries["coder"] == Coder && entries["analyst"] == Analyst
    {
      entries := map["researcher" := Researcher, "coder" := Coder, "analyst" := Analyst];
      order := ["researcher", "coder", "analyst"];
      assert "researcher"[0] != "coder"[0] && "coder"[0] != "analyst"[0] && "researcher"[0] != "analyst"[0];
    }

    /** `get_worker`: the entry, or none. */
    function GetWorker(name: string): (r: Option<Worker>)
      reads this
      ensures r.Some? <==> name in entries
      ensures r.Some? ==> r.value == entries[name]
    {
      if name in entries then Some(entries[name]) else None
    }

    /** `list_workers`: one entry per registered worker, in registry order. */
    function ListWorkers(): (r: seq<WorkerInfo>)
      reads this
      requires Valid()
      ensures |r| == |order|
      ensures forall i :: 0 <= i < |r| ==>
        order[i] in entries && r[i] == WorkerInfo(entries[order[i]].name, entries[order[i]].description)
    {
      var es, ks := entries, order;
      seq(|ks|, i requires 0 <= i < |ks| && ks[i] in es => WorkerInfo(es[ks[i]].name, es[ks[i]].description))
    }

    /** `get_worker_configs`: the prompt and description of every worker, by name. */
    function WorkerConfigs(): (r: map<string, WorkerConfig>)
      reads this
      ensures r.Keys == entries.Keys
      ensures forall k :: k in r ==> r[k] == WorkerConfig(entries[k].systemPrompt, entries[k].description)
    {
      var es := entries;
      map k | k in es :: WorkerConfig(es[k].systemPrompt, es[k].description)
    }

    /** The listing names each registered worker exactly once, by its key. */
    lemma ListWorkersExact(name: string)
      requires Valid()
      ensures name in entries <==> exists i :: 0 <= i < |ListWorkers()| && ListWorkers()[i].name == name
      ensures forall i, j :: 0 <= i < j < |ListWorkers()| ==> ListWorkers()[i].name != ListWorkers()[j].name
    {
      if name in entries {
        var i :| 0 <= i < |order| && order[i] == name;
        assert ListWorkers()[i].name == name;
      }
    }

    /**
     * `register_worker`: files a fresh worker with the given prompt and
     * description under `name`, replacing any worker of that name; a new
     * name goes last in the registry order.
     */
    method RegisterWorker(name: string, systemPrompt: string, description: string, tools: Option<seq<string>>)
      requires Valid()
      modifies this
      ensures Valid()
      ensures entries == old(entries)[name := Worker(name, description, systemPrompt, tools.GetOr([]))]
      ensures order == if name in old(entries) then old(order) else old(order) + [name]
    {
      var worker := Worker(name, description, systemPrompt, tools.GetOr([]));
      if name !in entries {
        order := order + [name];
      }
      entries := entries[name := worker];
    }
  }
}
