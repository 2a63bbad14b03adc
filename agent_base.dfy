/**
 * The shared agent infrastructure: turning the graph's messages into API
 * messages, formatting long-term memories, and loading the MCP tools once
 * per agent.
 *
 * The memory store, the MCP client and LangChain's message conversion are
 * not part of this model: their results are parameters.
 */
module AgentBase {
  import opened Wrappers
  import opened PyStr
  import opened Json

  /** A message of the graph in OpenAI form: a role and a content value. */
  datatype ChatEntry = ChatEntry(role: string, content: Json)

  /** `Message`, the API's message: a role and a text. */
  datatype Message = Message(role: string, content: string)

  // ---------------------------------------------------------------- messages

  /** The entries `_process_messages` keeps: a user or assistant role and a truthy content. */
  predicate Shown(e: ChatEntry)
  {
    (e.role == "assistant" || e.role == "user") && Truthy(e.content)
  }

  /** The API message for an entry, its content stringified. */
  function AsMessage(e: ChatEntry, containerText: Json -> string): Message
  {
    Message(e.role, Text(e.content, containerText))
  }

  /**
   * `_process_messages`: the user and assistant entries with a truthy
   * content, in order, as API messages.
   */
  function ProcessMessages(entries: seq<ChatEntry>, containerText: Json -> string): (r: seq<Message>)
    ensures |r| <= |entries|
    ensures forall i :: 0 <= i < |r| ==> r[i].role == "assistant" || r[i].role == "user"
    ensures forall i :: 0 <= i < |r| ==>
      exists j :: 0 <= j < |entries| && Shown(entries[j]) && r[i] == AsMessage(entries[j], containerText)
  {
    if entries == [] then []
    else
      var init := ProcessMessages(entries[..|entries| - 1], containerText);
      var last := entries[|entries| - 1];
      if Shown(last) then init + [AsMessage(last, containerText)] else init
  }

  /** Processing keeps the order of the entries: two stretches give their results one after the other. */
  lemma {:induction false} ProcessMessagesAppend(a: seq<ChatEntry>, b: seq<ChatEntry>, containerText: Json -> string)
    ensures ProcessMessages(a + b, containerText) == ProcessMessages(a, containerText) + ProcessMessages(b, containerText)
    decreases |b|
  {
    if b == [] {
      assert a + b == a;
    } else {
      var n := |b| - 1;
      assert (a + b)[..|a + b| - 1] == a + b[..n];
      assert (a + b)[|a + b| - 1] == b[n];
      ProcessMessagesAppend(a, b[..n], containerText);
    }
  }

  /** Every shown entry gives a message: a conversation of shown text entries comes back unchanged. */
  lemma {:induction false} ProcessMessagesKeepsText(entries: seq<ChatEntry>, containerText: Json -> string)
    requires forall i :: 0 <= i < |entries| ==> Shown(entries[i]) && entries[i].content.JStr?
    ensures ProcessMessages(entries, containerText) ==
      seq(|entries|, i requires 0 <= i < |entries| => Message(entries[i].role, entries[i].content.s))
  {
    if entries != [] {
      var n := |entries| - 1;
      ProcessMessagesKeepsText(entries[..n], containerText);
    }
  }

  // ---------------------------------------------------------------- memory

  /** What the memory lookup gave: no memory store, a failed search, or the memories found. */
  datatype MemorySearch = Unavailable | SearchFailed | Found(memories: seq<string>)

  /** `"* {memory}"` for each memory, in order. */
  function Bullets(memories: seq<string>): (r: seq<string>)
    ensures |r| == |memories|
    ensures forall i :: 0 <= i < |r| ==> r[i] == "* " + memories[i]
  {
    seq(|memories|, i requires 0 <= i < |memories| => "* " + memories[i])
  }

  /**
   * `_get_relevant_memory`: the empty text when there is no memory store or
   * the search failed, else one bullet line per memory.
   */
  function RelevantMemory(search: MemorySearch): (r: string)
    ensures !search.Found? ==> r == ""
    ensures search.Found? ==> r == Join("\n", Bullets(search.memories))
  {
    match search
    case Found(memories) => Join("\n", Bullets(memories))
    case _ => ""
  }

  /** Each memory found appears in the text, and the text is empty exactly when nothing was found. */
  lemma RelevantMemoryLists(search: MemorySearch, i: nat)
    requires search.Found? && i < |search.memories|
    ensures Contains(RelevantMemory(search), "* " + search.memories[i])
    ensures RelevantMemory(search) != ""
  {
    JoinContainsPart("\n", Bullets(search.memories), i);
    assert |"* " + search.memories[i]| >= 2;
  }

  // ---------------------------------------------------------------- MCP tools

  /** What `get_mcp_tools` gave: the tools (by name), or a failure. */
  datatype McpFetch = Fetched(tools: seq<string>) | FetchFailed

  /** The tool list and the flag after `_initialize_mcp_tools`, from those before it. */
  function McpInitialized(tools: seq<string>, initialized: bool, fetch: McpFetch): (r: (seq<string>, bool))
    ensures r.1
    ensures initialized ==> r.0 == tools
    ensures !initialized && fetch.Fetched? ==> r.0 == tools + fetch.tools
    ensures fetch.FetchFailed? ==> r.0 == tools
  {
    if initialized then (tools, true)
    else
      match fetch
      case Fetched(fetched) => (if fetched != [] then tools + fetched else tools, true)
      case FetchFailed => (tools, true)
  }

  /** Loading the tools is done once: a second load changes nothing, whatever it would fetch. */
  lemma McpInitIdempotent(tools: seq<string>, initialized: bool, first: McpFetch, second: McpFetch)
    ensures var (t, f) := McpInitialized(tools, initialized, first);
      McpInitialized(t, f, second) == (t, f)
  {
  }

  /** The tools of an agent, with the flag that MCP tools have been loaded. */
  class AgentTools {
    var allTools: seq<string>
    var mcpInitialized: bool

    /** The agent's own tools, before the MCP tools are loaded. */
    constructor(baseTools: seq<string>)
      ensures allTools == baseTools && !mcpInitialized
    {
      allTools := baseTools;
      mcpInitialized := false;
    }

    /**
     * `_initialize_mcp_tools`: the first call appends the fetched tools
     * after the existing ones (nothing on a failure) and sets the flag,
     * even on a failure; later calls change nothing.
     */
    method InitializeMcpTools(fetch: McpFetch)
      modifies this
      ensures (allTools, mcpInitialized) == McpInitialized(old(allTools), old(mcpInitialized), fetch)
      ensures old(mcpInitialized) ==> allTools == old(allTools)
    {
      if mcpInitialized {
        return;
      }
      match fetch {
        case Fetched(fetched) =>
          if fetched != [] {
            allTools := allTools + fetched;
          }
        case FetchFailed =>
      }
      mcpInitialized := true;
    }
  }
}
