/**
 * The agent's knowledge-base tool: it asks the shared retriever manager for
 * the best documents and renders them as a numbered, sourced context block
 * followed by an instruction to cite the sources, or returns a fixed
 * message when there is nothing to show.
 *
 * The shared manager is given as the manager itself or the message of the
 * exception raised while obtaining it.
 */
module RagTool {
  import opened Wrappers
  import opened PyStr
  import opened Json
  import opened RagSchema
  import opened RagManager

  function NoProvidersMessage(): string
  {
    "No knowledge base providers are configured. Check rag_providers.json."
  }

  function NothingFoundMessage(query: string): string
  {
    "No relevant documents found for: " + query
  }

  function FailureMessage(error: string): string
  {
    "Knowledge base retrieval failed: " + error
  }

  /** The closing instruction to cite the documents under a "📚 Knowledge Base Sources" section. */
  const Instruction: string := "=== INSTRUCTION: When using the above information in your response, add a '\U{1F4DA} Knowledge Base Sources' section at the end listing the source document names used. ==="

  /** The query the tool sends: every provider when `provider` is empty, else that one only. */
  function ToolQuery(query: string, topK: int, provider: string): (q: RetrievalQuery)
    ensures q.query == query && q.topK == topK && q.filters == map[]
    ensures provider == "" ==> q.providerNames == None
    ensures provider != "" ==> q.providerNames == Some([provider])
  {
    RetrievalQuery(query, topK, map[], if provider != "" then Some([provider]) else None)
  }

  /** An empty provider argument targets every registered provider; a named one targets that provider if registered. */
  lemma ToolQueryTargets(names: seq<string>, query: string, topK: int, provider: string)
    ensures provider == "" ==> Targets(names, ToolQuery(query, topK, provider).providerNames) == names
    ensures provider != "" ==> forall n :: n in Targets(names, ToolQuery(query, topK, provider).providerNames) <==>
      n in names && n == provider
  {
    if provider == "" {
      TargetsAll(names, None);
    }
  }

  function Title(): string
  {
    "=== Knowledge Base Results ==="
  }

  /** The header lines: title, query, and how many documents follow. */
  function Header(query: string, count: nat): seq<string>
  {
    [Title(), "Query: " + query, "Documents found: " + NatToString(count), ""]
  }

  /** A document's source, or `unknown` when it has none. */
  function SourceLabel(d: RagDocument): string
  {
    if d.source != "" then d.source else "unknown"
  }

  /** `, Provider: …` when the document's metadata names a provider. */
  function ProviderNote(d: RagDocument, containerText: Json -> string): string
  {
    var provider := Get(d.metadata, "provider", JStr(""));
    if Truthy(provider) then ", Provider: " + Text(provider, containerText) else ""
  }

  /** The start of a document's entry: its number, counted from 1, its source and its provider. */
  function EntryOpening(i: nat, d: RagDocument, containerText: Json -> string): string
  {
    EntryNumber(i) + SourceLabel(d) + ProviderNote(d, containerText)
  }

  function EntryNumber(i: nat): string
  {
    "[Doc " + NatToString(i + 1) + "] (Source: "
  }

  /** The entry of the document at position `i`: its opening, then its content on the next line. */
  function DocBlock(i: nat, d: RagDocument, containerText: Json -> string): string
  {
    EntryOpening(i, d, containerText) + ")\n" + d.content
  }

  /** One text per element, made from its position and the element, in order. */
  function Numbered<T>(xs: seq<T>, f: (nat, T) -> string): (r: seq<string>)
    ensures |r| == |xs|
  {
    if xs == [] then [] else Numbered(xs[..|xs| - 1], f) + [f(|xs| - 1, xs[|xs| - 1])]
  }

  lemma {:induction false} NumberedAt<T>(xs: seq<T>, f: (nat, T) -> string, i: nat)
    requires i < |xs|
    ensures Numbered(xs, f)[i] == f(i, xs[i])
  {
    var n := |xs| - 1;
    if i < n {
      NumberedAt(xs[..n], f, i);
      assert xs[..n][i] == xs[i];
    }
  }

  /** The block maker of `DocBlock`, for a given rendering of containers. */
  function BlockOf(containerText: Json -> string): (nat, RagDocument) -> string
  {
    (i: nat, d: RagDocument) => DocBlock(i, d, containerText)
  }

  /** The blocks of the documents, in order. */
  function Blocks(docs: seq<RagDocument>, containerText: Json -> string): (r: seq<string>)
    ensures |r| == |docs|
  {
    Numbered(docs, BlockOf(containerText))
  }

  /** The block at position `i` is the entry of the `i`-th document. */
  lemma {:induction false} BlocksAt(docs: seq<RagDocument>, containerText: Json -> string, i: nat)
    requires i < |docs|
    ensures Blocks(docs, containerText)[i] == DocBlock(i, docs[i], containerText)
  {
    NumberedAt(docs, BlockOf(containerText), i);
  }

  /** `result_parts`: the header, one block per document, a blank part and the instruction. */
  function ResultParts(query: string, docs: seq<RagDocument>, containerText: Json -> string): seq<string>
  {
    Header(query, |docs|) + Blocks(docs, containerText) + [""] + [Instruction]
  }

  /** The parts joined by blank lines. */
  function Formatted(query: string, docs: seq<RagDocument>, containerText: Json -> string): string
  {
    Join("\n\n", ResultParts(query, docs, containerText))
  }

  /** What the tool answers once providers exist and the merge returned `docs`. */
  function ToolAnswer(query: string, docs: seq<RagDocument>, containerText: Json -> string): string
  {
    if docs == [] then NothingFoundMessage(query) else Formatted(query, docs, containerText)
  }

  /** A block shows the document's source (or `unknown`) and ends with its content. */
  lemma DocBlockShows(i: nat, d: RagDocument, containerText: Json -> string)
    ensures Contains(DocBlock(i, d, containerText), SourceLabel(d))
    ensures Contains(DocBlock(i, d, containerText), d.content)
    ensures EndsWith(DocBlock(i, d, containerText), ")\n" + d.content)
  {
    EntryShows(EntryNumber(i), SourceLabel(d), ProviderNote(d, containerText), d.content);
  }

  lemma EntryShows(number: string, source: string, note: string, content: string)
    ensures Contains(number + source + note + ")\n" + content, source)
    ensures Contains(number + source + note + ")\n" + content, content)
    ensures EndsWith(number + source + note + ")\n" + content, ")\n" + content)
  {
    var opening := number + source + note;
    ContainsMiddle(number, source, note);
    ContainsInLeft(opening, ")\n", source);
    ContainsInLeft(opening + ")\n", content, source);
    ContainsSelf(content);
    ContainsInRight(opening + ")\n", content, content);
    EndsWithAppend(opening, ")\n" + content);
    assert opening + ")\n" + content == opening + (")\n" + content);
  }

  /** Every document's block, source and content appear in the formatted answer. */
  lemma FormattedListsDocument(query: string, docs: seq<RagDocument>, containerText: Json -> string, i: nat)
    requires i < |docs|
    ensures Contains(Formatted(query, docs, containerText), DocBlock(i, docs[i], containerText))
    ensures Contains(Formatted(query, docs, containerText), docs[i].content)
    ensures Contains(Formatted(query, docs, containerText), SourceLabel(docs[i]))
  {
    var parts := ResultParts(query, docs, containerText);
    BlocksAt(docs, containerText, i);
    assert parts[4 + i] == DocBlock(i, docs[i], containerText);
    JoinContainsPart("\n\n", parts, 4 + i);
    DocBlockShows(i, docs[i], containerText);
    ContainsTrans(Formatted(query, docs, containerText), DocBlock(i, docs[i], containerText), docs[i].content);
    ContainsTrans(Formatted(query, docs, containerText), DocBlock(i, docs[i], containerText), SourceLabel(docs[i]));
  }

  /** The answer opens with the title, the query and the document count. */
  lemma FormattedOpens(query: string, docs: seq<RagDocument>, containerText: Json -> string)
    ensures StartsWith(Formatted(query, docs, containerText),
                       Title() + "\n\n" + ("Query: " + query) + "\n\n" + ("Documents found: " + NatToString(|docs|)))
  {
    JoinedHead("\n\n", Header(query, |docs|), Blocks(docs, containerText), "", Instruction);
  }

  /** Joining a four-part head, a body and two last parts writes the head's first three parts first. */
  lemma JoinedHead(sep: string, head: seq<string>, body: seq<string>, blank: string, last: string)
    requires |head| == 4
    ensures StartsWith(Join(sep, head + body + [blank] + [last]), head[0] + sep + head[1] + sep + head[2])
  {
    var parts := head + body + [blank] + [last];
    forall i | 0 <= i < 3
      ensures parts[i] == head[i]
    {
      PrefixIndex(head + body + [blank], [last], i);
      PrefixIndex(head + body, [blank], i);
      PrefixIndex(head, body, i);
    }
    JoinOpening(sep, parts);
  }

  lemma PrefixIndex<T>(h: seq<T>, t: seq<T>, i: nat)
    requires i < |h|
    ensures (h + t)[i] == h[i]
  {
  }

  /** Joining four or more parts writes the first three first. */
  lemma JoinOpening(sep: string, parts: seq<string>)
    requires |parts| >= 4
    ensures StartsWith(Join(sep, parts), parts[0] + sep + parts[1] + sep + parts[2])
  {
    var j2 := Join(sep, parts[2..]);
    assert parts[2..][1..] == parts[3..];
    assert j2 == parts[2] + (sep + Join(sep, parts[3..]));
    StartsWithAppend(parts[2], sep + Join(sep, parts[3..]));
    assert parts[1..][1..] == parts[2..];
    StartsWithExtend(parts[1] + sep, j2, parts[2]);
    StartsWithExtend(parts[0] + sep, Join(sep, parts[1..]), parts[1] + sep + parts[2]);
    assert (parts[0] + sep) + (parts[1] + sep + parts[2]) == parts[0] + sep + parts[1] + sep + parts[2];
  }

  /** The answer closes with a blank part and the instruction. */
  lemma FormattedCloses(query: string, docs: seq<RagDocument>, containerText: Json -> string)
    ensures EndsWith(Formatted(query, docs, containerText), "\n\n\n\n" + Instruction)
  {
    var body := Header(query, |docs|) + Blocks(docs, containerText);
    JoinClosing("\n\n", body, Instruction);
    assert "\n\n" + "\n\n" + Instruction == "\n\n\n\n" + Instruction;
  }

  /** Joining a non-empty list, a blank part and a last part ends with two separators and the last part. */
  lemma JoinClosing(sep: string, body: seq<string>, last: string)
    requires body != []
    ensures EndsWith(Join(sep, (body + [""]) + [last]), sep + sep + last)
  {
    JoinAppend(sep, body + [""], last);
    JoinAppend(sep, body, "");
    var j := Join(sep, (body + [""]) + [last]);
    assert j == Join(sep, body) + (sep + sep + last);
  }

  /** When every provider fails, the tool says it found nothing for the query. */
  lemma AllFailingProvidersFindNothing(names: seq<string>, providers: map<string, Provider>, query: string,
                                       topK: int, provider: string,
                                       fetch: (Provider, RetrievalQuery) -> Result<seq<RagDocument>, string>,
                                       containerText: Json -> string)
    requires WellFormed(names, providers)
    requires forall n :: n in providers ==> fetch(providers[n], ToolQuery(query, topK, provider)).Err?
    ensures ToolAnswer(query, Merged(RetrieveResults(names, providers, ToolQuery(query, topK, provider), fetch), topK, true),
                       containerText) == NothingFoundMessage(query)
  {
    MergedNothingWhenAllFail(names, providers, ToolQuery(query, topK, provider), fetch, true);
  }

  /** The loop that accumulates `result_parts`, one block per document. */
  method FormatResults(query: string, docs: seq<RagDocument>, containerText: Json -> string) returns (out: string)
    ensures out == Formatted(query, docs, containerText)
  {
    var parts := Header(query, |docs|);
    for i := 0 to |docs|
      invariant parts == Header(query, |docs|) + Blocks(docs[..i], containerText)
    {
      assert docs[..i + 1][..i] == docs[..i];
      parts := parts + [DocBlock(i, docs[i], containerText)];
    }
    assert docs[..|docs|] == docs;
    parts := parts + [""];
    parts := parts + [Instruction];
    assert parts == ResultParts(query, docs, containerText);
    out := Join("\n\n", parts);
  }

  /**
   * `retrieve_knowledge`: the failure message when the manager cannot be
   * had, the fixed message when no provider is registered, else the answer
   * for the merged documents of the tool's query.
   */
  method RetrieveKnowledge(query: string, topK: int, provider: string, shared: Result<RetrieverManager, string>,
                           fetch: (Provider, RetrievalQuery) -> Result<seq<RagDocument>, string>,
                           containerText: Json -> string)
    returns (out: string)
    requires shared.Ok? ==> shared.value.Valid()
    ensures shared.Err? ==> out == FailureMessage(shared.error)
    ensures shared.Ok? && shared.value.names == [] ==> out == NoProvidersMessage()
    ensures shared.Ok? && shared.value.names != [] ==>
      out == ToolAnswer(query, Merged(shared.value.Retrieve(ToolQuery(query, topK, provider), fetch), topK, true),
                        containerText)
  {
    if shared.Err? {
      return FailureMessage(shared.error);
    }
    var manager := shared.value;
    if manager.names == [] {
      return NoProvidersMessage();
    }
    var docs := manager.RetrieveAndMerge(ToolQuery(query, topK, provider), true, fetch);
    if docs == [] {
      return NothingFoundMessage(query);
    }
    out := FormatResults(query, docs, containerText);
  }
}
