/**
 * The retrieval records: a document found in a knowledge base, a query to
 * the knowledge bases, and the result one provider gave, with the context
 * strings they render for the model. Scores are integers (floating point is
 * not part of this model).
 */
module RagSchema {
  import opened Wrappers
  import opened PyStr
  import opened Json

  /** `RAGDocument`. */
  datatype RagDocument = RagDocument(content: string, source: string, score: int, metadata: map<string, Json>)

  /** `RAGDocument(content)`: no source, score 0, no metadata. */
  function Document(content: string): (d: RagDocument)
    ensures d.content == content && d.source == "" && d.score == 0 && d.metadata == map[]
  {
    RagDocument(content, "", 0, map[])
  }

  /** The parts `to_context_string` joins: the content, then the source note when there is a source. */
  function ContextParts(d: RagDocument): seq<string>
  {
    [d.content] + (if d.source != "" then ["(Source: " + d.source + ")"] else [])
  }

  /** `RAGDocument.to_context_string`: the content, followed by `(Source: …)` when the source is non-empty. */
  function ContextString(d: RagDocument): (r: string)
    ensures d.source == "" ==> r == d.content
    ensures d.source != "" ==> r == d.content + " (Source: " + d.source + ")"
  {
    var parts := ContextParts(d);
    if d.source != "" then
      JoinCons(" ", d.content, parts[1..]);
      assert parts == [d.content] + parts[1..];
      Join(" ", parts)
    else Join(" ", parts)
  }

  /** The content always leads the context string, and a source is always named in it. */
  lemma ContextStringShowsDocument(d: RagDocument)
    ensures StartsWith(ContextString(d), d.content)
    ensures d.source != "" ==> Contains(ContextString(d), d.source)
  {
    var r := ContextString(d);
    assert r[..|d.content|] == d.content;
    if d.source != "" {
      var i := |d.content| + |" (Source: "|;
      assert r[i..i + |d.source|] == d.source;
      assert OccursAt(r, d.source, i);
    }
  }

  /** `RetrievalQuery`. */
  datatype RetrievalQuery = RetrievalQuery(query: string, topK: int, filters: map<string, Json>,
                                           providerNames: Option<seq<string>>)

  /** `RetrievalQuery(query)`: five documents, no filters, every provider. */
  function Query(query: string): (q: RetrievalQuery)
    ensures q.query == query && q.topK == 5 && q.filters == map[] && q.providerNames == None
  {
    RetrievalQuery(query, 5, map[], None)
  }

  /** `RetrievalResult`. */
  datatype RetrievalResult = RetrievalResult(documents: seq<RagDocument>, providerName: string, error: Option<string>)

  /** `RetrievalResult()`: no documents, no provider name, no error. */
  function EmptyResult(): (r: RetrievalResult)
    ensures r.documents == [] && r.providerName == "" && r.error == None
  {
    RetrievalResult([], "", None)
  }

  /** `has_results`. */
  predicate HasResults(r: RetrievalResult)
  {
    |r.documents| > 0
  }

  /** `"[i] …"` for the document at position `i`, numbered from 1. */
  function NumberedEntry(i: nat, d: RagDocument): string
  {
    "[" + NatToString(i + 1) + "] " + ContextString(d)
  }

  /** The numbered entries of the documents, in order. */
  function NumberedEntries(docs: seq<RagDocument>): (r: seq<string>)
    ensures |r| == |docs|
    ensures forall i :: 0 <= i < |r| ==> r[i] == NumberedEntry(i, docs[i])
  {
    seq(|docs|, i requires 0 <= i < |docs| => NumberedEntry(i, docs[i]))
  }

  /**
   * `RetrievalResult.to_context_string`: empty without documents, else the
   * numbered entries separated by blank lines.
   */
  function ResultContextString(r: RetrievalResult): (s: string)
    ensures !HasResults(r) ==> s == ""
    ensures HasResults(r) ==> s == Join("\n\n", NumberedEntries(r.documents))
  {
    if r.documents == [] then "" else Join("\n\n", NumberedEntries(r.documents))
  }

  /** The context string is empty exactly when there are no results, and each document's entry is in it. */
  lemma ResultContextStringLists(r: RetrievalResult, i: nat)
    requires i < |r.documents|
    ensures ResultContextString(r) != ""
    ensures Contains(ResultContextString(r), NumberedEntry(i, r.documents[i]))
  {
    var entries := NumberedEntries(r.documents);
    JoinContainsPart("\n\n", entries, i);
    assert |entries[i]| > 0;
  }
}
