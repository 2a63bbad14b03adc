/**
 * Document ingestion: a file's extension chooses its parser, the parsed
 * text is cut into chunks, each chunk becomes a stored point whose payload
 * names its document and position, and the points are written in batches
 * of one hundred. Listing folds the stored points back into one entry per
 * document.
 *
 * The parsers, the text splitter, the embedding model, the clock and the
 * identifier generator are parameters; the vector store is a log of the
 * batches written to it, and the pages a listing scrolls through are given.
 */
module RagIngest {
  import opened Wrappers
  import opened PyStr
  import opened Json
  import opened Sorting
  import opened Seqs

  type Bytes = seq<bv8>

  const SupportedExtensions: set<string> := {".pdf", ".txt", ".md", ".docx"}
  const ChunkSize: nat := 1000
  const ChunkOverlap: nat := 200
  const BatchSize: nat := 100

  // ---------------------------------------------------------------- extensions

  /** `str.rfind` of one character: its last index, or -1. */
  function RFind(s: string, c: char): (r: int)
    ensures -1 <= r < |s|
    ensures r >= 0 ==> s[r] == c
    ensures forall k :: r < k < |s| ==> s[k] != c
  {
    if s == [] then -1
    else if s[|s| - 1] == c then |s| - 1
    else RFind(s[..|s| - 1], c)
  }

  /** Every index of `c` in `s` is at most its last index. */
  lemma RFindLast(s: string, c: char, k: nat)
    requires k < |s| && s[k] == c
    ensures k <= RFind(s, c)
  {
  }

  /**
   * The suffix `os.path.splitext` splits off a POSIX path: from the last dot
   * of the last path component, unless only dots precede that dot in the
   * component (so a hidden file such as `.md` has no extension).
   */
  function SplitExt(p: string): (r: string)
    ensures r != "" ==> r[0] == '.' && |r| <= |p| && p[|p| - |r|..] == r
    ensures forall k :: 1 <= k < |r| ==> r[k] != '.' && r[k] != '/'
  {
    var sep := RFind(p, '/');
    var dot := RFind(p, '.');
    if dot > sep && exists k :: sep < k < dot && p[k] != '.' then p[dot..] else ""
  }

  /** `_get_extension`: the extension of the lower-cased file name. */
  function Extension(filename: string): string
  {
    SplitExt(Lower(filename))
  }

  predicate NoDotOrSlash(s: string)
  {
    forall k :: 0 <= k < |s| ==> s[k] != '.' && s[k] != '/'
  }

  /**
   * A name `base.e`, where `base` has no slash and is not only dots, has the
   * extension `.e` in lower case.
   */
  lemma ExtensionOfName(base: string, e: string)
    requires forall k :: 0 <= k < |base| ==> base[k] != '/'
    requires exists k :: 0 <= k < |base| && base[k] != '.'
    requires NoDotOrSlash(e)
    ensures Extension(base + "." + e) == "." + Lower(e)
  {
    var k :| 0 <= k < |base| && base[k] != '.';
    LowerName(base, e, k);
    SplitExtAt(Lower(base + "." + e), |base|, k);
  }

  /** The lower-cased name `base.e`: no slash, its dot at `|base|`, no dot after it, none at `k`. */
  lemma LowerName(base: string, e: string, k: nat)
    requires forall j :: 0 <= j < |base| ==> base[j] != '/'
    requires k < |base| && base[k] != '.'
    requires NoDotOrSlash(e)
    ensures var p := Lower(base + "." + e);
      |base| < |p| && p[|base|] == '.' && p[k] != '.' && p[|base|..] == "." + Lower(e) &&
      (forall j :: 0 <= j < |p| ==> p[j] != '/') && (forall j :: |base| < j < |p| ==> p[j] != '.')
  {
    var name := base + "." + e;
    var p := Lower(name);
    var d := |base|;
    forall j | 0 <= j < |p|
      ensures p[j] != '/'
      ensures d < j ==> p[j] != '.'
    {
      assert p[j] == LowerChar(name[j]);
      if d < j {
        assert name[j] == e[j - d - 1];
      }
    }
    assert p[k] == LowerChar(base[k]);
    assert p[d] == LowerChar(name[d]);
    var tail := p[d..];
    assert |tail| == |"." + Lower(e)|;
    forall j | 0 <= j < |tail|
      ensures tail[j] == ("." + Lower(e))[j]
    {
      if j > 0 {
        assert name[d + j] == e[j - 1];
      }
    }
  }

  /** The extension of a path without slashes, whose last dot is at `d` and has a non-dot before it. */
  lemma SplitExtAt(p: string, d: nat, k: nat)
    requires d < |p| && p[d] == '.'
    requires forall j :: 0 <= j < |p| ==> p[j] != '/'
    requires forall j :: d < j < |p| ==> p[j] != '.'
    requires k < d && p[k] != '.'
    ensures SplitExt(p) == p[d..]
  {
    RFindLast(p, '.', d);
    assert RFind(p, '.') == d;
    assert RFind(p, '/') == -1;
  }

  /** A name without a dot has no extension. */
  lemma NoDotNoExtension(filename: string)
    requires forall k :: 0 <= k < |filename| ==> filename[k] != '.'
    ensures Extension(filename) == ""
  {
    assert RFind(Lower(filename), '.') == -1;
  }

  /** A hidden file `.e` has no extension: the dot starts its name. */
  lemma HiddenFileNoExtension(e: string)
    requires NoDotOrSlash(e)
    ensures Extension("." + e) == ""
  {
    var p := Lower("." + e);
    assert p == "." + Lower(e);
    RFindLast(p, '.', 0);
    assert RFind(p, '.') == 0;
  }

  // ---------------------------------------------------------------- parsing

  /** The parsers: PDF pages, plain text (also Markdown), and Word paragraphs. */
  datatype Parser = PdfParser | TextParser | DocxParser

  /** `PARSERS.get(ext)`. */
  function ParserFor(ext: string): (r: Option<Parser>)
    ensures r.Some? <==> ext in SupportedExtensions
    ensures ext == ".txt" || ext == ".md" ==> r == Some(TextParser)
  {
    if ext == ".pdf" then Some(PdfParser)
    else if ext == ".txt" || ext == ".md" then Some(TextParser)
    else if ext == ".docx" then Some(DocxParser)
    else None
  }

  /** The exceptions ingestion raises: a `ValueError`, or any other exception. */
  datatype IngestError = ValueError(message: string) | OtherError(message: string)

  /**
   * `parse_document`: the parser for the file's extension, or a `ValueError`
   * naming the extension and `supportedText`, the supported extensions as
   * the set lists them.
   */
  function ParseDocument(filename: string, content: Bytes, supportedText: string,
                         parse: (Parser, Bytes) -> Result<string, IngestError>): (r: Result<string, IngestError>)
    ensures Extension(filename) !in SupportedExtensions ==>
      r == Err(ValueError("Unsupported file type: " + Extension(filename) + ". Supported: " + supportedText))
    ensures Extension(filename) in SupportedExtensions ==> r == parse(ParserFor(Extension(filename)).value, content)
  {
    match ParserFor(Extension(filename))
    case None => Err(ValueError("Unsupported file type: " + Extension(filename) + ". Supported: " + supportedText))
    case Some(parser) => parse(parser, content)
  }

  // ---------------------------------------------------------------- points

  /** A stored point: its identifier, the chunk's embedding, and its payload. */
  datatype Point = Point(id: string, vector: seq<int>, payload: map<string, Json>)

  /** The keys every chunk payload has before the extra metadata is merged in. */
  const PayloadKeys: set<string> := {"content", "source", "doc_id", "chunk_index", "user_id", "created_at"}

  /** The payload of chunk `index`: the chunk, its file, document, position, user and time; extra metadata last. */
  function Payload(chunk: string, filename: string, docId: string, index: nat, userId: string, now: string,
                   extra: map<string, Json>): (r: map<string, Json>)
    ensures forall k :: k in r <==> k in PayloadKeys || k in extra
    ensures forall k :: k in extra ==> r[k] == extra[k]
    ensures "content" !in extra ==> r["content"] == JStr(chunk)
    ensures "source" !in extra ==> r["source"] == JStr(filename)
    ensures "doc_id" !in extra ==> r["doc_id"] == JStr(docId)
    ensures "chunk_index" !in extra ==> r["chunk_index"] == JInt(index)
    ensures "user_id" !in extra ==> r["user_id"] == JStr(userId)
    ensures "created_at" !in extra ==> r["created_at"] == JStr(now)
  {
    map["content" := JStr(chunk), "source" := JStr(filename), "doc_id" := JStr(docId),
        "chunk_index" := JInt(index), "user_id" := JStr(userId), "created_at" := JStr(now)] + extra
  }

  /** The point of chunk `i`. */
  function ChunkPoint(chunks: seq<string>, vectors: seq<seq<int>>, i: nat, filename: string, docId: string,
                      userId: string, now: string, extra: map<string, Json>, pointId: nat -> string): Point
    requires i < |chunks| && i < |vectors|
  {
    Point(pointId(i), vectors[i], Payload(chunks[i], filename, docId, i, userId, now, extra))
  }

  /** One point per chunk, in order. */
  function Points(chunks: seq<string>, vectors: seq<seq<int>>, filename: string, docId: string,
                  userId: string, now: string, extra: map<string, Json>, pointId: nat -> string): (r: seq<Point>)
    requires |vectors| == |chunks|
    ensures |r| == |chunks|
    ensures forall i :: 0 <= i < |r| ==> r[i] == ChunkPoint(chunks, vectors, i, filename, docId, userId, now, extra, pointId)
  {
    seq(|chunks|, i requires 0 <= i < |chunks| => ChunkPoint(chunks, vectors, i, filename, docId, userId, now, extra, pointId))
  }

  /**
   * Unless the extra metadata overrides them, point `i` carries chunk `i`,
   * its position `i` and the shared document identifier.
   */
  lemma PointsNameTheirChunk(chunks: seq<string>, vectors: seq<seq<int>>, filename: string, docId: string,
                             userId: string, now: string, extra: map<string, Json>, pointId: nat -> string, i: nat)
    requires |vectors| == |chunks| && i < |chunks|
    requires "content" !in extra && "doc_id" !in extra && "chunk_index" !in extra
    ensures Points(chunks, vectors, filename, docId, userId, now, extra, pointId)[i].payload["content"] == JStr(chunks[i])
    ensures Points(chunks, vectors, filename, docId, userId, now, extra, pointId)[i].payload["doc_id"] == JStr(docId)
    ensures Points(chunks, vectors, filename, docId, userId, now, extra, pointId)[i].payload["chunk_index"] == JInt(i)
    ensures Points(chunks, vectors, filename, docId, userId, now, extra, pointId)[i].vector == vectors[i]
  {
    var p := Payload(chunks[i], filename, docId, i, userId, now, extra);
    assert Points(chunks, vectors, filename, docId, userId, now, extra, pointId)[i].payload == p;
  }

  // ---------------------------------------------------------------- batches

  /** `s[start:]`, empty past the end. */
  function Rest<T>(s: seq<T>, start: nat): (r: seq<T>)
    ensures start < |s| ==> r == s[start..]
    ensures start >= |s| ==> r == []
  {
    if start < |s| then s[start..] else []
  }

  /** Consecutive slices of `size` elements; the last one may be shorter. */
  function Batches<T>(s: seq<T>, size: nat): seq<seq<T>>
    requires size > 0
    decreases |s|
  {
    if s == [] then []
    else if |s| <= size then [s]
    else [s[..size]] + Batches(s[size..], size)
  }

  /** The batches cover the sequence, each element exactly once and in order. */
  lemma {:induction false} BatchesCover<T>(s: seq<T>, size: nat)
    requires size > 0
    ensures Concat(Batches(s, size)) == s
    decreases |s|
  {
    if |s| > size {
      BatchesCover(s[size..], size);
      var b := Batches(s, size);
      assert b[0] == s[..size] && b[1..] == Batches(s[size..], size);
      assert s == s[..size] + s[size..];
    } else if s != [] {
      var b := Batches(s, size);
      assert b[1..] == [];
    }
  }

  /** Every batch is non-empty and at most `size` long; all but the last are full. */
  lemma {:induction false} BatchesSized<T>(s: seq<T>, size: nat)
    requires size > 0
    ensures forall i :: 0 <= i < |Batches(s, size)| ==> 0 < |Batches(s, size)[i]| <= size
    ensures forall i :: 0 <= i < |Batches(s, size)| - 1 ==> |Batches(s, size)[i]| == size
    decreases |s|
  {
    if |s| > size {
      BatchesSized(s[size..], size);
      var rest := Batches(s[size..], size);
      assert Batches(s, size) == [s[..size]] + rest;
    }
  }

  /** There are as many batches as it takes to hold the sequence: `ceil(|s| / size)`. */
  lemma {:induction false} BatchesCount<T>(s: seq<T>, size: nat)
    requires size > 0
    ensures (|Batches(s, size)| - 1) * size < |s| <= |Batches(s, size)| * size
    ensures s == [] <==> Batches(s, size) == []
    decreases |s|
  {
    if |s| > size {
      BatchesCount(s[size..], size);
      var n := |Batches(s[size..], size)|;
      assert |Batches(s, size)| == n + 1;
      assert (n + 1) * size == n * size + size;
    }
  }

  /** The batch written at `start`, followed by the batches after it. */
  lemma BatchesFrom<T>(s: seq<T>, start: nat, size: nat)
    requires size > 0 && start < |s|
    ensures Batches(Rest(s, start), size) ==
      [s[start..if start + size <= |s| then start + size else |s|]] + Batches(Rest(s, start + size), size)
  {
    var r := s[start..];
    if |r| > size {
      assert r[..size] == s[start..start + size];
      assert r[size..] == s[start + size..];
    } else {
      assert Rest(s, start + size) == [];
      assert r == s[start..|s|];
    }
  }

  lemma AppendAssoc<T>(a: seq<T>, x: T, b: seq<T>)
    ensures (a + [x]) + b == a + ([x] + b)
  {
  }

  // ---------------------------------------------------------------- ingestion

  /** `IngestedDocument`. */
  datatype IngestedDocument = IngestedDocument(docId: string, filename: string, fileType: string, chunkCount: nat,
                                               createdAt: string, userId: string, fileSize: nat,
                                               metadata: map<string, Json>)

  /** `metadata or {}`. */
  function ExtraOf(metadata: Option<map<string, Json>>): map<string, Json>
  {
    if metadata.Some? then metadata.value else map[]
  }

  /** The `ValueError` `zip(..., strict=True)` raises when there are fewer or more vectors than chunks. */
  function ZipMismatch(chunks: nat, vectors: nat): IngestError
  {
    if vectors < chunks then ValueError("zip() argument 2 is shorter than argument 1")
    else ValueError("zip() argument 2 is longer than argument 1")
  }

  /** The outcome of an ingestion: the record returned and the points to store. */
  datatype Ingestion = Ingestion(record: IngestedDocument, points: seq<Point>)

  /**
   * `ingest_document`, up to storage: parse, refuse blank text, chunk,
   * embed, and build one point per chunk. `docId`, `now` and `pointId` stand
   * for the generated identifiers and the clock.
   */
  function Ingested(filename: string, content: Bytes, userId: string, metadata: Option<map<string, Json>>,
                    docId: string, now: string, pointId: nat -> string, supportedText: string,
                    parse: (Parser, Bytes) -> Result<string, IngestError>, chunk: string -> seq<string>,
                    embed: seq<string> -> Result<seq<seq<int>>, IngestError>): (r: Result<Ingestion, IngestError>)
    ensures ParseDocument(filename, content, supportedText, parse).Err? ==>
      r == Err(ParseDocument(filename, content, supportedText, parse).error)
    ensures ParseDocument(filename, content, supportedText, parse).Ok? &&
            AllSpace(ParseDocument(filename, content, supportedText, parse).value) ==>
      r == Err(ValueError("Document is empty or could not be parsed."))
    ensures r.Ok? ==> Extension(filename) in SupportedExtensions
    ensures r.Ok? ==> r.value.record.chunkCount == |r.value.points|
    ensures r.Ok? ==> r.value.record == IngestedDocument(docId, filename, Extension(filename), |r.value.points|,
                                                         now, userId, |content|, ExtraOf(metadata))
    ensures r.Ok? ==> |r.value.points| == |chunk(ParseDocument(filename, content, supportedText, parse).value)|
  {
    match ParseDocument(filename, content, supportedText, parse)
    case Err(e) => Err(e)
    case Ok(text) =>
      if AllSpace(text) then Err(ValueError("Document is empty or could not be parsed."))
      else
        var chunks := chunk(text);
        match embed(chunks)
        case Err(e) => Err(e)
        case Ok(vectors) =>
          if |vectors| != |chunks| then Err(ZipMismatch(|chunks|, |vectors|))
          else
            var points := Points(chunks, vectors, filename, docId, userId, now, ExtraOf(metadata), pointId);
            Ok(Ingestion(IngestedDocument(docId, filename, Extension(filename), |chunks|, now, userId, |content|,
                                          ExtraOf(metadata)), points))
  }

  /** The vector collection, as the log of the batches upserted into it. */
  class VectorStore {
    var upserts: seq<seq<Point>>

    constructor()
      ensures upserts == []
    {
      upserts := [];
    }

    /** `client.upsert`: one more batch written. */
    method Upsert(batch: seq<Point>)
      modifies this
      ensures upserts == old(upserts) + [batch]
    {
      upserts := upserts + [batch];
    }
  }

  /**
   * `ingest_document`: builds the points one chunk at a time, then upserts
   * them in batches of one hundred. Nothing is stored when it raises.
   */
  method IngestDocument(store: VectorStore, filename: string, content: Bytes, userId: string,
                        metadata: Option<map<string, Json>>, docId: string, now: string, pointId: nat -> string,
                        supportedText: string, parse: (Parser, Bytes) -> Result<string, IngestError>,
                        chunk: string -> seq<string>, embed: seq<string> -> Result<seq<seq<int>>, IngestError>)
    returns (r: Result<IngestedDocument, IngestError>)
    modifies store
    ensures Ingested(filename, content, userId, metadata, docId, now, pointId, supportedText, parse, chunk, embed).Err? ==>
      r == Err(Ingested(filename, content, userId, metadata, docId, now, pointId, supportedText, parse, chunk, embed).error) &&
      store.upserts == old(store.upserts)
    ensures Ingested(filename, content, userId, metadata, docId, now, pointId, supportedText, parse, chunk, embed).Ok? ==>
      r == Ok(Ingested(filename, content, userId, metadata, docId, now, pointId, supportedText, parse, chunk, embed).value.record) &&
      store.upserts == old(store.upserts) +
        Batches(Ingested(filename, content, userId, metadata, docId, now, pointId, supportedText, parse, chunk, embed).value.points, BatchSize)
  {
    var extra := ExtraOf(metadata);
    var text := ParseDocument(filename, content, supportedText, parse);
    if text.Err? {
      return Err(text.error);
    }
    if AllSpace(text.value) {
      return Err(ValueError("Document is empty or could not be parsed."));
    }
    var chunks := chunk(text.value);
    var vectors := embed(chunks);
    if vectors.Err? {
      return Err(vectors.error);
    }
    if |vectors.value| != |chunks| {
      return Err(ZipMismatch(|chunks|, |vectors.value|));
    }
    var points := BuildPoints(chunks, vectors.value, filename, docId, userId, now, extra, pointId);
    UpsertBatches(store, points);
    r := Ok(IngestedDocument(docId, filename, Extension(filename), |chunks|, now, userId, |content|, extra));
  }

  /** The loop that builds one point per chunk. */
  method BuildPoints(chunks: seq<string>, vectors: seq<seq<int>>, filename: string, docId: string,
                     userId: string, now: string, extra: map<string, Json>, pointId: nat -> string)
    returns (points: seq<Point>)
    requires |vectors| == |chunks|
    ensures points == Points(chunks, vectors, filename, docId, userId, now, extra, pointId)
  {
    points := [];
    for i := 0 to |chunks|
      invariant |points| == i
      invariant forall k :: 0 <= k < i ==>
        points[k] == ChunkPoint(chunks, vectors, k, filename, docId, userId, now, extra, pointId)
    {
      var payload := Payload(chunks[i], filename, docId, i, userId, now, extra);
      points := points + [Point(pointId(i), vectors[i], payload)];
    }
  }

  /** The loop that upserts `points[start:start + 100]` for each multiple `start` of one hundred. */
  method UpsertBatches(store: VectorStore, points: seq<Point>)
    modifies store
    ensures store.upserts == old(store.upserts) + Batches(points, BatchSize)
  {
    var start := 0;
    while start < |points|
      invariant store.upserts + Batches(Rest(points, start), BatchSize) == old(store.upserts) + Batches(points, BatchSize)
      decreases |points| - start
    {
      var end := if start + BatchSize <= |points| then start + BatchSize else |points|;
      var batch := points[start..end];
      BatchesFrom(points, start, BatchSize);
      AppendAssoc(store.upserts, batch, Batches(Rest(points, start + BatchSize), BatchSize));
      store.Upsert(batch);
      start := start + BatchSize;
    }
  }

  // ---------------------------------------------------------------- listing

  /** A point's payload as `list_documents` reads it: `point.payload or {}`. */
  function PayloadOf(p: Option<map<string, Json>>): map<string, Json>
  {
    if p.Some? then p.value else map[]
  }

  function DocIdOf(p: Option<map<string, Json>>): Json
  {
    Get(PayloadOf(p), "doc_id", JStr(""))
  }

  function ChunkIndexOf(p: Option<map<string, Json>>): Json
  {
    Get(PayloadOf(p), "chunk_index", JInt(0))
  }

  /** Lists and dicts cannot be dictionary keys: looking one up raises. */
  predicate Hashable(j: Json)
  {
    !j.JArr? && !j.JObj?
  }

  /** A value as a Python integer: integers, and booleans as 0 and 1. */
  function IntValue(j: Json): (r: Option<int>)
    ensures j.JInt? ==> r == Some(j.i)
  {
    match j
    case JInt(i) => Some(i)
    case JBool(b) => Some(if b then 1 else 0)
    case _ => None
  }

  /**
   * `a > b` on chunk indices. Any other comparison raises, or leaves a value
   * that `+ 1` later refuses, so the listing raises either way.
   */
  function Greater(a: Json, b: Json): (r: Option<bool>)
    ensures r.Some? <==> IntValue(a).Some? && IntValue(b).Some?
    ensures r.Some? ==> r.value == (IntValue(a).value > IntValue(b).value)
  {
    match (IntValue(a), IntValue(b))
    case (Some(x), Some(y)) => Some(x > y)
    case _ => None
  }

  /** What the listing keeps of a document: its first point's fields, and the largest chunk index seen. */
  datatype DocInfo = DocInfo(filename: Json, userId: Json, createdAt: Json, chunkIndex: Json)

  function FirstInfo(p: Option<map<string, Json>>): DocInfo
  {
    var payload := PayloadOf(p);
    DocInfo(Get(payload, "source", JStr("")), Get(payload, "user_id", JStr("")),
            Get(payload, "created_at", JStr("")), ChunkIndexOf(p))
  }

  /** The `seen_docs` dictionary: its keys in insertion order, and its values. */
  datatype Seen = Seen(order: seq<Json>, info: map<Json, DocInfo>)

  /** The keys are exactly the listed ones, each listed once. */
  ghost predicate SeenValid(s: Seen)
  {
    (forall d :: d in s.info <==> d in s.order) &&
    (forall i, j :: 0 <= i < j < |s.order| ==> s.order[i] != s.order[j])
  }

  /** One point of the fold: a new document is recorded, a known one keeps its larger chunk index. */
  function FoldStep(s: Seen, p: Option<map<string, Json>>): (r: Option<Seen>)
    ensures !Truthy(DocIdOf(p)) ==> r == Some(s)
    ensures r.Some? ==> forall d :: d in s.info ==> d in r.value.info
    ensures r.Some? ==> forall d :: d in s.info && d != DocIdOf(p) ==> r.value.info[d] == s.info[d]
    ensures r.Some? && Truthy(DocIdOf(p)) ==> DocIdOf(p) in r.value.info
    ensures r.Some? ==> forall d :: d in r.value.info && d !in s.info ==>
      d == DocIdOf(p) && Truthy(d) && r.value.info[d] == FirstInfo(p)
    ensures r.Some? && Truthy(DocIdOf(p)) && DocIdOf(p) in s.info ==>
      Greater(ChunkIndexOf(p), s.info[DocIdOf(p)].chunkIndex).Some? &&
      r.value.info[DocIdOf(p)] == s.info[DocIdOf(p)].(chunkIndex :=
        if Greater(ChunkIndexOf(p), s.info[DocIdOf(p)].chunkIndex).value then ChunkIndexOf(p)
        else s.info[DocIdOf(p)].chunkIndex)
    ensures r.Some? ==> (r.value.order == s.order ||
                         (DocIdOf(p) !in s.info && r.value.order == s.order + [DocIdOf(p)]))
    ensures r.Some? && (forall d :: d in s.info <==> d in s.order) ==>
      forall d :: d in r.value.info <==> d in r.value.order
  {
    var id := DocIdOf(p);
    if !Truthy(id) then Some(s)
    else if !Hashable(id) then None
    else if id !in s.info then Some(Seen(s.order + [id], s.info[id := FirstInfo(p)]))
    else
      match Greater(ChunkIndexOf(p), s.info[id].chunkIndex)
      case None => None
      case Some(greater) =>
        if greater then Some(Seen(s.order, s.info[id := s.info[id].(chunkIndex := ChunkIndexOf(p))]))
        else Some(s)
  }

  /** The fold over the points, in order; `None` when it raises. */
  function Fold(points: seq<Option<map<string, Json>>>): (r: Option<Seen>)
    ensures r.Some? ==> forall d :: d in r.value.info <==> d in r.value.order
    ensures r.Some? ==> forall d :: d in r.value.info ==> Truthy(d)
  {
    if points == [] then Some(Seen([], map[]))
    else
      match Fold(points[..|points| - 1])
      case None => None
      case Some(s) => FoldStep(s, points[|points| - 1])
  }

  /** A listed document. */
  datatype DocEntry = DocEntry(docId: Json, filename: Json, userId: Json, createdAt: Json, chunkCount: int)

  /** The entries of the recorded documents, in first-seen order; `None` when a chunk index is not a number. */
  function EntriesOf(order: seq<Json>, info: map<Json, DocInfo>): (r: Option<seq<DocEntry>>)
    requires forall d :: d in order ==> d in info
    ensures r.Some? <==> forall i :: 0 <= i < |order| ==> IntValue(info[order[i]].chunkIndex).Some?
    ensures r.Some? ==> |r.value| == |order|
    ensures r.Some? ==> forall i :: 0 <= i < |order| ==>
      r.value[i] == DocEntry(order[i], info[order[i]].filename, info[order[i]].userId, info[order[i]].createdAt,
                             IntValue(info[order[i]].chunkIndex).value + 1)
  {
    if order == [] then Some([])
    else
      var d := order[|order| - 1];
      match EntriesOf(order[..|order| - 1], info)
      case None => None
      case Some(entries) =>
        match IntValue(info[d].chunkIndex)
        case None => None
        case Some(ci) => Some(entries + [DocEntry(d, info[d].filename, info[d].userId, info[d].createdAt, ci + 1)])
  }

  /** The sort key: `created_at`, when it is a string. */
  function CreatedKey(e: DocEntry): string
  {
    if e.createdAt.JStr? then e.createdAt.s else ""
  }

  /** Two or more entries can be sorted only when their `created_at` values are strings. */
  predicate Sortable(entries: seq<DocEntry>)
  {
    |entries| < 2 || forall i :: 0 <= i < |entries| ==> entries[i].createdAt.JStr?
  }

  /**
   * `list_documents` over the pages the scroll returned: nothing when the
   * collection does not exist, else one entry per document, newest first.
   */
  function Listing(collectionExists: bool, pages: seq<seq<Option<map<string, Json>>>>): Option<seq<DocEntry>>
  {
    if !collectionExists then Some([])
    else
      match Fold(Concat(pages))
      case None => None
      case Some(s) =>
        match EntriesOf(s.order, s.info)
        case None => None
        case Some(entries) => if Sortable(entries) then Some(SortBy(entries, CreatedKey, StrGe)) else None
  }

  /** Each recorded document is recorded once. */
  lemma {:induction false} FoldDistinct(points: seq<Option<map<string, Json>>>)
    requires Fold(points).Some?
    ensures SeenValid(Fold(points).value)
  {
    if points != [] {
      var init := points[..|points| - 1];
      FoldDistinct(init);
    }
  }

  /** Every point with a non-empty document identifier has its document recorded. */
  lemma {:induction false} FoldCovers(points: seq<Option<map<string, Json>>>, k: nat)
    requires Fold(points).Some? && k < |points| && Truthy(DocIdOf(points[k]))
    ensures DocIdOf(points[k]) in Fold(points).value.info
  {
    var init := points[..|points| - 1];
    if k < |init| {
      FoldCovers(init, k);
      assert init[k] == points[k];
    }
  }

  /** The fields the listing shows besides the chunk count. */
  predicate SameFirstFields(a: DocInfo, b: DocInfo)
  {
    a.filename == b.filename && a.userId == b.userId && a.createdAt == b.createdAt
  }

  /** A recorded document keeps the file name, user and time of its first point. */
  lemma {:induction false} FoldFirstSeen(points: seq<Option<map<string, Json>>>, d: Json)
    requires Fold(points).Some? && d in Fold(points).value.info
    ensures exists k :: (0 <= k < |points| && DocIdOf(points[k]) == d &&
                         (forall j :: 0 <= j < k ==> DocIdOf(points[j]) != d) &&
                         SameFirstFields(Fold(points).value.info[d], FirstInfo(points[k])))
  {
    var init := points[..|points| - 1];
    var p := points[|points| - 1];
    var s0 := Fold(init).value;
    var s := Fold(points).value;
    if d in s0.info {
      FoldFirstSeen(init, d);
      var k :| 0 <= k < |init| && DocIdOf(init[k]) == d &&
        (forall j :: 0 <= j < k ==> DocIdOf(init[j]) != d) && SameFirstFields(s0.info[d], FirstInfo(init[k]));
      assert points[k] == init[k];
      assert forall j :: 0 <= j < k ==> points[j] == init[j];
    } else {
      FoldNewAtLast(points, d);
    }
  }

  /** A document the last point records is new: no earlier point names it. */
  lemma FoldNewAtLast(points: seq<Option<map<string, Json>>>, d: Json)
    requires points != [] && Fold(points).Some? && d in Fold(points).value.info
    requires d !in Fold(points[..|points| - 1]).value.info
    ensures DocIdOf(points[|points| - 1]) == d
    ensures Fold(points).value.info[d] == FirstInfo(points[|points| - 1])
    ensures forall j :: 0 <= j < |points| - 1 ==> DocIdOf(points[j]) != d
  {
    var init := points[..|points| - 1];
    forall j | 0 <= j < |init|
      ensures DocIdOf(points[j]) != d
    {
      assert points[j] == init[j];
      if DocIdOf(init[j]) == d {
        FoldCovers(init, j);
      }
    }
  }

  /** A recorded numeric chunk index is the largest of the document's points, and one of them. */
  lemma {:induction false} FoldMax(points: seq<Option<map<string, Json>>>, d: Json)
    requires Fold(points).Some? && d in Fold(points).value.info
    requires IntValue(Fold(points).value.info[d].chunkIndex).Some?
    ensures forall k :: 0 <= k < |points| && DocIdOf(points[k]) == d ==>
      IntValue(ChunkIndexOf(points[k])).Some? &&
      IntValue(ChunkIndexOf(points[k])).value <= IntValue(Fold(points).value.info[d].chunkIndex).value
    ensures exists k :: (0 <= k < |points| && DocIdOf(points[k]) == d &&
                         ChunkIndexOf(points[k]) == Fold(points).value.info[d].chunkIndex)
  {
    var init := points[..|points| - 1];
    var last := |points| - 1;
    var p := points[last];
    var s0 := Fold(init).value;
    var s := Fold(points).value;
    assert forall j :: 0 <= j < |init| ==> points[j] == init[j];
    if d !in s0.info {
      FoldNewAtLast(points, d);
    } else if DocIdOf(p) != d {
      FoldMax(init, d);
      var k :| 0 <= k < |init| && DocIdOf(init[k]) == d && ChunkIndexOf(init[k]) == s0.info[d].chunkIndex;
      assert DocIdOf(points[k]) == d && ChunkIndexOf(points[k]) == s.info[d].chunkIndex;
    } else {
      FoldMax(init, d);
      var k :| 0 <= k < |init| && DocIdOf(init[k]) == d && ChunkIndexOf(init[k]) == s0.info[d].chunkIndex;
      if Greater(ChunkIndexOf(p), s0.info[d].chunkIndex).value {
        assert DocIdOf(points[last]) == d && ChunkIndexOf(points[last]) == s.info[d].chunkIndex;
      } else {
        assert DocIdOf(points[k]) == d && ChunkIndexOf(points[k]) == s.info[d].chunkIndex;
      }
    }
  }

  /** Once the fold raises, it raises on any continuation. */
  lemma {:induction false} FoldRaised(a: seq<Option<map<string, Json>>>, b: seq<Option<map<string, Json>>>)
    requires Fold(a).None?
    ensures Fold(a + b).None?
  {
    if b != [] {
      var init := b[..|b| - 1];
      FoldRaised(a, init);
      assert (a + b)[..|a + b| - 1] == a + init;
    } else {
      assert a + b == a;
    }
  }

  /** One more point of the current page. */
  lemma FoldSnoc(a: seq<Option<map<string, Json>>>, p: Option<map<string, Json>>)
    ensures Fold(a + [p]) == if Fold(a).None? then None else FoldStep(Fold(a).value, p)
  {
    assert (a + [p])[..|a|] == a;
  }

  /** The recorded documents behind a listing. */
  function ListedEntries(pages: seq<seq<Option<map<string, Json>>>>): seq<DocEntry>
    requires Listing(true, pages).Some?
  {
    var s := Fold(Concat(pages)).value;
    EntriesOf(s.order, s.info).value
  }

  /** A listing is a reordering of the entries of the recorded documents. */
  lemma ListingPermutes(pages: seq<seq<Option<map<string, Json>>>>)
    requires Listing(true, pages).Some?
    ensures multiset(Listing(true, pages).value) == multiset(ListedEntries(pages))
  {
    SortByPermutes(ListedEntries(pages), CreatedKey, StrGe);
  }

  /** Each listed entry is the entry of a recorded document. */
  lemma ListingOrigin(pages: seq<seq<Option<map<string, Json>>>>, r: seq<DocEntry>, i: nat) returns (a: nat)
    requires Listing(true, pages) == Some(r) && i < |r|
    ensures a < |Fold(Concat(pages)).value.order| && r[i] == ListedEntries(pages)[a]
  {
    ListingPermutes(pages);
    assert r[i] in multiset(ListedEntries(pages));
    a :| 0 <= a < |ListedEntries(pages)| && r[i] == ListedEntries(pages)[a];
  }

  /** The listing is newest first: every `created_at` is a string no later than the one before it. */
  lemma ListingNewestFirst(pages: seq<seq<Option<map<string, Json>>>>)
    requires Listing(true, pages).Some?
    ensures forall i, j :: 0 <= i < j < |Listing(true, pages).value| ==>
      Listing(true, pages).value[i].createdAt.JStr? && Listing(true, pages).value[j].createdAt.JStr? &&
      StrGe(Listing(true, pages).value[i].createdAt.s, Listing(true, pages).value[j].createdAt.s)
  {
    var entries := ListedEntries(pages);
    var r := Listing(true, pages).value;
    StrGeTotalPreorder();
    SortBySorted(entries, CreatedKey, StrGe);
    ListingPermutes(pages);
    forall i | 0 <= i < |r| && |r| >= 2
      ensures r[i].createdAt.JStr?
    {
      assert r[i] in multiset(entries);
    }
  }

  function DocIdKey(e: DocEntry): Json
  {
    e.docId
  }

  /** No document is listed twice. */
  lemma ListingDistinct(pages: seq<seq<Option<map<string, Json>>>>)
    requires Listing(true, pages).Some?
    ensures forall i, j :: 0 <= i < j < |Listing(true, pages).value| ==>
      Listing(true, pages).value[i].docId != Listing(true, pages).value[j].docId
  {
    var s := Fold(Concat(pages)).value;
    var entries := ListedEntries(pages);
    FoldDistinct(Concat(pages));
    assert forall a, b :: 0 <= a < b < |entries| ==> DocIdKey(entries[a]) != DocIdKey(entries[b]);
    ListingPermutes(pages);
    forall i, j | 0 <= i < j < |Listing(true, pages).value|
      ensures Listing(true, pages).value[i].docId != Listing(true, pages).value[j].docId
    {
      DistinctAfterPermutation(entries, Listing(true, pages).value, DocIdKey, i, j);
    }
  }

  /** Every stored point with a non-empty document identifier has its document listed. */
  lemma ListingComplete(pages: seq<seq<Option<map<string, Json>>>>, k: nat)
    requires Listing(true, pages).Some?
    requires k < |Concat(pages)| && Truthy(DocIdOf(Concat(pages)[k]))
    ensures exists i :: (0 <= i < |Listing(true, pages).value| &&
                         Listing(true, pages).value[i].docId == DocIdOf(Concat(pages)[k]))
  {
    var s := Fold(Concat(pages)).value;
    var d := DocIdOf(Concat(pages)[k]);
    FoldCovers(Concat(pages), k);
    var a :| 0 <= a < |s.order| && s.order[a] == d;
    var entries := ListedEntries(pages);
    assert entries[a].docId == d;
    ListingPermutes(pages);
    assert entries[a] in multiset(Listing(true, pages).value);
  }

  /** Where a listed entry comes from: the recorded document and its fold state. */
  lemma ListingEntryOf(pages: seq<seq<Option<map<string, Json>>>>, r: seq<DocEntry>, i: nat) returns (d: Json)
    requires Listing(true, pages) == Some(r) && i < |r|
    ensures d in Fold(Concat(pages)).value.info && d == r[i].docId
    ensures IntValue(Fold(Concat(pages)).value.info[d].chunkIndex) == Some(r[i].chunkCount - 1)
    ensures r[i].filename == Fold(Concat(pages)).value.info[d].filename
    ensures r[i].userId == Fold(Concat(pages)).value.info[d].userId
    ensures r[i].createdAt == Fold(Concat(pages)).value.info[d].createdAt
  {
    var s := Fold(Concat(pages)).value;
    var a := ListingOrigin(pages, r, i);
    var entries := ListedEntries(pages);
    assert entries == EntriesOf(s.order, s.info).value;
    d := s.order[a];
    assert r[i] == entries[a];
    assert entries[a] == DocEntry(d, s.info[d].filename, s.info[d].userId, s.info[d].createdAt,
                                  IntValue(s.info[d].chunkIndex).value + 1);
  }

  /** A listed document shows the file name, user and time of its first stored point. */
  lemma ListingFirstSeen(pages: seq<seq<Option<map<string, Json>>>>, points: seq<Option<map<string, Json>>>,
                         r: seq<DocEntry>, i: nat)
    requires points == Concat(pages) && Listing(true, pages) == Some(r) && i < |r|
    ensures exists k :: (0 <= k < |points| && DocIdOf(points[k]) == r[i].docId &&
                         (forall j :: 0 <= j < k ==> DocIdOf(points[j]) != r[i].docId) &&
                         r[i].filename == Get(PayloadOf(points[k]), "source", JStr("")) &&
                         r[i].userId == Get(PayloadOf(points[k]), "user_id", JStr("")) &&
                         r[i].createdAt == Get(PayloadOf(points[k]), "created_at", JStr("")))
  {
    var d := ListingEntryOf(pages, r, i);
    FoldFirstSeen(points, d);
  }

  /** A listed document's chunk count is one more than the largest chunk index among its stored points. */
  lemma ListingChunkCount(pages: seq<seq<Option<map<string, Json>>>>, points: seq<Option<map<string, Json>>>,
                          r: seq<DocEntry>, i: nat)
    requires points == Concat(pages) && Listing(true, pages) == Some(r) && i < |r|
    ensures forall k :: 0 <= k < |points| && DocIdOf(points[k]) == r[i].docId ==>
      IntValue(ChunkIndexOf(points[k])).Some? && IntValue(ChunkIndexOf(points[k])).value < r[i].chunkCount
    ensures exists k :: (0 <= k < |points| && DocIdOf(points[k]) == r[i].docId &&
                         IntValue(ChunkIndexOf(points[k])) == Some(r[i].chunkCount - 1))
  {
    var d := ListingEntryOf(pages, r, i);
    FoldMax(points, d);
  }

  /** The appended continuation, once more. */
  lemma AppendSplit<T>(a: seq<T>, page: seq<T>, j: nat)
    requires j < |page|
    ensures (a + page[..j + 1]) + page[j + 1..] == a + page
    ensures a + page[..j + 1] == (a + page[..j]) + [page[j]]
  {
    assert page == page[..j + 1] + page[j + 1..];
  }

  /**
   * The `for point in points` loop of one page: updates `seen_docs` point
   * by point, and raises (`None`) where the fold does.
   */
  method FoldPage(ghost before: seq<Option<map<string, Json>>>, order0: seq<Json>, seen0: map<Json, DocInfo>,
                  page: seq<Option<map<string, Json>>>)
    returns (r: Option<Seen>)
    requires Fold(before) == Some(Seen(order0, seen0))
    ensures r == Fold(before + page)
  {
    var order := order0;
    var seen := seen0;
    assert before + page[..0] == before;
    for j := 0 to |page|
      invariant Fold(before + page[..j]) == Some(Seen(order, seen))
    {
      AppendSplit(before, page, j);
      FoldSnoc(before + page[..j], page[j]);
      var payload := PayloadOf(page[j]);
      var docId := Get(payload, "doc_id", JStr(""));
      if Truthy(docId) && !Hashable(docId) {
        FoldRaised(before + page[..j + 1], page[j + 1..]);
        return None;
      }
      if Truthy(docId) && docId !in seen {
        seen := seen[docId := FirstInfo(page[j])];
        order := order + [docId];
      } else if Truthy(docId) {
        var existing := seen[docId];
        var ci := Get(payload, "chunk_index", JInt(0));
        var greater := Greater(ci, existing.chunkIndex);
        if greater.None? {
          FoldRaised(before + page[..j + 1], page[j + 1..]);
          return None;
        }
        if greater.value {
          seen := seen[docId := existing.(chunkIndex := ci)];
        }
      }
    }
    assert page[..|page|] == page;
    r := Some(Seen(order, seen));
  }

  /** The loop that builds one entry per recorded document, in first-seen order. */
  method BuildEntries(order: seq<Json>, seen: map<Json, DocInfo>) returns (r: Option<seq<DocEntry>>)
    requires forall d :: d in order ==> d in seen
    ensures r == EntriesOf(order, seen)
  {
    var documents: seq<DocEntry> := [];
    for i := 0 to |order|
      invariant EntriesOf(order[..i], seen) == Some(documents)
    {
      assert order[..i + 1][..i] == order[..i];
      var info := seen[order[i]];
      var count := IntValue(info.chunkIndex);
      if count.None? {
        return None;
      }
      documents := documents + [DocEntry(order[i], info.filename, info.userId, info.createdAt, count.value + 1)];
    }
    assert order[..|order|] == order;
    r := Some(documents);
  }

  /**
   * `list_documents` over the pages the scroll returned: folds each page's
   * points into `seen_docs` as it arrives, then builds the entries and
   * sorts them newest first.
   */
  method ListDocuments(collectionExists: bool, pages: seq<seq<Option<map<string, Json>>>>)
    returns (r: Option<seq<DocEntry>>)
    ensures r == Listing(collectionExists, pages)
  {
    if !collectionExists {
      return Some([]);
    }
    var order: seq<Json> := [];
    var seen: map<Json, DocInfo> := map[];
    for n := 0 to |pages|
      invariant Fold(Concat(pages[..n])) == Some(Seen(order, seen))
    {
      assert pages[..n + 1] == pages[..n] + [pages[n]];
      ConcatSnoc(pages[..n], pages[n]);
      var next := FoldPage(Concat(pages[..n]), order, seen, pages[n]);
      if next.None? {
        ConcatAppend(pages[..n + 1], pages[n + 1..]);
        assert pages == pages[..n + 1] + pages[n + 1..];
        FoldRaised(Concat(pages[..n + 1]), Concat(pages[n + 1..]));
        return None;
      }
      order, seen := next.value.order, next.value.info;
    }
    assert pages[..|pages|] == pages;
    var documents := BuildEntries(order, seen);
    if documents.None? {
      return None;
    }
    if !Sortable(documents.value) {
      return None;
    }
    r := Some(SortBy(documents.value, CreatedKey, StrGe));
  }
}
