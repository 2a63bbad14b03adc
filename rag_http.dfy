/**
 * The generic HTTP knowledge-base provider: the headers and request body it
 * sends, and how it finds the documents in the JSON answer, following a
 * dotted path of keys and list indices.
 *
 * The HTTP client is not part of this model: a request's outcome (the
 * decoded answer, or a failure) and a health probe's status code are
 * parameters, as are `float()` on a score value and the rendering of a body
 * template, which goes through JSON text.
 */
module RagHttp {
  import opened Wrappers
  import opened PyStr
  import opened Json
  import opened RagSchema

  // ---------------------------------------------------------------- settings

  /** A text setting of the provider's configuration (the method, the auth header name), with its default; `None` when it is not a string. */
  function Setting(config: map<string, Json>, key: string, default: string): (r: Option<string>)
    ensures key !in config ==> r == Some(default)
    ensures key in config ==> (r.Some? <==> config[key].JStr?)
    ensures key in config && config[key].JStr? ==> r == Some(config[key].s)
  {
    match Get(config, key, JStr(default))
    case JStr(s) => Some(s)
    case _ => None
  }

  /**
   * The settings `_parse_response` reads the answer with, as configured:
   * they are used without a type check, so each is any JSON value.
   */
  datatype ResponseKeys = ResponseKeys(docsPath: Json, contentKey: Json, sourceKey: Json, scoreKey: Json)

  /** The response settings of a configuration: `data`, `content`, `source` and `score` unless configured. */
  function ResponseKeysOf(config: map<string, Json>): (r: ResponseKeys)
    ensures config == map[] ==> r == ResponseKeys(JStr("data"), JStr("content"), JStr("source"), JStr("score"))
    ensures "response_docs_path" !in config ==> r.docsPath == JStr("data")
    ensures "response_content_key" !in config ==> r.contentKey == JStr("content")
    ensures "response_source_key" !in config ==> r.sourceKey == JStr("source")
    ensures "response_score_key" !in config ==> r.scoreKey == JStr("score")
    ensures "response_docs_path" in config ==> r.docsPath == config["response_docs_path"]
    ensures "response_content_key" in config ==> r.contentKey == config["response_content_key"]
    ensures "response_source_key" in config ==> r.sourceKey == config["response_source_key"]
    ensures "response_score_key" in config ==> r.scoreKey == config["response_score_key"]
  {
    ResponseKeys(Get(config, "response_docs_path", JStr("data")), Get(config, "response_content_key", JStr("content")),
                 Get(config, "response_source_key", JStr("source")), Get(config, "response_score_key", JStr("score")))
  }

  /** A key `dict.get` accepts: lists and mappings cannot be hashed and raise. */
  predicate Hashable(key: Json)
  {
    !key.JArr? && !key.JObj?
  }

  /**
   * `item.get(key, default)` on a mapping decoded from JSON: its keys are
   * strings, so a key of another type finds nothing.
   */
  function Lookup(fields: map<string, Json>, key: Json, default: Json): (r: Json)
    ensures key.JStr? && key.s in fields ==> r == fields[key.s]
    ensures !(key.JStr? && key.s in fields) ==> r == default
  {
    if key.JStr? then Get(fields, key.s, default) else default
  }

  // ---------------------------------------------------------------- the path walk

  /** `key.isdigit()`: a non-empty run of decimal digits. */
  predicate IsIndex(key: string)
  {
    key != "" && AllDigits(key)
  }

  /**
   * One step of the walk: a mapping steps to the key's value (an empty list
   * when it is absent), a list to the indexed item (an empty list when the
   * index is past its end); anything else ends the walk on an empty list.
   */
  function Step(items: Json, key: string): (r: (Json, bool))
    ensures items.JObj? ==> r == (Get(items.fields, key, JArr([])), false)
    ensures !items.JObj? && !(items.JArr? && IsIndex(key)) ==> r == (JArr([]), true)
  {
    if items.JObj? then (Get(items.fields, key, JArr([])), false)
    else if items.JArr? && IsIndex(key) then
      var k := DigitsValue(key);
      (if k < |items.items| then items.items[k] else JArr([]), false)
    else (JArr([]), true)
  }

  /** The walk along the remaining keys. */
  function Walk(items: Json, keys: seq<string>): Json
    decreases |keys|
  {
    if keys == [] then items
    else
      var (next, stop) := Step(items, keys[0]);
      if stop then next else Walk(next, keys[1..])
  }

  /**
   * The keys of the configured path: a falsy path is no walk at all, a
   * string is split at its dots, and any other value raises (`None`), as
   * it has no `split`.
   */
  function PathKeys(path: Json): (r: Option<seq<string>>)
    ensures !Truthy(path) ==> r == Some([])
    ensures Truthy(path) && path.JStr? ==> r == Some(Split(path.s, "."))
    ensures Truthy(path) && !path.JStr? ==> r == None
  {
    if !Truthy(path) then Some([]) else if path.JStr? then Some(Split(path.s, ".")) else None
  }

  /** The value at the end of the walk, as the list of candidate items. */
  function ItemsOf(items: Json): (r: seq<Json>)
    ensures items.JArr? ==> r == items.items
    ensures !items.JArr? && Truthy(items) ==> r == [items]
    ensures !items.JArr? && !Truthy(items) ==> r == []
  {
    if items.JArr? then items.items else if Truthy(items) then [items] else []
  }

  /** The object `{k1: {k2: … value}}` along a path of keys. */
  function Nest(keys: seq<string>, value: Json): Json
  {
    if keys == [] then value else JObj(map[keys[0] := Nest(keys[1..], value)])
  }

  /** Walking a path through nested mappings reaches the value stored at its end. */
  lemma {:induction false} WalkNest(keys: seq<string>, value: Json)
    ensures Walk(Nest(keys, value), keys) == value
  {
    if keys != [] {
      WalkNest(keys[1..], value);
    }
  }

  /** Once the walk is on an empty list it stays there: a missing key yields no items. */
  lemma {:induction false} WalkEmpty(keys: seq<string>)
    ensures Walk(JArr([]), keys) == JArr([])
  {
    if keys != [] {
      WalkEmpty(keys[1..]);
    }
  }

  // ---------------------------------------------------------------- documents

  /** The configured keys are not metadata; a string key equals no key of another type. */
  predicate Reserved(k: ResponseKeys, key: string)
  {
    JStr(key) == k.contentKey || JStr(key) == k.sourceKey || JStr(key) == k.scoreKey
  }

  /** The metadata of an item: every other key. */
  function Metadata(fields: map<string, Json>, k: ResponseKeys): (r: map<string, Json>)
    ensures forall key :: key in r <==> key in fields && !Reserved(k, key)
    ensures forall key :: key in r ==> r[key] == fields[key]
  {
    map key | key in fields && !Reserved(k, key) :: fields[key]
  }

  /** The three keys can be looked up. */
  predicate KeysHashable(k: ResponseKeys)
  {
    Hashable(k.contentKey) && Hashable(k.sourceKey) && Hashable(k.scoreKey)
  }

  /**
   * The document of a mapping item; `None` when a key cannot be hashed or
   * the score cannot be converted.
   */
  function ItemDocument(fields: map<string, Json>, k: ResponseKeys, toScore: Json -> Option<int>,
                        containerText: Json -> string): (r: Option<RagDocument>)
    ensures r.Some? <==> KeysHashable(k) && toScore(Lookup(fields, k.scoreKey, JInt(0))).Some?
    ensures r.Some? ==> r.value.content == Text(Lookup(fields, k.contentKey, JStr("")), containerText)
    ensures r.Some? ==> r.value.source == Text(Lookup(fields, k.sourceKey, JStr("")), containerText)
    ensures r.Some? ==> r.value.metadata == Metadata(fields, k)
  {
    if !KeysHashable(k) then None
    else
      match toScore(Lookup(fields, k.scoreKey, JInt(0)))
      case None => None
      case Some(score) =>
        Some(RagDocument(Text(Lookup(fields, k.contentKey, JStr("")), containerText),
                         Text(Lookup(fields, k.sourceKey, JStr("")), containerText),
                         score, Metadata(fields, k)))
  }

  /** The documents of the mapping items, in order; other items are skipped; `None` when a score raises. */
  function Documents(items: seq<Json>, k: ResponseKeys, toScore: Json -> Option<int>,
                     containerText: Json -> string): (r: Option<seq<RagDocument>>)
    ensures r.Some? ==> |r.value| <= |items|
  {
    if items == [] then Some([])
    else
      var last := items[|items| - 1];
      match Documents(items[..|items| - 1], k, toScore, containerText)
      case None => None
      case Some(docs) =>
        if !last.JObj? then Some(docs)
        else
          match ItemDocument(last.fields, k, toScore, containerText)
          case None => None
          case Some(d) => Some(docs + [d])
  }

  /** Every document comes from a mapping item of the list. */
  lemma {:induction false} DocumentsFromItems(items: seq<Json>, k: ResponseKeys, toScore: Json -> Option<int>,
                                             containerText: Json -> string, i: nat)
    requires Documents(items, k, toScore, containerText).Some?
    requires i < |Documents(items, k, toScore, containerText).value|
    ensures exists j :: (0 <= j < |items| && items[j].JObj? &&
      ItemDocument(items[j].fields, k, toScore, containerText) == Some(Documents(items, k, toScore, containerText).value[i]))
  {
    var init := items[..|items| - 1];
    var docs := Documents(init, k, toScore, containerText).value;
    if i < |docs| {
      DocumentsFromItems(init, k, toScore, containerText, i);
      var j :| 0 <= j < |init| && init[j].JObj? &&
        ItemDocument(init[j].fields, k, toScore, containerText) == Some(docs[i]);
      assert items[j] == init[j];
    }
  }

  /** When every item is a mapping with a convertible score, there is one document per item. */
  lemma {:induction false} DocumentsOfMappings(items: seq<Json>, k: ResponseKeys, toScore: Json -> Option<int>,
                                              containerText: Json -> string)
    requires forall j :: 0 <= j < |items| ==> (items[j].JObj? &&
      ItemDocument(items[j].fields, k, toScore, containerText).Some?)
    ensures Documents(items, k, toScore, containerText).Some?
    ensures |Documents(items, k, toScore, containerText).value| == |items|
  {
    if items != [] {
      DocumentsOfMappings(items[..|items| - 1], k, toScore, containerText);
    }
  }

  /**
   * `_parse_response`: walk the path, then read the documents of the items
   * found. A falsy path reads the answer's top level; a truthy path that is
   * not a string raises.
   */
  function Parsed(k: ResponseKeys, data: Json, toScore: Json -> Option<int>, containerText: Json -> string)
    : (r: Option<seq<RagDocument>>)
    ensures !Truthy(k.docsPath) ==> r == Documents(ItemsOf(data), k, toScore, containerText)
    ensures Truthy(k.docsPath) && !k.docsPath.JStr? ==> r == None
    ensures !KeysHashable(k) && r.Some? ==> r.value == []
  {
    match PathKeys(k.docsPath)
    case None => None
    case Some(keys) =>
      var items := ItemsOf(Walk(data, keys));
      if KeysHashable(k) then Documents(items, k, toScore, containerText)
      else
        DocumentsUnhashable(items, k, toScore, containerText);
        Documents(items, k, toScore, containerText)
  }

  /** An answer whose path leads nowhere gives no documents. */
  lemma ParsedMissingPath(k: ResponseKeys, data: Json, toScore: Json -> Option<int>, containerText: Json -> string)
    requires k.docsPath.JStr? && k.docsPath.s != "" && data.JObj?
    requires Split(k.docsPath.s, ".")[0] !in data.fields
    ensures Parsed(k, data, toScore, containerText) == Some([])
  {
    var keys := Split(k.docsPath.s, ".");
    WalkEmpty(keys[1..]);
  }

  /**
   * A key that cannot be hashed raises exactly when a mapping item is
   * reached; an answer with no mapping items parses to no documents.
   */
  lemma {:induction false} DocumentsUnhashable(items: seq<Json>, k: ResponseKeys, toScore: Json -> Option<int>,
                                              containerText: Json -> string)
    requires !KeysHashable(k)
    ensures Documents(items, k, toScore, containerText).None? <==> exists j :: 0 <= j < |items| && items[j].JObj?
    ensures Documents(items, k, toScore, containerText).Some? ==> Documents(items, k, toScore, containerText).value == []
  {
    if items != [] {
      var init := items[..|items| - 1];
      DocumentsUnhashable(init, k, toScore, containerText);
      if exists j :: 0 <= j < |init| && init[j].JObj? {
        var j :| 0 <= j < |init| && init[j].JObj?;
        assert items[j] == init[j];
      }
      if exists j :: 0 <= j < |items| && items[j].JObj? {
        var j :| 0 <= j < |items| && items[j].JObj?;
        if j < |init| {
          assert init[j] == items[j];
        }
      }
    }
  }

  /**
   * The walk and the item loop of `_parse_response`, one key and one item
   * at a time.
   */
  method ParseResponse(k: ResponseKeys, data: Json, toScore: Json -> Option<int>, containerText: Json -> string)
    returns (r: Option<seq<RagDocument>>)
    ensures r == Parsed(k, data, toScore, containerText)
  {
    var items := data;
    if Truthy(k.docsPath) {
      if !k.docsPath.JStr? {
        return None;
      }
      var keys := Split(k.docsPath.s, ".");
      var i := 0;
      while i < |keys|
        invariant 0 <= i <= |keys|
        invariant Walk(items, keys[i..]) == Walk(data, keys)
      {
        var (next, stop) := Step(items, keys[i]);
        if stop {
          items := next;
          break;
        }
        assert keys[i..][1..] == keys[i + 1..];
        items := next;
        i := i + 1;
      }
      if i == |keys| {
        assert keys[i..] == [];
      }
    }
    assert PathKeys(k.docsPath).Some? && items == Walk(data, PathKeys(k.docsPath).value);
    var list := ItemsOf(items);
    var docs := [];
    for j := 0 to |list|
      invariant Documents(list[..j], k, toScore, containerText) == Some(docs)
    {
      assert list[..j + 1][..j] == list[..j];
      var item := list[j];
      if item.JObj? {
        var d := ItemDocument(item.fields, k, toScore, containerText);
        if d.None? {
          DocumentsRaised(list, j + 1, k, toScore, containerText);
          return None;
        }
        docs := docs + [d.value];
      }
    }
    assert list[..|list|] == list;
    r := Some(docs);
  }

  /** Once a score raises, the whole parse raises. */
  lemma {:induction false} DocumentsRaised(items: seq<Json>, j: nat, k: ResponseKeys, toScore: Json -> Option<int>,
                                           containerText: Json -> string)
    requires j <= |items| && Documents(items[..j], k, toScore, containerText).None?
    ensures Documents(items, k, toScore, containerText).None?
    decreases |items| - j
  {
    if j < |items| {
      assert items[..j + 1][..j] == items[..j];
      DocumentsRaised(items, j + 1, k, toScore, containerText);
    } else {
      assert items[..j] == items;
    }
  }

  // ---------------------------------------------------------------- requests

  /**
   * The request headers: JSON content, the configured extra headers, and
   * `"{prefix} {key}"` under the auth header when an API key is set; `None`
   * when the extra headers are not a mapping or the auth header name is not
   * a string.
   */
  function Headers(config: map<string, Json>, containerText: Json -> string): (r: Option<map<string, Json>>)
    ensures r.Some? ==> Get(config, "extra_headers", JObj(map[])).JObj?
    ensures r.Some? && !Truthy(Get(config, "api_key", JStr(""))) ==>
      r.value == map["Content-Type" := JStr("application/json")] + Get(config, "extra_headers", JObj(map[])).fields
    ensures r.Some? && Truthy(Get(config, "api_key", JStr(""))) ==>
      Setting(config, "auth_header", "Authorization").Some? &&
      Setting(config, "auth_header", "Authorization").value in r.value &&
      r.value[Setting(config, "auth_header", "Authorization").value] ==
        JStr(Text(Get(config, "auth_prefix", JStr("Bearer")), containerText) + " " +
             Text(Get(config, "api_key", JStr("")), containerText))
  {
    var extra := Get(config, "extra_headers", JObj(map[]));
    if !extra.JObj? then None
    else
      var headers := map["Content-Type" := JStr("application/json")] + extra.fields;
      var apiKey := Get(config, "api_key", JStr(""));
      if !Truthy(apiKey) then Some(headers)
      else
        match Setting(config, "auth_header", "Authorization")
        case None => None
        case Some(name) =>
          Some(headers[name := JStr(Text(Get(config, "auth_prefix", JStr("Bearer")), containerText) + " " +
                                    Text(apiKey, containerText))])
  }

  /** With only an API key configured, the headers are JSON content and a bearer token. */
  lemma BearerHeaders(apiKey: string, containerText: Json -> string)
    requires apiKey != ""
    ensures Headers(map["api_key" := JStr(apiKey)], containerText) ==
      Some(map["Content-Type" := JStr("application/json"), "Authorization" := JStr("Bearer " + apiKey)])
  {
    var config := map["api_key" := JStr(apiKey)];
    assert Get(config, "extra_headers", JObj(map[])) == JObj(map[]);
    assert Get(config, "auth_prefix", JStr("Bearer")) == JStr("Bearer");
    assert Setting(config, "auth_header", "Authorization") == Some("Authorization");
    var base := map["Content-Type" := JStr("application/json")];
    assert base + map[] == base;
    assert Text(JStr("Bearer"), containerText) + " " + Text(JStr(apiKey), containerText) == "Bearer " + apiKey;
  }

  /** The default request body: the query and `top_k`, and the filters only when there are any. */
  function DefaultBody(query: string, topK: int, filters: Option<map<string, Json>>): (r: map<string, Json>)
    ensures "query" in r && r["query"] == JStr(query)
    ensures "top_k" in r && r["top_k"] == JInt(topK)
    ensures "filters" in r <==> filters.Some? && filters.value != map[]
    ensures "filters" in r ==> r["filters"] == JObj(filters.value)
    ensures forall key :: key in r ==> key in {"query", "top_k", "filters"}
  {
    var body := map["query" := JStr(query), "top_k" := JInt(topK)];
    if filters.Some? && filters.value != map[] then body["filters" := JObj(filters.value)] else body
  }

  /** The body sent: the rendered template when one is configured, else the default body. */
  function Body(config: map<string, Json>, query: string, topK: int, filters: Option<map<string, Json>>,
                render: (Json, string, int) -> Json): (r: Json)
    ensures !Truthy(Get(config, "request_body_template", JNull)) ==> r == JObj(DefaultBody(query, topK, filters))
  {
    var template := Get(config, "request_body_template", JNull);
    if Truthy(template) then render(template, query, topK) else JObj(DefaultBody(query, topK, filters))
  }

  // ---------------------------------------------------------------- the provider

  /** The HTTP client: its base URL, headers and timeout. */
  datatype Client = Client(baseUrl: Json, headers: map<string, Json>, timeout: Json)

  /** What `send` is asked to do: GET with the body as query parameters, or POST it as JSON. */
  datatype HttpRequest = HttpRequest(client: Client, isGet: bool, endpoint: Json, body: Json)

  /** The client `initialize` builds: the configured base URL (none by default) and timeout (30 seconds by default). */
  function NewClient(config: map<string, Json>, headers: map<string, Json>): (c: Client)
    ensures config == map[] ==> c.baseUrl == JStr("") && c.timeout == JInt(30)
    ensures "base_url" !in config ==> c.baseUrl == JStr("")
    ensures "base_url" in config ==> c.baseUrl == config["base_url"]
    ensures "timeout" !in config ==> c.timeout == JInt(30)
    ensures "timeout" in config ==> c.timeout == config["timeout"]
    ensures c.headers == headers
  {
    Client(Get(config, "base_url", JStr("")), headers, Get(config, "timeout", JInt(30)))
  }

  /** The request `retrieve` sends: GET when the configured method is `GET` in any case, else POST. */
  function Request(config: map<string, Json>, client: Client, query: string, topK: int,
                   filters: Option<map<string, Json>>, render: (Json, string, int) -> Json): (r: Option<HttpRequest>)
    ensures "method" !in config ==> r.Some? && !r.value.isGet
    ensures r.Some? ==> r.value.client == client && r.value.body == Body(config, query, topK, filters, render)
    ensures r.Some? ==> r.value.endpoint == Get(config, "endpoint", JStr("/retrieve"))
  {
    match Setting(config, "method", "POST")
    case None => None
    case Some(verb) =>
      Some(HttpRequest(client, Upper(verb) == "GET", Get(config, "endpoint", JStr("/retrieve")),
                       Body(config, query, topK, filters, render)))
  }

  /**
   * What `retrieve` returns once the client exists: no documents when the
   * request fails, else the parsed answer.
   */
  function Retrieved(config: map<string, Json>, client: Client, query: string, topK: int,
                     filters: Option<map<string, Json>>, send: HttpRequest -> Option<Json>,
                     render: (Json, string, int) -> Json, toScore: Json -> Option<int>,
                     containerText: Json -> string): (r: Option<seq<RagDocument>>)
    ensures Request(config, client, query, topK, filters, render).None? ==> r.None?
    ensures (Request(config, client, query, topK, filters, render).Some? &&
             send(Request(config, client, query, topK, filters, render).value).None?) ==> r == Some([])
    ensures r.Some? && r.value != [] ==> (Request(config, client, query, topK, filters, render).Some? &&
                                          send(Request(config, client, query, topK, filters, render).value).Some?)
    ensures (Request(config, client, query, topK, filters, render).Some? &&
             send(Request(config, client, query, topK, filters, render).value).Some?) ==>
      r == Parsed(ResponseKeysOf(config), send(Request(config, client, query, topK, filters, render).value).value,
                  toScore, containerText)
  {
    match Request(config, client, query, topK, filters, render)
    case None => None
    case Some(request) =>
      match send(request)
      case None => Some([])
      case Some(data) => Parsed(ResponseKeysOf(config), data, toScore, containerText)
  }

  /** `GenericHTTPRetriever`: its name and configuration, its client, and whether it is initialized. */
  class HttpRetriever {
    const name: string
    const config: map<string, Json>
    var client: Option<Client>
    var initialized: bool

    /** A provider with no client yet. */
    constructor(name: string, config: map<string, Json>)
      ensures this.name == name && this.config == config && client == None && !initialized
    {
      this.name := name;
      this.config := config;
      client := None;
      initialized := false;
    }

    /** `initialize`: builds the client from the configuration; raises (`false`) when the headers cannot be built. */
    method Initialize(containerText: Json -> string) returns (ok: bool)
      modifies this
      ensures ok <==> Headers(config, containerText).Some?
      ensures ok ==> initialized && client == Some(NewClient(config, Headers(config, containerText).value))
      ensures !ok ==> client == old(client) && initialized == old(initialized)
    {
      var headers := Headers(config, containerText);
      if headers.None? {
        return false;
      }
      client := Some(NewClient(config, headers.value));
      initialized := true;
      ok := true;
    }

    /**
     * `retrieve`: initializes when needed, then sends the request and
     * parses the answer; a failed request gives no documents. `None` is an
     * exception escaping to the caller.
     */
    method Retrieve(query: string, topK: int, filters: Option<map<string, Json>>,
                    send: HttpRequest -> Option<Json>, render: (Json, string, int) -> Json,
                    toScore: Json -> Option<int>, containerText: Json -> string)
      returns (r: Option<seq<RagDocument>>)
      modifies this
      ensures old(initialized) && old(client).Some? ==>
        client == old(client) && initialized &&
        r == Retrieved(config, client.value, query, topK, filters, send, render, toScore, containerText)
      ensures !(old(initialized) && old(client).Some?) && Headers(config, containerText).None? ==>
        r == None && client == old(client) && initialized == old(initialized)
      ensures !(old(initialized) && old(client).Some?) && Headers(config, containerText).Some? ==>
        client == Some(NewClient(config, Headers(config, containerText).value)) && initialized &&
        r == Retrieved(config, client.value, query, topK, filters, send, render, toScore, containerText)
    {
      if !initialized || client.None? {
        var ok := Initialize(containerText);
        if !ok {
          return None;
        }
      }
      var verb := Setting(config, "method", "POST");
      if verb.None? {
        return None;
      }
      var body := Body(config, query, topK, filters, render);
      var request := HttpRequest(client.value, Upper(verb.value) == "GET", Get(config, "endpoint", JStr("/retrieve")), body);
      var answer := send(request);
      if answer.None? {
        return Some([]);
      }
      r := ParseResponse(ResponseKeysOf(config), answer.value, toScore, containerText);
    }

    /** `health_check`: no client is unhealthy; otherwise healthy when the root answers below 500. */
    function HealthCheck(probe: Client -> Option<int>): (ok: bool)
      reads this
      ensures client.None? ==> !ok
      ensures ok ==> probe(client.value).Some? && probe(client.value).value < 500
    {
      match client
      case None => false
      case Some(c) =>
        match probe(c)
        case Some(status) => status < 500
        case None => false
    }

    /** `close`: the provider is no longer initialized; the closed client object is kept. */
    method Close()
      modifies this
      ensures !initialized && client == old(client)
    {
      initialized := false;
    }
  }
}
