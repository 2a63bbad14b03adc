/**
 * The retriever manager: a registry of knowledge-base providers by name,
 * routing a query to some or all of them, merging their documents, and
 * building the registry from the provider configuration.
 *
 * The providers' own retrieval, health checks, initialization and closing
 * are network calls and not part of this model: their outcomes are
 * parameters. The concurrent fan-out is modelled as one call per target in
 * registry order, the order in which the results are gathered.
 */
module RagManager {
  import opened Wrappers
  import opened PyStr
  import opened Json
  import opened Sorting
  import opened RagSchema

  /** A provider: its name, its type and its configuration block. */
  datatype Provider = Provider(name: string, kind: string, config: Json)

  // ---------------------------------------------------------------- registry

  /** The provider names in registration order are exactly the registry's keys, each once. */
  ghost predicate WellFormed(names: seq<string>, providers: map<string, Provider>)
  {
    (forall n :: n in providers <==> n in names) &&
    (forall i, j :: 0 <= i < j < |names| ==> names[i] != names[j])
  }

  /**
   * The registry after `register(p)`: `p` under its name, replacing any
   * provider of that name; a new name goes last in the order.
   */
  function Registered(names: seq<string>, providers: map<string, Provider>, p: Provider)
    : (r: (seq<string>, map<string, Provider>))
    ensures r.1 == providers[p.name := p]
    ensures p.name in providers ==> r.0 == names
    ensures p.name !in providers ==> r.0 == names + [p.name]
  {
    (if p.name in providers then names else names + [p.name], providers[p.name := p])
  }

  /** Registering keeps the names and the keys in step. */
  lemma RegisteredWellFormed(names: seq<string>, providers: map<string, Provider>, p: Provider)
    requires WellFormed(names, providers)
    ensures WellFormed(Registered(names, providers, p).0, Registered(names, providers, p).1)
  {
    var (n2, p2) := Registered(names, providers, p);
    if p.name !in providers {
      forall i, j | 0 <= i < j < |n2|
        ensures n2[i] != n2[j]
      {
        if j == |names| {
          assert n2[i] == names[i];
        }
      }
    }
  }

  /** The registry after registering each provider in turn, from an empty one. */
  function RegisterAll(ps: seq<Provider>): (seq<string>, map<string, Provider>)
  {
    if ps == [] then ([], map[])
    else
      var (names, providers) := RegisterAll(ps[..|ps| - 1]);
      Registered(names, providers, ps[|ps| - 1])
  }

  /** A registry built by registering is well formed, and holds the last provider registered under each name. */
  lemma {:induction false} RegisterAllWellFormed(ps: seq<Provider>)
    ensures WellFormed(RegisterAll(ps).0, RegisterAll(ps).1)
    ensures forall n :: n in RegisterAll(ps).1 <==> exists i :: 0 <= i < |ps| && ps[i].name == n
  {
    if ps != [] {
      var init := ps[..|ps| - 1];
      RegisterAllWellFormed(init);
      var (names, providers) := RegisterAll(init);
      RegisteredWellFormed(names, providers, ps[|ps| - 1]);
      forall n | n in RegisterAll(ps).1
        ensures exists i :: 0 <= i < |ps| && ps[i].name == n
      {
        if n != ps[|ps| - 1].name {
          var i :| 0 <= i < |init| && init[i].name == n;
          assert ps[i] == init[i];
        }
      }
      forall n | exists i :: 0 <= i < |ps| && ps[i].name == n
        ensures n in RegisterAll(ps).1
      {
        var i :| 0 <= i < |ps| && ps[i].name == n;
        if i < |init| {
          assert init[i] == ps[i];
        }
      }
    }
  }

  // ---------------------------------------------------------------- targeting

  /** The names of `names` that `wanted` holds, in the order of `names`. */
  function Filter(names: seq<string>, wanted: seq<string>): (r: seq<string>)
    ensures |r| <= |names|
    ensures forall n :: n in r <==> n in names && n in wanted
  {
    if names == [] then []
    else
      var init := Filter(names[..|names| - 1], wanted);
      var last := names[|names| - 1];
      assert names == names[..|names| - 1] + [last];
      if last in wanted then init + [last] else init
  }

  /** Filtering by a list that holds every name keeps them all. */
  lemma {:induction false} FilterKeepsAll(names: seq<string>, wanted: seq<string>)
    requires forall n :: n in names ==> n in wanted
    ensures Filter(names, wanted) == names
  {
    if names != [] {
      FilterKeepsAll(names[..|names| - 1], wanted);
      assert names == names[..|names| - 1] + [names[|names| - 1]];
    }
  }

  /**
   * The providers a query goes to, in registry order: those it names, or
   * all of them when it names none (no list, or an empty one).
   */
  function Targets(names: seq<string>, requested: Option<seq<string>>): (r: seq<string>)
    ensures forall n :: n in r ==> n in names
    ensures requested.Some? && requested.value != [] ==>
      forall n :: n in r <==> n in names && n in requested.value
  {
    var wanted := if requested.Some? && requested.value != [] then requested.value else names;
    Filter(names, wanted)
  }

  /** Naming no provider targets every registered provider. */
  lemma TargetsAll(names: seq<string>, requested: Option<seq<string>>)
    requires requested == None || requested == Some([])
    ensures Targets(names, requested) == names
  {
    FilterKeepsAll(names, names);
  }

  /** One provider's answer to the query: its documents, or its failure with no documents. */
  function QueryProvider(name: string, p: Provider, query: RetrievalQuery,
                         fetch: (Provider, RetrievalQuery) -> Result<seq<RagDocument>, string>): RetrievalResult
  {
    match fetch(p, query)
    case Ok(docs) => RetrievalResult(docs, name, None)
    case Err(e) => RetrievalResult([], name, Some(e))
  }

  /**
   * `retrieve`: one result per target, in target order, each named after
   * its provider; a failing provider gives its error and no documents. No
   * target gives no result.
   */
  function RetrieveResults(names: seq<string>, providers: map<string, Provider>, query: RetrievalQuery,
                           fetch: (Provider, RetrievalQuery) -> Result<seq<RagDocument>, string>)
    : (r: seq<RetrievalResult>)
    requires WellFormed(names, providers)
    ensures var targets := Targets(names, query.providerNames);
      |r| == |targets| &&
      forall i :: 0 <= i < |r| ==> (r[i].providerName == targets[i] && targets[i] in providers &&
        (r[i].error.Some? ==> r[i].documents == []) &&
        (fetch(providers[targets[i]], query).Ok? ==> r[i].documents == fetch(providers[targets[i]], query).value) &&
        (fetch(providers[targets[i]], query).Err? ==> r[i].error == Some(fetch(providers[targets[i]], query).error)))
  {
    var targets := Targets(names, query.providerNames);
    seq(|targets|, i requires 0 <= i < |targets| => QueryProvider(targets[i], providers[targets[i]], query, fetch))
  }

  // ---------------------------------------------------------------- merging

  /** A document tagged with the provider it came from, unless its metadata already names a provider. */
  function Tag(d: RagDocument, name: string): (r: RagDocument)
    ensures r.content == d.content && r.source == d.source && r.score == d.score
    ensures Truthy(Get(d.metadata, "provider", JNull)) ==> r == d
    ensures !Truthy(Get(d.metadata, "provider", JNull)) ==> r.metadata == d.metadata["provider" := JStr(name)]
  {
    if Truthy(Get(d.metadata, "provider", JNull)) then d
    else d.(metadata := d.metadata["provider" := JStr(name)])
  }

  /** The documents of one result, tagged with its provider. */
  function TagAll(docs: seq<RagDocument>, name: string): (r: seq<RagDocument>)
    ensures |r| == |docs|
    ensures forall i :: 0 <= i < |r| ==> r[i] == Tag(docs[i], name)
  {
    seq(|docs|, i requires 0 <= i < |docs| => Tag(docs[i], name))
  }

  /** The tagged documents of the results that have any, result by result. */
  function Tagged(results: seq<RetrievalResult>): seq<RagDocument>
  {
    if results == [] then []
    else
      var last := results[|results| - 1];
      Tagged(results[..|results| - 1]) + (if HasResults(last) then TagAll(last.documents, last.providerName) else [])
  }

  /** The key documents are told apart by: the first 200 characters of the stripped content. */
  function DedupKey(d: RagDocument): string
  {
    Take(Strip(d.content), 200)
  }

  /** The keys of a list. */
  function KeysOf<T>(xs: seq<T>, key: T -> string): set<string>
  {
    if xs == [] then {} else KeysOf(xs[..|xs| - 1], key) + {key(xs[|xs| - 1])}
  }

  /** Extending the list by one element adds its key. */
  lemma KeysOfSnoc<T>(xs: seq<T>, x: T, key: T -> string)
    ensures KeysOf(xs + [x], key) == KeysOf(xs, key) + {key(x)}
  {
    PrefixOfSnoc(xs, x, 0);
  }

  /** The key of every element of the list is among its keys. */
  lemma {:induction false} KeysOfMember<T>(xs: seq<T>, key: T -> string, i: nat)
    requires i < |xs|
    ensures key(xs[i]) in KeysOf(xs, key)
  {
    if i < |xs| - 1 {
      KeysOfMember(xs[..|xs| - 1], key, i);
    }
  }

  /** The first element of each key, in order. */
  function Dedup<T>(xs: seq<T>, key: T -> string): seq<T>
  {
    if xs == [] then []
    else
      var init := xs[..|xs| - 1];
      var last := xs[|xs| - 1];
      if key(last) in KeysOf(init, key) then Dedup(init, key) else Dedup(init, key) + [last]
  }

  /** Deduplicating one more element: kept exactly when its key is new. */
  lemma DedupSnoc<T>(xs: seq<T>, x: T, key: T -> string)
    ensures Dedup(xs + [x], key) == if key(x) in KeysOf(xs, key) then Dedup(xs, key) else Dedup(xs, key) + [x]
  {
    PrefixOfSnoc(xs, x, 0);
  }

  /** Deduplication loses no key. */
  lemma {:induction false} DedupSameKeys<T>(xs: seq<T>, key: T -> string)
    ensures KeysOf(Dedup(xs, key), key) == KeysOf(xs, key)
  {
    if xs != [] {
      var init := xs[..|xs| - 1];
      var last := xs[|xs| - 1];
      PrefixSnoc(xs, |xs| - 1);
      DedupSameKeys(init, key);
      KeysOfSnoc(init, last, key);
      DedupSnoc(init, last, key);
      KeysOfSnoc(Dedup(init, key), last, key);
    }
  }

  /** No two elements share a key. */
  predicate DistinctKeys<T>(xs: seq<T>, key: T -> string)
  {
    forall i, j :: 0 <= i < j < |xs| ==> key(xs[i]) != key(xs[j])
  }

  /** Deduplication keeps one element per key. */
  lemma {:induction false} DedupDistinct<T>(xs: seq<T>, key: T -> string)
    ensures DistinctKeys(Dedup(xs, key), key)
  {
    if xs != [] {
      var init := xs[..|xs| - 1];
      var last := xs[|xs| - 1];
      PrefixSnoc(xs, |xs| - 1);
      DedupDistinct(init, key);
      DedupSnoc(init, last, key);
      var prev := Dedup(init, key);
      if key(last) !in KeysOf(init, key) {
        DedupSameKeys(init, key);
        var r := prev + [last];
        forall i, j | 0 <= i < j < |r|
          ensures key(r[i]) != key(r[j])
        {
          if j == |prev| {
            KeysOfMember(prev, key, i);
          }
        }
      }
    }
  }

  /** `x` occurs in `xs` at a position before which no element has its key. */
  ghost predicate FirstOfKey<T>(xs: seq<T>, key: T -> string, x: T)
  {
    exists i :: 0 <= i < |xs| && xs[i] == x && key(x) !in KeysOf(xs[..i], key)
  }

  /** A first of its key in a list stays first of its key when the list grows. */
  lemma FirstOfKeyGrows<T>(xs: seq<T>, y: T, key: T -> string, x: T)
    requires FirstOfKey(xs, key, x)
    ensures FirstOfKey(xs + [y], key, x)
  {
    var i :| 0 <= i < |xs| && xs[i] == x && key(x) !in KeysOf(xs[..i], key);
    PrefixOfSnoc(xs, y, i);
    assert (xs + [y])[i] == x;
  }

  /** Every element deduplication keeps is the first of its key. */
  lemma {:induction false} DedupKeepsFirst<T>(xs: seq<T>, key: T -> string, x: T)
    requires x in Dedup(xs, key)
    ensures FirstOfKey(xs, key, x)
  {
    var init := xs[..|xs| - 1];
    var last := xs[|xs| - 1];
    PrefixSnoc(xs, |xs| - 1);
    assert xs == init + [last];
    DedupSnoc(init, last, key);
    if x in Dedup(init, key) {
      DedupKeepsFirst(init, key, x);
      FirstOfKeyGrows(init, last, key, x);
    } else {
      assert x == last && key(last) !in KeysOf(init, key);
      assert xs[|xs| - 1] == x && xs[..|xs| - 1] == init;
    }
  }

  /** Higher scores first. */
  predicate ScoreAtLeast(a: int, b: int)
  {
    a >= b
  }

  function Score(d: RagDocument): int
  {
    d.score
  }

  lemma ScoreOrder()
    ensures IsTotalPreorder(ScoreAtLeast)
  {
  }

  /** The documents to rank: the tagged documents, deduplicated when asked. */
  function Candidates(results: seq<RetrievalResult>, dedup: bool): seq<RagDocument>
  {
    if dedup then Dedup(Tagged(results), DedupKey) else Tagged(results)
  }

  /** The candidates by score, highest first, ties in their original order. */
  function Ranked(results: seq<RetrievalResult>, dedup: bool): seq<RagDocument>
  {
    SortBy(Candidates(results, dedup), Score, ScoreAtLeast)
  }

  /** `retrieve_and_merge` on the results of `retrieve`: the `top_k` best ranked candidates. */
  function Merged(results: seq<RetrievalResult>, topK: int, dedup: bool): seq<RagDocument>
  {
    Take(Ranked(results, dedup), topK)
  }

  /**
   * The merged documents are ordered by score, highest first, are at most
   * `top_k` of them, and each is a candidate.
   */
  lemma MergedRanked(results: seq<RetrievalResult>, topK: int, dedup: bool)
    ensures var r := Merged(results, topK, dedup);
      (forall i, j :: 0 <= i < j < |r| ==> r[i].score >= r[j].score) &&
      (topK >= 0 ==> |r| <= topK) &&
      multiset(r) <= multiset(Candidates(results, dedup))
  {
    var ranked := Ranked(results, dedup);
    ScoreOrder();
    SortBySorted(Candidates(results, dedup), Score, ScoreAtLeast);
    SortByPermutes(Candidates(results, dedup), Score, ScoreAtLeast);
    PrefixSubMultiset(ranked, Merged(results, topK, dedup));
  }

  /** Results without documents contribute nothing to the merge. */
  lemma {:induction false} TaggedNone(results: seq<RetrievalResult>)
    requires forall i :: 0 <= i < |results| ==> results[i].documents == []
    ensures Tagged(results) == []
  {
    if results != [] {
      TaggedNone(results[..|results| - 1]);
    }
  }

  /** When every provider fails, `retrieve_and_merge` finds nothing. */
  lemma MergedNothingWhenAllFail(names: seq<string>, providers: map<string, Provider>, query: RetrievalQuery,
                                 fetch: (Provider, RetrievalQuery) -> Result<seq<RagDocument>, string>, dedup: bool)
    requires WellFormed(names, providers)
    requires forall n :: n in providers ==> fetch(providers[n], query).Err?
    ensures Merged(RetrieveResults(names, providers, query, fetch), query.topK, dedup) == []
  {
    var results := RetrieveResults(names, providers, query, fetch);
    TaggedNone(results);
    assert Candidates(results, dedup) == [];
  }

  /** A prefix holds no more of any element than the whole list. */
  lemma PrefixSubMultiset<T>(p: seq<T>, r: seq<T>)
    requires |r| <= |p| && r == p[..|r|]
    ensures multiset(r) <= multiset(p)
  {
    assert p == r + p[|r|..];
  }

  /** Ranking is stable: documents of equal score keep the order they were merged in. */
  lemma RankedStable(results: seq<RetrievalResult>, dedup: bool, score: int)
    ensures Tied(Ranked(results, dedup), Score, ScoreAtLeast, score) == Tied(Candidates(results, dedup), Score, ScoreAtLeast, score)
  {
    ScoreOrder();
    SortByStable(Candidates(results, dedup), Score, ScoreAtLeast, score);
  }

  /** With deduplication no two merged documents share a key. */
  lemma MergedDistinct(results: seq<RetrievalResult>, topK: int)
    ensures DistinctKeys(Merged(results, topK, true), DedupKey)
  {
    var c := Candidates(results, true);
    DedupDistinct(Tagged(results), DedupKey);
    ScoreOrder();
    SortByPermutes(c, Score, ScoreAtLeast);
    DistinctPermuted(c, Ranked(results, true), DedupKey);
    DistinctPrefix(Ranked(results, true), Merged(results, topK, true), DedupKey);
  }

  /** A permutation of a list with distinct keys has distinct keys. */
  lemma DistinctPermuted<T>(c: seq<T>, p: seq<T>, key: T -> string)
    requires DistinctKeys(c, key) && multiset(p) == multiset(c)
    ensures DistinctKeys(p, key)
  {
    forall i, j | 0 <= i < j < |p|
      ensures key(p[i]) != key(p[j])
    {
      DistinctAfterPermutation(c, p, key, i, j);
    }
  }

  /** A prefix of a list with distinct keys has distinct keys. */
  lemma DistinctPrefix<T>(p: seq<T>, r: seq<T>, key: T -> string)
    requires DistinctKeys(p, key) && |r| <= |p| && r == p[..|r|]
    ensures DistinctKeys(r, key)
  {
    forall i, j | 0 <= i < j < |r|
      ensures key(r[i]) != key(r[j])
    {
      assert r[i] == p[i] && r[j] == p[j];
    }
  }

  // ---------------------------------------------------------------- configuration

  /** What reading one configuration entry does: raise (`None`), skip it, or register a provider. */
  function EntryProviders(entry: Json, known: set<string>, create: (string, Json, Json) -> Option<Provider>)
    : (r: Option<seq<Provider>>)
    ensures !entry.JObj? ==> r == None
    ensures r.Some? ==> |r.value| <= 1
  {
    if !entry.JObj? then None
    else
      var kind := Get(entry.fields, "type", JStr(""));
      var name := Get(entry.fields, "name", JStr(""));
      var enabled := Get(entry.fields, "enabled", JBool(true));
      var config := Get(entry.fields, "config", JObj(map[]));
      if !Truthy(enabled) then Some([])
      else if kind.JArr? || kind.JObj? then None
      else if !(kind.JStr? && kind.s in known) then Some([])
      else
        match create(kind.s, name, config)
        case Some(p) => Some([p])
        case None => Some([])
  }

  /** `p` is the provider created from `entry`: an enabled entry of a known type, with its name and configuration. */
  predicate CreatedFrom(entry: Json, known: set<string>, create: (string, Json, Json) -> Option<Provider>, p: Provider)
  {
    entry.JObj? && Truthy(Get(entry.fields, "enabled", JBool(true))) &&
    Get(entry.fields, "type", JStr("")).JStr? && Get(entry.fields, "type", JStr("")).s in known &&
    create(Get(entry.fields, "type", JStr("")).s, Get(entry.fields, "name", JStr("")),
           Get(entry.fields, "config", JObj(map[]))) == Some(p)
  }

  /** The providers registered from a list of entries, in order; `None` when reading an entry raises. */
  function LoadedProviders(entries: seq<Json>, known: set<string>, create: (string, Json, Json) -> Option<Provider>)
    : Option<seq<Provider>>
  {
    if entries == [] then Some([])
    else
      match LoadedProviders(entries[..|entries| - 1], known, create)
      case None => None
      case Some(ps) =>
        match EntryProviders(entries[|entries| - 1], known, create)
        case None => None
        case Some(more) => Some(ps + more)
  }

  /** Once an entry raises, the rest of the list is not read. */
  lemma {:induction false} LoadedProvidersRaised(entries: seq<Json>, i: nat, known: set<string>,
                                                 create: (string, Json, Json) -> Option<Provider>)
    requires i <= |entries| && LoadedProviders(entries[..i], known, create).None?
    ensures LoadedProviders(entries, known, create).None?
    decreases |entries| - i
  {
    if i < |entries| {
      assert entries[..i + 1][..i] == entries[..i];
      LoadedProvidersRaised(entries, i + 1, known, create);
    } else {
      assert entries[..i] == entries;
    }
  }

  /**
   * Every provider loaded was created from an enabled entry of a known
   * type, with that entry's name and configuration.
   */
  lemma {:induction false} LoadedProvidersFromEntries(entries: seq<Json>, known: set<string>,
                                                      create: (string, Json, Json) -> Option<Provider>, p: Provider)
    requires LoadedProviders(entries, known, create).Some? && p in LoadedProviders(entries, known, create).value
    ensures exists k :: 0 <= k < |entries| && CreatedFrom(entries[k], known, create, p)
  {
    var init := entries[..|entries| - 1];
    var ps := LoadedProviders(init, known, create).value;
    var more := EntryProviders(entries[|entries| - 1], known, create).value;
    if p in ps {
      LoadedProvidersFromEntries(init, known, create, p);
      var k :| 0 <= k < |init| && CreatedFrom(init[k], known, create, p);
      assert entries[k] == init[k];
    } else {
      assert p in more;
    }
  }

  /** The entries of the `providers` list; `None` when the configuration cannot be iterated as a list of entries. */
  function ProviderEntries(content: Json): (r: Option<seq<Json>>)
    ensures !content.JObj? ==> r == None
  {
    if !content.JObj? then None
    else
      match Get(content.fields, "providers", JArr([]))
      case JArr(items) => Some(items)
      case JStr(s) => if s == "" then Some([]) else None
      case JObj(m) => if m == map[] then Some([]) else None
      case _ => None
  }

  /**
   * The providers `load_providers_from_config` registers: none for a
   * missing or unreadable file, `None` when the configuration raises.
   */
  function ConfiguredProviders(file: ConfigFile, known: set<string>, create: (string, Json, Json) -> Option<Provider>)
    : (r: Option<seq<Provider>>)
    ensures !file.Decoded? ==> r == Some([])
  {
    match file
    case Decoded(content) =>
      (match ProviderEntries(content)
       case None => None
       case Some(entries) => LoadedProviders(entries, known, create))
    case _ => Some([])
  }

  // ---------------------------------------------------------------- the manager

  /** The health a provider reports, `false` when its check raises (`None`). */
  function Health(p: Provider, check: Provider -> Option<bool>): bool
  {
    match check(p)
    case Some(ok) => ok
    case None => false
  }

  /** `RetrieverManager`: the providers by name, in registration order, and whether they were initialized. */
  class RetrieverManager {
    var names: seq<string>
    var providers: map<string, Provider>
    var initialized: bool

    ghost predicate Valid()
      reads this
    {
      WellFormed(names, providers)
    }

    /** An empty registry. */
    constructor()
      ensures Valid() && names == [] && providers == map[] && !initialized
    {
      names := [];
      providers := map[];
      initialized := false;
    }

    /** `register`: stores the provider under its name, replacing any provider of that name. */
    method Register(p: Provider)
      requires Valid()
      modifies this
      ensures Valid()
      ensures (names, providers) == Registered(old(names), old(providers), p)
      ensures initialized == old(initialized)
    {
      RegisteredWellFormed(names, providers, p);
      if p.name !in providers {
        names := names + [p.name];
      }
      providers := providers[p.name := p];
    }

    /** `get_provider`. */
    function GetProvider(name: string): (r: Option<Provider>)
      reads this
      ensures r.Some? <==> name in providers
      ensures r.Some? ==> r.value == providers[name]
    {
      if name in providers then Some(providers[name]) else None
    }

    /** `initialize_all`: each provider's failure is caught; the manager ends initialized. */
    method InitializeAll()
      modifies this
      ensures initialized && names == old(names) && providers == old(providers)
    {
      initialized := true;
    }

    /** `close_all`: each provider's failure is caught; the manager ends not initialized. */
    method CloseAll()
      modifies this
      ensures !initialized && names == old(names) && providers == old(providers)
    {
      initialized := false;
    }

    /** `retrieve`. */
    function Retrieve(query: RetrievalQuery, fetch: (Provider, RetrievalQuery) -> Result<seq<RagDocument>, string>)
      : seq<RetrievalResult>
      requires Valid()
      reads this
    {
      RetrieveResults(names, providers, query, fetch)
    }

    /**
     * `retrieve_and_merge`: tags and collects the documents of every
     * result, keeps the first document of each key when deduplicating,
     * ranks them by score and keeps the first `top_k`.
     */
    method RetrieveAndMerge(query: RetrievalQuery, dedup: bool,
                            fetch: (Provider, RetrievalQuery) -> Result<seq<RagDocument>, string>)
      returns (docs: seq<RagDocument>)
      requires Valid()
      ensures docs == Merged(Retrieve(query, fetch), query.topK, dedup)
    {
      var results := Retrieve(query, fetch);
      var all := CollectTagged(results);
      if dedup {
        all := Deduplicate(all, DedupKey);
      }
      docs := Take(SortBy(all, Score, ScoreAtLeast), query.topK);
    }

    /**
     * `health_check_all`: every provider's health by name, in registration
     * order (the order of the returned dict), `false` for a check that raised.
     */
    method HealthCheckAll(check: Provider -> Option<bool>) returns (r: seq<(string, bool)>)
      requires Valid()
      ensures |r| == |names|
      ensures forall i :: 0 <= i < |r| ==> r[i].0 == names[i] && r[i].1 == Health(providers[names[i]], check)
      ensures forall n :: n in providers <==> exists i :: 0 <= i < |r| && r[i].0 == n
    {
      r := [];
      for i := 0 to |names|
        invariant |r| == i
        invariant forall j :: 0 <= j < i ==> r[j].0 == names[j] && r[j].1 == Health(providers[names[j]], check)
      {
        r := r + [(names[i], Health(providers[names[i]], check))];
      }
      forall n | n in providers
        ensures exists i :: 0 <= i < |r| && r[i].0 == n
      {
        var i :| 0 <= i < |names| && names[i] == n;
        assert r[i].0 == n;
      }
    }
  }

  /** The loop of `retrieve_and_merge` that tags and collects the documents of the results that have any. */
  method CollectTagged(results: seq<RetrievalResult>) returns (all: seq<RagDocument>)
    ensures all == Tagged(results)
  {
    all := [];
    for i := 0 to |results|
      invariant all == Tagged(results[..i])
    {
      assert results[..i + 1][..i] == results[..i];
      var result := results[i];
      if HasResults(result) {
        var collected := all;
        for j := 0 to |result.documents|
          invariant all == collected + TagAll(result.documents[..j], result.providerName)
        {
          all := all + [Tag(result.documents[j], result.providerName)];
        }
        assert result.documents[..|result.documents|] == result.documents;
      }
    }
    assert results[..|results|] == results;
  }

  /** The loop of `retrieve_and_merge` that keeps the first element of each key, tracking the keys seen. */
  method Deduplicate<T>(all: seq<T>, key: T -> string) returns (unique: seq<T>)
    ensures unique == Dedup(all, key)
  {
    var seen: set<string> := {};
    unique := [];
    for i := 0 to |all|
      invariant unique == Dedup(all[..i], key) && seen == KeysOf(all[..i], key)
    {
      PrefixSnoc(all, i);
      KeysOfSnoc(all[..i], all[i], key);
      DedupSnoc(all[..i], all[i], key);
      var k := key(all[i]);
      if k !in seen {
        seen := seen + {k};
        unique := unique + [all[i]];
      }
    }
    assert all[..|all|] == all;
  }

  /**
   * `load_providers_from_config`: a manager holding the providers of the
   * configuration, registered in order; `None` when reading the
   * configuration raises.
   */
  method LoadProvidersFromConfig(file: ConfigFile, known: set<string>, create: (string, Json, Json) -> Option<Provider>)
    returns (r: Option<RetrieverManager>)
    ensures r.None? <==> ConfiguredProviders(file, known, create).None?
    ensures r.Some? ==> (fresh(r.value) && r.value.Valid() && !r.value.initialized &&
      (r.value.names, r.value.providers) == RegisterAll(ConfiguredProviders(file, known, create).value))
  {
    var m := new RetrieverManager();
    if !file.Decoded? {
      return Some(m);
    }
    var found := ProviderEntries(file.content);
    if found.None? {
      return None;
    }
    var entries := found.value;
    ghost var registered: seq<Provider> := [];
    for i := 0 to |entries|
      invariant LoadedProviders(entries[..i], known, create) == Some(registered)
      invariant m.Valid() && !m.initialized && (m.names, m.providers) == RegisterAll(registered)
    {
      assert entries[..i + 1][..i] == entries[..i];
      var step := EntryProviders(entries[i], known, create);
      if step.None? {
        LoadedProvidersRaised(entries, i + 1, known, create);
        return None;
      }
      if step.value != [] {
        var p := step.value[0];
        m.Register(p);
        assert (registered + [p])[..|registered|] == registered;
        registered := registered + [p];
      } else {
        assert registered + step.value == registered;
      }
    }
    assert entries[..|entries|] == entries;
    r := Some(m);
  }
}
