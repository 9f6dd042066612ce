/**
 * The vector store (`src/vector_store.py`): a Chroma collection modelled as a
 * named sequence of entries, the write path that pairs functions with their
 * embeddings, the shaping of nearest-neighbour answers into search results,
 * and the per-repository / per-type statistics. Chroma's ranking and `where`
 * filtering are a parameter (`Nearest`).
 */
module VectorStore {
  import opened Wrappers
  import opened Values
  import Indexer
  import Embeddings

  type Vector = Embeddings.Vector

  /** One stored item: what `collection.add` receives for one function. */
  datatype Entry = Entry(id: string, document: string, metadata: map<string, Value>, embedding: Vector)

  // ---------------------------------------------------------------------------
  // Insertion-ordered counting dictionaries (`d[k] = d.get(k, 0) + 1`)
  // ---------------------------------------------------------------------------

  /** A Python dict from keys to counts, in insertion order. */
  type Tally = seq<(Value, nat)>

  function Keys(t: Tally): seq<Value> {
    if |t| == 0 then [] else [t[0].0] + Keys(t[1..])
  }

  /** `t.get(key, 0)`. */
  function Lookup(t: Tally, key: Value): nat {
    if |t| == 0 then 0
    else if t[0].0 == key then t[0].1
    else Lookup(t[1..], key)
  }

  function Total(t: Tally): nat {
    if |t| == 0 then 0 else t[0].1 + Total(t[1..])
  }

  predicate UniqueKeys(t: Tally) {
    forall i, j :: 0 <= i < j < |t| ==> t[i].0 != t[j].0
  }

  /** `t[key] = t.get(key, 0) + 1`: an existing key keeps its place, a new one goes last. */
  function Increment(t: Tally, key: Value): Tally {
    if |t| == 0 then [(key, 1)]
    else if t[0].0 == key then [(key, t[0].1 + 1)] + t[1..]
    else [t[0]] + Increment(t[1..], key)
  }

  /** The dictionary the counting loop builds over `keys`. */
  function TallyOf(keys: seq<Value>): Tally {
    if |keys| == 0 then []
    else Increment(TallyOf(keys[..|keys| - 1]), keys[|keys| - 1])
  }

  /** One increment adds one to that key's count and leaves every other count alone. */
  lemma {:induction false} IncrementLookup(t: Tally, key: Value, k: Value)
    requires UniqueKeys(t)
    ensures Lookup(Increment(t, key), k) == Lookup(t, k) + (if k == key then 1 else 0)
  {
    if |t| > 0 {
      if t[0].0 == key {
        if k == key {
          AbsentLookup(t[1..], key);
          AbsentLookup(Increment(t, key)[1..], key);
        }
      } else {
        IncrementLookup(t[1..], key, k);
      }
    }
  }

  /** One increment adds one to the total. */
  lemma {:induction false} IncrementTotal(t: Tally, key: Value)
    ensures Total(Increment(t, key)) == Total(t) + 1
  {
    if |t| > 0 && t[0].0 != key {
      IncrementTotal(t[1..], key);
      assert Increment(t, key)[1..] == Increment(t[1..], key);
    }
  }

  /** A known key keeps its place; a new key is appended; counts stay positive. */
  lemma {:induction false} IncrementKeys(t: Tally, key: Value)
    ensures Keys(Increment(t, key)) == if key in Keys(t) then Keys(t) else Keys(t) + [key]
    ensures (forall i :: 0 <= i < |t| ==> t[i].1 > 0) ==> forall i :: 0 <= i < |Increment(t, key)| ==> Increment(t, key)[i].1 > 0
  {
    if |t| > 0 {
      var r := Increment(t, key);
      if t[0].0 == key {
        assert r[1..] == t[1..];
      } else {
        IncrementKeys(t[1..], key);
        assert r[1..] == Increment(t[1..], key);
        assert Keys(r) == [t[0].0] + Keys(Increment(t[1..], key));
        assert Keys(t) + [key] == [t[0].0] + (Keys(t[1..]) + [key]);
      }
    }
  }

  lemma KeysIndex(t: Tally, i: nat)
    requires i < |t|
    ensures |Keys(t)| == |t| && Keys(t)[i] == t[i].0
  {
    KeysLength(t);
    if i > 0 {
      KeysIndex(t[1..], i - 1);
    }
  }

  lemma {:induction false} KeysLength(t: Tally)
    ensures |Keys(t)| == |t|
  {
    if |t| > 0 {
      KeysLength(t[1..]);
    }
  }

  /** Keys are unique exactly when their list has no repeats; an increment keeps them so. */
  lemma IncrementUnique(t: Tally, key: Value)
    requires UniqueKeys(t)
    ensures UniqueKeys(Increment(t, key))
  {
    var r := Increment(t, key);
    IncrementKeys(t, key);
    KeysLength(t);
    KeysLength(r);
    forall i, j | 0 <= i < j < |r|
      ensures r[i].0 != r[j].0
    {
      KeysIndex(r, i);
      KeysIndex(r, j);
      if j < |t| {
        KeysIndex(t, i);
        KeysIndex(t, j);
      } else {
        KeysIndex(t, i);
        assert Keys(r)[j] == key && key !in Keys(t);
      }
    }
  }

  lemma {:induction false} AbsentLookup(t: Tally, key: Value)
    requires forall i :: 0 <= i < |t| ==> t[i].0 != key
    ensures Lookup(t, key) == 0
  {
    if |t| > 0 {
      AbsentLookup(t[1..], key);
    }
  }

  /** The keys with repeats removed, each kept where it first occurs: `[k for i, k in enumerate(keys) if k not in keys[:i]]`. */
  function FirstSeen(keys: seq<Value>): seq<Value> {
    if |keys| == 0 then []
    else
      var last := keys[|keys| - 1];
      FirstSeen(keys[..|keys| - 1]) + (if last in keys[..|keys| - 1] then [] else [last])
  }

  /** The counting dictionary lists its keys in first-seen order. */
  lemma {:induction false} TallyOfOrder(keys: seq<Value>)
    ensures Keys(TallyOf(keys)) == FirstSeen(keys)
  {
    if |keys| > 0 {
      var init := keys[..|keys| - 1];
      TallyOfOrder(init);
      TallyOfShape(init);
      IncrementKeys(TallyOf(init), keys[|keys| - 1]);
    }
  }

  /**
   * The counting loop's dictionary has each key once, in first-seen order,
   * counts every occurrence, has only positive counts, and its counts sum to
   * the number of keys.
   */
  lemma {:induction false} TallyOfFacts(keys: seq<Value>)
    ensures Keys(TallyOf(keys)) == FirstSeen(keys)
    ensures UniqueKeys(TallyOf(keys))
    ensures forall k :: Lookup(TallyOf(keys), k) == multiset(keys)[k]
    ensures Total(TallyOf(keys)) == |keys|
    ensures forall k :: k in Keys(TallyOf(keys)) <==> k in keys
    ensures forall i :: 0 <= i < |TallyOf(keys)| ==> TallyOf(keys)[i].1 > 0
  {
    TallyOfOrder(keys);
    TallyOfShape(keys);
    TallyOfCounts(keys);
  }

  /** The keys of the counting dictionary: each once, exactly the counted ones, all with a positive count. */
  lemma {:induction false} TallyOfShape(keys: seq<Value>)
    ensures UniqueKeys(TallyOf(keys))
    ensures forall k :: k in Keys(TallyOf(keys)) <==> k in keys
    ensures forall i :: 0 <= i < |TallyOf(keys)| ==> TallyOf(keys)[i].1 > 0
  {
    if |keys| > 0 {
      var init := keys[..|keys| - 1];
      var last := keys[|keys| - 1];
      TallyOfShape(init);
      var t := TallyOf(init);
      IncrementUnique(t, last);
      IncrementKeys(t, last);
      assert keys == init + [last];
      forall k ensures k in Keys(TallyOf(keys)) <==> k in keys {
        assert k in keys <==> k in init || k == last;
      }
    }
  }

  /** The counts of the counting dictionary: each key's number of occurrences, summing to the number of keys. */
  lemma {:induction false} TallyOfCounts(keys: seq<Value>)
    ensures forall k :: Lookup(TallyOf(keys), k) == multiset(keys)[k]
    ensures Total(TallyOf(keys)) == |keys|
  {
    if |keys| > 0 {
      var init := keys[..|keys| - 1];
      var last := keys[|keys| - 1];
      TallyOfCounts(init);
      TallyOfShape(init);
      var t := TallyOf(init);
      IncrementTotal(t, last);
      assert keys == init + [last];
      assert multiset(keys) == multiset(init) + multiset{last};
      forall k ensures Lookup(TallyOf(keys), k) == multiset(keys)[k] {
        IncrementLookup(t, last, k);
      }
    }
  }

  // ---------------------------------------------------------------------------
  // The write path of `add_functions`
  // ---------------------------------------------------------------------------

  /** `[(f, e) for f, e in zip(functions, embeddings) if e is not None]`. */
  function Survivors(functions: seq<Indexer.IndexedFunction>, embeddings: seq<Option<Vector>>): seq<(Indexer.IndexedFunction, Vector)>
    requires |functions| == |embeddings|
  {
    if |functions| == 0 then []
    else
      var n := |functions| - 1;
      Survivors(functions[..n], embeddings[..n]) + (if embeddings[n].Some? then [(functions[n], embeddings[n].value)] else [])
  }

  /** The positions whose embedding is present, in increasing order. */
  function Kept(embeddings: seq<Option<Vector>>): seq<nat> {
    if |embeddings| == 0 then []
    else
      var n := |embeddings| - 1;
      Kept(embeddings[..n]) + (if embeddings[n].Some? then [n] else [])
  }

  /** `Kept` lists exactly the present positions, each once and in order. */
  lemma {:induction false} KeptFacts(embeddings: seq<Option<Vector>>)
    ensures forall k :: 0 <= k < |Kept(embeddings)| ==> Kept(embeddings)[k] < |embeddings| && embeddings[Kept(embeddings)[k]].Some?
    ensures forall k, l :: 0 <= k < l < |Kept(embeddings)| ==> Kept(embeddings)[k] < Kept(embeddings)[l]
    ensures forall j :: 0 <= j < |embeddings| && embeddings[j].Some? ==> j in Kept(embeddings)
  {
    if |embeddings| > 0 {
      var n := |embeddings| - 1;
      KeptFacts(embeddings[..n]);
    }
  }

  /**
   * Survivors are the pairs at the present positions, in their original order,
   * each function still paired with its own embedding.
   */
  lemma {:induction false} SurvivorsPaired(functions: seq<Indexer.IndexedFunction>, embeddings: seq<Option<Vector>>)
    requires |functions| == |embeddings|
    ensures |Survivors(functions, embeddings)| == |Kept(embeddings)|
    ensures forall k :: 0 <= k < |Kept(embeddings)| ==>
      Kept(embeddings)[k] < |embeddings| && embeddings[Kept(embeddings)[k]].Some? &&
      Survivors(functions, embeddings)[k] == (functions[Kept(embeddings)[k]], embeddings[Kept(embeddings)[k]].value)
  {
    KeptFacts(embeddings);
    if |functions| > 0 {
      var n := |functions| - 1;
      SurvivorsPaired(functions[..n], embeddings[..n]);
      KeptFacts(embeddings[..n]);
      forall k | 0 <= k < |Kept(embeddings[..n])|
        ensures functions[..n][Kept(embeddings[..n])[k]] == functions[Kept(embeddings[..n])[k]]
        ensures embeddings[..n][Kept(embeddings[..n])[k]] == embeddings[Kept(embeddings[..n])[k]]
      {
      }
    }
  }

  /** With every embedding missing nothing survives; with none missing everything does, in order. */
  lemma {:induction false} SurvivorsExtremes(functions: seq<Indexer.IndexedFunction>, embeddings: seq<Option<Vector>>)
    requires |functions| == |embeddings|
    ensures (forall j :: 0 <= j < |embeddings| ==> embeddings[j].None?) ==> Survivors(functions, embeddings) == []
    ensures (forall j :: 0 <= j < |embeddings| ==> embeddings[j].Some?) ==>
      |Survivors(functions, embeddings)| == |functions| &&
      forall j :: 0 <= j < |functions| ==> Survivors(functions, embeddings)[j] == (functions[j], embeddings[j].value)
  {
    if |functions| > 0 {
      var n := |functions| - 1;
      SurvivorsExtremes(functions[..n], embeddings[..n]);
    }
  }

  /** What `collection.add` receives: the parallel lists zipped back into entries. */
  function Added(functions: seq<Indexer.IndexedFunction>, embeddings: seq<Option<Vector>>): seq<Entry>
    requires |functions| == |embeddings|
  {
    var valid := Survivors(functions, embeddings);
    seq(|valid|, k requires 0 <= k < |valid| =>
      Entry(valid[k].0.id, valid[k].0.content, Indexer.AsDict(valid[k].0.metadata), valid[k].1))
  }

  /** Each added entry carries the id, content, metadata and embedding of one surviving pair. */
  lemma AddedFacts(functions: seq<Indexer.IndexedFunction>, embeddings: seq<Option<Vector>>)
    requires |functions| == |embeddings|
    ensures |Added(functions, embeddings)| == |Kept(embeddings)|
    ensures forall k :: 0 <= k < |Kept(embeddings)| ==>
      var j := Kept(embeddings)[k];
      j < |embeddings| && embeddings[j].Some? &&
      Added(functions, embeddings)[k]
        == Entry(functions[j].id, functions[j].content, Indexer.AsDict(functions[j].metadata), embeddings[j].value)
  {
    KeptFacts(embeddings);
    SurvivorsPaired(functions, embeddings);
  }

  const MismatchPrefix := "Mismatch: "

  /** The `ValueError` text of a length mismatch. */
  function MismatchMessage(functions: nat, embeddings: nat): string {
    MismatchPrefix + Strings.NatToString(functions) + " functions but " + Strings.NatToString(embeddings) + " embeddings"
  }

  // ---------------------------------------------------------------------------
  // The read path of `search`
  // ---------------------------------------------------------------------------

  /** The single-query answer of `collection.query`: the `[0]` element of each list. */
  datatype QueryAnswer = QueryAnswer(
    ids: seq<string>,
    documents: seq<string>,
    metadatas: seq<map<string, Value>>,
    distances: Option<seq<real>>)

  /** Chroma's nearest-neighbour query over the stored entries; it always answers (it never raises here). */
  type Nearest = (seq<Entry>, Vector, Value, Option<map<string, Value>>) -> QueryAnswer

  /** One formatted search result. `distance` is `None` when the answer has no distances. */
  datatype SearchHit = SearchHit(id: string, content: string, metadata: map<string, Value>, distance: Option<real>)

  /** What callers need of `search`: the outcome for a query text, a result limit and a metadata filter. */
  type Searcher = (string, Value, Option<map<string, Value>>) -> Result<seq<SearchHit>, string>

  const IndexErrorMessage := "list index out of range"
  const NoQueryEmbeddingMessage := "Failed to generate query embedding"

  /** `filter_metadata if filter_metadata else None`: an empty filter is no filter. */
  function Where(filter: Option<map<string, Value>>): (r: Option<map<string, Value>>)
    ensures r.Some? <==> filter.Some? && filter.value != map[]
    ensures r.Some? ==> r == filter
  {
    if filter.Some? && filter.value != map[] then filter else None
  }

  /** Every list is long enough for the result loop to read position `i` of each id. */
  predicate WellShaped(a: QueryAnswer) {
    |a.documents| >= |a.ids| && |a.metadatas| >= |a.ids| && (a.distances.Some? ==> |a.distances.value| >= |a.ids|)
  }

  function HitAt(a: QueryAnswer, i: nat): SearchHit
    requires WellShaped(a) && i < |a.ids|
  {
    SearchHit(a.ids[i], a.documents[i], a.metadatas[i], if a.distances.Some? then Some(a.distances.value[i]) else None)
  }

  /** The formatted results: record `i` from position `i` of each list, or the `IndexError` of a short list. */
  function Shaped(a: QueryAnswer): Result<seq<SearchHit>, string> {
    if |a.ids| == 0 then Success([])
    else if !WellShaped(a) then Failure(IndexErrorMessage)
    else Success(seq(|a.ids|, i requires 0 <= i < |a.ids| => HitAt(a, i)))
  }

  /** One record per returned id, record `i` built from position `i`; no ids give no records. */
  lemma ShapedFacts(a: QueryAnswer)
    ensures |a.ids| == 0 ==> Shaped(a) == Success([])
    ensures Shaped(a).Failure? <==> |a.ids| > 0 && !WellShaped(a)
    ensures Shaped(a).Success? ==> |Shaped(a).value| == |a.ids|
    ensures Shaped(a).Success? ==> forall i :: 0 <= i < |a.ids| ==>
      Shaped(a).value[i].id == a.ids[i] && Shaped(a).value[i].content == a.documents[i] &&
      Shaped(a).value[i].metadata == a.metadatas[i] &&
      Shaped(a).value[i].distance == (if a.distances.Some? then Some(a.distances.value[i]) else None)
  {
  }

  /** What `search` returns, given the output of `generate_embeddings([query])`. */
  function SearchOutcome(queryEmbeddings: seq<Option<Vector>>, entries: seq<Entry>, nResults: Value,
                         filter: Option<map<string, Value>>, nearest: Nearest): Result<seq<SearchHit>, string>
  {
    if |queryEmbeddings| == 0 then Failure(IndexErrorMessage)
    else if queryEmbeddings[0].None? then Failure(NoQueryEmbeddingMessage)
    else Shaped(nearest(entries, queryEmbeddings[0].value, nResults, Where(filter)))
  }

  /** A failed query embedding raises before Chroma is asked; a successful one is the query vector. */
  lemma SearchNeedsEmbedding(model: string, query: string, entries: seq<Entry>, nResults: Value,
                             filter: Option<map<string, Value>>, provider: Embeddings.Provider, nearest: Nearest)
    ensures var out := Embeddings.Embedded(model, [query], Embeddings.DefaultBatchSize, provider);
      provider(model, [query]).None? ==> SearchOutcome(out, entries, nResults, filter, nearest) == Failure(NoQueryEmbeddingMessage)
    ensures var out := Embeddings.Embedded(model, [query], Embeddings.DefaultBatchSize, provider);
      provider(model, [query]).Some? && |provider(model, [query]).value| > 0 ==>
        SearchOutcome(out, entries, nResults, filter, nearest)
          == Shaped(nearest(entries, provider(model, [query]).value[0], nResults, Where(filter)))
  {
    var out := Embeddings.Embedded(model, [query], Embeddings.DefaultBatchSize, provider);
    assert [query][..1] == [query];
    assert [query][1..] == [];
    assert Embeddings.Embedded(model, [], Embeddings.DefaultBatchSize, provider) == [];
    assert out == Embeddings.BatchResult(provider(model, [query]), [query]) + [];
  }

  // ---------------------------------------------------------------------------
  // Statistics
  // ---------------------------------------------------------------------------

  /** The dictionary `get_stats` returns. */
  datatype StoreStats = StoreStats(totalFunctions: nat, repos: Tally, types: Tally)

  const Unknown := Str("unknown")

  /** `meta.get(field, 'unknown')` for each metadata dictionary, in order. */
  function Labels(metas: seq<map<string, Value>>, field: string): seq<Value> {
    seq(|metas|, i requires 0 <= i < |metas| => Get(metas[i], field, Unknown))
  }

  function Metadatas(entries: seq<Entry>): seq<map<string, Value>> {
    seq(|entries|, i requires 0 <= i < |entries| => entries[i].metadata)
  }

  function StatsOf(entries: seq<Entry>): StoreStats {
    var metas := Metadatas(entries);
    StoreStats(|entries|, TallyOf(Labels(metas, "repo")), TallyOf(Labels(metas, "code_type")))
  }

  /**
   * `total_functions` is the entry count, the repo counts and the type counts
   * each sum to it, every entry is counted under its own repo and type (or
   * `'unknown'`), and an empty collection gives zero and two empty dicts.
   */
  lemma StatsFacts(entries: seq<Entry>)
    ensures StatsOf(entries).totalFunctions == |entries|
    ensures Total(StatsOf(entries).repos) == |entries| && Total(StatsOf(entries).types) == |entries|
    ensures UniqueKeys(StatsOf(entries).repos) && UniqueKeys(StatsOf(entries).types)
    ensures forall k :: Lookup(StatsOf(entries).repos, k) == multiset(Labels(Metadatas(entries), "repo"))[k]
    ensures forall k :: Lookup(StatsOf(entries).types, k) == multiset(Labels(Metadatas(entries), "code_type"))[k]
    ensures |entries| == 0 ==> StatsOf(entries) == StoreStats(0, [], [])
  {
    TallyOfFacts(Labels(Metadatas(entries), "repo"));
    TallyOfFacts(Labels(Metadatas(entries), "code_type"));
  }

  /** An entry without a `repo` key is counted under `'unknown'`. */
  lemma MissingRepoIsUnknown(entries: seq<Entry>, i: nat)
    requires i < |entries| && "repo" !in entries[i].metadata
    ensures Lookup(StatsOf(entries).repos, Unknown) > 0
  {
    var labels := Labels(Metadatas(entries), "repo");
    TallyOfFacts(labels);
    assert labels[i] == Unknown;
  }

  lemma LabelsStep(metas: seq<map<string, Value>>, field: string, k: nat)
    requires k < |metas|
    ensures Labels(metas[..k + 1], field) == Labels(metas[..k], field) + [Get(metas[k], field, Unknown)]
    ensures TallyOf(Labels(metas[..k + 1], field)) == Increment(TallyOf(Labels(metas[..k], field)), Get(metas[k], field, Unknown))
  {
    var next := Labels(metas[..k + 1], field);
    assert next[..|next| - 1] == Labels(metas[..k], field);
  }

  // ---------------------------------------------------------------------------
  // The collection and the store
  // ---------------------------------------------------------------------------

  /** A Chroma collection: a name and its entries in insertion order. */
  class Collection {
    var name: string
    var entries: seq<Entry>

    /** `get_or_create_collection`: the collection holds whatever was persisted under that name. */
    constructor(name: string, persisted: seq<Entry>)
      ensures this.name == name && entries == persisted
    {
      this.name := name;
      entries := persisted;
    }

    function Count(): nat
      reads this
    {
      |entries|
    }

    /** `collection.add` with parallel lists: one entry per position, appended. */
    method Add(ids: seq<string>, documents: seq<string>, embeddings: seq<Vector>, metadatas: seq<map<string, Value>>)
      requires |ids| == |documents| == |embeddings| == |metadatas|
      modifies this
      ensures name == old(name)
      ensures entries == old(entries) + seq(|ids|, i requires 0 <= i < |ids| => Entry(ids[i], documents[i], metadatas[i], embeddings[i]))
    {
      entries := entries + seq(|ids|, i requires 0 <= i < |ids| => Entry(ids[i], documents[i], metadatas[i], embeddings[i]));
    }
  }

  class Store {
    var collection: Collection
    const generator: Embeddings.EmbeddingGenerator

    constructor(collectionName: string, persisted: seq<Entry>, generator: Embeddings.EmbeddingGenerator)
      ensures fresh(collection)
      ensures collection.name == collectionName && collection.entries == persisted
      ensures this.generator == generator
    {
      collection := new Collection(collectionName, persisted);
      this.generator := generator;
    }

    /**
     * `add_functions`: a length mismatch raises and adds nothing; otherwise the
     * pairs with an embedding are appended, and with none the collection is
     * left as it was.
     */
    method AddFunctions(functions: seq<Indexer.IndexedFunction>, embeddings: seq<Option<Vector>>)
      returns (error: Option<string>)
      modifies collection
      ensures collection.name == old(collection.name)
      ensures |functions| != |embeddings| ==>
        error == Some(MismatchMessage(|functions|, |embeddings|)) && collection.entries == old(collection.entries)
      ensures |functions| == |embeddings| ==>
        error == None && collection.entries == old(collection.entries) + Added(functions, embeddings)
    {
      if |functions| != |embeddings| {
        return Some(MismatchMessage(|functions|, |embeddings|));
      }
      var valid := Survivors(functions, embeddings);
      if |valid| == 0 {
        return None;
      }
      var ids := seq(|valid|, k requires 0 <= k < |valid| => valid[k].0.id);
      var documents := seq(|valid|, k requires 0 <= k < |valid| => valid[k].0.content);
      var metadatas := seq(|valid|, k requires 0 <= k < |valid| => Indexer.AsDict(valid[k].0.metadata));
      var vectors := seq(|valid|, k requires 0 <= k < |valid| => valid[k].1);
      collection.Add(ids, documents, vectors, metadatas);
      assert collection.entries == old(collection.entries) + Added(functions, embeddings);
      return None;
    }

    /** `search` on the current entries, as a function of the query text, the limit and the filter. */
    function SearchFunction(provider: Embeddings.Provider, nearest: Nearest): Searcher
      reads this, collection, generator
    {
      var entries := collection.entries;
      var model := generator.model;
      (query: string, nResults: Value, filter: Option<map<string, Value>>) =>
        SearchOutcome(Embeddings.Embedded(model, [query], Embeddings.DefaultBatchSize, provider), entries, nResults, filter, nearest)
    }

    /**
     * `search`: embeds the query with the store's generator, raises when that
     * fails, asks Chroma for the nearest entries (filtering only on a
     * non-empty filter) and shapes the answer.
     */
    method Search(query: string, nResults: Value, filter: Option<map<string, Value>>,
                  provider: Embeddings.Provider, nearest: Nearest)
      returns (result: Result<seq<SearchHit>, string>)
      ensures result == SearchOutcome(
        Embeddings.Embedded(generator.model, [query], Embeddings.DefaultBatchSize, provider),
        collection.entries, nResults, filter, nearest)
    {
      var generated, _ := generator.GenerateEmbeddings([query], Embeddings.DefaultBatchSize, provider);
      var queryEmbeddings := generated.value;
      if |queryEmbeddings| == 0 {
        return Failure(IndexErrorMessage);
      }
      var queryEmbedding := queryEmbeddings[0];
      if queryEmbedding.None? {
        return Failure(NoQueryEmbeddingMessage);
      }
      var where := if filter.Some? && filter.value != map[] then filter else None;
      var answer := nearest(collection.entries, queryEmbedding.value, nResults, where);
      var hits: seq<SearchHit> := [];
      if |answer.ids| > 0 {
        var i := 0;
        while i < |answer.ids|
          invariant 0 <= i <= |answer.ids|
          invariant i <= |answer.documents| && i <= |answer.metadatas|
          invariant answer.distances.Some? ==> i <= |answer.distances.value|
          invariant |hits| == i
          invariant forall k :: 0 <= k < i ==>
            hits[k] == SearchHit(answer.ids[k], answer.documents[k], answer.metadatas[k],
                                 if answer.distances.Some? then Some(answer.distances.value[k]) else None)
        {
          if i >= |answer.documents| || i >= |answer.metadatas| {
            return Failure(IndexErrorMessage);
          }
          var distance: Option<real> := None;
          if answer.distances.Some? {
            if i >= |answer.distances.value| {
              return Failure(IndexErrorMessage);
            }
            distance := Some(answer.distances.value[i]);
          }
          hits := hits + [SearchHit(answer.ids[i], answer.documents[i], answer.metadatas[i], distance)];
          i := i + 1;
        }
        assert WellShaped(answer);
        assert hits == seq(|answer.ids|, k requires 0 <= k < |answer.ids| => HitAt(answer, k));
      }
      return Success(hits);
    }

    /** `get_stats`: counts the stored functions per repository and per code type. */
    method GetStats() returns (stats: StoreStats)
      ensures stats == StatsOf(collection.entries)
    {
      var count := collection.Count();
      if count == 0 {
        return StoreStats(0, [], []);
      }
      var metas := Metadatas(collection.entries);
      var repos: Tally := [];
      var types: Tally := [];
      for k := 0 to |metas|
        invariant repos == TallyOf(Labels(metas[..k], "repo"))
        invariant types == TallyOf(Labels(metas[..k], "code_type"))
      {
        LabelsStep(metas, "repo", k);
        LabelsStep(metas, "code_type", k);
        repos := Increment(repos, Get(metas[k], "repo", Unknown));
        types := Increment(types, Get(metas[k], "code_type", Unknown));
      }
      assert metas[..|metas|] == metas;
      return StoreStats(count, repos, types);
    }

    /** `reset`: the collection is replaced by a new, empty one of the same name. */
    method Reset()
      modifies this
      ensures fresh(collection)
      ensures collection.name == old(collection.name) && collection.entries == []
    {
      collection := new Collection(collection.name, []);
    }
  }
}
