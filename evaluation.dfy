/**
 * The retrieval evaluation framework (`evaluation-framework.py`): recall@k,
 * precision@k and the reciprocal rank of one answer, their collection per
 * metric and per category across a test set, the aggregation into overall
 * and per-category means, the recall@5 target verdict and the batch scoring
 * template. The system under evaluation is a parameter (`Retriever`).
 */
module Evaluation {
  import opened Wrappers
  import opened Sequences
  import opened Strings
  import opened Values

  /** One test query with its ground truth. */
  datatype TestQuery = TestQuery(id: int, query: string, relevantFiles: seq<string>, category: string, difficulty: string)

  /** One retrieved chunk. */
  datatype RetrievalResult = RetrievalResult(filePath: string, chunkContent: string, score: real, metadata: map<string, Value>)

  /** `[r.file_path for r in rag_system.retrieve(query, k=k)]`. */
  type Retriever = (string, int) -> seq<string>

  // ---------------------------------------------------------------------------
  // Metrics of one answer
  // ---------------------------------------------------------------------------

  /** `set(s)`. */
  function SetOf(s: seq<string>): set<string> {
    set x | x in s
  }

  /** Python's `s[:k]` for any integer `k`: a negative `k` drops that many items from the end. */
  function PrefixOf(s: seq<string>, k: int): (r: seq<string>)
    ensures |r| <= |s| && r == s[..|r|]
    ensures k >= 0 ==> |r| == Min(k, |s|)
  {
    if k >= 0 then s[..Min(k, |s|)] else s[..Max(0, |s| + k)]
  }

  /** `len(set(retrieved[:k]) & set(relevant))`. */
  function Hits(retrieved: seq<string>, relevant: seq<string>, k: int): nat {
    |SetOf(PrefixOf(retrieved, k)) * SetOf(relevant)|
  }

  /** `recall_at_k`: hits over the number of distinct relevant files, and 0 for no relevant files. */
  function RecallAtK(retrieved: seq<string>, relevant: seq<string>, k: int): real {
    if |relevant| == 0 then 0.0
    else
      SetOfNonEmpty(relevant);
      (Hits(retrieved, relevant, k) as real) / (|SetOf(relevant)| as real)
  }

  /** `precision_at_k`: hits over `k` itself, not over the number retrieved, and 0 for `k == 0`. */
  function PrecisionAtK(retrieved: seq<string>, relevant: seq<string>, k: int): real {
    if k == 0 then 0.0 else (Hits(retrieved, relevant, k) as real) / (k as real)
  }

  lemma {:induction false} SubsetSize(a: set<string>, b: set<string>)
    requires a <= b
    ensures |a| <= |b|
    decreases |b|
  {
    if b != {} {
      var x :| x in b;
      SubsetSize(a - {x}, b - {x});
    }
  }

  lemma {:induction false} SetOfSize(s: seq<string>)
    ensures |SetOf(s)| <= |s|
  {
    if |s| > 0 {
      var init := s[..|s| - 1];
      SetOfSize(init);
      assert SetOf(s) == SetOf(init) + {s[|s| - 1]} by {
        assert s == init + [s[|s| - 1]];
      }
    }
  }

  lemma SetOfNonEmpty(s: seq<string>)
    requires |s| > 0
    ensures |SetOf(s)| > 0
  {
    assert s[0] in SetOf(s);
  }

  lemma RatioBounds(h: nat, n: nat)
    requires h <= n && n > 0
    ensures 0.0 <= (h as real) / (n as real) <= 1.0
  {
  }

  /** The hits are bounded by the distinct relevant files and by the retrieved prefix. */
  lemma HitsBounds(retrieved: seq<string>, relevant: seq<string>, k: int)
    ensures Hits(retrieved, relevant, k) <= |SetOf(relevant)|
    ensures Hits(retrieved, relevant, k) <= |PrefixOf(retrieved, k)|
  {
    var top := SetOf(PrefixOf(retrieved, k));
    SubsetSize(top * SetOf(relevant), SetOf(relevant));
    SubsetSize(top * SetOf(relevant), top);
    SetOfSize(PrefixOf(retrieved, k));
  }

  /** Recall lies in [0, 1] for every `k`, and precision does for every `k >= 0`. */
  lemma MetricBounds(retrieved: seq<string>, relevant: seq<string>, k: int)
    ensures 0.0 <= RecallAtK(retrieved, relevant, k) <= 1.0
    ensures k >= 0 ==> 0.0 <= PrecisionAtK(retrieved, relevant, k) <= 1.0
  {
    HitsBounds(retrieved, relevant, k);
    if |relevant| > 0 {
      SetOfNonEmpty(relevant);
      RatioBounds(Hits(retrieved, relevant, k), |SetOf(relevant)|);
    }
    if k > 0 {
      RatioBounds(Hits(retrieved, relevant, k), k);
    }
  }

  /** Every relevant file among the first `k` retrieved gives full recall. */
  lemma FullRecall(retrieved: seq<string>, relevant: seq<string>, k: int)
    requires |relevant| > 0 && forall f :: f in relevant ==> f in PrefixOf(retrieved, k)
    ensures RecallAtK(retrieved, relevant, k) == 1.0
  {
    var top := SetOf(PrefixOf(retrieved, k));
    assert top * SetOf(relevant) == SetOf(relevant);
    SetOfNonEmpty(relevant);
    var n := |SetOf(relevant)|;
    assert Hits(retrieved, relevant, k) == n;
    assert (n as real) / (n as real) == 1.0;
  }

  /**
   * A repeated answer does not count twice: retrieving again, just after the
   * first `k`, a file already among them, and looking one further, leaves
   * the hits unchanged.
   */
  lemma DuplicateIgnored(retrieved: seq<string>, relevant: seq<string>, k: nat, i: nat)
    requires i < k <= |retrieved|
    ensures Hits(retrieved[..k] + [retrieved[i]] + retrieved[k..], relevant, k + 1) == Hits(retrieved, relevant, k)
  {
    var widened := retrieved[..k] + [retrieved[i]] + retrieved[k..];
    assert PrefixOf(widened, k + 1) == retrieved[..k] + [retrieved[i]];
    assert PrefixOf(retrieved, k) == retrieved[..k];
    assert SetOf(retrieved[..k] + [retrieved[i]]) == SetOf(retrieved[..k]) by {
      assert retrieved[i] == retrieved[..k][i];
    }
  }

  /** The 0-based position of the first retrieved file that is relevant. */
  function FirstRelevant(retrieved: seq<string>, relevant: set<string>): (r: Option<nat>)
    ensures r.None? <==> forall i :: 0 <= i < |retrieved| ==> retrieved[i] !in relevant
    ensures r.Some? ==> (r.value < |retrieved| && retrieved[r.value] in relevant &&
                         forall i :: 0 <= i < r.value ==> retrieved[i] !in relevant)
  {
    if |retrieved| == 0 then None
    else if retrieved[0] in relevant then Some(0)
    else
      match FirstRelevant(retrieved[1..], relevant)
      case None => None
      case Some(i) => Some(i + 1)
  }

  /** `mean_reciprocal_rank` of one answer: 1 over the 1-based rank of the first relevant file, or 0. */
  function ReciprocalRank(retrieved: seq<string>, relevant: seq<string>): real {
    match FirstRelevant(retrieved, SetOf(relevant))
    case None => 0.0
    case Some(i) => 1.0 / ((i + 1) as real)
  }

  /**
   * The reciprocal rank is `1/(r+1)` for the first relevant position `r`,
   * 1 exactly when the first answer is relevant, 0 exactly when no answer
   * is, and always in [0, 1].
   */
  lemma ReciprocalRankFacts(retrieved: seq<string>, relevant: seq<string>, r: nat)
    ensures 0.0 <= ReciprocalRank(retrieved, relevant) <= 1.0
    ensures ReciprocalRank(retrieved, relevant) == 0.0 <==> forall i :: 0 <= i < |retrieved| ==> retrieved[i] !in relevant
    ensures ReciprocalRank(retrieved, relevant) == 1.0 <==> |retrieved| > 0 && retrieved[0] in relevant
    ensures r < |retrieved| && retrieved[r] in relevant && (forall i :: 0 <= i < r ==> retrieved[i] !in relevant) ==>
      ReciprocalRank(retrieved, relevant) == 1.0 / ((r + 1) as real)
  {
    var first := FirstRelevant(retrieved, SetOf(relevant));
    if first.Some? {
      var i := first.value;
      assert retrieved[i] in relevant;
    }
  }

  // ---------------------------------------------------------------------------
  // Insertion-ordered dictionaries with string keys
  // ---------------------------------------------------------------------------

  /** `t.get(key)`: the value under the first occurrence of `key`. */
  function Find<V>(t: seq<(string, V)>, key: string): Option<V> {
    if |t| == 0 then None else if t[0].0 == key then Some(t[0].1) else Find(t[1..], key)
  }

  /** `t[key] = v`: replaces the value in place, or appends a new key at the end. */
  function Store<V>(t: seq<(string, V)>, key: string, v: V): seq<(string, V)> {
    if |t| == 0 then [(key, v)]
    else if t[0].0 == key then [(key, v)] + t[1..]
    else [t[0]] + Store(t[1..], key, v)
  }

  lemma {:induction false} FindStore<V>(t: seq<(string, V)>, key: string, v: V, other: string)
    ensures Find(Store(t, key, v), other) == if other == key then Some(v) else Find(t, other)
  {
    if |t| > 0 && t[0].0 != key {
      FindStore(t[1..], key, v, other);
    }
  }

  // ---------------------------------------------------------------------------
  // evaluate_retrieval
  // ---------------------------------------------------------------------------

  /** The scores of one metric, by category: `metrics[name]`. */
  type Scores = seq<(string, seq<real>)>

  /** `metrics`: metric name to scores by category. */
  type Metrics = seq<(string, Scores)>

  function ScoresIn(g: Scores, category: string): seq<real> {
    match Find(g, category)
    case None => []
    case Some(v) => v
  }

  function MetricIn(m: Metrics, name: string): Scores {
    match Find(m, name)
    case None => []
    case Some(g) => g
  }

  /** `metrics[name][category].append(score)`, creating missing entries as a `defaultdict` does. */
  function Record(m: Metrics, name: string, category: string, score: real): Metrics {
    var g := MetricIn(m, name);
    Store(m, name, Store(g, category, ScoresIn(g, category) + [score]))
  }

  /** One appended score, in the order the loops produce them. */
  datatype Observation = Observation(metric: string, category: string, score: real)

  function RecallName(k: int): string { "recall@" + IntToString(k) }
  function PrecisionName(k: int): string { "precision@" + IntToString(k) }
  const MrrName := "mrr"
  const EmptyMaxMessage := "max() arg is an empty sequence"

  function MaxOf(ks: seq<int>): (r: int)
    requires |ks| > 0
    ensures r in ks && forall j :: 0 <= j < |ks| ==> ks[j] <= r
  {
    if |ks| == 1 then ks[0] else Max(MaxOf(ks[..|ks| - 1]), ks[|ks| - 1])
  }

  /** The recall and precision scores of one query, for each `k` in turn. */
  function CutoffObservations(retrieved: seq<string>, q: TestQuery, ks: seq<int>): seq<Observation> {
    if |ks| == 0 then []
    else
      var k := ks[|ks| - 1];
      CutoffObservations(retrieved, q, ks[..|ks| - 1]) +
        [Observation(RecallName(k), q.category, RecallAtK(retrieved, q.relevantFiles, k)),
         Observation(PrecisionName(k), q.category, PrecisionAtK(retrieved, q.relevantFiles, k))]
  }

  /** All scores of one query: its cut-off scores, then its reciprocal rank. */
  function QueryObservations(q: TestQuery, retrieve: Retriever, kValues: seq<int>): seq<Observation>
    requires |kValues| > 0
  {
    var retrieved := retrieve(q.query, MaxOf(kValues));
    CutoffObservations(retrieved, q, kValues) + [Observation(MrrName, q.category, ReciprocalRank(retrieved, q.relevantFiles))]
  }

  function Observations(queries: seq<TestQuery>, retrieve: Retriever, kValues: seq<int>): seq<Observation>
    requires |queries| == 0 || |kValues| > 0
  {
    if |queries| == 0 then []
    else Observations(queries[..|queries| - 1], retrieve, kValues) + QueryObservations(queries[|queries| - 1], retrieve, kValues)
  }

  /** The dictionary the appends build, in order. */
  function Collect(obs: seq<Observation>): Metrics {
    if |obs| == 0 then []
    else
      var o := obs[|obs| - 1];
      Record(Collect(obs[..|obs| - 1]), o.metric, o.category, o.score)
  }

  /** The (category, score) pairs of one metric, in order. */
  function MetricPairs(obs: seq<Observation>, name: string): seq<(string, real)> {
    if |obs| == 0 then []
    else MetricPairs(obs[..|obs| - 1], name) + (if obs[|obs| - 1].metric == name then [(obs[|obs| - 1].category, obs[|obs| - 1].score)] else [])
  }

  /** The scores of one category, in order. */
  function CategoryScores(pairs: seq<(string, real)>, category: string): seq<real> {
    if |pairs| == 0 then []
    else CategoryScores(pairs[..|pairs| - 1], category) + (if pairs[|pairs| - 1].0 == category then [pairs[|pairs| - 1].1] else [])
  }

  /** Scores grouped by category in first-appearance order. */
  function Group(pairs: seq<(string, real)>): Scores {
    if |pairs| == 0 then []
    else
      var p := pairs[|pairs| - 1];
      var g := Group(pairs[..|pairs| - 1]);
      Store(g, p.0, ScoresIn(g, p.0) + [p.1])
  }

  lemma {:induction false} GroupFind(pairs: seq<(string, real)>, category: string)
    ensures Find(Group(pairs), category) == if |CategoryScores(pairs, category)| == 0 then None else Some(CategoryScores(pairs, category))
  {
    if |pairs| > 0 {
      var p := pairs[|pairs| - 1];
      var init := pairs[..|pairs| - 1];
      GroupFind(init, category);
      GroupFind(init, p.0);
      assert ScoresIn(Group(init), p.0) == CategoryScores(init, p.0);
      FindStore(Group(init), p.0, ScoresIn(Group(init), p.0) + [p.1], category);
      assert Group(pairs) == Store(Group(init), p.0, ScoresIn(Group(init), p.0) + [p.1]);
      if p.0 == category {
        assert CategoryScores(pairs, category) == CategoryScores(init, category) + [p.1];
        assert Find(Group(pairs), category) == Some(CategoryScores(pairs, category));
      } else {
        assert CategoryScores(pairs, category) == CategoryScores(init, category);
        assert Find(Group(pairs), category) == Find(Group(init), category);
      }
    }
  }

  /** The dictionary holds, under each metric name, exactly that metric's scores grouped by category. */
  lemma {:induction false} CollectFind(obs: seq<Observation>, name: string)
    ensures Find(Collect(obs), name) == if |MetricPairs(obs, name)| == 0 then None else Some(Group(MetricPairs(obs, name)))
  {
    if |obs| > 0 {
      var o := obs[|obs| - 1];
      var init := obs[..|obs| - 1];
      CollectFind(init, name);
      CollectFind(init, o.metric);
      var g := MetricIn(Collect(init), o.metric);
      var before := MetricPairs(init, o.metric);
      assert g == Group(before);
      var updated := Store(g, o.category, ScoresIn(g, o.category) + [o.score]);
      FindStore(Collect(init), o.metric, updated, name);
      assert Collect(obs) == Store(Collect(init), o.metric, updated);
      if o.metric == name {
        var after := before + [(o.category, o.score)];
        assert MetricPairs(obs, name) == after;
        assert after[..|after| - 1] == before;
        assert Group(after) == updated;
      } else {
        assert MetricPairs(obs, name) == MetricPairs(init, name);
      }
    }
  }

  // ---------------------------------------------------------------------------
  // Aggregation
  // ---------------------------------------------------------------------------

  function Sum(v: seq<real>): real {
    if |v| == 0 then 0.0 else Sum(v[..|v| - 1]) + v[|v| - 1]
  }

  function Average(v: seq<real>): real
    requires |v| > 0
  {
    Sum(v) / (|v| as real)
  }

  function TotalSum(g: Scores): real {
    if |g| == 0 then 0.0 else Sum(g[0].1) + TotalSum(g[1..])
  }

  function TotalCount(g: Scores): nat {
    if |g| == 0 then 0 else |g[0].1| + TotalCount(g[1..])
  }

  /** Every category has a score, as the appends guarantee. */
  predicate Populated(g: Scores) {
    forall j :: 0 <= j < |g| ==> |g[j].1| > 0
  }

  datatype MetricSummary = MetricSummary(overall: real, byCategory: seq<(string, real)>)

  function ByCategory(g: Scores): seq<(string, real)>
    requires Populated(g)
  {
    if |g| == 0 then [] else [(g[0].0, Average(g[0].1))] + ByCategory(g[1..])
  }

  lemma {:induction false} PopulatedCount(g: Scores)
    requires Populated(g) && |g| > 0
    ensures TotalCount(g) > 0
  {
  }

  /** `{'overall': total sum / total count, 'by_category': {cat: mean}}`. */
  function Summarize(g: Scores): MetricSummary
    requires Populated(g) && |g| > 0
  {
    PopulatedCount(g);
    MetricSummary(TotalSum(g) / (TotalCount(g) as real), ByCategory(g))
  }

  /** Every metric has some category, and every category some score. */
  predicate WellFormed(m: Metrics) {
    forall i :: 0 <= i < |m| ==> |m[i].1| > 0 && Populated(m[i].1)
  }

  /** `aggregated`, metric by metric in insertion order. */
  function Aggregated(m: Metrics): seq<(string, MetricSummary)>
    requires WellFormed(m)
  {
    if |m| == 0 then [] else [(m[0].0, Summarize(m[0].1))] + Aggregated(m[1..])
  }

  lemma {:induction false} AggregatedFind(m: Metrics, name: string)
    requires WellFormed(m)
    ensures Find(Aggregated(m), name).Some? <==> Find(m, name).Some?
    ensures Find(m, name).Some? ==> (|Find(m, name).value| > 0 && Populated(Find(m, name).value) &&
                                     Find(Aggregated(m), name).value == Summarize(Find(m, name).value))
  {
    if |m| > 0 && m[0].0 != name {
      AggregatedFind(m[1..], name);
    }
  }

  lemma {:induction false} ByCategoryFind(g: Scores, category: string)
    requires Populated(g)
    ensures Find(ByCategory(g), category).Some? <==> Find(g, category).Some?
    ensures Find(g, category).Some? ==> (|Find(g, category).value| > 0 &&
                                         Find(ByCategory(g), category).value == Average(Find(g, category).value))
  {
    if |g| > 0 && g[0].0 != category {
      ByCategoryFind(g[1..], category);
    }
  }

  lemma {:induction false} StoreTotals(g: Scores, category: string, score: real)
    ensures TotalSum(Store(g, category, ScoresIn(g, category) + [score])) == TotalSum(g) + score
    ensures TotalCount(Store(g, category, ScoresIn(g, category) + [score])) == TotalCount(g) + 1
  {
    var v := ScoresIn(g, category) + [score];
    assert v[..|v| - 1] == ScoresIn(g, category);
    assert Sum(v) == Sum(ScoresIn(g, category)) + score;
    if |g| == 0 {
      assert Store(g, category, v) == [(category, v)];
    } else if g[0].0 == category {
      assert ScoresIn(g, category) == g[0].1;
      assert Store(g, category, v) == [(category, v)] + g[1..];
    } else {
      StoreTotals(g[1..], category, score);
      assert ScoresIn(g, category) == ScoresIn(g[1..], category);
      assert Store(g, category, v) == [g[0]] + Store(g[1..], category, v);
    }
  }

  lemma {:induction false} StorePopulated(g: Scores, category: string, v: seq<real>)
    requires Populated(g) && |v| > 0
    ensures Populated(Store(g, category, v)) && |Store(g, category, v)| > 0
  {
    if |g| > 0 && g[0].0 != category {
      assert Populated(g[1..]) by {
        forall j | 0 <= j < |g| - 1
          ensures |g[1..][j].1| > 0
        {
          assert g[1..][j] == g[j + 1];
        }
      }
      StorePopulated(g[1..], category, v);
    }
  }

  function PairSum(pairs: seq<(string, real)>): real {
    if |pairs| == 0 then 0.0 else PairSum(pairs[..|pairs| - 1]) + pairs[|pairs| - 1].1
  }

  /** Grouping keeps every score once: the group totals are the totals of all the pairs. */
  lemma {:induction false} GroupTotals(pairs: seq<(string, real)>)
    ensures TotalSum(Group(pairs)) == PairSum(pairs) && TotalCount(Group(pairs)) == |pairs|
    ensures Populated(Group(pairs)) && (|pairs| > 0 ==> |Group(pairs)| > 0)
  {
    if |pairs| > 0 {
      var p := pairs[|pairs| - 1];
      var init := pairs[..|pairs| - 1];
      GroupTotals(init);
      StoreTotals(Group(init), p.0, p.1);
      StorePopulated(Group(init), p.0, ScoresIn(Group(init), p.0) + [p.1]);
    }
  }

  lemma {:induction false} CollectWellFormed(obs: seq<Observation>)
    ensures WellFormed(Collect(obs))
  {
    if |obs| > 0 {
      var o := obs[|obs| - 1];
      CollectWellFormed(obs[..|obs| - 1]);
      var m := Collect(obs[..|obs| - 1]);
      var g := MetricIn(m, o.metric);
      assert Populated(g) by {
        if Find(m, o.metric).Some? {
          FindWellFormed(m, o.metric);
        }
      }
      StorePopulated(g, o.category, ScoresIn(g, o.category) + [o.score]);
      StoreWellFormed(m, o.metric, Store(g, o.category, ScoresIn(g, o.category) + [o.score]));
    }
  }

  lemma {:induction false} FindWellFormed(m: Metrics, name: string)
    requires WellFormed(m) && Find(m, name).Some?
    ensures |Find(m, name).value| > 0 && Populated(Find(m, name).value)
  {
    if m[0].0 != name {
      FindWellFormed(m[1..], name);
    }
  }

  lemma {:induction false} StoreWellFormed(m: Metrics, name: string, g: Scores)
    requires WellFormed(m) && |g| > 0 && Populated(g)
    ensures WellFormed(Store(m, name, g))
  {
    if |m| > 0 && m[0].0 != name {
      StoreWellFormed(m[1..], name, g);
    }
  }

  /** The cutoffs `evaluate_retrieval` uses when the caller names none. */
  const DefaultKValues: seq<int> := [1, 3, 5, 10]

  /** What `evaluate_retrieval` returns: a ValueError from `max` when there are queries but no cut-offs. */
  function EvaluationOutcome(queries: seq<TestQuery>, retrieve: Retriever, kValues: seq<int>): Result<seq<(string, MetricSummary)>, string> {
    if |queries| > 0 && |kValues| == 0 then Failure(EmptyMaxMessage)
    else Success(Aggregate(Observations(queries, retrieve, kValues)))
  }

  /** The aggregation of a sequence of appended scores. */
  function Aggregate(obs: seq<Observation>): seq<(string, MetricSummary)> {
    CollectWellFormed(obs);
    Aggregated(Collect(obs))
  }

  /**
   * Each metric's `overall` is the sum of all its scores, across categories,
   * over their number; each category's entry is that category's mean; and a
   * metric or category appears exactly when it received a score.
   */
  lemma AggregationFacts(obs: seq<Observation>, name: string, category: string)
    ensures Find(Aggregate(obs), name).Some? <==> |MetricPairs(obs, name)| > 0
    ensures var pairs := MetricPairs(obs, name);
      |pairs| > 0 ==> Find(Aggregate(obs), name).value.overall == PairSum(pairs) / (|pairs| as real)
    ensures var pairs := MetricPairs(obs, name);
      |pairs| > 0 ==>
        var byCategory := Find(Aggregate(obs), name).value.byCategory;
        (Find(byCategory, category).Some? <==> |CategoryScores(pairs, category)| > 0) &&
        (|CategoryScores(pairs, category)| > 0 ==> Find(byCategory, category).value == Average(CategoryScores(pairs, category)))
  {
    CollectWellFormed(obs);
    CollectFind(obs, name);
    AggregatedFind(Collect(obs), name);
    var pairs := MetricPairs(obs, name);
    if |pairs| > 0 {
      GroupTotals(pairs);
      GroupFind(pairs, category);
      ByCategoryFind(Group(pairs), category);
    }
  }

  // ---------------------------------------------------------------------------
  // The loops of evaluate_retrieval
  // ---------------------------------------------------------------------------

  /** The appends of `obs`, in order, onto the dictionary `m`. */
  function RecordAll(m: Metrics, obs: seq<Observation>): Metrics {
    if |obs| == 0 then m
    else
      var o := obs[|obs| - 1];
      Record(RecordAll(m, obs[..|obs| - 1]), o.metric, o.category, o.score)
  }

  lemma {:induction false} RecordAllCollect(a: seq<Observation>, b: seq<Observation>)
    ensures RecordAll(Collect(a), b) == Collect(a + b)
  {
    if |b| == 0 {
      assert a + b == a;
    } else {
      var init, o := b[..|b| - 1], b[|b| - 1];
      RecordAllCollect(a, init);
      InitOfAppend(a, b);
      assert Collect(a + b) == Record(Collect(a + init), o.metric, o.category, o.score);
    }
  }

  /** One pass of the inner loop records the recall and then the precision at that cutoff. */
  lemma RecordCutoffStep(metrics: Metrics, retrieved: seq<string>, q: TestQuery, kValues: seq<int>, j: nat)
    requires j < |kValues|
    ensures var k := kValues[j];
      RecordAll(metrics, CutoffObservations(retrieved, q, kValues[..j + 1]))
        == Record(Record(RecordAll(metrics, CutoffObservations(retrieved, q, kValues[..j])),
                         RecallName(k), q.category, RecallAtK(retrieved, q.relevantFiles, k)),
                  PrecisionName(k), q.category, PrecisionAtK(retrieved, q.relevantFiles, k))
  {
    var k := kValues[j];
    var prior := CutoffObservations(retrieved, q, kValues[..j]);
    var recall := Observation(RecallName(k), q.category, RecallAtK(retrieved, q.relevantFiles, k));
    var precision := Observation(PrecisionName(k), q.category, PrecisionAtK(retrieved, q.relevantFiles, k));
    PrefixStep(kValues, j);
    assert CutoffObservations(retrieved, q, kValues[..j + 1]) == prior + [recall] + [precision];
    assert (prior + [recall] + [precision])[..|prior| + 1] == prior + [recall];
    assert (prior + [recall])[..|prior|] == prior;
  }

  /** The inner loop: the recall and precision appends of one query. */
  method RecordCutoffs(metrics: Metrics, retrieved: seq<string>, q: TestQuery, kValues: seq<int>) returns (result: Metrics)
    ensures result == RecordAll(metrics, CutoffObservations(retrieved, q, kValues))
  {
    result := metrics;
    for j := 0 to |kValues|
      invariant result == RecordAll(metrics, CutoffObservations(retrieved, q, kValues[..j]))
    {
      var k := kValues[j];
      RecordCutoffStep(metrics, retrieved, q, kValues, j);
      result := Record(result, RecallName(k), q.category, RecallAtK(retrieved, q.relevantFiles, k));
      result := Record(result, PrecisionName(k), q.category, PrecisionAtK(retrieved, q.relevantFiles, k));
    }
    assert kValues[..|kValues|] == kValues;
  }

  lemma ObservationsStep(queries: seq<TestQuery>, i: nat, retrieve: Retriever, kValues: seq<int>)
    requires i < |queries| && |kValues| > 0
    ensures Observations(queries[..i + 1], retrieve, kValues) == Observations(queries[..i], retrieve, kValues) + QueryObservations(queries[i], retrieve, kValues)
  {
    PrefixStep(queries, i);
    assert queries[..i + 1][i] == queries[i];
  }

  /** One pass of the query loop records the cutoff scores and then the reciprocal rank of that query. */
  lemma QueryStep(queries: seq<TestQuery>, i: nat, retrieve: Retriever, kValues: seq<int>)
    requires i < |queries| && |kValues| > 0
    ensures var q := queries[i];
      var retrieved := retrieve(q.query, MaxOf(kValues));
      Collect(Observations(queries[..i + 1], retrieve, kValues))
        == Record(RecordAll(Collect(Observations(queries[..i], retrieve, kValues)), CutoffObservations(retrieved, q, kValues)),
                  MrrName, q.category, ReciprocalRank(retrieved, q.relevantFiles))
  {
    var q := queries[i];
    var retrieved := retrieve(q.query, MaxOf(kValues));
    var done := Observations(queries[..i], retrieve, kValues);
    var cutoffs := CutoffObservations(retrieved, q, kValues);
    var added := cutoffs + [Observation(MrrName, q.category, ReciprocalRank(retrieved, q.relevantFiles))];
    assert added[..|added| - 1] == cutoffs;
    RecordAllCollect(done, added);
    ObservationsStep(queries, i, retrieve, kValues);
  }

  /** With the default cutoffs the evaluation never raises, and its largest cutoff is 10. */
  lemma DefaultCutoffs(queries: seq<TestQuery>, retrieve: Retriever)
    ensures EvaluationOutcome(queries, retrieve, DefaultKValues).Success?
    ensures MaxOf(DefaultKValues) == 10
  {
  }

  /** `evaluate_retrieval`: appends every query's scores, then aggregates. */
  method EvaluateRetrieval(queries: seq<TestQuery>, retrieve: Retriever, kValues: seq<int> := DefaultKValues)
    returns (r: Result<seq<(string, MetricSummary)>, string>)
    ensures r == EvaluationOutcome(queries, retrieve, kValues)
  {
    var metrics: Metrics := [];
    for i := 0 to |queries|
      invariant i == 0 || |kValues| > 0
      invariant metrics == Collect(Observations(queries[..i], retrieve, kValues))
    {
      if |kValues| == 0 {
        return Failure(EmptyMaxMessage);
      }
      var q := queries[i];
      var retrieved := retrieve(q.query, MaxOf(kValues));
      QueryStep(queries, i, retrieve, kValues);
      metrics := RecordCutoffs(metrics, retrieved, q, kValues);
      var mrr := Observation(MrrName, q.category, ReciprocalRank(retrieved, q.relevantFiles));
      metrics := Record(metrics, mrr.metric, mrr.category, mrr.score);
    }
    assert queries[..|queries|] == queries;
    CollectWellFormed(Observations(queries, retrieve, kValues));
    r := Success(Aggregated(metrics));
  }

  // ---------------------------------------------------------------------------
  // Per-query reference scores
  // ---------------------------------------------------------------------------

  lemma {:induction false} MetricPairsAppend(a: seq<Observation>, b: seq<Observation>, name: string)
    ensures MetricPairs(a + b, name) == MetricPairs(a, name) + MetricPairs(b, name)
  {
    if |b| == 0 {
      assert a + b == a;
    } else {
      MetricPairsAppend(a, b[..|b| - 1], name);
      assert (a + b)[..|a + b| - 1] == a + b[..|b| - 1];
      assert (a + b)[|a + b| - 1] == b[|b| - 1];
    }
  }

  lemma PairOfPairs(a: Observation, b: Observation, name: string)
    ensures MetricPairs([a, b], name) ==
      (if a.metric == name then [(a.category, a.score)] else []) + (if b.metric == name then [(b.category, b.score)] else [])
  {
    assert [a, b][..1] == [a];
    assert [a][..0] == [];
    assert MetricPairs([a], name) == (if a.metric == name then [(a.category, a.score)] else []);
  }

  /** One more cut-off adds its recall and then its precision score. */
  lemma CutoffStep(retrieved: seq<string>, q: TestQuery, ks: seq<int>)
    requires |ks| > 0
    ensures var k := ks[|ks| - 1];
      CutoffObservations(retrieved, q, ks) == CutoffObservations(retrieved, q, ks[..|ks| - 1]) +
        [Observation(RecallName(k), q.category, RecallAtK(retrieved, q.relevantFiles, k)),
         Observation(PrecisionName(k), q.category, PrecisionAtK(retrieved, q.relevantFiles, k))]
  {
  }

  lemma NamesDiffer(k: int)
    ensures RecallName(k) != MrrName && PrecisionName(k) != MrrName
    ensures forall j :: RecallName(k) != PrecisionName(j)
  {
    assert RecallName(k)[0] == 'r' && PrecisionName(k)[0] == 'p';
    assert forall j :: PrecisionName(j)[0] == 'p';
  }

  lemma RecallNameMatches(j: int, k: int)
    ensures RecallName(j) == RecallName(k) <==> j == k
    ensures PrecisionName(j) != RecallName(k)
  {
    if RecallName(j) == RecallName(k) {
      RecallNameInjective(j, k);
    }
    NamesDiffer(k);
  }

  /** Different cut-offs have different metric names. */
  lemma RecallNameInjective(j: int, k: int)
    requires RecallName(j) == RecallName(k)
    ensures j == k
  {
    var prefix := "recall@";
    assert RecallName(j)[|prefix|..] == IntToString(j);
    assert RecallName(k)[|prefix|..] == IntToString(k);
    ParseIntRoundTrip(j);
    ParseIntRoundTrip(k);
  }

  /** The cut-off scores of one query include no reciprocal rank. */
  lemma {:induction false} CutoffNoMrr(retrieved: seq<string>, q: TestQuery, ks: seq<int>)
    ensures MetricPairs(CutoffObservations(retrieved, q, ks), MrrName) == []
  {
    if |ks| > 0 {
      var k := ks[|ks| - 1];
      var init := CutoffObservations(retrieved, q, ks[..|ks| - 1]);
      var pair := [Observation(RecallName(k), q.category, RecallAtK(retrieved, q.relevantFiles, k)),
                   Observation(PrecisionName(k), q.category, PrecisionAtK(retrieved, q.relevantFiles, k))];
      CutoffNoMrr(retrieved, q, ks[..|ks| - 1]);
      CutoffStep(retrieved, q, ks);
      MetricPairsAppend(init, pair, MrrName);
      NamesDiffer(k);
      PairOfPairs(pair[0], pair[1], MrrName);
      assert pair == [pair[0], pair[1]];
    }
  }

  lemma CountLast(ks: seq<int>, k: int)
    requires |ks| > 0
    ensures multiset(ks)[k] == multiset(ks[..|ks| - 1])[k] + (if ks[|ks| - 1] == k then 1 else 0)
  {
    assert ks == ks[..|ks| - 1] + [ks[|ks| - 1]];
  }

  /** `n` copies of `p`. */
  function Copies(p: (string, real), n: nat): (r: seq<(string, real)>)
    ensures |r| == n
  {
    if n == 0 then [] else Copies(p, n - 1) + [p]
  }

  /** The recall@k score of one query appears once for every time `k` is listed. */
  lemma {:induction false} CutoffRecall(retrieved: seq<string>, q: TestQuery, ks: seq<int>, k: int)
    ensures MetricPairs(CutoffObservations(retrieved, q, ks), RecallName(k)) ==
      Copies((q.category, RecallAtK(retrieved, q.relevantFiles, k)), multiset(ks)[k])
  {
    if |ks| > 0 {
      var last := ks[|ks| - 1];
      var init := ks[..|ks| - 1];
      var recall := Observation(RecallName(last), q.category, RecallAtK(retrieved, q.relevantFiles, last));
      var precision := Observation(PrecisionName(last), q.category, PrecisionAtK(retrieved, q.relevantFiles, last));
      var p := (q.category, RecallAtK(retrieved, q.relevantFiles, k));
      var extra := MetricPairs([recall, precision], RecallName(k));
      assert extra == (if last == k then [p] else []) by {
        RecallNameMatches(last, k);
        PairOfPairs(recall, precision, RecallName(k));
      }
      assert MetricPairs(CutoffObservations(retrieved, q, ks), RecallName(k)) == Copies(p, multiset(init)[k]) + extra by {
        CutoffRecall(retrieved, q, init, k);
        CutoffStep(retrieved, q, ks);
        MetricPairsAppend(CutoffObservations(retrieved, q, init), [recall, precision], RecallName(k));
      }
      CountLast(ks, k);
      CopiesStep(p, multiset(init)[k], extra, last == k);
    }
  }

  /** Appending one more copy, or nothing, to `n` copies. */
  lemma CopiesStep(p: (string, real), n: nat, extra: seq<(string, real)>, hit: bool)
    requires extra == (if hit then [p] else [])
    ensures Copies(p, n) + extra == Copies(p, n + (if hit then 1 else 0))
  {
    if !hit {
      assert Copies(p, n) + extra == Copies(p, n);
    }
  }

  /** Each query's category and reciprocal rank, in query order. */
  function MrrReference(queries: seq<TestQuery>, retrieve: Retriever, kValues: seq<int>): (r: seq<(string, real)>)
    requires |kValues| > 0
    ensures |r| == |queries|
  {
    if |queries| == 0 then []
    else
      var q := queries[|queries| - 1];
      MrrReference(queries[..|queries| - 1], retrieve, kValues) +
        [(q.category, ReciprocalRank(retrieve(q.query, MaxOf(kValues)), q.relevantFiles))]
  }

  /** Each query's category and recall@k, in query order. */
  function RecallReference(queries: seq<TestQuery>, retrieve: Retriever, kValues: seq<int>, k: int): (r: seq<(string, real)>)
    requires |kValues| > 0
    ensures |r| == |queries|
  {
    if |queries| == 0 then []
    else
      var q := queries[|queries| - 1];
      RecallReference(queries[..|queries| - 1], retrieve, kValues, k) +
        [(q.category, RecallAtK(retrieve(q.query, MaxOf(kValues)), q.relevantFiles, k))]
  }

  /** One query contributes exactly its own reciprocal rank to `mrr`. */
  lemma QueryMrr(q: TestQuery, retrieve: Retriever, kValues: seq<int>)
    requires |kValues| > 0
    ensures MetricPairs(QueryObservations(q, retrieve, kValues), MrrName) ==
      [(q.category, ReciprocalRank(retrieve(q.query, MaxOf(kValues)), q.relevantFiles))]
  {
    var retrieved := retrieve(q.query, MaxOf(kValues));
    var mrr := Observation(MrrName, q.category, ReciprocalRank(retrieved, q.relevantFiles));
    MetricPairsAppend(CutoffObservations(retrieved, q, kValues), [mrr], MrrName);
    CutoffNoMrr(retrieved, q, kValues);
    assert [mrr][..0] == [];
  }

  /** One query contributes exactly its own recall at a cut-off listed once. */
  lemma QueryRecall(q: TestQuery, retrieve: Retriever, kValues: seq<int>, k: int)
    requires |kValues| > 0 && multiset(kValues)[k] == 1
    ensures MetricPairs(QueryObservations(q, retrieve, kValues), RecallName(k)) ==
      [(q.category, RecallAtK(retrieve(q.query, MaxOf(kValues)), q.relevantFiles, k))]
  {
    var retrieved := retrieve(q.query, MaxOf(kValues));
    var mrr := Observation(MrrName, q.category, ReciprocalRank(retrieved, q.relevantFiles));
    MetricPairsAppend(CutoffObservations(retrieved, q, kValues), [mrr], RecallName(k));
    CutoffRecall(retrieved, q, kValues, k);
    NamesDiffer(k);
    assert [mrr][..0] == [];
    var p := (q.category, RecallAtK(retrieved, q.relevantFiles, k));
    assert Copies(p, 1) == [p];
  }

  lemma {:induction false} MrrPairs(queries: seq<TestQuery>, retrieve: Retriever, kValues: seq<int>)
    requires |kValues| > 0
    ensures MetricPairs(Observations(queries, retrieve, kValues), MrrName) == MrrReference(queries, retrieve, kValues)
  {
    if |queries| > 0 {
      var q := queries[|queries| - 1];
      MrrPairs(queries[..|queries| - 1], retrieve, kValues);
      MetricPairsAppend(Observations(queries[..|queries| - 1], retrieve, kValues), QueryObservations(q, retrieve, kValues), MrrName);
      QueryMrr(q, retrieve, kValues);
    }
  }

  lemma {:induction false} RecallPairs(queries: seq<TestQuery>, retrieve: Retriever, kValues: seq<int>, k: int)
    requires |kValues| > 0 && multiset(kValues)[k] == 1
    ensures MetricPairs(Observations(queries, retrieve, kValues), RecallName(k)) == RecallReference(queries, retrieve, kValues, k)
  {
    if |queries| > 0 {
      var q := queries[|queries| - 1];
      RecallPairs(queries[..|queries| - 1], retrieve, kValues, k);
      MetricPairsAppend(Observations(queries[..|queries| - 1], retrieve, kValues), QueryObservations(q, retrieve, kValues), RecallName(k));
      QueryRecall(q, retrieve, kValues, k);
    }
  }

  /**
   * The reported `mrr` is the mean of the queries' reciprocal ranks, and each
   * category's entry the mean over that category's queries.
   */
  lemma MeanReciprocalRank(queries: seq<TestQuery>, retrieve: Retriever, kValues: seq<int>, category: string)
    requires |queries| > 0 && |kValues| > 0
    ensures var r := EvaluationOutcome(queries, retrieve, kValues);
      r.Success? && Find(r.value, MrrName).Some? &&
      Find(r.value, MrrName).value.overall == PairSum(MrrReference(queries, retrieve, kValues)) / (|queries| as real)
    ensures var r := EvaluationOutcome(queries, retrieve, kValues);
      var scores := CategoryScores(MrrReference(queries, retrieve, kValues), category);
      r.Success? && Find(r.value, MrrName).Some? &&
      (|scores| > 0 ==> Find(Find(r.value, MrrName).value.byCategory, category) == Some(Average(scores)))
  {
    MrrPairs(queries, retrieve, kValues);
    AggregationFacts(Observations(queries, retrieve, kValues), MrrName, category);
  }

  /**
   * For a cut-off listed once, the reported `recall@k` is the mean of the
   * queries' recall at `k`, and each category's entry the mean over that
   * category's queries.
   */
  lemma MeanRecall(queries: seq<TestQuery>, retrieve: Retriever, kValues: seq<int>, k: int, category: string)
    requires |queries| > 0 && |kValues| > 0 && multiset(kValues)[k] == 1
    ensures var r := EvaluationOutcome(queries, retrieve, kValues);
      r.Success? && Find(r.value, RecallName(k)).Some? &&
      Find(r.value, RecallName(k)).value.overall == PairSum(RecallReference(queries, retrieve, kValues, k)) / (|queries| as real)
    ensures var r := EvaluationOutcome(queries, retrieve, kValues);
      var scores := CategoryScores(RecallReference(queries, retrieve, kValues, k), category);
      r.Success? && Find(r.value, RecallName(k)).Some? &&
      (|scores| > 0 ==> Find(Find(r.value, RecallName(k)).value.byCategory, category) == Some(Average(scores)))
  {
    RecallPairs(queries, retrieve, kValues, k);
    AggregationFacts(Observations(queries, retrieve, kValues), RecallName(k), category);
  }

  // ---------------------------------------------------------------------------
  // generate_report: the recall@5 target
  // ---------------------------------------------------------------------------

  const TargetRecall := 0.80
  const MetVerdict := "✅ MET"
  const MissedVerdict := "❌ MISSED"

  /** `metrics.get('recall@5', {}).get('overall', 0)`. */
  function RecallAtFive(aggregated: seq<(string, MetricSummary)>): real {
    match Find(aggregated, RecallName(5))
    case None => 0.0
    case Some(summary) => summary.overall
  }

  function TargetVerdict(aggregated: seq<(string, MetricSummary)>): string {
    if RecallAtFive(aggregated) >= TargetRecall then MetVerdict else MissedVerdict
  }

  /** The target is met exactly when recall@5 was measured and its overall value is at least 0.80. */
  lemma TargetVerdictFacts(aggregated: seq<(string, MetricSummary)>)
    ensures TargetVerdict(aggregated) == MetVerdict <==>
      Find(aggregated, RecallName(5)).Some? && Find(aggregated, RecallName(5)).value.overall >= TargetRecall
    ensures TargetVerdict(aggregated) == MetVerdict || TargetVerdict(aggregated) == MissedVerdict
  {
    assert MetVerdict[0] != MissedVerdict[0];
  }

  // ---------------------------------------------------------------------------
  // batch_scoring_template
  // ---------------------------------------------------------------------------

  const ScoringHeader := "File Path | Preview | Score (1-5)"
  const ScoringRuleWidth := 80
  const ScoringPreviewWidth := 100

  /** `content[:100].replace('\n', ' ')`. */
  function ScoringPreview(content: string): (r: string)
    ensures |r| == Min(ScoringPreviewWidth, |content|) && '\n' !in r
    ensures forall k :: 0 <= k < |r| ==> r[k] == if content[k] == '\n' then ' ' else content[k]
  {
    ReplaceChar(Take(content, ScoringPreviewWidth), '\n', ' ')
  }

  function ScoringRow(result: RetrievalResult): string {
    result.filePath + " | " + ScoringPreview(result.chunkContent) + "... | "
  }

  function QueryLine(query: string): string { "Query: " + query }

  /** The lines joined by the template: the query line (ending in its own newline), the header, the rule, one row per result. */
  function TemplateLines(query: string, results: seq<RetrievalResult>): seq<string> {
    [QueryLine(query) + "\n", ScoringHeader, Repeat('-', ScoringRuleWidth)] + Rows(results)
  }

  method BatchScoringTemplate(query: string, results: seq<RetrievalResult>) returns (text: string)
    ensures text == Join(TemplateLines(query, results), "\n")
  {
    var lines := [QueryLine(query) + "\n"];
    lines := lines + [ScoringHeader];
    lines := lines + [Repeat('-', ScoringRuleWidth)];
    for i := 0 to |results|
      invariant lines == TemplateLines(query, results[..i])
    {
      var preview := ScoringPreview(results[i].chunkContent);
      lines := lines + [results[i].filePath + " | " + preview + "... | "];
      assert TemplateLines(query, results[..i + 1]) == TemplateLines(query, results[..i]) + [ScoringRow(results[i])];
    }
    assert results[..|results|] == results;
    text := Join(lines, "\n");
  }

  lemma RowSingle(result: RetrievalResult)
    requires '\n' !in result.filePath
    ensures '\n' !in ScoringRow(result)
  {
    var preview := ScoringPreview(result.chunkContent);
    assert ScoringRow(result) == result.filePath + " | " + preview + "... | ";
  }

  function Rows(results: seq<RetrievalResult>): seq<string> {
    seq(|results|, i requires 0 <= i < |results| => ScoringRow(results[i]))
  }

  /** The query line's own newline reads as an empty line after it. */
  lemma TemplateAsLines(query: string, results: seq<RetrievalResult>)
    ensures Join(TemplateLines(query, results), "\n") ==
      Join([QueryLine(query), "", ScoringHeader, Repeat('-', ScoringRuleWidth)] + Rows(results), "\n")
  {
    var rest := [ScoringHeader, Repeat('-', ScoringRuleWidth)] + Rows(results);
    assert TemplateLines(query, results) == [QueryLine(query) + "\n"] + rest;
    JoinCons(QueryLine(query) + "\n", rest, "\n");
    JoinCons("", rest, "\n");
    JoinCons(QueryLine(query), [""] + rest, "\n");
    assert [QueryLine(query), "", ScoringHeader, Repeat('-', ScoringRuleWidth)] + Rows(results) == [QueryLine(query)] + ([""] + rest);
  }

  lemma LinesSingle(query: string, results: seq<RetrievalResult>)
    requires '\n' !in query && forall i :: 0 <= i < |results| ==> '\n' !in results[i].filePath
    ensures var parts := [QueryLine(query), "", ScoringHeader, Repeat('-', ScoringRuleWidth)] + Rows(results);
      forall k :: 0 <= k < |parts| ==> '\n' !in parts[k]
  {
    var parts := [QueryLine(query), "", ScoringHeader, Repeat('-', ScoringRuleWidth)] + Rows(results);
    forall k | 0 <= k < |parts|
      ensures '\n' !in parts[k]
    {
      if k >= 4 {
        assert parts[k] == ScoringRow(results[k - 4]);
        RowSingle(results[k - 4]);
      } else if k == 0 {
        assert QueryLine(query) == "Query: " + query;
      }
    }
  }

  /**
   * Read back line by line, the template is the query line, an empty line,
   * the header, the rule and then exactly one row per result, in order.
   */
  lemma TemplateLineByLine(query: string, results: seq<RetrievalResult>)
    requires '\n' !in query && forall i :: 0 <= i < |results| ==> '\n' !in results[i].filePath
    ensures SplitOn(Join(TemplateLines(query, results), "\n"), "\n") ==
      [QueryLine(query), "", ScoringHeader, Repeat('-', ScoringRuleWidth)] + Rows(results)
  {
    TemplateAsLines(query, results);
    LinesSingle(query, results);
    SplitJoin([QueryLine(query), "", ScoringHeader, Repeat('-', ScoringRuleWidth)] + Rows(results), '\n');
  }
}
