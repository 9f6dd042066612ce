/**
 * Batched embedding generation (`src/embeddings.py`). The texts are cut into
 * consecutive batches, the embedding provider is asked once per batch, and a
 * batch whose call raises contributes one `None` per text. The provider is a
 * parameter: for a model name and a batch it either answers with vectors
 * (`Some`) or raises (`None`).
 */
module Embeddings {
  import opened Wrappers
  import opened Sequences
  import opened Strings

  type Vector = seq<real>

  /** The embedding service: `Some(vectors)` when the call succeeds, `None` when it raises. */
  type Provider = (string, seq<string>) -> Option<seq<Vector>>

  const SmallModel := "text-embedding-3-small"
  const LargeModel := "text-embedding-3-large"
  const DefaultBatchSize := 100
  const MissingKeyMessage := "OpenAI API key not provided and OPENAI_API_KEY env var not set"

  /** The slice `texts[i:i+batch_size]` for each `i` in `range(0, len(texts), batch_size)`. */
  function Batches(texts: seq<string>, batchSize: nat): seq<seq<string>>
    requires batchSize > 0
    decreases |texts|
  {
    if |texts| == 0 then []
    else
      var m := Min(batchSize, |texts|);
      [texts[..m]] + Batches(texts[m..], batchSize)
  }

  /** What one batch adds to the output: its vectors, or one `None` per text when the call raised. */
  function BatchResult(answer: Option<seq<Vector>>, batch: seq<string>): seq<Option<Vector>> {
    match answer
    case Some(vectors) => seq(|vectors|, k requires 0 <= k < |vectors| => Some(vectors[k]))
    case None => seq(|batch|, _ => None)
  }

  /** The list `generate_embeddings` returns: the batch results in batch order. */
  function Embedded(model: string, texts: seq<string>, batchSize: nat, provider: Provider): seq<Option<Vector>>
    requires batchSize > 0
    decreases |texts|
  {
    if |texts| == 0 then []
    else
      var m := Min(batchSize, |texts|);
      BatchResult(provider(model, texts[..m]), texts[..m]) + Embedded(model, texts[m..], batchSize, provider)
  }

  /** The provider answers every batch with one vector per text, or raises. */
  predicate Answered(model: string, texts: seq<string>, batchSize: nat, provider: Provider)
    requires batchSize > 0
  {
    forall k :: 0 <= k < |Batches(texts, batchSize)| ==> AnsweredBatch(model, Batches(texts, batchSize)[k], provider)
  }

  /** The provider answers `batch` with one vector per text, or raises. */
  predicate AnsweredBatch(model: string, batch: seq<string>, provider: Provider) {
    provider(model, batch).None? || |provider(model, batch).value| == |batch|
  }

  /** The first batch is answered in kind when every batch is. */
  lemma AnsweredFirst(model: string, texts: seq<string>, batchSize: nat, provider: Provider)
    requires batchSize > 0 && |texts| > 0
    requires Answered(model, texts, batchSize, provider)
    ensures AnsweredBatch(model, texts[..Min(batchSize, |texts|)], provider)
  {
    assert Batches(texts, batchSize)[0] == texts[..Min(batchSize, |texts|)];
  }

  /** `texts[i:]`, which is empty once `i` is past the end. */
  function Drop(texts: seq<string>, i: nat): seq<string> {
    texts[Min(i, |texts|)..]
  }

  /** Where batch `k` starts: `k * batchSize`, written as a sum so that proofs about it stay linear. */
  function Offset(k: nat, batchSize: nat): nat {
    if k == 0 then 0 else Offset(k - 1, batchSize) + batchSize
  }

  lemma {:induction false} OffsetIsProduct(k: nat, batchSize: nat)
    ensures Offset(k, batchSize) == k * batchSize
  {
    if k > 0 {
      OffsetIsProduct(k - 1, batchSize);
      MulStep(k - 1, batchSize);
    }
  }

  /** There are ceil(n / batchSize) batches. */
  lemma {:induction false} BatchCount(texts: seq<string>, batchSize: nat)
    requires batchSize > 0
    ensures |Batches(texts, batchSize)| == (|texts| + batchSize - 1) / batchSize
    decreases |texts|
  {
    if |texts| > 0 {
      var m := Min(batchSize, |texts|);
      var rest := texts[m..];
      BatchCount(rest, batchSize);
      if |texts| <= batchSize {
        assert rest == [];
        DivOne(|texts| + batchSize - 1, batchSize);
      } else {
        DivShift(|rest| + batchSize - 1, batchSize);
      }
    }
  }

  /**
   * The batches are the consecutive slices of length `batchSize` starting at
   * `Offset(k)`, the last one possibly shorter, so no text is lost or repeated.
   */
  lemma {:induction false} BatchesAt(texts: seq<string>, batchSize: nat)
    requires batchSize > 0
    ensures forall k :: 0 <= k < |Batches(texts, batchSize)| ==>
      Offset(k, batchSize) < |texts| &&
      Batches(texts, batchSize)[k] == texts[Offset(k, batchSize)..Min(Offset(k + 1, batchSize), |texts|)]
    decreases |texts|
  {
    if |texts| > 0 {
      var m := Min(batchSize, |texts|);
      var rest := texts[m..];
      BatchesAt(rest, batchSize);
      forall k | 0 <= k < |Batches(texts, batchSize)|
        ensures Offset(k, batchSize) < |texts|
        ensures Batches(texts, batchSize)[k] == texts[Offset(k, batchSize)..Min(Offset(k + 1, batchSize), |texts|)]
      {
        if k == 0 {
          assert Batches(texts, batchSize)[0] == texts[..m];
        } else {
          BatchesTail(texts, batchSize, k);
          BatchAtNext(texts, batchSize, k);
        }
      }
    }
  }

  /** Batch `k > 0` sits where batch `k - 1` of the rest sits, shifted by the first batch. */
  lemma BatchAtNext(texts: seq<string>, batchSize: nat, k: nat)
    requires batchSize > 0 && 0 < k < |Batches(texts, batchSize)|
    requires var rest := texts[Min(batchSize, |texts|)..];
      && k - 1 < |Batches(rest, batchSize)|
      && Offset(k - 1, batchSize) < |rest|
      && Batches(rest, batchSize)[k - 1] == rest[Offset(k - 1, batchSize)..Min(Offset(k, batchSize), |rest|)]
    ensures Offset(k, batchSize) < |texts|
    ensures Batches(texts, batchSize)[k] == texts[Offset(k, batchSize)..Min(Offset(k + 1, batchSize), |texts|)]
  {
    var m := Min(batchSize, |texts|);
    var rest := texts[m..];
    BatchesTail(texts, batchSize, k);
    var lo, hi := Offset(k - 1, batchSize), Min(Offset(k, batchSize), |rest|);
    assert Offset(k + 1, batchSize) == Offset(k, batchSize) + batchSize;
    assert m + hi == Min(Offset(k + 1, batchSize), |texts|);
    SliceOfSuffix(texts, m, lo, hi);
  }

  lemma MulStep(j: int, d: int)
    ensures (j + 1) * d == j * d + d
  {
  }

  lemma DivOne(x: nat, d: nat)
    requires 0 < d <= x < 2 * d
    ensures x / d == 1
  {
    DivUnique(x, d, 1, x - d);
  }

  lemma DivShift(x: nat, d: nat)
    requires d > 0
    ensures (x + d) / d == x / d + 1
  {
    var q := x / d;
    var r := x % d;
    MulStep(q, d);
    DivUnique(x + d, d, q + 1, r);
  }

  lemma DivUnique(x: int, d: int, q: int, r: int)
    requires d > 0 && 0 <= r < d && x == q * d + r
    ensures x / d == q
  {
    var q' := x / d;
    if q' < q {
      MulMonotone(q', q - 1, d);
      MulStep(q - 1, d);
    } else if q < q' {
      MulMonotone(q, q' - 1, d);
      MulStep(q' - 1, d);
    }
  }

  lemma MulMonotone(a: int, b: int, d: int)
    requires a <= b && d > 0
    ensures a * d <= b * d
  {
  }

  /** Cutting off the first batch leaves the batches of the rest. */
  lemma AnsweredRest(model: string, texts: seq<string>, batchSize: nat, provider: Provider)
    requires batchSize > 0 && |texts| > 0
    requires Answered(model, texts, batchSize, provider)
    ensures Answered(model, texts[Min(batchSize, |texts|)..], batchSize, provider)
  {
    var rest := texts[Min(batchSize, |texts|)..];
    forall k | 0 <= k < |Batches(rest, batchSize)|
      ensures AnsweredBatch(model, Batches(rest, batchSize)[k], provider)
    {
      assert Batches(rest, batchSize)[k] == Batches(texts, batchSize)[k + 1];
    }
  }

  /** When the provider answers in kind, the output has one entry per text. */
  lemma {:induction false} EmbeddedLength(model: string, texts: seq<string>, batchSize: nat, provider: Provider)
    requires batchSize > 0
    requires Answered(model, texts, batchSize, provider)
    ensures |Embedded(model, texts, batchSize, provider)| == |texts|
    decreases |texts|
  {
    if |texts| > 0 {
      var m := Min(batchSize, |texts|);
      AnsweredFirst(model, texts, batchSize, provider);
      AnsweredRest(model, texts, batchSize, provider);
      EmbeddedLength(model, texts[m..], batchSize, provider);
    }
  }

  /**
   * When every batch is answered with one vector per text or fails, batch
   * `k` occupies exactly its own positions `Offset(k) .. Offset(k) + |batch|`
   * of the output: earlier and later batches do
   * not move it, and a failed batch is `None` there and nowhere else.
   */
  lemma {:induction false} EmbeddedBatch(model: string, texts: seq<string>, batchSize: nat, provider: Provider, k: nat)
    requires batchSize > 0
    requires Answered(model, texts, batchSize, provider)
    requires k < |Batches(texts, batchSize)|
    ensures var batch := Batches(texts, batchSize)[k];
      Offset(k, batchSize) + |batch| <= |Embedded(model, texts, batchSize, provider)| &&
      Embedded(model, texts, batchSize, provider)[Offset(k, batchSize)..Offset(k, batchSize) + |batch|]
        == BatchResult(provider(model, batch), batch)
    decreases |texts|
  {
    var m := Min(batchSize, |texts|);
    if k == 0 {
      AnsweredFirst(model, texts, batchSize, provider);
      EmbeddedHead(model, texts, batchSize, provider);
      PrefixOfConcat(BatchResult(provider(model, texts[..m]), texts[..m]), Embedded(model, texts[m..], batchSize, provider));
    } else {
      var rest := texts[m..];
      AnsweredRest(model, texts, batchSize, provider);
      BatchesTail(texts, batchSize, k);
      EmbeddedBatch(model, rest, batchSize, provider, k - 1);
      AnsweredFirst(model, texts, batchSize, provider);
      EmbeddedShift(model, texts, batchSize, provider, k);
    }
  }

  /** Batch `k > 0` lands where batch `k - 1` of the rest lands, after the first batch's entries. */
  lemma EmbeddedShift(model: string, texts: seq<string>, batchSize: nat, provider: Provider, k: nat)
    requires batchSize > 0 && 0 < k < |Batches(texts, batchSize)|
    requires AnsweredBatch(model, texts[..Min(batchSize, |texts|)], provider)
    requires k - 1 < |Batches(texts[Min(batchSize, |texts|)..], batchSize)|
    requires Offset(k - 1, batchSize) + |Batches(texts[Min(batchSize, |texts|)..], batchSize)[k - 1]|
      <= |Embedded(model, texts[Min(batchSize, |texts|)..], batchSize, provider)|
    requires Embedded(model, texts[Min(batchSize, |texts|)..], batchSize, provider)
        [Offset(k - 1, batchSize)..Offset(k - 1, batchSize) + |Batches(texts[Min(batchSize, |texts|)..], batchSize)[k - 1]|]
      == BatchResult(provider(model, Batches(texts[Min(batchSize, |texts|)..], batchSize)[k - 1]),
          Batches(texts[Min(batchSize, |texts|)..], batchSize)[k - 1])
    ensures var batch := Batches(texts, batchSize)[k];
      Offset(k, batchSize) + |batch| <= |Embedded(model, texts, batchSize, provider)| &&
      Embedded(model, texts, batchSize, provider)[Offset(k, batchSize)..Offset(k, batchSize) + |batch|]
        == BatchResult(provider(model, batch), batch)
  {
    var m := Min(batchSize, |texts|);
    var rest := texts[m..];
    var batch := Batches(texts, batchSize)[k];
    assert Batches(rest, batchSize)[k - 1] == batch && Offset(k, batchSize) == Offset(k - 1, batchSize) + m by {
      BatchesTail(texts, batchSize, k);
    }
    var head := BatchResult(provider(model, texts[..m]), texts[..m]);
    var tail := Embedded(model, rest, batchSize, provider);
    assert Embedded(model, texts, batchSize, provider) == head + tail && |head| == m by {
      EmbeddedHead(model, texts, batchSize, provider);
    }
    ShiftSlice(Embedded(model, texts, batchSize, provider), head, tail, Offset(k - 1, batchSize), |batch|,
      BatchResult(provider(model, batch), batch));
  }

  /** The first batch leads the output, with one entry per text. */
  lemma EmbeddedHead(model: string, texts: seq<string>, batchSize: nat, provider: Provider)
    requires batchSize > 0 && |texts| > 0
    requires AnsweredBatch(model, texts[..Min(batchSize, |texts|)], provider)
    ensures Batches(texts, batchSize)[0] == texts[..Min(batchSize, |texts|)]
    ensures |BatchResult(provider(model, texts[..Min(batchSize, |texts|)]), texts[..Min(batchSize, |texts|)])|
      == Min(batchSize, |texts|)
    ensures Embedded(model, texts, batchSize, provider)
      == BatchResult(provider(model, texts[..Min(batchSize, |texts|)]), texts[..Min(batchSize, |texts|)])
        + Embedded(model, texts[Min(batchSize, |texts|)..], batchSize, provider)
  {
    var m := Min(batchSize, |texts|);
    assert Batches(texts, batchSize)[0] == texts[..m];
  }

  /** Batch `k > 0` of the texts is batch `k - 1` of what follows the first batch, `batchSize` positions later. */
  lemma BatchesTail(texts: seq<string>, batchSize: nat, k: nat)
    requires batchSize > 0 && 0 < k < |Batches(texts, batchSize)|
    ensures Min(batchSize, |texts|) == batchSize
    ensures k - 1 < |Batches(texts[Min(batchSize, |texts|)..], batchSize)|
    ensures Batches(texts, batchSize)[k] == Batches(texts[Min(batchSize, |texts|)..], batchSize)[k - 1]
    ensures Offset(k, batchSize) == Offset(k - 1, batchSize) + Min(batchSize, |texts|)
  {
    var m := Min(batchSize, |texts|);
    var rest := texts[m..];
    assert Batches(texts, batchSize) == [texts[..m]] + Batches(rest, batchSize);
    assert |Batches(rest, batchSize)| > 0;
    assert |rest| > 0;
  }

  /** A batch whose call raised is all `None`, at its own positions. */
  lemma FailedBatchIsNone(model: string, texts: seq<string>, batchSize: nat, provider: Provider, k: nat, j: nat)
    requires batchSize > 0
    requires Answered(model, texts, batchSize, provider)
    requires k < |Batches(texts, batchSize)|
    requires provider(model, Batches(texts, batchSize)[k]).None?
    requires Offset(k, batchSize) <= j < Offset(k, batchSize) + |Batches(texts, batchSize)[k]|
    ensures j < |Embedded(model, texts, batchSize, provider)|
    ensures Embedded(model, texts, batchSize, provider)[j] == None
  {
    EmbeddedBatch(model, texts, batchSize, provider, k);
    EmbeddedLength(model, texts, batchSize, provider);
    var batch := Batches(texts, batchSize)[k];
    var e := Embedded(model, texts, batchSize, provider);
    var o := Offset(k, batchSize);
    assert e[j] == e[o..o + |batch|][j - o];
  }

  /** The vector-per-text result of a provider that embeds each text on its own. */
  function Pointwise(embed: string -> Vector, batch: seq<string>): seq<Vector> {
    seq(|batch|, k requires 0 <= k < |batch| => embed(batch[k]))
  }

  /** If every batch is embedded text by text, output entry `j` is the embedding of `texts[j]`. */
  lemma {:induction false} EmbeddedPointwise(model: string, texts: seq<string>, batchSize: nat, provider: Provider, embed: string -> Vector)
    requires batchSize > 0
    requires forall k :: 0 <= k < |Batches(texts, batchSize)| ==>
      provider(model, Batches(texts, batchSize)[k]) == Some(Pointwise(embed, Batches(texts, batchSize)[k]))
    ensures |Embedded(model, texts, batchSize, provider)| == |texts|
    ensures forall j :: 0 <= j < |texts| ==> Embedded(model, texts, batchSize, provider)[j] == Some(embed(texts[j]))
    decreases |texts|
  {
    if |texts| > 0 {
      var m := Min(batchSize, |texts|);
      var rest := texts[m..];
      assert Batches(texts, batchSize)[0] == texts[..m];
      forall k | 0 <= k < |Batches(rest, batchSize)|
        ensures provider(model, Batches(rest, batchSize)[k]) == Some(Pointwise(embed, Batches(rest, batchSize)[k]))
      {
        assert Batches(rest, batchSize)[k] == Batches(texts, batchSize)[k + 1];
      }
      EmbeddedPointwise(model, rest, batchSize, provider, embed);
    }
  }

  /** The first `n` batches cover exactly the texts before position `n * batchSize`. */
  lemma BatchesStep(texts: seq<string>, batchSize: nat, i: nat)
    requires batchSize > 0 && i < |texts|
    ensures Batches(Drop(texts, i), batchSize)
         == [texts[i..Min(i + batchSize, |texts|)]] + Batches(Drop(texts, i + batchSize), batchSize)
  {
    var d := Drop(texts, i);
    var m := Min(batchSize, |d|);
    assert d[..m] == texts[i..Min(i + batchSize, |texts|)];
    assert d[m..] == Drop(texts, i + batchSize);
  }

  lemma EmbeddedStep(model: string, texts: seq<string>, batchSize: nat, provider: Provider, i: nat)
    requires batchSize > 0 && i < |texts|
    ensures var batch := texts[i..Min(i + batchSize, |texts|)];
      Embedded(model, Drop(texts, i), batchSize, provider)
        == BatchResult(provider(model, batch), batch) + Embedded(model, Drop(texts, i + batchSize), batchSize, provider)
  {
    var d := Drop(texts, i);
    var m := Min(batchSize, |d|);
    assert d[..m] == texts[i..Min(i + batchSize, |texts|)];
    assert d[m..] == Drop(texts, i + batchSize);
  }

  /**
   * After the batches starting below `i` have been sent: `calls` lists them
   * and `all` holds their results, so what is left to do is the suffix from `i`.
   */
  predicate Progress(model: string, texts: seq<string>, batchSize: nat, provider: Provider, i: nat,
                     all: seq<Option<Vector>>, calls: seq<seq<string>>)
    requires batchSize > 0
  {
    && Embedded(model, texts, batchSize, provider) == all + Embedded(model, Drop(texts, i), batchSize, provider)
    && Batches(texts, batchSize) == calls + Batches(Drop(texts, i), batchSize)
  }

  /** One turn of the batching loop keeps both loop invariants. */
  lemma LoopStep(model: string, texts: seq<string>, batchSize: nat, provider: Provider, i: nat,
                 all: seq<Option<Vector>>, calls: seq<seq<string>>, batch: seq<string>, part: seq<Option<Vector>>)
    requires batchSize > 0 && i < |texts|
    requires Progress(model, texts, batchSize, provider, i, all, calls)
    requires batch == texts[i..Min(i + batchSize, |texts|)]
    requires part == BatchResult(provider(model, batch), batch)
    ensures Progress(model, texts, batchSize, provider, i + batchSize, all + part, calls + [batch])
  {
    BatchesStep(texts, batchSize, i);
    EmbeddedStep(model, texts, batchSize, provider, i);
    AppendAssociative(calls, [batch], Batches(Drop(texts, i + batchSize), batchSize));
    AppendAssociative(all, part, Embedded(model, Drop(texts, i + batchSize), batchSize, provider));
  }

  /** `get_embedding_dimension`: 1536 for a "small" model (checked first), else 3072 for a "large" one, else 1536. */
  function EmbeddingDimension(model: string): (r: nat)
    ensures r == 3072 <==> !Contains(model, "small") && Contains(model, "large")
    ensures r == 1536 <==> Contains(model, "small") || !Contains(model, "large")
  {
    if Contains(model, "small") then 1536
    else if Contains(model, "large") then 3072
    else 1536
  }

  /** The two published model names get their documented sizes. */
  lemma KnownDimensions()
    ensures EmbeddingDimension(SmallModel) == 1536
    ensures EmbeddingDimension(LargeModel) == 3072
  {
    assert OccursAt(SmallModel, "small", 17);
    assert 's' !in LargeModel;
    AbsentFirstChar(LargeModel, "small");
    assert OccursAt(LargeModel, "large", 17);
  }

  /** The key actually used: the given key when it is non-empty, else the environment's; an empty result raises. */
  function ResolveApiKey(given: Option<string>, environment: Option<string>): (r: Result<string, string>)
    ensures r.Success? ==> r.value != ""
    ensures r.Success? && given.Some? && given.value != "" ==> r.value == given.value
    ensures r.Failure? <==> (given.None? || given.value == "") && (environment.None? || environment.value == "")
    ensures r.Failure? ==> r.error == MissingKeyMessage
  {
    if given.Some? && given.value != "" then Success(given.value)
    else if environment.Some? && environment.value != "" then Success(environment.value)
    else Failure(MissingKeyMessage)
  }

  /** The loop of `generate_embeddings`: the batches, sent in order, and the concatenated results. */
  method EmbedBatches(model: string, texts: seq<string>, batchSize: nat, provider: Provider)
    returns (all: seq<Option<Vector>>, calls: seq<seq<string>>)
    requires batchSize > 0
    ensures all == Embedded(model, texts, batchSize, provider)
    ensures calls == Batches(texts, batchSize)
  {
    all, calls := [], [];
    var i: nat := 0;
    while i < |texts|
      invariant Progress(model, texts, batchSize, provider, i, all, calls)
      decreases |texts| - i
    {
      var batch := texts[i..Min(i + batchSize, |texts|)];
      var response := provider(model, batch);
      var part := BatchResult(response, batch);
      LoopStep(model, texts, batchSize, provider, i, all, calls, batch, part);
      calls := calls + [batch];
      all := all + part;
      i := i + batchSize;
    }
    assert Drop(texts, i) == [];
    assert all + [] == all;
  }

  class EmbeddingGenerator {
    var apiKey: string
    var model: string

    /** `__init__` after `ResolveApiKey` succeeded. */
    constructor(apiKey: string, model: string)
      requires apiKey != ""
      ensures this.apiKey == apiKey && this.model == model
    {
      this.apiKey := apiKey;
      this.model := model;
    }

    /**
     * `generate_embeddings`: one provider call per batch, in order (`calls`
     * lists the batches sent). A zero batch size raises, as `range` does; a
     * negative one yields no batches.
     */
    method GenerateEmbeddings(texts: seq<string>, batchSize: int, provider: Provider)
      returns (result: Result<seq<Option<Vector>>, string>, calls: seq<seq<string>>)
      ensures batchSize == 0 ==> result.Failure? && calls == []
      ensures batchSize < 0 ==> result == Success([]) && calls == []
      ensures batchSize > 0 ==> result == Success(Embedded(model, texts, batchSize, provider))
      ensures batchSize > 0 ==> calls == Batches(texts, batchSize)
    {
      if batchSize == 0 {
        return Failure("range() arg 3 must not be zero"), [];
      }
      if batchSize < 0 {
        return Success([]), [];
      }
      var all;
      all, calls := EmbedBatches(model, texts, batchSize, provider);
      result := Success(all);
    }
  }
}
