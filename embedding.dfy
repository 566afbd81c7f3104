/** The embedding service (services/embedding_service.py). The Gemini
    `embed_content` call and the cosine similarity are opaque functions; the
    service's own logic is the empty-text guard, the batch loop that keeps
    one entry per text, the filter that keeps embedded chunks and the
    ordering of search hits. */
module Embedding {
  import opened Common
  import opened Text
  import opened Sorting
  import opened DocumentModels

  type Vector = seq<real>

  datatype EmbeddingConfig = EmbeddingConfig(modelName: string, dimension: int)

  /** The configuration without environment overrides. */
  function DefaultEmbeddingConfig(): (c: EmbeddingConfig)
    ensures c.modelName == "models/embedding-001" && c.dimension == 768
  {
    EmbeddingConfig("models/embedding-001", 768)
  }

  /** `genai.embed_content(model, content, output_dimensionality)`: the
      embedding it returns, `None` when it raises or returns none. */
  type EmbedApi = (string, string, int) -> Option<Vector>

  /** `create_single_embedding`: blank text is refused before the API is
      called; the API sees the stripped text; an empty embedding counts as none. */
  function CreateSingleEmbedding(cfg: EmbeddingConfig, api: EmbedApi, text: string): (r: Option<Vector>)
    ensures IsBlank(text) ==> r.None?
    ensures r.Some? ==> !IsBlank(text) && r.value != [] && api(cfg.modelName, Strip(text), cfg.dimension) == r
    ensures (!IsBlank(text) && api(cfg.modelName, Strip(text), cfg.dimension).Some?
             && api(cfg.modelName, Strip(text), cfg.dimension).value != []) ==> r.Some?
  {
    if IsBlank(text) then None
    else
      match api(cfg.modelName, Strip(text), cfg.dimension)
      case None => None
      case Some(e) => if e == [] then None else Some(e)
  }

  /** One `create_single_embedding` per text, in order. */
  function Embeddings(cfg: EmbeddingConfig, api: EmbedApi, texts: seq<string>): seq<Option<Vector>>
  {
    if texts == [] then [] else Embeddings(cfg, api, texts[..|texts| - 1]) + [CreateSingleEmbedding(cfg, api, texts[|texts| - 1])]
  }

  /** `Embeddings` has one entry per text: the embedding of that text. */
  lemma {:induction false} EmbeddingsPointwise(cfg: EmbeddingConfig, api: EmbedApi, texts: seq<string>)
    ensures |Embeddings(cfg, api, texts)| == |texts|
    ensures forall k :: 0 <= k < |texts| ==> Embeddings(cfg, api, texts)[k] == CreateSingleEmbedding(cfg, api, texts[k])
  {
    if texts != [] {
      var n := |texts| - 1;
      EmbeddingsPointwise(cfg, api, texts[..n]);
      var front := Embeddings(cfg, api, texts[..n]);
      var es := front + [CreateSingleEmbedding(cfg, api, texts[n])];
      forall k | 0 <= k < |texts| ensures es[k] == CreateSingleEmbedding(cfg, api, texts[k]) {
        if k < n {
          assert texts[..n][k] == texts[k];
          assert es[k] == front[k];
        }
      }
    }
  }

  /** Embedding two runs of texts one after the other embeds their concatenation. */
  lemma {:induction false} EmbeddingsAppend(cfg: EmbeddingConfig, api: EmbedApi, xs: seq<string>, ys: seq<string>)
    ensures Embeddings(cfg, api, xs + ys) == Embeddings(cfg, api, xs) + Embeddings(cfg, api, ys)
    decreases |ys|
  {
    if ys != [] {
      var n := |ys| - 1;
      assert (xs + ys)[..|xs + ys| - 1] == xs + ys[..n];
      EmbeddingsAppend(cfg, api, xs, ys[..n]);
    } else {
      assert xs + ys == xs;
    }
  }

  /** The inner loop of `create_batch_embeddings`: one embedding per text of a batch. */
  method EmbedBatch(cfg: EmbeddingConfig, api: EmbedApi, batch: seq<string>) returns (batchEmbeddings: seq<Option<Vector>>)
    ensures batchEmbeddings == Embeddings(cfg, api, batch)
  {
    batchEmbeddings := [];
    var j := 0;
    while j < |batch|
      invariant 0 <= j <= |batch|
      invariant batchEmbeddings == Embeddings(cfg, api, batch[..j])
    {
      assert batch[..j + 1][..j] == batch[..j];
      var embedding := CreateSingleEmbedding(cfg, api, batch[j]);
      batchEmbeddings := batchEmbeddings + [embedding];
      j := j + 1;
    }
    assert batch[..|batch|] == batch;
  }

  /** `create_batch_embeddings`. Python's `range(0, n, batch_size)` raises
      for a zero step and is empty for a negative one; a positive step
      visits every text once, in order. */
  method CreateBatchEmbeddings(cfg: EmbeddingConfig, api: EmbedApi, texts: seq<string>, batchSize: int)
    returns (embeddings: seq<Option<Vector>>)
    requires batchSize != 0
    ensures batchSize < 0 ==> embeddings == []
    ensures batchSize > 0 ==> embeddings == Embeddings(cfg, api, texts)
  {
    embeddings := [];
    if batchSize < 0 {
      return;
    }
    var i := 0;
    while i < |texts|
      invariant 0 <= i
      invariant embeddings == Embeddings(cfg, api, texts[..if i < |texts| then i else |texts|])
      decreases |texts| - i
    {
      var end := if i + batchSize < |texts| then i + batchSize else |texts|;
      var batch := texts[i..end];
      var batchEmbeddings := EmbedBatch(cfg, api, batch);
      EmbeddingsAppend(cfg, api, texts[..i], batch);
      assert texts[..i] + batch == texts[..end];
      embeddings := embeddings + batchEmbeddings;
      i := i + batchSize;
    }
    assert texts[..|texts|] == texts;
  }

  /** Whatever the positive batch size, one entry per text, in input order. */
  lemma BatchEmbeddingsPointwise(cfg: EmbeddingConfig, api: EmbedApi, texts: seq<string>)
    ensures var es := Embeddings(cfg, api, texts);
            |es| == |texts| && forall k :: 0 <= k < |texts| ==> es[k] == CreateSingleEmbedding(cfg, api, texts[k])
  {
    EmbeddingsPointwise(cfg, api, texts);
  }

  /** The chunks whose embedding is present, in order, each carrying it. */
  function KeepEmbedded(chunks: seq<DocumentChunk>, embeddings: seq<Option<Vector>>): seq<DocumentChunk>
    requires |embeddings| == |chunks|
  {
    if chunks == [] then []
    else
      var n := |chunks| - 1;
      KeepEmbedded(chunks[..n], embeddings[..n])
      + (if embeddings[n].Some? then [chunks[n].(embedding := embeddings[n])] else [])
  }

  /** Which chunks got no embedding, by position. */
  function MissingFlags(embeddings: seq<Option<Vector>>): (flags: seq<bool>)
    ensures |flags| == |embeddings| && forall k :: 0 <= k < |embeddings| ==> flags[k] == embeddings[k].None?
  {
    seq(|embeddings|, k requires 0 <= k < |embeddings| => embeddings[k].None?)
  }

  /** The kept chunks are exactly the chunks whose embedding was created,
      in their original order, each with its embedding set: entry `j` is
      the chunk at the `j`-th position whose embedding is present. */
  lemma {:induction false} KeepEmbeddedProperties(chunks: seq<DocumentChunk>, embeddings: seq<Option<Vector>>)
    requires |embeddings| == |chunks|
    ensures var r, ks := KeepEmbedded(chunks, embeddings), KeptIndices(MissingFlags(embeddings), |chunks|);
            && |r| == |ks| <= |chunks|
            && (forall j :: 0 <= j < |r| ==>
                  ks[j] < |chunks| && embeddings[ks[j]].Some? && r[j] == chunks[ks[j]].(embedding := embeddings[ks[j]]))
            && (forall i, j :: 0 <= i < j < |ks| ==> ks[i] < ks[j])
            && (forall k :: 0 <= k < |chunks| && embeddings[k].Some? ==> k in ks)
  {
    var flags := MissingFlags(embeddings);
    KeepEmbeddedPrefix(chunks, embeddings, |chunks|);
    assert chunks[..|chunks|] == chunks && embeddings[..|chunks|] == embeddings;
    KeptIndicesSound(flags, |chunks|);
    KeptIndicesLength(flags, |chunks|);
    KeptIndicesIncrease(flags, |chunks|);
    KeptIndicesComplete(flags, |chunks|);
  }

  /** The chunks kept from the first `n`, matched with the positions kept. */
  lemma {:induction false} KeepEmbeddedPrefix(chunks: seq<DocumentChunk>, embeddings: seq<Option<Vector>>, n: nat)
    requires |embeddings| == |chunks| && n <= |chunks|
    ensures var r, ks := KeepEmbedded(chunks[..n], embeddings[..n]), KeptIndices(MissingFlags(embeddings), n);
            |r| == |ks| && forall j :: 0 <= j < |r| ==> ks[j] < n && r[j] == chunks[ks[j]].(embedding := embeddings[ks[j]])
  {
    var flags := MissingFlags(embeddings);
    if n > 0 {
      KeepEmbeddedPrefix(chunks, embeddings, n - 1);
      assert chunks[..n][..n - 1] == chunks[..n - 1] && embeddings[..n][..n - 1] == embeddings[..n - 1];
      assert chunks[..n][n - 1] == chunks[n - 1] && embeddings[..n][n - 1] == embeddings[n - 1];
      var front, fks := KeepEmbedded(chunks[..n - 1], embeddings[..n - 1]), KeptIndices(flags, n - 1);
      var r, ks := KeepEmbedded(chunks[..n], embeddings[..n]), KeptIndices(flags, n);
      assert r == front + (if embeddings[n - 1].Some? then [chunks[n - 1].(embedding := embeddings[n - 1])] else []);
      assert ks == fks + (if flags[n - 1] then [] else [n - 1]);
      forall j | 0 <= j < |r| ensures ks[j] < n && r[j] == chunks[ks[j]].(embedding := embeddings[ks[j]]) {
        if j < |front| {
          assert r[j] == front[j] && ks[j] == fks[j];
        }
      }
    }
  }

  /** When every embedding is present, every chunk is kept. */
  lemma {:induction false} KeepEmbeddedAll(chunks: seq<DocumentChunk>, embeddings: seq<Option<Vector>>)
    requires |embeddings| == |chunks|
    requires forall k :: 0 <= k < |embeddings| ==> embeddings[k].Some?
    ensures |KeepEmbedded(chunks, embeddings)| == |chunks|
  {
    if chunks != [] {
      var n := |chunks| - 1;
      KeepEmbeddedAll(chunks[..n], embeddings[..n]);
    }
  }

  /** The contents of the chunks, in order. */
  function Contents(chunks: seq<DocumentChunk>): (texts: seq<string>)
    ensures |texts| == |chunks| && forall k :: 0 <= k < |chunks| ==> texts[k] == chunks[k].content
  {
    if chunks == [] then [] else Contents(chunks[..|chunks| - 1]) + [chunks[|chunks| - 1].content]
  }

  /** The loop of `embed_document_chunks` over the chunks zipped with their embeddings. */
  method AttachEmbeddings(chunks: seq<DocumentChunk>, embeddings: seq<Option<Vector>>) returns (embedded: seq<DocumentChunk>)
    requires |embeddings| == |chunks|
    ensures embedded == KeepEmbedded(chunks, embeddings)
  {
    embedded := [];
    var i := 0;
    while i < |chunks|
      invariant 0 <= i <= |chunks|
      invariant embedded == KeepEmbedded(chunks[..i], embeddings[..i])
    {
      assert chunks[..i + 1][..i] == chunks[..i] && embeddings[..i + 1][..i] == embeddings[..i];
      var chunk, embedding := chunks[i], embeddings[i];
      if embedding.Some? {
        embedded := embedded + [chunk.(embedding := embedding)];
      }
      i := i + 1;
    }
    assert chunks[..|chunks|] == chunks && embeddings[..|chunks|] == embeddings;
  }

  /** `embed_document_chunks`: batches of five, then the chunks whose
      embedding was created, in order, each with it set. */
  method EmbedDocumentChunks(cfg: EmbeddingConfig, api: EmbedApi, chunks: seq<DocumentChunk>)
    returns (embedded: seq<DocumentChunk>)
    ensures |Embeddings(cfg, api, Contents(chunks))| == |chunks|
    ensures embedded == KeepEmbedded(chunks, Embeddings(cfg, api, Contents(chunks)))
  {
    var texts := Contents(chunks);
    var embeddings := CreateBatchEmbeddings(cfg, api, texts, 5);
    EmbeddingsPointwise(cfg, api, texts);
    embedded := AttachEmbeddings(chunks, embeddings);
  }

  /** `validate_embedding_dimension`. */
  predicate ValidateEmbeddingDimension(cfg: EmbeddingConfig, embedding: Vector)
  {
    |embedding| == cfg.dimension
  }

  /** With the default configuration exactly the 768-dimensional vectors are valid. */
  lemma DefaultDimensionIs768(embedding: Vector)
    ensures ValidateEmbeddingDimension(DefaultEmbeddingConfig(), embedding) <==> |embedding| == 768
  {
  }

  // ---------------------------------------------------------------------
  // Similarity search

  /** A stored item: its `embedding`, `content`, `metadata` and `chunk_id`
      entries, each absent when the dictionary lacks the key. */
  datatype StoredItem = StoredItem(embedding: Option<Vector>, content: Option<string>, metadata: Option<Metadata>,
                                   chunkId: Option<string>)

  datatype ScoredItem = ScoredItem(content: string, metadata: Metadata, score: real, chunkId: string)

  /** `'embedding' in item and item['embedding']`. */
  predicate HasEmbedding(item: StoredItem)
  {
    item.embedding.Some? && item.embedding.value != []
  }

  /** The cosine similarity of two vectors; `None` when numpy raises (for
      vectors of different lengths). */
  type Similarity = (Vector, Vector) -> Option<real>

  function Score(item: StoredItem, s: real): ScoredItem
  {
    ScoredItem(item.content.GetOr(""), item.metadata.GetOr(map[]), s, item.chunkId.GetOr(""))
  }

  /** The scored items with an embedding, in order; `None` when a similarity raises. */
  function ScoredItems(query: Vector, items: seq<StoredItem>, similarity: Similarity): Option<seq<ScoredItem>>
  {
    if items == [] then Some([])
    else
      var n := |items| - 1;
      match ScoredItems(query, items[..n], similarity)
      case None => None
      case Some(front) =>
        if !HasEmbedding(items[n]) then Some(front)
        else
          match similarity(query, items[n].embedding.value)
          case None => None
          case Some(s) => Some(front + [Score(items[n], s)])
  }

  /** Every scored item of `r` is the score of a stored item with an
      embedding, and there are no more of them than stored items. */
  ghost predicate ScoresOf(items: seq<StoredItem>, r: seq<ScoredItem>)
  {
    |r| <= |items| && forall j :: 0 <= j < |r| ==> ScoreOf(items, r[j])
  }

  ghost predicate ScoreOf(items: seq<StoredItem>, x: ScoredItem)
  {
    exists k :: 0 <= k < |items| && HasEmbedding(items[k]) && x.content == items[k].content.GetOr("")
                && x.chunkId == items[k].chunkId.GetOr("")
  }

  /** Items without an embedding are passed over. */
  lemma {:induction false} ScoredItemsProperties(query: Vector, items: seq<StoredItem>, similarity: Similarity)
    ensures ScoredItems(query, items, similarity).Some? ==> ScoresOf(items, ScoredItems(query, items, similarity).value)
  {
    if items != [] && ScoredItems(query, items, similarity).Some? {
      var n := |items| - 1;
      ScoredItemsProperties(query, items[..n], similarity);
      var r := ScoredItems(query, items, similarity).value;
      var front := ScoredItems(query, items[..n], similarity).value;
      forall j | 0 <= j < |r|
        ensures ScoreOf(items, r[j])
      {
        if j < |front| {
          assert r[j] == front[j];
          var k :| 0 <= k < n && HasEmbedding(items[..n][k]) && front[j].content == items[..n][k].content.GetOr("")
                   && front[j].chunkId == items[..n][k].chunkId.GetOr("");
          assert items[..n][k] == items[k];
        } else {
          assert r[j] == Score(items[n], similarity(query, items[n].embedding.value).value);
          assert HasEmbedding(items[n]);
        }
      }
      assert ScoresOf(items, r);
    }
  }

  /** The key of the descending sort: Python's `sort(reverse=True)` is stable,
      so it is the ascending stable sort on the negated score. */
  function NegatedScore(x: ScoredItem): real
  {
    -x.score
  }

  /** `similarity_search`. */
  method SimilaritySearch(cfg: EmbeddingConfig, api: EmbedApi, queryText: string, stored: seq<StoredItem>,
                          topK: int, similarity: Similarity) returns (results: seq<ScoredItem>)
    ensures match CreateSingleEmbedding(cfg, api, queryText)
            case None => results == []
            case Some(q) =>
              results == match ScoredItems(q, stored, similarity)
                         case None => []
                         case Some(items) => Prefix(SortBy(items, NegatedScore), topK)
  {
    var queryEmbedding := CreateSingleEmbedding(cfg, api, queryText);
    if queryEmbedding.None? {
      return [];
    }
    var similarities: seq<ScoredItem> := [];
    var i := 0;
    while i < |stored|
      invariant 0 <= i <= |stored|
      invariant ScoredItems(queryEmbedding.value, stored[..i], similarity) == Some(similarities)
    {
      assert stored[..i + 1][..i] == stored[..i];
      var item := stored[i];
      if HasEmbedding(item) {
        var s := similarity(queryEmbedding.value, item.embedding.value);
        if s.None? {
          ScoredItemsFailed(queryEmbedding.value, stored, similarity, i + 1);
          assert stored[..|stored|] == stored;
          return [];
        }
        similarities := similarities + [Score(item, s.value)];
      }
      i := i + 1;
    }
    assert stored[..|stored|] == stored;
    results := Prefix(SortBy(similarities, NegatedScore), topK);
  }

  /** Once a similarity raises, the whole search fails. */
  lemma {:induction false} ScoredItemsFailed(query: Vector, items: seq<StoredItem>, similarity: Similarity, i: nat)
    requires i <= |items|
    requires ScoredItems(query, items[..i], similarity).None?
    ensures ScoredItems(query, items, similarity).None?
    decreases |items| - i
  {
    if i < |items| {
      assert items[..i + 1][..i] == items[..i];
      ScoredItemsFailed(query, items, similarity, i + 1);
    } else {
      assert items[..i] == items;
    }
  }

  /** In a list sorted by descending score, whatever a prefix leaves out
      scores no higher than anything in the prefix. */
  lemma LeftOutScoreLower(sorted: seq<ScoredItem>, n: nat)
    requires SortedBy(sorted, NegatedScore)
    requires n <= |sorted|
    ensures forall x, y :: x in multiset(sorted) - multiset(sorted[..n]) && y in sorted[..n] ==> x.score <= y.score
  {
    var r, rest := sorted[..n], sorted[n..];
    assert sorted == r + rest;
    assert multiset(sorted) - multiset(r) == multiset(rest);
    forall x, y | x in multiset(sorted) - multiset(r) && y in r ensures x.score <= y.score {
      assert x in rest;
      var j :| 0 <= j < |rest| && rest[j] == x;
      var i :| 0 <= i < |r| && r[i] == y;
      assert NegatedScore(sorted[i]) <= NegatedScore(sorted[n + j]);
    }
  }

  /** At most `top_k` results (for a non-negative `top_k`), in non-increasing
      score order, drawn from the scored items; every item left out scores no
      higher than every item returned, so the results are the best ones. */
  lemma SearchResultsOrdered(items: seq<ScoredItem>, topK: int)
    ensures var r := Prefix(SortBy(items, NegatedScore), topK);
            (topK >= 0 ==> |r| <= topK)
            && (forall i, j :: 0 <= i < j < |r| ==> r[i].score >= r[j].score)
            && (forall x :: x in r ==> x in items)
            && multiset(r) <= multiset(items)
            && (forall x, y :: x in multiset(items) - multiset(r) && y in r ==> x.score <= y.score)
  {
    var sorted := SortBy(items, NegatedScore);
    var r := Prefix(sorted, topK);
    assert r == sorted[..|r|];
    assert sorted == r + sorted[|r|..];
    assert multiset(sorted) == multiset(items);
    LeftOutScoreLower(sorted, |r|);
    forall i, j | 0 <= i < j < |r| ensures r[i].score >= r[j].score {
      assert r[i] == sorted[i] && r[j] == sorted[j];
      assert NegatedScore(sorted[i]) <= NegatedScore(sorted[j]);
    }
    forall x | x in r ensures x in items {
      var k :| 0 <= k < |r| && r[k] == x;
      assert sorted[k] == x;
      SortByMembers(items, NegatedScore, x);
    }
  }
}
