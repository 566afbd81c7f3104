/** The vector store front end (services/vector_db_service.py). The remote
    Pinecone index is not modelled by its contents: the service keeps a log
    of the requests the index carried out, and whether the index carries out
    a request, what a query matches and what its statistics report are given
    functions. A request the index refuses is one whose call raises. */
module VectorDb {
  import opened Common
  import opened Text
  import opened DocumentModels

  type Vector = seq<real>

  /** `batch_size = 100` */
  const BatchSize: nat := 100

  /** Stored content is cut at this many characters. */
  const ContentLimit: nat := 1000

  /** One entry of the `vectors` list: `{"id", "values", "metadata"}`. */
  datatype PreparedVector = PreparedVector(id: string, values: Vector, metadata: Metadata)

  /** The calls the service makes on the index. */
  datatype IndexRequest =
    | Upsert(namespace: string, batch: seq<PreparedVector>)
    | DeleteNamespace(namespace: string)
    | DeleteAll

  /** One element of `results.matches`. */
  datatype Match = Match(id: string, score: real, metadata: Metadata)

  /** One formatted search result. `content` is whatever the match stored
      under "content", so it is a `Value`. */
  datatype SearchHit = SearchHit(id: string, score: real, content: Value, metadata: Metadata, namespace: string)

  /** The reply of `get_namespace_stats`, reduced to what `list_namespaces`
      reads: an error report, or the namespaces with their vector counts. */
  datatype StatsReply = StatsError(message: string) | StatsReport(namespaces: seq<(string, int)>)

  /** `namespace or "default"` */
  function TargetNamespace(namespace: Option<string>): (ns: string)
    ensures Present(namespace) ==> ns == namespace.value
    ensures !Present(namespace) ==> ns == "default"
    ensures ns != ""
  {
    if Present(namespace) then namespace.value else "default"
  }

  /** `content[:1000] if len(content) > 1000 else content` */
  function TruncatedContent(content: string): (r: string)
    ensures |r| <= |content| && |r| <= ContentLimit && r == content[..|r|]
    ensures |content| <= ContentLimit ==> r == content
    ensures |content| > ContentLimit ==> |r| == ContentLimit
  {
    if |content| > ContentLimit then content[..ContentLimit] else content
  }

  /** `if chunk.embedding:` -- a missing or empty embedding is skipped. */
  predicate Embedded(chunk: DocumentChunk)
  {
    chunk.embedding.Some? && chunk.embedding.value != []
  }

  /** The keys the service writes over the chunk's own metadata. */
  predicate ReservedKey(k: string)
  {
    k == "content" || k == "created_at" || k == "namespace" || k == "document_type"
  }

  /** The scalar entries of a metadata dictionary. */
  function ScalarEntries(md: Metadata): Metadata
  {
    map k | k in md && IsScalar(md[k]) :: md[k]
  }

  /** The metadata stored with a vector. */
  function VectorMetadata(chunk: DocumentChunk, ns: string, isoFormat: Instant -> string): Metadata
  {
    ScalarEntries(chunk.metadata)["content" := VStr(TruncatedContent(chunk.content))]
                                 ["created_at" := VStr(isoFormat(chunk.createdAt))]
                                 ["namespace" := VStr(ns)]
                                 ["document_type" := VStr(DocumentTypeWire(chunk.documentType))]
  }

  /** The four service keys always hold the service's values; every other
      key is kept exactly when the chunk had it with a scalar value. */
  lemma VectorMetadataProperties(chunk: DocumentChunk, ns: string, isoFormat: Instant -> string)
    ensures var md := VectorMetadata(chunk, ns, isoFormat);
            && md["content"] == VStr(TruncatedContent(chunk.content))
            && md["created_at"] == VStr(isoFormat(chunk.createdAt))
            && md["namespace"] == VStr(ns)
            && md["document_type"] == VStr(DocumentTypeWire(chunk.documentType))
    ensures forall k :: !ReservedKey(k) ==>
              ((k in VectorMetadata(chunk, ns, isoFormat) <==> k in chunk.metadata && IsScalar(chunk.metadata[k]))
               && (k in VectorMetadata(chunk, ns, isoFormat) ==> VectorMetadata(chunk, ns, isoFormat)[k] == chunk.metadata[k]))
    ensures forall k :: k in VectorMetadata(chunk, ns, isoFormat) ==> IsScalar(VectorMetadata(chunk, ns, isoFormat)[k])
  {
  }

  function VectorOf(chunk: DocumentChunk, ns: string, isoFormat: Instant -> string): PreparedVector
    requires Embedded(chunk)
  {
    PreparedVector(chunk.chunkId, chunk.embedding.value, VectorMetadata(chunk, ns, isoFormat))
  }

  /** The `vectors` list built from `chunks`, as the loop appends it. */
  function Prepared(chunks: seq<DocumentChunk>, ns: string, isoFormat: Instant -> string): seq<PreparedVector>
  {
    if chunks == [] then []
    else
      var last := chunks[|chunks| - 1];
      Prepared(chunks[..|chunks| - 1], ns, isoFormat) + (if Embedded(last) then [VectorOf(last, ns, isoFormat)] else [])
  }

  /** At most one vector per chunk, and none exactly when no chunk has an embedding. */
  lemma {:induction false} PreparedLength(chunks: seq<DocumentChunk>, ns: string, isoFormat: Instant -> string)
    ensures |Prepared(chunks, ns, isoFormat)| <= |chunks|
    ensures Prepared(chunks, ns, isoFormat) == [] <==> forall i :: 0 <= i < |chunks| ==> !Embedded(chunks[i])
    decreases |chunks|
  {
    if chunks != [] {
      var init := chunks[..|chunks| - 1];
      PreparedLength(init, ns, isoFormat);
      assert forall i :: 0 <= i < |init| ==> init[i] == chunks[i];
    }
  }

  /** `v` is the vector of one of the embedded chunks. */
  ghost predicate VectorOfSome(chunks: seq<DocumentChunk>, ns: string, isoFormat: Instant -> string, v: PreparedVector)
  {
    exists i :: 0 <= i < |chunks| && Embedded(chunks[i]) && v == VectorOf(chunks[i], ns, isoFormat)
  }

  /** Every prepared vector is that of an embedded chunk. */
  lemma {:induction false} PreparedSound(chunks: seq<DocumentChunk>, ns: string, isoFormat: Instant -> string)
    ensures forall v :: v in Prepared(chunks, ns, isoFormat) ==> VectorOfSome(chunks, ns, isoFormat, v)
    decreases |chunks|
  {
    if chunks != [] {
      var n := |chunks| - 1;
      var init := chunks[..n];
      PreparedSound(init, ns, isoFormat);
      forall v | v in Prepared(chunks, ns, isoFormat)
        ensures VectorOfSome(chunks, ns, isoFormat, v)
      {
        if v in Prepared(init, ns, isoFormat) {
          assert VectorOfSome(init, ns, isoFormat, v);
          var i :| 0 <= i < |init| && Embedded(init[i]) && v == VectorOf(init[i], ns, isoFormat);
          assert init[i] == chunks[i];
        } else {
          assert Embedded(chunks[n]) && v == VectorOf(chunks[n], ns, isoFormat);
        }
      }
    }
  }

  /** Every embedded chunk has its vector prepared. */
  lemma {:induction false} PreparedComplete(chunks: seq<DocumentChunk>, ns: string, isoFormat: Instant -> string)
    ensures forall i :: 0 <= i < |chunks| && Embedded(chunks[i]) ==> VectorOf(chunks[i], ns, isoFormat) in Prepared(chunks, ns, isoFormat)
    decreases |chunks|
  {
    if chunks != [] {
      var n := |chunks| - 1;
      var init := chunks[..n];
      PreparedComplete(init, ns, isoFormat);
      forall i | 0 <= i < |chunks| && Embedded(chunks[i])
        ensures VectorOf(chunks[i], ns, isoFormat) in Prepared(chunks, ns, isoFormat)
      {
        if i < n {
          assert init[i] == chunks[i];
        }
      }
    }
  }

  method PrepareVectors(chunks: seq<DocumentChunk>, ns: string, isoFormat: Instant -> string)
    returns (vectors: seq<PreparedVector>)
    ensures vectors == Prepared(chunks, ns, isoFormat)
  {
    vectors := [];
    for i := 0 to |chunks|
      invariant vectors == Prepared(chunks[..i], ns, isoFormat)
    {
      assert chunks[..i + 1][..i] == chunks[..i];
      if Embedded(chunks[i]) {
        vectors := vectors + [VectorOf(chunks[i], ns, isoFormat)];
      }
    }
    assert chunks[..|chunks|] == chunks;
  }

  /** `[v[i:i + size] for i in range(0, len(v), size)]` */
  function Batches<T>(v: seq<T>, size: nat): seq<seq<T>>
    requires size > 0
    decreases |v|
  {
    if v == [] then []
    else if |v| <= size then [v]
    else [v[..size]] + Batches(v[size..], size)
  }

  function Flatten<T>(bs: seq<seq<T>>): seq<T>
  {
    if bs == [] then [] else bs[0] + Flatten(bs[1..])
  }

  /** The batches hold every vector exactly once, in order. */
  lemma {:induction false} BatchesFlatten<T>(v: seq<T>, size: nat)
    requires size > 0
    ensures Flatten(Batches(v, size)) == v
    decreases |v|
  {
    if v == [] {
    } else if |v| <= size {
      assert Flatten([v]) == v + Flatten([v][1..]);
    } else {
      var rest := Batches(v[size..], size);
      BatchesFlatten(v[size..], size);
      assert Batches(v, size) == [v[..size]] + rest;
      assert ([v[..size]] + rest)[1..] == rest;
      assert Flatten(Batches(v, size)) == v[..size] + Flatten(rest);
      assert v[..size] + v[size..] == v;
    }
  }

  /** Each batch holds between one and `size` vectors. */
  lemma {:induction false} BatchesSizes<T>(v: seq<T>, size: nat)
    requires size > 0
    ensures forall j :: 0 <= j < |Batches(v, size)| ==> 0 < |Batches(v, size)[j]| <= size
    decreases |v|
  {
    if |v| > size {
      BatchesSizes(v[size..], size);
      assert forall j :: 1 <= j < |Batches(v, size)| ==> Batches(v, size)[j] == Batches(v[size..], size)[j - 1];
    }
  }

  /** The first batch and the batches of the remainder. */
  lemma BatchesStep<T>(v: seq<T>, size: nat, end: nat)
    requires size > 0 && v != []
    requires end == if size < |v| then size else |v|
    ensures Batches(v, size) == [v[..end]] + Batches(v[end..], size)
  {
    if |v| <= size {
      assert v[..end] == v;
      assert v[end..] == [];
    }
  }

  function UpsertRequests(ns: string, bs: seq<seq<PreparedVector>>): (rs: seq<IndexRequest>)
    ensures |rs| == |bs|
  {
    if bs == [] then [] else [Upsert(ns, bs[0])] + UpsertRequests(ns, bs[1..])
  }

  lemma {:induction false} UpsertRequestsAppend(ns: string, xs: seq<seq<PreparedVector>>, ys: seq<seq<PreparedVector>>)
    ensures UpsertRequests(ns, xs + ys) == UpsertRequests(ns, xs) + UpsertRequests(ns, ys)
    decreases |xs|
  {
    if xs == [] {
      assert xs + ys == ys;
    } else {
      assert (xs + ys)[0] == xs[0];
      assert (xs + ys)[1..] == xs[1..] + ys;
      UpsertRequestsAppend(ns, xs[1..], ys);
    }
  }

  lemma UpsertRequestsPointwise(ns: string, bs: seq<seq<PreparedVector>>)
    ensures forall j :: 0 <= j < |bs| ==> UpsertRequests(ns, bs)[j] == Upsert(ns, bs[j])
  {
    if bs != [] {
      UpsertRequestsPointwise(ns, bs[1..]);
    }
  }

  ghost predicate OnlyUpserts(rs: seq<IndexRequest>)
  {
    forall j :: 0 <= j < |rs| ==> rs[j].Upsert?
  }

  /** The statistics reply: an error without an index or when the call
      raises, otherwise the namespaces the index reports. */
  function NamespaceStats(hasIndex: bool, described: Option<seq<(string, int)>>): (r: StatsReply)
    ensures !hasIndex ==> r == StatsError("Index not initialized")
    ensures hasIndex && described.None? ==> r.StatsError?
    ensures hasIndex && described.Some? ==> r == StatsReport(described.value)
  {
    if !hasIndex then StatsError("Index not initialized")
    else match described
      case None => StatsError("describe_index_stats raised")
      case Some(ns) => StatsReport(ns)
  }

  function Names(ns: seq<(string, int)>): (names: seq<string>)
    ensures |names| == |ns| && forall j :: 0 <= j < |ns| ==> names[j] == ns[j].0
  {
    if ns == [] then [] else [ns[0].0] + Names(ns[1..])
  }

  /** The namespace names of the statistics, or none when they are an error. */
  function ListNamespaces(hasIndex: bool, described: Option<seq<(string, int)>>): (names: seq<string>)
    ensures NamespaceStats(hasIndex, described).StatsError? ==> names == []
    ensures NamespaceStats(hasIndex, described).StatsReport? ==>
              |names| == |described.value| && forall j :: 0 <= j < |names| ==> names[j] == described.value[j].0
  {
    match NamespaceStats(hasIndex, described)
    case StatsError(_) => []
    case StatsReport(ns) => Names(ns)
  }

  /** One formatted search result: content defaults to "", and the metadata
      loses its "content" entry. */
  function FormatMatch(m: Match, ns: string): (h: SearchHit)
    ensures h.id == m.id && h.score == m.score && h.namespace == ns
    ensures "content" in m.metadata ==> h.content == m.metadata["content"]
    ensures "content" !in m.metadata ==> h.content == VStr("")
    ensures h.metadata.Keys == m.metadata.Keys - {"content"}
    ensures forall k :: k in h.metadata ==> h.metadata[k] == m.metadata[k]
  {
    SearchHit(m.id, m.score,
              if "content" in m.metadata then m.metadata["content"] else VStr(""),
              map k | k in m.metadata && k != "content" :: m.metadata[k],
              ns)
  }

  class VectorIndex {
    /** `self.index` was set up. */
    const hasIndex: bool
    /** Whether the index carries out a request (a refused one raises). */
    const accepts: IndexRequest -> bool
    /** `index.query(vector, top_k, filter, namespace).matches`; `None` when it raises. */
    const query: (Vector, int, Metadata, string) -> Option<seq<Match>>
    /** The requests the index carried out, oldest first. */
    var sent: seq<IndexRequest>

    constructor (hasIndex: bool, accepts: IndexRequest -> bool, query: (Vector, int, Metadata, string) -> Option<seq<Match>>)
      ensures this.hasIndex == hasIndex && this.accepts == accepts && this.query == query
      ensures sent == []
    {
      this.hasIndex := hasIndex;
      this.accepts := accepts;
      this.query := query;
      sent := [];
    }

    /** The requests of `rs` the index carries out before the first it refuses. */
    function AcceptedPrefix(rs: seq<IndexRequest>): seq<IndexRequest>
    {
      if rs == [] then [] else if accepts(rs[0]) then [rs[0]] + AcceptedPrefix(rs[1..]) else []
    }

    predicate AllAccepted(rs: seq<IndexRequest>)
    {
      forall j :: 0 <= j < |rs| ==> accepts(rs[j])
    }

    /** The carried-out requests are a prefix, and all of them exactly when
        every request is accepted. */
    lemma {:induction false} AcceptedPrefixProperties(rs: seq<IndexRequest>)
      ensures |AcceptedPrefix(rs)| <= |rs| && AcceptedPrefix(rs) == rs[..|AcceptedPrefix(rs)|]
      ensures AcceptedPrefix(rs) == rs <==> AllAccepted(rs)
      ensures forall j :: 0 <= j < |AcceptedPrefix(rs)| ==> accepts(AcceptedPrefix(rs)[j])
      decreases |rs|
    {
      if rs != [] {
        AcceptedPrefixProperties(rs[1..]);
        if accepts(rs[0]) {
          assert AllAccepted(rs) <==> AllAccepted(rs[1..]) by {
            forall j | 0 <= j < |rs[1..]| ensures rs[1..][j] == rs[j + 1] {
            }
          }
        } else {
          assert !AllAccepted(rs) by {
            assert !accepts(rs[0]);
          }
        }
      }
    }

    lemma {:induction false} AcceptedPrefixAppend(xs: seq<IndexRequest>, ys: seq<IndexRequest>)
      requires AllAccepted(xs)
      ensures AcceptedPrefix(xs + ys) == xs + AcceptedPrefix(ys)
      ensures AllAccepted(xs + ys) <==> AllAccepted(ys)
      decreases |xs|
    {
      if xs != [] {
        assert (xs + ys)[1..] == xs[1..] + ys;
        assert accepts(xs[0]);
        AcceptedPrefixAppend(xs[1..], ys);
      } else {
        assert xs + ys == ys;
      }
      assert AllAccepted(xs + ys) <== AllAccepted(ys) by {
        if AllAccepted(ys) {
          forall j | 0 <= j < |xs + ys| ensures accepts((xs + ys)[j]) {
            if j < |xs| {
              assert (xs + ys)[j] == xs[j];
            } else {
              assert (xs + ys)[j] == ys[j - |xs|];
            }
          }
        }
      }
      assert AllAccepted(xs + ys) ==> AllAccepted(ys) by {
        if AllAccepted(xs + ys) {
          forall j | 0 <= j < |ys| ensures accepts(ys[j]) {
            assert (xs + ys)[|xs| + j] == ys[j];
          }
        }
      }
    }

    /** Upserting sends nothing but upsert requests. */
    lemma AcceptedUpserts(ns: string, bs: seq<seq<PreparedVector>>)
      ensures OnlyUpserts(AcceptedPrefix(UpsertRequests(ns, bs)))
    {
      var rs := UpsertRequests(ns, bs);
      AcceptedPrefixProperties(rs);
      UpsertRequestsPointwise(ns, bs);
      forall j | 0 <= j < |AcceptedPrefix(rs)| ensures AcceptedPrefix(rs)[j].Upsert? {
        assert AcceptedPrefix(rs)[j] == rs[j];
      }
    }

    /** A refused batch stops the sending: what was sent before it stays sent. */
    lemma RefusedBatch(ns: string, done: seq<seq<PreparedVector>>, batch: seq<PreparedVector>, more: seq<seq<PreparedVector>>)
      requires AllAccepted(UpsertRequests(ns, done)) && !accepts(Upsert(ns, batch))
      ensures AcceptedPrefix(UpsertRequests(ns, done + ([batch] + more))) == UpsertRequests(ns, done)
      ensures !AllAccepted(UpsertRequests(ns, done + ([batch] + more)))
    {
      var rest := UpsertRequests(ns, [batch] + more);
      UpsertRequestsAppend(ns, done, [batch] + more);
      assert ([batch] + more)[0] == batch;
      assert rest[0] == Upsert(ns, batch);
      AcceptedPrefixAppend(UpsertRequests(ns, done), rest);
      assert !AllAccepted(rest);
      assert UpsertRequests(ns, done) + [] == UpsertRequests(ns, done);
    }

    /** An accepted batch extends the sent requests by its own request. */
    lemma AcceptedBatch(ns: string, done: seq<seq<PreparedVector>>, batch: seq<PreparedVector>)
      requires AllAccepted(UpsertRequests(ns, done)) && accepts(Upsert(ns, batch))
      ensures UpsertRequests(ns, done + [batch]) == UpsertRequests(ns, done) + [Upsert(ns, batch)]
      ensures AllAccepted(UpsertRequests(ns, done + [batch]))
    {
      UpsertRequestsAppend(ns, done, [batch]);
      assert UpsertRequests(ns, [batch]) == [Upsert(ns, batch)];
      AcceptedPrefixAppend(UpsertRequests(ns, done), [Upsert(ns, batch)]);
    }

    /** `upsert_chunks`: without an index, or with no embedded chunk, nothing
        is sent and the answer is false. Otherwise the prepared vectors are
        sent in batches of 100 until the index refuses one; the answer is
        true exactly when it carried out every batch. */
    method UpsertChunks(chunks: seq<DocumentChunk>, namespace: Option<string>, isoFormat: Instant -> string)
      returns (ok: bool)
      modifies this
      ensures !hasIndex ==> !ok && sent == old(sent)
      ensures hasIndex && Prepared(chunks, TargetNamespace(namespace), isoFormat) == [] ==> !ok && sent == old(sent)
      ensures hasIndex && Prepared(chunks, TargetNamespace(namespace), isoFormat) != [] ==>
                var reqs := UpsertRequests(TargetNamespace(namespace),
                                           Batches(Prepared(chunks, TargetNamespace(namespace), isoFormat), BatchSize));
                sent == old(sent) + AcceptedPrefix(reqs) && (ok <==> AllAccepted(reqs))
      ensures |sent| >= |old(sent)| && sent[..|old(sent)|] == old(sent) && OnlyUpserts(sent[|old(sent)|..])
      ensures ok ==> |sent| > |old(sent)|
    {
      if !hasIndex {
        return false;
      }
      var ns := TargetNamespace(namespace);
      var vectors := PrepareVectors(chunks, ns, isoFormat);
      if vectors == [] {
        return false;
      }
      ok := SendBatches(ns, vectors);
      var reqs := UpsertRequests(ns, Batches(vectors, BatchSize));
      AcceptedUpserts(ns, Batches(vectors, BatchSize));
      assert sent[|old(sent)|..] == AcceptedPrefix(reqs);
      if ok {
        AcceptedPrefixProperties(reqs);
        assert |Batches(vectors, BatchSize)| > 0;
      }
    }

    /** The stepped batch loop of `upsert_chunks`. */
    method SendBatches(ns: string, vectors: seq<PreparedVector>) returns (ok: bool)
      modifies this
      ensures var reqs := UpsertRequests(ns, Batches(vectors, BatchSize));
              sent == old(sent) + AcceptedPrefix(reqs) && (ok <==> AllAccepted(reqs))
    {
      var i := 0;
      ghost var done: seq<seq<PreparedVector>> := [];
      while i < |vectors|
        invariant 0 <= i <= |vectors|
        invariant Batches(vectors, BatchSize) == done + Batches(vectors[i..], BatchSize)
        invariant sent == old(sent) + UpsertRequests(ns, done)
        invariant AllAccepted(UpsertRequests(ns, done))
        decreases |vectors| - i
      {
        var end := if i + BatchSize < |vectors| then i + BatchSize else |vectors|;
        var batch := vectors[i..end];
        BatchesStep(vectors[i..], BatchSize, end - i);
        assert vectors[i..][..end - i] == batch;
        assert vectors[i..][end - i..] == vectors[end..];
        assert Batches(vectors, BatchSize) == done + ([batch] + Batches(vectors[end..], BatchSize));
        if !accepts(Upsert(ns, batch)) {
          RefusedBatch(ns, done, batch, Batches(vectors[end..], BatchSize));
          return false;
        }
        sent := sent + [Upsert(ns, batch)];
        AcceptedBatch(ns, done, batch);
        assert done + ([batch] + Batches(vectors[end..], BatchSize)) == (done + [batch]) + Batches(vectors[end..], BatchSize);
        done := done + [batch];
        i := end;
      }
      assert vectors[i..] == [];
      assert done + [] == done;
      AcceptedPrefixAppend(UpsertRequests(ns, done), []);
      assert UpsertRequests(ns, done) + [] == UpsertRequests(ns, done);
      ok := true;
    }

    /** `similarity_search`: no index, or a query that raises, gives no
        results; otherwise one formatted result per match, in order. */
    method SimilaritySearch(queryEmbedding: Vector, topK: int, filterMetadata: Option<Metadata>, namespace: Option<string>)
      returns (results: seq<SearchHit>)
      ensures !hasIndex ==> results == []
      ensures hasIndex && query(queryEmbedding, topK, filterMetadata.GetOr(map[]), TargetNamespace(namespace)).None? ==>
                results == []
      ensures hasIndex && query(queryEmbedding, topK, filterMetadata.GetOr(map[]), TargetNamespace(namespace)).Some? ==>
                var matches := query(queryEmbedding, topK, filterMetadata.GetOr(map[]), TargetNamespace(namespace)).value;
                |results| == |matches|
                && forall j :: 0 <= j < |matches| ==> results[j] == FormatMatch(matches[j], TargetNamespace(namespace))
    {
      if !hasIndex {
        return [];
      }
      var ns := TargetNamespace(namespace);
      var reply := query(queryEmbedding, topK, filterMetadata.GetOr(map[]), ns);
      if reply.None? {
        return [];
      }
      var matches := reply.value;
      results := [];
      for j := 0 to |matches|
        invariant |results| == j
        invariant forall k :: 0 <= k < j ==> results[k] == FormatMatch(matches[k], ns)
      {
        results := results + [FormatMatch(matches[j], ns)];
      }
    }

    /** `delete_namespace` */
    method DeleteNamespaceOf(namespace: string) returns (ok: bool)
      modifies this
      ensures ok <==> hasIndex && accepts(DeleteNamespace(namespace))
      ensures sent == if ok then old(sent) + [DeleteNamespace(namespace)] else old(sent)
    {
      if !hasIndex || !accepts(DeleteNamespace(namespace)) {
        return false;
      }
      sent := sent + [DeleteNamespace(namespace)];
      ok := true;
    }

    /** `delete_all_vectors`: a non-empty namespace delegates to
        `delete_namespace`; a missing or empty one clears the whole index. */
    method DeleteAllVectors(namespace: Option<string>) returns (ok: bool)
      modifies this
      ensures Present(namespace) ==> (ok <==> hasIndex && accepts(DeleteNamespace(namespace.value)))
                                     && sent == if ok then old(sent) + [DeleteNamespace(namespace.value)] else old(sent)
      ensures !Present(namespace) ==> (ok <==> hasIndex && accepts(DeleteAll))
                                      && sent == if ok then old(sent) + [DeleteAll] else old(sent)
    {
      if !hasIndex {
        return false;
      }
      if Present(namespace) {
        ok := DeleteNamespaceOf(namespace.value);
      } else if accepts(DeleteAll) {
        sent := sent + [DeleteAll];
        ok := true;
      } else {
        ok := false;
      }
    }
  }
}
