/** The ingestion driver (services/knowledge_base_service.py): read the
    documents, optionally clear the target namespace, then chunk, embed,
    store and index each document and count what happened. The document
    repository is given as two functions; a `None` from `saveDocument` is a
    call that raises, which skips the document. */
module KnowledgeBase {
  import opened Common
  import opened DocumentModels
  import Documents
  import Embedding
  import VectorDb

  /** The collaborators the per-document steps call. `mintIds(d)` names the
      chunks of document `d`, and `clock(d)` is the time its chunks are made. */
  datatype Pipeline = Pipeline(
    split: Documents.Splitter,
    mintIds: nat -> nat -> string,
    clock: nat -> Instant,
    isoFormat: Instant -> string,
    embedConfig: Embedding.EmbeddingConfig,
    embedApi: Embedding.EmbedApi,
    /** `document_repo.save_document`: the new document's id. */
    saveDocument: (nat, DocumentCreate) -> Option<string>,
    /** `document_repo.save_chunks`: it catches its own errors and answers
        false, and the loop never reads the answer. */
    saveChunks: seq<DocumentChunk> -> bool)

  /** One element of `processing_results.files`. */
  datatype FileEntry = FileEntry(
    filename: string,
    documentId: string,
    documentType: DocumentType,
    targetNamespace: string,
    originalNamespace: string,
    namespaceOverride: bool,
    chunks: nat,
    embedded: nat,
    indexed: bool)

  /** `request_info` */
  datatype RequestInfo = RequestInfo(
    documentType: DocumentType,
    targetNamespace: NamespaceType,
    sourceFolder: Option<string>,
    forceReindex: bool)

  /** `processing_results` */
  datatype ProcessingResults = ProcessingResults(
    namespace: Option<string>,
    processedDocuments: nat,
    totalChunks: nat,
    embeddedChunks: nat,
    indexedChunks: nat,
    files: seq<FileEntry>)

  datatype Report =
    | NoDocuments(error: string)
    | Processed(requestInfo: RequestInfo, results: ProcessingResults)

  /** The chunks `create_chunks` makes of document `d`. */
  function ChunksFor(p: Pipeline, doc: DocumentCreate, d: nat): seq<DocumentChunk>
  {
    match p.split(doc.content)
    case None => []
    case Some(pieces) =>
      if doc.metadata.None? then []
      else Documents.Chunked(doc, doc.metadata.value, pieces, |pieces|, p.mintIds(d), p.clock(d), p.isoFormat)
  }

  /** The chunks `embed_document_chunks` returns for them. */
  function EmbeddedFor(p: Pipeline, chunks: seq<DocumentChunk>): seq<DocumentChunk>
  {
    Embedding.EmbeddingsPointwise(p.embedConfig, p.embedApi, Embedding.Contents(chunks));
    Embedding.KeepEmbedded(chunks, Embedding.Embeddings(p.embedConfig, p.embedApi, Embedding.Contents(chunks)))
  }

  /** Document `d` leaves no entry: saving it raises, it gives no chunks, or
      no chunk is embedded. */
  predicate Skipped(p: Pipeline, doc: DocumentCreate, d: nat)
  {
    p.saveDocument(d, doc).None?
    || ChunksFor(p, doc, d) == []
    || EmbeddedFor(p, ChunksFor(p, doc, d)) == []
  }

  /** The upsert requests `upsert_chunks` makes for document `d`: the
      vectors of its embedded chunks, in batches of 100, in its namespace. */
  function DocRequests(p: Pipeline, doc: DocumentCreate, d: nat): seq<VectorDb.IndexRequest>
  {
    var ns := VectorDb.TargetNamespace(Some(doc.namespace));
    VectorDb.UpsertRequests(ns, VectorDb.Batches(VectorDb.Prepared(EmbeddedFor(p, ChunksFor(p, doc, d)), ns, p.isoFormat),
                                                 VectorDb.BatchSize))
  }

  /** The requests the index carries out while document `d` is processed:
      none for a skipped document or without an index, otherwise its
      batches up to the first one refused. */
  function DocUpserts(idx: VectorDb.VectorIndex, p: Pipeline, doc: DocumentCreate, d: nat): seq<VectorDb.IndexRequest>
  {
    if Skipped(p, doc, d) || !idx.hasIndex then [] else idx.AcceptedPrefix(DocRequests(p, doc, d))
  }

  /** What `upsert_chunks` answers for document `d`. */
  predicate DocIndexed(idx: VectorDb.VectorIndex, p: Pipeline, doc: DocumentCreate, d: nat)
  {
    var ns := VectorDb.TargetNamespace(Some(doc.namespace));
    && !Skipped(p, doc, d) && idx.hasIndex
    && VectorDb.Prepared(EmbeddedFor(p, ChunksFor(p, doc, d)), ns, p.isoFormat) != []
    && idx.AllAccepted(DocRequests(p, doc, d))
  }

  /** A document counts as indexed exactly when the index carried out every
      one of its batches, and there was at least one. */
  lemma DocIndexedIffAllSent(idx: VectorDb.VectorIndex, p: Pipeline, doc: DocumentCreate, d: nat)
    ensures DocIndexed(idx, p, doc, d) <==>
              !Skipped(p, doc, d) && idx.hasIndex && DocUpserts(idx, p, doc, d) == DocRequests(p, doc, d)
              && DocUpserts(idx, p, doc, d) != []
  {
    var ns := VectorDb.TargetNamespace(Some(doc.namespace));
    var v := VectorDb.Prepared(EmbeddedFor(p, ChunksFor(p, doc, d)), ns, p.isoFormat);
    idx.AcceptedPrefixProperties(DocRequests(p, doc, d));
    if v != [] {
      assert |VectorDb.Batches(v, VectorDb.BatchSize)| > 0;
    }
  }

  /** The requests the index carries out for the first `n` documents, in order. */
  function ListUpserts(idx: VectorDb.VectorIndex, p: Pipeline, docs: seq<DocumentCreate>, n: nat): seq<VectorDb.IndexRequest>
    requires n <= |docs|
  {
    if n == 0 then [] else ListUpserts(idx, p, docs, n - 1) + DocUpserts(idx, p, docs[n - 1], n - 1)
  }

  /** One more document appends its own upserts. */
  lemma ListUpsertsStep(idx: VectorDb.VectorIndex, p: Pipeline, docs: seq<DocumentCreate>, d: nat,
                        before: seq<VectorDb.IndexRequest>, mid: seq<VectorDb.IndexRequest>, after: seq<VectorDb.IndexRequest>)
    requires d < |docs|
    requires mid == before + ListUpserts(idx, p, docs, d)
    requires after == mid + DocUpserts(idx, p, docs[d], d)
    ensures after == before + ListUpserts(idx, p, docs, d + 1)
  {
  }

  /** The documents only ever add vectors to the index. */
  lemma {:induction false} ListUpsertsOnlyUpserts(idx: VectorDb.VectorIndex, p: Pipeline, docs: seq<DocumentCreate>, n: nat)
    requires n <= |docs|
    ensures VectorDb.OnlyUpserts(ListUpserts(idx, p, docs, n))
  {
    if n > 0 {
      ListUpsertsOnlyUpserts(idx, p, docs, n - 1);
      var doc := docs[n - 1];
      var front := ListUpserts(idx, p, docs, n - 1);
      var last := DocUpserts(idx, p, doc, n - 1);
      if !Skipped(p, doc, n - 1) && idx.hasIndex {
        var ns := VectorDb.TargetNamespace(Some(doc.namespace));
        idx.AcceptedUpserts(ns, VectorDb.Batches(VectorDb.Prepared(EmbeddedFor(p, ChunksFor(p, doc, n - 1)), ns, p.isoFormat),
                                                 VectorDb.BatchSize));
      }
      assert VectorDb.OnlyUpserts(last);
      forall j | 0 <= j < |front + last| ensures (front + last)[j].Upsert? {
        if j < |front| {
          assert (front + last)[j] == front[j];
        } else {
          assert (front + last)[j] == last[j - |front|];
        }
      }
    }
  }

  /** The entry of a document that was not skipped; `indexed` is what the
      upsert answered. */
  function EntryOf(p: Pipeline, doc: DocumentCreate, d: nat, indexed: bool): FileEntry
    requires !Skipped(p, doc, d)
  {
    FileEntry(doc.filename, p.saveDocument(d, doc).value, doc.documentType, doc.namespace, doc.originalNamespace,
              doc.namespace != doc.originalNamespace,
              |ChunksFor(p, doc, d)|, |EmbeddedFor(p, ChunksFor(p, doc, d))|, indexed)
  }

  /** An entry reports the override flag exactly when the namespaces differ,
      and counts at least one embedded chunk and no more than were made. */
  lemma EntryOfProperties(p: Pipeline, doc: DocumentCreate, d: nat, indexed: bool)
    requires !Skipped(p, doc, d)
    ensures var e := EntryOf(p, doc, d, indexed);
            && (e.namespaceOverride <==> e.targetNamespace != e.originalNamespace)
            && 0 < e.embedded <= e.chunks
            && e.filename == doc.filename && e.indexed == indexed
  {
    var chunks := ChunksFor(p, doc, d);
    Embedding.EmbeddingsPointwise(p.embedConfig, p.embedApi, Embedding.Contents(chunks));
    Embedding.KeepEmbeddedProperties(chunks, Embedding.Embeddings(p.embedConfig, p.embedApi, Embedding.Contents(chunks)));
  }

  /** Which documents are skipped, by position. */
  function SkipFlags(p: Pipeline, docs: seq<DocumentCreate>): (flags: seq<bool>)
    ensures |flags| == |docs|
    ensures forall d :: 0 <= d < |docs| ==> flags[d] == Skipped(p, docs[d], d)
  {
    seq(|docs|, d requires 0 <= d < |docs| => Skipped(p, docs[d], d))
  }

  function SumChunks(files: seq<FileEntry>): nat
  {
    if files == [] then 0 else SumChunks(files[..|files| - 1]) + files[|files| - 1].chunks
  }

  function SumEmbedded(files: seq<FileEntry>): nat
  {
    if files == [] then 0 else SumEmbedded(files[..|files| - 1]) + files[|files| - 1].embedded
  }

  /** Only the entries whose upsert succeeded count as indexed. */
  function SumIndexed(files: seq<FileEntry>): nat
  {
    if files == [] then 0
    else SumIndexed(files[..|files| - 1]) + (if files[|files| - 1].indexed then files[|files| - 1].embedded else 0)
  }

  ghost predicate EntriesBounded(files: seq<FileEntry>)
  {
    forall j :: 0 <= j < |files| ==> files[j].embedded <= files[j].chunks
  }

  /** Indexed chunks never outnumber embedded ones, nor embedded ones the
      chunks made. */
  lemma {:induction false} SumsOrdered(files: seq<FileEntry>)
    requires EntriesBounded(files)
    ensures SumIndexed(files) <= SumEmbedded(files) <= SumChunks(files)
  {
    if files != [] {
      var init := files[..|files| - 1];
      assert forall j :: 0 <= j < |init| ==> init[j] == files[j];
      SumsOrdered(init);
    }
  }

  /** The counters of `processing_results` are the sums over its file
      entries, and every entry is well formed. */
  ghost predicate Tallied(r: ProcessingResults)
  {
    && |r.files| == r.processedDocuments
    && r.totalChunks == SumChunks(r.files)
    && r.embeddedChunks == SumEmbedded(r.files)
    && r.indexedChunks == SumIndexed(r.files)
    && EntriesBounded(r.files)
    && forall j :: 0 <= j < |r.files| ==>
         (r.files[j].namespaceOverride <==> r.files[j].targetNamespace != r.files[j].originalNamespace)
  }

  /** Tallied counters, which are therefore ordered. */
  ghost predicate Consistent(r: ProcessingResults)
  {
    Tallied(r) && r.indexedChunks <= r.embeddedChunks <= r.totalChunks
  }

  /** The update of `processing_results` for a processed document. */
  function Record(r: ProcessingResults, e: FileEntry): ProcessingResults
  {
    r.(processedDocuments := r.processedDocuments + 1,
       totalChunks := r.totalChunks + e.chunks,
       embeddedChunks := r.embeddedChunks + e.embedded,
       indexedChunks := r.indexedChunks + (if e.indexed then e.embedded else 0),
       files := r.files + [e])
  }

  /** Recording a well-formed entry keeps the counters tallied. */
  lemma RecordTallied(r: ProcessingResults, e: FileEntry)
    requires Tallied(r)
    requires e.embedded <= e.chunks && (e.namespaceOverride <==> e.targetNamespace != e.originalNamespace)
    ensures Tallied(Record(r, e))
  {
    SumsAppend(r.files, e);
    var files := r.files + [e];
    assert forall j :: 0 <= j < |r.files| ==> files[j] == r.files[j];
  }

  /** The entries are those of the kept documents, in document order. */
  ghost predicate EntriesOfKept(idx: VectorDb.VectorIndex, p: Pipeline, docs: seq<DocumentCreate>, n: nat, files: seq<FileEntry>)
    requires n <= |docs|
  {
    var kept := KeptIndices(SkipFlags(p, docs), n);
    KeptIndicesSound(SkipFlags(p, docs), n);
    |files| == |kept|
    && forall j :: 0 <= j < |files| ==>
         files[j] == EntryOf(p, docs[kept[j]], kept[j], DocIndexed(idx, p, docs[kept[j]], kept[j]))
  }

  /** Before any document, there is no entry and nothing is counted. */
  lemma NothingProcessed(idx: VectorDb.VectorIndex, p: Pipeline, docs: seq<DocumentCreate>, namespace: Option<string>)
    ensures EntriesOfKept(idx, p, docs, 0, [])
    ensures Tallied(ProcessingResults(namespace, 0, 0, 0, 0, []))
  {
  }

  /** One more document extends the entries by its own, if it has one. */
  lemma EntriesOfKeptStep(idx: VectorDb.VectorIndex, p: Pipeline, docs: seq<DocumentCreate>, d: nat, files: seq<FileEntry>,
                          entry: Option<FileEntry>)
    requires d < |docs| && EntriesOfKept(idx, p, docs, d, files)
    requires entry == if Skipped(p, docs[d], d) then None else Some(EntryOf(p, docs[d], d, DocIndexed(idx, p, docs[d], d)))
    ensures EntriesOfKept(idx, p, docs, d + 1, files + if entry.Some? then [entry.value] else [])
  {
    var flags := SkipFlags(p, docs);
    KeptIndicesSound(flags, d);
    KeptIndicesSound(flags, d + 1);
    var kept := KeptIndices(flags, d);
    assert KeptIndices(flags, d + 1) == kept + (if flags[d] then [] else [d]);
    var files' := files + if entry.Some? then [entry.value] else [];
    var kept' := KeptIndices(flags, d + 1);
    forall j | 0 <= j < |files'|
      ensures files'[j] == EntryOf(p, docs[kept'[j]], kept'[j], DocIndexed(idx, p, docs[kept'[j]], kept'[j]))
    {
      if j < |files| {
        assert files'[j] == files[j] && kept'[j] == kept[j];
      }
    }
  }

  /** Appending counts to the sums. */
  lemma SumsAppend(files: seq<FileEntry>, e: FileEntry)
    ensures SumChunks(files + [e]) == SumChunks(files) + e.chunks
    ensures SumEmbedded(files + [e]) == SumEmbedded(files) + e.embedded
    ensures SumIndexed(files + [e]) == SumIndexed(files) + (if e.indexed then e.embedded else 0)
  {
    assert (files + [e])[..|files|] == files;
  }

  class KnowledgeBaseService {
    const config: Documents.ProcessorConfig
    const lister: Documents.Lister
    const helpers: Documents.Helpers
    const pipeline: Pipeline
    const vectorDb: VectorDb.VectorIndex

    constructor (config: Documents.ProcessorConfig, lister: Documents.Lister, helpers: Documents.Helpers,
                 pipeline: Pipeline, vectorDb: VectorDb.VectorIndex)
      ensures this.config == config && this.lister == lister && this.helpers == helpers
      ensures this.pipeline == pipeline && this.vectorDb == vectorDb
    {
      this.config := config;
      this.lister := lister;
      this.helpers := helpers;
      this.pipeline := pipeline;
      this.vectorDb := vectorDb;
    }

    /** One pass of the loop body of `_process_document_list`: a skipped
        document leaves no entry and sends nothing; otherwise its chunks are
        saved (the answer is not read), upserted to its namespace, and its
        entry records what the upsert answered. */
    method ProcessDocument(doc: DocumentCreate, d: nat) returns (entry: Option<FileEntry>)
      modifies vectorDb
      ensures vectorDb.sent == old(vectorDb.sent) + DocUpserts(vectorDb, pipeline, doc, d)
      ensures entry == if Skipped(pipeline, doc, d) then None
                       else Some(EntryOf(pipeline, doc, d, DocIndexed(vectorDb, pipeline, doc, d)))
    {
      var p := pipeline;
      var documentId := p.saveDocument(d, doc);
      if documentId.None? {
        return None;
      }
      var chunks := Documents.CreateChunks(doc, p.split, p.mintIds(d), p.clock(d), p.isoFormat);
      assert chunks == ChunksFor(p, doc, d);
      if chunks == [] {
        return None;
      }
      var embedded := Embedding.EmbedDocumentChunks(p.embedConfig, p.embedApi, chunks);
      assert embedded == EmbeddedFor(p, chunks);
      if embedded == [] {
        return None;
      }
      var _ := p.saveChunks(embedded);
      var indexed := vectorDb.UpsertChunks(embedded, Some(doc.namespace), p.isoFormat);
      entry := Some(FileEntry(doc.filename, documentId.value, doc.documentType, doc.namespace, doc.originalNamespace,
                              doc.namespace != doc.originalNamespace, |chunks|, |embedded|, indexed));
    }

    /** The state of `_process_document_list` after the first `d`
        documents: the counters are tallied, the entries are those of the
        kept documents, and the index carried out exactly their upserts
        since `before`. */
    ghost predicate Progress(docs: seq<DocumentCreate>, d: nat, r: ProcessingResults,
                             before: seq<VectorDb.IndexRequest>, after: seq<VectorDb.IndexRequest>)
    {
      && d <= |docs|
      && r.namespace == (if docs == [] then None else Some(docs[0].namespace))
      && Tallied(r)
      && EntriesOfKept(vectorDb, pipeline, docs, d, r.files)
      && after == before + ListUpserts(vectorDb, pipeline, docs, d)
    }

    /** The `try` block of the loop: process document `d` and record its entry. */
    method ProcessAndRecord(docs: seq<DocumentCreate>, d: nat, r: ProcessingResults, ghost before: seq<VectorDb.IndexRequest>)
      returns (r': ProcessingResults)
      requires d < |docs| && Progress(docs, d, r, before, vectorDb.sent)
      modifies vectorDb
      ensures Progress(docs, d + 1, r', before, vectorDb.sent)
    {
      ghost var mid := vectorDb.sent;
      var entry := ProcessDocument(docs[d], d);
      ListUpsertsStep(vectorDb, pipeline, docs, d, before, mid, vectorDb.sent);
      EntriesOfKeptStep(vectorDb, pipeline, docs, d, r.files, entry);
      if entry.Some? {
        EntryOfProperties(pipeline, docs[d], d, entry.value.indexed);
        RecordTallied(r, entry.value);
        r' := Record(r, entry.value);
      } else {
        assert r.files + [] == r.files;
        r' := r;
      }
    }

    /** `_process_document_list`: every document is tried in order; the
        counters agree with the entries, which are those of the documents
        that were not skipped, and the index carried out exactly the
        documents' upserts, in document order. */
    method ProcessDocumentList(docs: seq<DocumentCreate>) returns (r: ProcessingResults)
      modifies vectorDb
      ensures r.namespace == if docs == [] then None else Some(docs[0].namespace)
      ensures Consistent(r)
      ensures EntriesOfKept(vectorDb, pipeline, docs, |docs|, r.files)
      ensures vectorDb.sent == old(vectorDb.sent) + ListUpserts(vectorDb, pipeline, docs, |docs|)
    {
      r := ProcessingResults(if docs == [] then None else Some(docs[0].namespace), 0, 0, 0, 0, []);
      ghost var before := vectorDb.sent;
      NothingProcessed(vectorDb, pipeline, docs, r.namespace);
      assert before + [] == before;
      for d := 0 to |docs|
        invariant Progress(docs, d, r, before, vectorDb.sent)
      {
        r := ProcessAndRecord(docs, d, r, before);
      }
      SumsOrdered(r.files);
    }

    /** The documents `read_text_files_flexible` yields for a request. */
    function FlexibleDocuments(request: ProcessDocumentsRequest): seq<DocumentCreate>
    {
      match lister(Documents.SourceFolder(config, request), "*.txt", request.includeSubfolders)
      case None => []
      case Some(files) => Documents.ProcessedFiles(files, false, request.documentType,
                                                   Documents.FlexibleNamespaces(config, request), helpers)
    }

    /** The documents `read_text_files_bulk` yields for a request. */
    function BulkDocuments(request: BulkProcessRequest): seq<DocumentCreate>
    {
      match lister(request.folderPath, request.filePattern, false)
      case None => []
      case Some(files) => Documents.ProcessedFiles(files, true, request.documentType,
                                                   Documents.BulkNamespaces(config, request), helpers)
    }

    /** The optional clearing step: with `force`, the namespace of the first
        document is deleted, once. */
    method ClearIfForced(force: bool, namespace: string)
      modifies vectorDb
      ensures var deleted := force && vectorDb.hasIndex && vectorDb.accepts(VectorDb.DeleteNamespace(namespace));
              vectorDb.sent == if deleted then old(vectorDb.sent) + [VectorDb.DeleteNamespace(namespace)] else old(vectorDb.sent)
    {
      if force {
        var _ := vectorDb.DeleteNamespaceOf(namespace);
      }
    }

    /** `process_documents_flexible`: no documents is an error and clears
        nothing; otherwise the optional clearing comes first, then the upserts of the
        documents, in order. */
    method ProcessDocumentsFlexible(request: ProcessDocumentsRequest) returns (r: Report)
      modifies vectorDb
      ensures FlexibleDocuments(request) == [] ==>
                r == NoDocuments("No documents found to process") && vectorDb.sent == old(vectorDb.sent)
      ensures FlexibleDocuments(request) != [] ==>
                var docs := FlexibleDocuments(request);
                var deleted := request.forceReindex && vectorDb.hasIndex
                               && vectorDb.accepts(VectorDb.DeleteNamespace(docs[0].namespace));
                && r.Processed?
                && r.requestInfo == RequestInfo(request.documentType, request.targetNamespace, request.sourceFolder,
                                                request.forceReindex)
                && r.results.namespace == Some(docs[0].namespace)
                && Consistent(r.results)
                && EntriesOfKept(vectorDb, pipeline, docs, |docs|, r.results.files)
                && vectorDb.sent == old(vectorDb.sent) + (if deleted then [VectorDb.DeleteNamespace(docs[0].namespace)] else [])
                                    + ListUpserts(vectorDb, pipeline, docs, |docs|)
    {
      var docs := Documents.ReadTextFilesFlexible(config, request, lister, helpers);
      assert docs == FlexibleDocuments(request);
      if docs == [] {
        return NoDocuments("No documents found to process");
      }
      ghost var start := vectorDb.sent;
      ClearIfForced(request.forceReindex, docs[0].namespace);
      ghost var deleted := request.forceReindex && vectorDb.hasIndex
                           && vectorDb.accepts(VectorDb.DeleteNamespace(docs[0].namespace));
      assert vectorDb.sent == start + (if deleted then [VectorDb.DeleteNamespace(docs[0].namespace)] else []);
      var results := ProcessDocumentList(docs);
      r := Processed(RequestInfo(request.documentType, request.targetNamespace, request.sourceFolder,
                                 request.forceReindex), results);
    }

    /** `process_documents_bulk`: like the flexible path, but the list is
        processed under a request whose `force_reindex` is false, so the
        namespace is cleared at most once. */
    method ProcessDocumentsBulk(request: BulkProcessRequest) returns (r: Report)
      modifies vectorDb
      ensures BulkDocuments(request) == [] ==>
                r == NoDocuments("No documents found matching pattern '" + request.filePattern + "' in " + request.folderPath)
                && vectorDb.sent == old(vectorDb.sent)
      ensures BulkDocuments(request) != [] ==>
                var docs := BulkDocuments(request);
                var deleted := request.forceReindex && vectorDb.hasIndex
                               && vectorDb.accepts(VectorDb.DeleteNamespace(docs[0].namespace));
                && r.Processed?
                && r.requestInfo == RequestInfo(request.documentType, request.targetNamespace, None, false)
                && r.results.namespace == Some(docs[0].namespace)
                && Consistent(r.results)
                && EntriesOfKept(vectorDb, pipeline, docs, |docs|, r.results.files)
                && vectorDb.sent == old(vectorDb.sent) + (if deleted then [VectorDb.DeleteNamespace(docs[0].namespace)] else [])
                                    + ListUpserts(vectorDb, pipeline, docs, |docs|)
    {
      var docs := Documents.ReadTextFilesBulk(config, request, lister, helpers);
      assert docs == BulkDocuments(request);
      if docs == [] {
        return NoDocuments("No documents found matching pattern '" + request.filePattern + "' in " + request.folderPath);
      }
      ghost var start := vectorDb.sent;
      ClearIfForced(request.forceReindex, docs[0].namespace);
      ghost var deleted := request.forceReindex && vectorDb.hasIndex
                           && vectorDb.accepts(VectorDb.DeleteNamespace(docs[0].namespace));
      assert vectorDb.sent == start + (if deleted then [VectorDb.DeleteNamespace(docs[0].namespace)] else []);
      var processRequest := NewProcessDocumentsRequest(request.documentType, request.targetNamespace);
      var results := ProcessDocumentList(docs);
      r := Processed(RequestInfo(processRequest.documentType, processRequest.targetNamespace,
                                 processRequest.sourceFolder, processRequest.forceReindex), results);
    }
  }
}
