/** Records and enumerations of the ingestion pipeline (modals/document.py),
    with their defaults. `ProcessDocumentsRequest` and `BulkProcessRequest`
    are imported from that module by the services but not defined there; their
    fields and defaults are those the document router builds them with
    (routers/documents.py). */
module DocumentModels {
  import opened Common

  type Metadata = map<string, Value>

  /** `metadata.get(key, default)` */
  function Lookup(md: Metadata, key: string, default: Value): Value
  {
    if key in md then md[key] else default
  }

  datatype DocumentType = Knowledge | Product

  function DocumentTypeWire(t: DocumentType): string
  {
    match t
    case Knowledge => "knowledge"
    case Product => "product"
  }

  /** The two document types are sent as distinct strings. */
  lemma DocumentTypeWireInjective(a: DocumentType, b: DocumentType)
    ensures DocumentTypeWire(a) == DocumentTypeWire(b) ==> a == b
  {
  }

  datatype NamespaceType = KnowledgeNamespace | ProductsNamespace

  function NamespaceTypeWire(n: NamespaceType): string
  {
    match n
    case KnowledgeNamespace => "dog-health-knowledge"
    case ProductsNamespace => "marshee-products"
  }

  /** The two namespace types are sent as distinct strings. */
  lemma NamespaceTypeWireInjective(a: NamespaceType, b: NamespaceType)
    ensures NamespaceTypeWire(a) == NamespaceTypeWire(b) ==> a == b
  {
  }

  datatype DocumentChunk = DocumentChunk(
    chunkId: string,
    content: string,
    metadata: Metadata,
    embedding: Option<seq<real>>,
    documentType: DocumentType,
    namespace: string,
    originalNamespace: string,
    createdAt: Instant)

  /** `DocumentChunk(...)` without an embedding; the identifier comes from
      `uuid4` and the creation time from the clock. */
  function NewChunk(chunkId: string, content: string, metadata: Metadata, documentType: DocumentType,
                    namespace: string, originalNamespace: string, createdAt: Instant): (c: DocumentChunk)
    ensures c.embedding.None?
    ensures c.chunkId == chunkId && c.content == content && c.metadata == metadata
    ensures c.documentType == documentType && c.namespace == namespace
    ensures c.originalNamespace == originalNamespace && c.createdAt == createdAt
  {
    DocumentChunk(chunkId, content, metadata, None, documentType, namespace, originalNamespace, createdAt)
  }

  /** `metadata` is `Optional`: `None` is a legal value distinct from `{}`. */
  datatype DocumentCreate = DocumentCreate(
    filename: string,
    content: string,
    documentType: DocumentType,
    namespace: string,
    originalNamespace: string,
    metadata: Option<Metadata>)

  function NewDocumentCreate(filename: string, content: string, documentType: DocumentType,
                             namespace: string, originalNamespace: string): (d: DocumentCreate)
    ensures d.metadata == Some(map[])
    ensures d.filename == filename && d.content == content && d.documentType == documentType
    ensures d.namespace == namespace && d.originalNamespace == originalNamespace
  {
    DocumentCreate(filename, content, documentType, namespace, originalNamespace, Some(map[]))
  }

  datatype EmbeddingRequest = EmbeddingRequest(text: string, model: string, outputDimensionality: int)

  function NewEmbeddingRequest(text: string): (r: EmbeddingRequest)
    ensures r.text == text && r.model == "models/embedding-001" && r.outputDimensionality == 768
  {
    EmbeddingRequest(text, "models/embedding-001", 768)
  }

  datatype SimilaritySearchRequest = SimilaritySearchRequest(query: string, k: int, filterMetadata: Option<Metadata>)

  function NewSimilaritySearchRequest(query: string): (r: SimilaritySearchRequest)
    ensures r.query == query && r.k == 5 && r.filterMetadata == Some(map[])
  {
    SimilaritySearchRequest(query, 5, Some(map[]))
  }

  datatype ProcessDocumentsRequest = ProcessDocumentsRequest(
    documentType: DocumentType,
    targetNamespace: NamespaceType,
    sourceFolder: Option<string>,
    forceReindex: bool,
    includeSubfolders: bool)

  function NewProcessDocumentsRequest(documentType: DocumentType, targetNamespace: NamespaceType): (r: ProcessDocumentsRequest)
    ensures r.documentType == documentType && r.targetNamespace == targetNamespace
    ensures r.sourceFolder.None? && !r.forceReindex && !r.includeSubfolders
  {
    ProcessDocumentsRequest(documentType, targetNamespace, None, false, false)
  }

  datatype BulkProcessRequest = BulkProcessRequest(
    folderPath: string,
    targetNamespace: NamespaceType,
    documentType: DocumentType,
    filePattern: string,
    forceReindex: bool)

  function NewBulkProcessRequest(folderPath: string, targetNamespace: NamespaceType): (r: BulkProcessRequest)
    ensures r.folderPath == folderPath && r.targetNamespace == targetNamespace
    ensures r.documentType == Knowledge && r.filePattern == "*.txt" && !r.forceReindex
  {
    BulkProcessRequest(folderPath, targetNamespace, Knowledge, "*.txt", false)
  }
}
