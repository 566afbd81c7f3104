/** The document processor (services/document_service.py): where the files of
    an ingestion run are read from, which namespaces they go to, the metadata
    each file gets, the filename keyword classification and the chunking.
    The filesystem listing, the text splitter, the text cleaner and the two
    category helpers the processor calls but does not define are opaque
    functions; chunk identifiers and the clock are parameters. */
module Documents {
  import opened Common
  import opened Text
  import opened DocumentModels

  datatype ProcessorConfig = ProcessorConfig(
    knowledgeFolder: string,
    productsFolder: string,
    knowledgeNamespace: string,
    productsNamespace: string)

  /** The configuration when no environment variable overrides it. */
  function DefaultConfig(): (c: ProcessorConfig)
    ensures c.knowledgeFolder == "data/knowledge" && c.productsFolder == "data/products"
    ensures c.knowledgeNamespace == NamespaceTypeWire(KnowledgeNamespace)
    ensures c.productsNamespace == NamespaceTypeWire(ProductsNamespace)
  {
    ProcessorConfig("data/knowledge", "data/products", "dog-health-knowledge", "marshee-products")
  }

  /** `namespace_map[n]`. */
  function NamespaceFor(cfg: ProcessorConfig, n: NamespaceType): string
  {
    match n
    case KnowledgeNamespace => cfg.knowledgeNamespace
    case ProductsNamespace => cfg.productsNamespace
  }

  /** The namespace type a document type belongs to by default. */
  function HomeNamespace(t: DocumentType): NamespaceType
  {
    if t == Knowledge then KnowledgeNamespace else ProductsNamespace
  }

  /** The folder a flexible run reads: the requested one when given,
      otherwise the folder of the document type. */
  function SourceFolder(cfg: ProcessorConfig, request: ProcessDocumentsRequest): (folder: string)
    ensures Present(request.sourceFolder) ==> folder == request.sourceFolder.value
    ensures !Present(request.sourceFolder) && request.documentType == Knowledge ==> folder == cfg.knowledgeFolder
    ensures !Present(request.sourceFolder) && request.documentType == Product ==> folder == cfg.productsFolder
  {
    if Present(request.sourceFolder) then request.sourceFolder.value
    else if request.documentType == Knowledge then cfg.knowledgeFolder
    else cfg.productsFolder
  }

  /** A target namespace and the namespace the document type would have had. */
  datatype Namespaces = Namespaces(target: string, original: string)

  function FlexibleNamespaces(cfg: ProcessorConfig, request: ProcessDocumentsRequest): (ns: Namespaces)
    ensures ns.target == NamespaceFor(cfg, request.targetNamespace)
    ensures ns.original == NamespaceFor(cfg, HomeNamespace(request.documentType))
  {
    Namespaces(NamespaceFor(cfg, request.targetNamespace), NamespaceFor(cfg, HomeNamespace(request.documentType)))
  }

  /** A flexible run overrides the namespace exactly when it targets the
      namespace of the other document type (with distinct namespace names). */
  lemma FlexibleOverrideIff(cfg: ProcessorConfig, request: ProcessDocumentsRequest)
    requires cfg.knowledgeNamespace != cfg.productsNamespace
    ensures var ns := FlexibleNamespaces(cfg, request);
            ns.target != ns.original <==> request.targetNamespace != HomeNamespace(request.documentType)
  {
  }

  /** In bulk mode the original namespace is the target itself. */
  function BulkNamespaces(cfg: ProcessorConfig, request: BulkProcessRequest): (ns: Namespaces)
    ensures ns.target == NamespaceFor(cfg, request.targetNamespace) && ns.original == ns.target
  {
    Namespaces(NamespaceFor(cfg, request.targetNamespace), NamespaceFor(cfg, request.targetNamespace))
  }

  // ---------------------------------------------------------------------
  // Filename keyword classification

  /** A keyword group: the category given to a name that contains any of the words. */
  datatype KeywordGroup = KeywordGroup(words: seq<string>, category: string)

  /** The index of the first group with a word in `name`, or `|groups|`. */
  function FirstMatchIndex(name: string, groups: seq<KeywordGroup>): (k: nat)
    ensures k <= |groups|
    ensures forall j :: 0 <= j < k ==> !ContainsAny(name, groups[j].words)
    ensures k < |groups| ==> ContainsAny(name, groups[k].words)
  {
    if groups == [] then 0
    else if ContainsAny(name, groups[0].words) then 0
    else 1 + FirstMatchIndex(name, groups[1..])
  }

  /** The category of the first matching group, or `fallback` when none matches. */
  function FirstMatch(name: string, groups: seq<KeywordGroup>, fallback: string): string
  {
    var k := FirstMatchIndex(name, groups);
    if k < |groups| then groups[k].category else fallback
  }

  /** The first group that matches wins, whatever later groups match too. */
  lemma FirstMatchWins(name: string, groups: seq<KeywordGroup>, fallback: string, k: nat)
    requires k < |groups| && ContainsAny(name, groups[k].words)
    requires forall j :: 0 <= j < k ==> !ContainsAny(name, groups[j].words)
    ensures FirstMatch(name, groups, fallback) == groups[k].category
  {
    var m := FirstMatchIndex(name, groups);
    assert !(m < k);
  }

  /** A name matching no group gets the fallback. */
  lemma FirstMatchFallback(name: string, groups: seq<KeywordGroup>, fallback: string)
    requires forall j :: 0 <= j < |groups| ==> !ContainsAny(name, groups[j].words)
    ensures FirstMatch(name, groups, fallback) == fallback
  {
  }

  const KnowledgeGroups: seq<KeywordGroup> := [
    KeywordGroup(["disease", "illness", "condition"], "medical_conditions"),
    KeywordGroup(["treatment", "therapy", "medication"], "treatments"),
    KeywordGroup(["prevention", "vaccine", "preventive"], "prevention"),
    KeywordGroup(["emergency", "first_aid", "urgent"], "emergency_care")
  ]

  const ProductGroups: seq<KeywordGroup> := [
    KeywordGroup(["dry", "kibble"], "dry_food"),
    KeywordGroup(["wet", "canned", "pouch"], "wet_food"),
    KeywordGroup(["treat", "snack", "biscuit"], "treats"),
    KeywordGroup(["supplement", "vitamin", "health"], "supplements"),
    KeywordGroup(["toy", "play"], "toys")
  ]

  /** `_detect_knowledge_type`: case-insensitive, first group wins. */
  function DetectKnowledgeType(filename: string): string
  {
    FirstMatch(Lower(filename), KnowledgeGroups, "general_knowledge")
  }

  /** `_extract_product_type_from_filename`: case-insensitive, first group wins. */
  function ExtractProductType(filename: string): string
  {
    FirstMatch(Lower(filename), ProductGroups, "general_product")
  }

  /** A name with a medical-condition word is classified as such, even when
      it also holds a treatment, prevention or emergency word. */
  lemma MedicalConditionsWin(filename: string)
    requires ContainsAny(Lower(filename), ["disease", "illness", "condition"])
    ensures DetectKnowledgeType(filename) == "medical_conditions"
  {
    FirstMatchWins(Lower(filename), KnowledgeGroups, "general_knowledge", 0);
  }

  /** The knowledge type is the category of the first group of the fixed order
      that matches the lower-cased name, and "general_knowledge" when none does. */
  lemma KnowledgeTypeIsFirstMatch(filename: string)
    ensures var r := DetectKnowledgeType(filename);
            var k := FirstMatchIndex(Lower(filename), KnowledgeGroups);
            (k < 4 ==> r == KnowledgeGroups[k].category
                       && ContainsAny(Lower(filename), KnowledgeGroups[k].words)
                       && forall j :: 0 <= j < k ==> !ContainsAny(Lower(filename), KnowledgeGroups[j].words))
            && (k == 4 <==> r == "general_knowledge")
  {
  }

  /** The product type is the category of the first group of the fixed order
      that matches the lower-cased name, and "general_product" when none does. */
  lemma ProductTypeIsFirstMatch(filename: string)
    ensures var r := ExtractProductType(filename);
            var k := FirstMatchIndex(Lower(filename), ProductGroups);
            (k < 5 ==> r == ProductGroups[k].category
                       && ContainsAny(Lower(filename), ProductGroups[k].words)
                       && forall j :: 0 <= j < k ==> !ContainsAny(Lower(filename), ProductGroups[j].words))
            && (k == 5 <==> r == "general_product")
  {
  }

  // ---------------------------------------------------------------------
  // Files and their metadata

  /** A listed file: its path, the components of the path (`Path.parts`),
      what `stat` reports, and its content, absent when reading or decoding
      it as UTF-8 fails. */
  datatype FileInfo = FileInfo(path: string, parts: seq<string>, size: nat, ctime: Instant, mtime: Instant,
                               content: Option<string>)

  /** `Path.name`: the last component. */
  function FileName(f: FileInfo): string
  {
    if f.parts == [] then "" else f.parts[|f.parts| - 1]
  }

  /** The last position of `c` in `s`. */
  function LastIndexOf(s: string, c: char): (r: Option<nat>)
    ensures r.Some? ==> r.value < |s| && s[r.value] == c && forall j :: r.value < j < |s| ==> s[j] != c
    ensures r.None? ==> forall j :: 0 <= j < |s| ==> s[j] != c
  {
    if s == [] then None
    else if s[|s| - 1] == c then Some(|s| - 1)
    else LastIndexOf(s[..|s| - 1], c)
  }

  /** `Path.suffix`: from the last dot on, unless that dot starts or ends the name. */
  function PathSuffix(name: string): (r: string)
    ensures r != "" ==> r[0] == '.' && |r| >= 2 && |r| < |name| && r == name[|name| - |r|..]
    ensures r != "" ==> forall j :: 1 <= j < |r| ==> r[j] != '.'
  {
    match LastIndexOf(name, '.')
    case None => ""
    case Some(i) => if 0 < i < |name| - 1 then name[i..] else ""
  }

  /** The suffix test of pattern processing: `.txt` in any case. */
  predicate HasTxtSuffix(name: string)
  {
    Lower(PathSuffix(name)) == ".txt"
  }

  /** The collaborators the processor needs but does not define. */
  datatype Helpers = Helpers(
    cleanText: string -> string,
    knowledgeCategory: string -> string,
    productCategory: string -> string,
    /** `datetime.fromtimestamp(t).isoformat()` */
    isoFormat: Instant -> string)

  /** The entries `_create_file_metadata` starts from. */
  function BaseMetadata(f: FileInfo, documentType: DocumentType, ns: Namespaces, h: Helpers): Metadata
  {
    map[
      "file_path" := VStr(f.path),
      "file_name" := VStr(FileName(f)),
      "file_size" := VInt(f.size),
      "created_at" := VStr(h.isoFormat(f.ctime)),
      "modified_at" := VStr(h.isoFormat(f.mtime)),
      "document_type" := VStr(DocumentTypeWire(documentType)),
      "target_namespace" := VStr(ns.target),
      "original_namespace" := VStr(ns.original),
      "namespace_override" := VBool(ns.target != ns.original)]
  }

  /** The entries a document type adds. */
  function TypeMetadata(name: string, documentType: DocumentType, h: Helpers): Metadata
  {
    if documentType == Knowledge then
      map[
        "content_type" := VStr("dog_health_knowledge"),
        "category" := VStr(h.knowledgeCategory(name)),
        "source" := VStr("veterinary_literature"),
        "knowledge_type" := VStr(DetectKnowledgeType(name))]
    else
      map[
        "content_type" := VStr("marshee_product"),
        "product_category" := VStr(h.productCategory(name)),
        "brand" := VStr("Marshee"),
        "product_type" := VStr(ExtractProductType(name))]
  }

  /** The entries a file below some folder adds. */
  function FolderMetadata(parts: seq<string>): Metadata
  {
    if |parts| > 1 then
      map["source_folder" := VStr(parts[|parts| - 2]), "folder_path" := VStr(Join(parts[..|parts| - 1], "/"))]
    else map[]
  }

  /** `_create_file_metadata`: later entries override earlier ones, as `update` does. */
  function FileMetadata(f: FileInfo, documentType: DocumentType, ns: Namespaces, h: Helpers): Metadata
  {
    BaseMetadata(f, documentType, ns, h) + TypeMetadata(FileName(f), documentType, h) + FolderMetadata(f.parts)
  }

  /** The entries added after the base ones leave these base entries alone. */
  lemma BaseKeysKept(name: string, documentType: DocumentType, h: Helpers, parts: seq<string>)
    ensures var t := TypeMetadata(name, documentType, h);
            "namespace_override" !in t && "document_type" !in t && "target_namespace" !in t
            && "original_namespace" !in t && "file_name" !in t
    ensures var d := FolderMetadata(parts);
            "namespace_override" !in d && "document_type" !in d && "target_namespace" !in d
            && "original_namespace" !in d && "file_name" !in d
  {
    BaseKeysNotFolderKeys(parts);
  }

  lemma BaseKeysNotFolderKeys(parts: seq<string>)
    ensures var d := FolderMetadata(parts);
            "namespace_override" !in d && "document_type" !in d && "target_namespace" !in d
            && "original_namespace" !in d && "file_name" !in d
  {
  }

  /** The metadata of a file records its document type, both namespaces
      and whether the target overrides the original. */
  lemma FileMetadataNamespaces(f: FileInfo, documentType: DocumentType, ns: Namespaces, h: Helpers)
    ensures var m := FileMetadata(f, documentType, ns, h);
            "namespace_override" in m && m["namespace_override"] == VBool(ns.target != ns.original)
            && "document_type" in m && m["document_type"] == VStr(DocumentTypeWire(documentType))
            && "target_namespace" in m && m["target_namespace"] == VStr(ns.target)
            && "original_namespace" in m && m["original_namespace"] == VStr(ns.original)
            && "file_name" in m && m["file_name"] == VStr(FileName(f))
  {
    BaseKeysKept(FileName(f), documentType, h, f.parts);
  }

  /** A knowledge file is classified by `DetectKnowledgeType` and gets no
      product type; a product file the other way round. */
  lemma FileMetadataType(f: FileInfo, documentType: DocumentType, ns: Namespaces, h: Helpers)
    ensures var m := FileMetadata(f, documentType, ns, h);
            (documentType == Knowledge ==>
               "knowledge_type" in m && m["knowledge_type"] == VStr(DetectKnowledgeType(FileName(f)))
               && "product_type" !in m)
            && (documentType == Product ==>
               "product_type" in m && m["product_type"] == VStr(ExtractProductType(FileName(f)))
               && "knowledge_type" !in m)
  {
    var d := FolderMetadata(f.parts);
    assert "knowledge_type" !in d && "product_type" !in d;
    assert "knowledge_type" !in BaseMetadata(f, documentType, ns, h);
    assert "product_type" !in BaseMetadata(f, documentType, ns, h);
  }

  /** Folder entries are present exactly when the path has a parent
      component: the parent's name and the path of the folder. */
  lemma FileMetadataFolder(f: FileInfo, documentType: DocumentType, ns: Namespaces, h: Helpers)
    ensures var m := FileMetadata(f, documentType, ns, h);
            ("source_folder" in m <==> |f.parts| > 1)
            && (|f.parts| > 1 ==>
                  m["source_folder"] == VStr(f.parts[|f.parts| - 2])
                  && "folder_path" in m && m["folder_path"] == VStr(Join(f.parts[..|f.parts| - 1], "/")))
  {
    assert "source_folder" !in BaseMetadata(f, documentType, ns, h);
    assert "source_folder" !in TypeMetadata(FileName(f), documentType, h);
  }

  /** `_process_single_file`: a readable file whose cleaned text is not blank. */
  function ProcessSingleFile(f: FileInfo, documentType: DocumentType, ns: Namespaces, h: Helpers): (d: Option<DocumentCreate>)
    ensures d.Some? <==> f.content.Some? && !IsBlank(h.cleanText(f.content.value))
    ensures d.Some? ==> d.value == DocumentCreate(FileName(f), h.cleanText(f.content.value), documentType,
                                                   ns.target, ns.original, Some(FileMetadata(f, documentType, ns, h)))
  {
    match f.content
    case None => None
    case Some(raw) =>
      var cleaned := h.cleanText(raw);
      if IsBlank(cleaned) then None
      else Some(DocumentCreate(FileName(f), cleaned, documentType, ns.target, ns.original,
                               Some(FileMetadata(f, documentType, ns, h))))
  }

  /** The documents made from `files`, in order; with `txtOnly`, files whose
      suffix is not `.txt` are passed over. */
  function ProcessedFiles(files: seq<FileInfo>, txtOnly: bool, documentType: DocumentType, ns: Namespaces,
                          h: Helpers): seq<DocumentCreate>
  {
    if files == [] then []
    else
      var last := files[|files| - 1];
      var d := if txtOnly && !HasTxtSuffix(FileName(last)) then None else ProcessSingleFile(last, documentType, ns, h);
      ProcessedFiles(files[..|files| - 1], txtOnly, documentType, ns, h) + (if d.Some? then [d.value] else [])
  }

  /** Every document read goes to the target namespace with the given type,
      remembers the original namespace, has non-blank content and carries
      the `namespace_override` flag of its namespaces; with `txtOnly` its
      file name ends in `.txt` in some case. There are at most as many
      documents as files. */
  lemma {:induction false} ProcessedFilesProperties(files: seq<FileInfo>, txtOnly: bool, documentType: DocumentType,
                                                    ns: Namespaces, h: Helpers)
    ensures var docs := ProcessedFiles(files, txtOnly, documentType, ns, h);
            |docs| <= |files|
            && forall d :: d in docs ==>
                 d.documentType == documentType && d.namespace == ns.target && d.originalNamespace == ns.original
                 && !IsBlank(d.content) && d.metadata.Some? && "namespace_override" in d.metadata.value
                 && d.metadata.value["namespace_override"] == VBool(ns.target != ns.original)
                 && (txtOnly ==> HasTxtSuffix(d.filename))
  {
    if files != [] {
      ProcessedFilesProperties(files[..|files| - 1], txtOnly, documentType, ns, h);
      FileMetadataNamespaces(files[|files| - 1], documentType, ns, h);
    }
  }

  lemma ProcessedFilesStep(files: seq<FileInfo>, i: nat, txtOnly: bool, documentType: DocumentType,
                           ns: Namespaces, h: Helpers)
    requires i < |files|
    ensures ProcessedFiles(files[..i + 1], txtOnly, documentType, ns, h)
            == ProcessedFiles(files[..i], txtOnly, documentType, ns, h)
               + (var d := if txtOnly && !HasTxtSuffix(FileName(files[i])) then None
                           else ProcessSingleFile(files[i], documentType, ns, h);
                  if d.Some? then [d.value] else [])
  {
    assert files[..i + 1][..i] == files[..i];
  }

  /** The loop of `_process_folder` and `_process_folder_with_pattern`. */
  method ProcessFiles(files: seq<FileInfo>, txtOnly: bool, documentType: DocumentType, ns: Namespaces, h: Helpers)
    returns (docs: seq<DocumentCreate>)
    ensures docs == ProcessedFiles(files, txtOnly, documentType, ns, h)
  {
    docs := [];
    var i := 0;
    while i < |files|
      invariant 0 <= i <= |files|
      invariant docs == ProcessedFiles(files[..i], txtOnly, documentType, ns, h)
    {
      ProcessedFilesStep(files, i, txtOnly, documentType, ns, h);
      var file := files[i];
      if !txtOnly || HasTxtSuffix(FileName(file)) {
        var document := ProcessSingleFile(file, documentType, ns, h);
        if document.Some? {
          docs := docs + [document.value];
        }
      }
      i := i + 1;
    }
    assert files[..|files|] == files;
  }

  /** `glob` (or `rglob`) of a folder: `None` when the folder does not exist. */
  type Lister = (string, string, bool) -> Option<seq<FileInfo>>

  method ProcessFolder(folder: string, documentType: DocumentType, ns: Namespaces, includeSubfolders: bool,
                       list: Lister, h: Helpers) returns (docs: seq<DocumentCreate>)
    ensures docs == match list(folder, "*.txt", includeSubfolders)
                    case None => []
                    case Some(files) => ProcessedFiles(files, false, documentType, ns, h)
  {
    var listing := list(folder, "*.txt", includeSubfolders);
    if listing.None? || listing.value == [] {
      return [];
    }
    docs := ProcessFiles(listing.value, false, documentType, ns, h);
  }

  method ProcessFolderWithPattern(folder: string, documentType: DocumentType, ns: Namespaces, pattern: string,
                                  list: Lister, h: Helpers) returns (docs: seq<DocumentCreate>)
    ensures docs == match list(folder, pattern, false)
                    case None => []
                    case Some(files) => ProcessedFiles(files, true, documentType, ns, h)
  {
    var listing := list(folder, pattern, false);
    if listing.None? || listing.value == [] {
      return [];
    }
    docs := ProcessFiles(listing.value, true, documentType, ns, h);
  }

  /** `read_text_files_flexible`. */
  method ReadTextFilesFlexible(cfg: ProcessorConfig, request: ProcessDocumentsRequest, list: Lister, h: Helpers)
    returns (docs: seq<DocumentCreate>)
    ensures docs == match list(SourceFolder(cfg, request), "*.txt", request.includeSubfolders)
                    case None => []
                    case Some(files) => ProcessedFiles(files, false, request.documentType, FlexibleNamespaces(cfg, request), h)
  {
    docs := ProcessFolder(SourceFolder(cfg, request), request.documentType, FlexibleNamespaces(cfg, request),
                          request.includeSubfolders, list, h);
  }

  /** `read_text_files_bulk`. */
  method ReadTextFilesBulk(cfg: ProcessorConfig, request: BulkProcessRequest, list: Lister, h: Helpers)
    returns (docs: seq<DocumentCreate>)
    ensures docs == match list(request.folderPath, request.filePattern, false)
                    case None => []
                    case Some(files) => ProcessedFiles(files, true, request.documentType, BulkNamespaces(cfg, request), h)
  {
    docs := ProcessFolderWithPattern(request.folderPath, request.documentType, BulkNamespaces(cfg, request),
                                     request.filePattern, list, h);
  }

  // ---------------------------------------------------------------------
  // Chunking

  /** The text splitter (`RecursiveCharacterTextSplitter.split_text`):
      `None` when it raises. */
  type Splitter = string -> Option<seq<string>>

  /** The entries `create_chunks` adds to the document's metadata. */
  function ChunkExtras(index: nat, total: nat, size: nat, timestamp: string): Metadata
  {
    map["chunk_index" := VInt(index), "total_chunks" := VInt(total), "chunk_size" := VInt(size),
        "processing_timestamp" := VStr(timestamp)]
  }

  /** Merging the chunk entries into a document's metadata sets those four
      entries and keeps every other one. */
  lemma ChunkExtrasMerge(md: Metadata, index: nat, total: nat, size: nat, timestamp: string)
    ensures var m := md + ChunkExtras(index, total, size, timestamp);
            m["chunk_index"] == VInt(index) && m["total_chunks"] == VInt(total) && m["chunk_size"] == VInt(size)
            && (forall k :: k in md && k !in {"chunk_index", "total_chunks", "chunk_size", "processing_timestamp"}
                  ==> k in m && m[k] == md[k])
  {
  }

  /** The chunk `create_chunks` makes from the piece at `index` of `total`,
      of length `size`, whose stripped text is `content`. */
  function MakeChunk(doc: DocumentCreate, md: Metadata, index: nat, total: nat, size: nat, content: string,
                     chunkId: string, now: Instant, iso: Instant -> string): DocumentChunk
  {
    NewChunk(chunkId, content, md + ChunkExtras(index, total, size, iso(now)),
             doc.documentType, doc.namespace, doc.originalNamespace, now)
  }

  /** What a chunk records: its text, its position and the splitter's full
      output length; it keeps the document's other metadata and copies the
      type and both namespaces. */
  lemma MakeChunkProperties(doc: DocumentCreate, md: Metadata, index: nat, total: nat, size: nat, content: string,
                            chunkId: string, now: Instant, iso: Instant -> string)
    ensures var c := MakeChunk(doc, md, index, total, size, content, chunkId, now, iso);
            c.content == content && c.embedding.None? && c.chunkId == chunkId
            && c.metadata["chunk_index"] == VInt(index) && c.metadata["total_chunks"] == VInt(total)
            && c.metadata["chunk_size"] == VInt(size)
            && (forall k :: k in md && k !in {"chunk_index", "total_chunks", "chunk_size", "processing_timestamp"}
                  ==> k in c.metadata && c.metadata[k] == md[k])
            && c.documentType == doc.documentType && c.namespace == doc.namespace
            && c.originalNamespace == doc.originalNamespace
  {
    ChunkExtrasMerge(md, index, total, size, iso(now));
  }

  /** The chunk of piece `i`, when its stripped text is not empty. */
  function PieceChunk(doc: DocumentCreate, md: Metadata, pieces: seq<string>, i: nat, mintId: nat -> string,
                      now: Instant, iso: Instant -> string): seq<DocumentChunk>
    requires i < |pieces|
  {
    var content := Strip(pieces[i]);
    if content == [] then [] else [MakeChunk(doc, md, i, |pieces|, |pieces[i]|, content, mintId(i), now, iso)]
  }

  /** The chunks made from the first `n` pieces. */
  function Chunked(doc: DocumentCreate, md: Metadata, pieces: seq<string>, n: nat, mintId: nat -> string,
                   now: Instant, iso: Instant -> string): seq<DocumentChunk>
    requires n <= |pieces|
  {
    if n == 0 then [] else Chunked(doc, md, pieces, n - 1, mintId, now, iso) + PieceChunk(doc, md, pieces, n - 1, mintId, now, iso)
  }

  /** The number of pieces that are not blank. */
  function NonBlankCount(pieces: seq<string>): nat
  {
    if pieces == [] then 0 else NonBlankCount(pieces[..|pieces| - 1]) + (if IsBlank(pieces[|pieces| - 1]) then 0 else 1)
  }

  /** What every chunk of a document satisfies: no embedding yet, the
      document's type and namespaces, stripped non-empty text, and its
      position among all `total` pieces of the splitter output. */
  ghost predicate ChunkShape(doc: DocumentCreate, total: nat, c: DocumentChunk)
  {
    c.embedding.None? && c.documentType == doc.documentType && c.namespace == doc.namespace
    && c.originalNamespace == doc.originalNamespace
    && c.content != [] && !IsSpaceChar(c.content[0]) && !IsSpaceChar(c.content[|c.content| - 1])
    && "total_chunks" in c.metadata && c.metadata["total_chunks"] == VInt(total)
    && "chunk_index" in c.metadata && c.metadata["chunk_index"].VInt?
    && 0 <= c.metadata["chunk_index"].i < total
  }

  /** A piece yields a chunk exactly when it is not blank. */
  lemma PieceChunkLength(doc: DocumentCreate, md: Metadata, pieces: seq<string>, i: nat, mintId: nat -> string,
                         now: Instant, iso: Instant -> string)
    requires i < |pieces|
    ensures |PieceChunk(doc, md, pieces, i, mintId, now, iso)| == if IsBlank(pieces[i]) then 0 else 1
  {
    StripIsCore(pieces[i]);
  }

  lemma PieceChunkProperties(doc: DocumentCreate, md: Metadata, pieces: seq<string>, i: nat, mintId: nat -> string,
                             now: Instant, iso: Instant -> string)
    requires i < |pieces|
    ensures var p := PieceChunk(doc, md, pieces, i, mintId, now, iso);
            |p| == (if IsBlank(pieces[i]) then 0 else 1)
            && (p != [] ==> ChunkShape(doc, |pieces|, p[0]) && p[0].content == Strip(pieces[i])
                            && p[0].metadata["chunk_index"] == VInt(i))
  {
    StripIsCore(pieces[i]);
    var content := Strip(pieces[i]);
    MakeChunkProperties(doc, md, i, |pieces|, |pieces[i]|, content, mintId(i), now, iso);
  }

  /** One chunk per non-blank piece. */
  lemma {:induction false} ChunkedCount(doc: DocumentCreate, md: Metadata, pieces: seq<string>, n: nat,
                                        mintId: nat -> string, now: Instant, iso: Instant -> string)
    requires n <= |pieces|
    ensures |Chunked(doc, md, pieces, n, mintId, now, iso)| == NonBlankCount(pieces[..n])
  {
    if n > 0 {
      ChunkedCount(doc, md, pieces, n - 1, mintId, now, iso);
      PieceChunkLength(doc, md, pieces, n - 1, mintId, now, iso);
      assert pieces[..n][..n - 1] == pieces[..n - 1];
    }
  }

  /** Every chunk made has the shape of a chunk of the document. */
  lemma {:induction false} ChunkedShapes(doc: DocumentCreate, md: Metadata, pieces: seq<string>, n: nat,
                                         mintId: nat -> string, now: Instant, iso: Instant -> string)
    requires n <= |pieces|
    ensures forall c :: c in Chunked(doc, md, pieces, n, mintId, now, iso) ==> ChunkShape(doc, |pieces|, c)
  {
    if n > 0 {
      ChunkedShapes(doc, md, pieces, n - 1, mintId, now, iso);
      PieceChunkProperties(doc, md, pieces, n - 1, mintId, now, iso);
    }
  }

  /** The loop of `create_chunks` over the splitter output. */
  method ChunkPieces(doc: DocumentCreate, md: Metadata, ps: seq<string>, mintId: nat -> string, now: Instant,
                     iso: Instant -> string) returns (chunks: seq<DocumentChunk>)
    ensures chunks == Chunked(doc, md, ps, |ps|, mintId, now, iso)
  {
    chunks := [];
    var i := 0;
    while i < |ps|
      invariant 0 <= i <= |ps|
      invariant chunks == Chunked(doc, md, ps, i, mintId, now, iso)
    {
      var content := Strip(ps[i]);
      if content != [] {
        chunks := chunks + [MakeChunk(doc, md, i, |ps|, |ps[i]|, content, mintId(i), now, iso)];
      }
      i := i + 1;
    }
  }

  /** `create_chunks`: the pieces of the splitter output with text left
      after stripping become chunks. A splitter failure, or a document
      without metadata (spreading `None` raises), gives no chunks.
      `mintId(i)` is the identifier of the chunk of piece `i`. */
  method CreateChunks(doc: DocumentCreate, split: Splitter, mintId: nat -> string, now: Instant, iso: Instant -> string)
    returns (chunks: seq<DocumentChunk>)
    ensures match split(doc.content)
            case None => chunks == []
            case Some(pieces) =>
              chunks == if doc.metadata.None? then [] else Chunked(doc, doc.metadata.value, pieces, |pieces|, mintId, now, iso)
  {
    var pieces := split(doc.content);
    // Without metadata the first non-blank piece raises, and a document
    // without one yields no chunk either: both end with no chunks.
    if pieces.None? || doc.metadata.None? {
      return [];
    }
    chunks := ChunkPieces(doc, doc.metadata.value, pieces.value, mintId, now, iso);
  }
}
