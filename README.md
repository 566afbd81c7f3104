# Marshee backend, modelled in Dafny

Marshee is a dog-care chat backend. A user registers and logs in, then talks to
a staged chat assistant. The assistant asks for a photo, detects the breed and
answers health questions from a knowledge base. The knowledge base is built by
an ingestion pipeline:

- text files are read and classified;
- they are cut into chunks and the chunks are embedded;
- the embedded chunks are stored in a vector index, split into namespaces.

Answers are produced by retrieving context from that index and laying it out
in a prompt for a language model.

This project models the decision logic of that backend. Every external
service becomes a parameter of the model:

- the document store and the vector index;
- the embedding, completion and image models;
- password hashing and JWT encoding;
- the clock and the text splitter.

One Dafny module stands for each source file:

| module | models |
|---|---|
| `Common`, `Text`, `Sorting`, `Base64` | Python values and truthiness, the string operations the services rely on, a stable sort by key, and the base64 codec of section 4 of RFC 4648 |
| `ChatModels`, `UserModels`, `DocumentModels` | the records and enumerations of `modals/`, with their defaults |
| `ChatStore`, `UserStore` | the repositories, as classes over in-memory maps whose methods update them in place |
| `Chat`, `Auth` | the chat stage dispatcher and the authentication service |
| `Documents`, `Embedding`, `VectorDb`, `KnowledgeBase` | the ingestion pipeline |
| `RagService`, `LlmService` | retrieval, prompt assembly, image decoding and detection |

Loops in the source are `method`s with loop invariants, proved against
recursive specification functions. Operations that change a store are methods
with `modifies` clauses that state the whole new state.

The vector index is a class whose `sent` field logs the requests it has
carried out. A request the index refuses stands for a call that raises.
`search_knowledge` reads the metadata key "text". The upserts of this
repository write the chunk text under "content" instead. So against an index
filled by this pipeline, the knowledge gathered is empty unless a chunk's
metadata itself carries a "text" entry.

## Model

| member | source | states |
|---|---|---|
| ChatModels.ParseStage | modals/chat.py:7-18 | a decoded stage has the wire string it was decoded from |
| ChatModels.StageWireRoundTrip | modals/chat.py:7-18 | decoding the wire string of any stage, including the added health-check stage, gives that stage back |
| ChatModels.StageWireInjective | modals/chat.py:7-18 | distinct stages have distinct wire strings |
| ChatModels.MessageTypeWireInjective | modals/chat.py:20-26 | the six message types have pairwise distinct wire strings |
| ChatModels.NewSession | modals/chat.py:43-62 | a new session starts in the welcome stage, active, not completed, with no detection, breed, condition or confidence, and with empty history and preferences |
| ChatModels.NewMessage | modals/chat.py:64-75 | a new message is a user message without image data, options, detection result or metadata |
| ChatModels.EmptyChatRequest | modals/chat.py:77-81 | a chat request with no field given is valid; every field is absent |
| ChatModels.NewRagRequest | modals/chat.py:107-114 | a RAG request without optional fields has no breed, no condition, an empty history and context type "general" |
| ChatStore.SessionMessages | repositories/chat_repository.py:39-42 | the filter keeps exactly the messages of the session, each as often as it was stored |
| ChatStore.ChatRepository.CreateSession | repositories/chat_repository.py:19-21 | an insert succeeds exactly when the id is new, stores the session under its id and leaves the messages alone |
| ChatStore.ChatRepository.GetSession | repositories/chat_repository.py:23-26 | nothing for an unknown id, otherwise the stored session with that id |
| ChatStore.ChatRepository.GetSessionByUserId | services/chat_service.py:19 | the lookup the chat service calls, defined here as: some active stored session of the user, or nothing exactly when the user has no active session |
| ChatStore.ChatRepository.UpdateSession | repositories/chat_repository.py:28-33 | replaces the stored session with the same id; an id that is not stored changes nothing (no upsert) |
| ChatStore.ChatRepository.SaveMessage | repositories/chat_repository.py:35-37 | appends exactly one message and changes no session |
| ChatStore.ChatRepository.GetMessages | repositories/chat_repository.py:39-42 | only the session's messages, each as often as stored, in ascending timestamp order |
| ChatStore.CreateThenGet | repositories/chat_repository.py:19-26 | a created session is what a following get returns, and other sessions are unchanged |
| Chat.HandleWelcome | services/chat_service.py:25-39 | the reply asks for an image, keeps the stage, is addressed to the session's user, and is the first-time greeting exactly when the user is new |
| Chat.TurnKeepsUserAndStage | services/chat_service.py:66-106 | every reply is addressed to the session's user; the stage moves only from welcome to health check; a persisted session differs from the old one only in its stage |
| Chat.TurnAdvancesOnlyOnImage | services/chat_service.py:41-64 | only a decodable image in the welcome stage advances and persists the session, with the detected-breed reply and "text" expected; an undecodable image is the only error |
| Chat.TurnWelcomeReprompts | services/chat_service.py:43-49 | in the welcome stage without an image, text gets the upload prompt and no input gets the welcome; the stage is kept and nothing is saved |
| Chat.TurnHealthCheckAnswers | services/chat_service.py:83-98 | in the health check a question is answered by exactly the knowledge base's answer, otherwise the user is asked for one; the stage is kept |
| Chat.TurnOtherStagesUnimplemented | services/chat_service.py:100-106 | every other stage gets the fixed "not yet implemented" reply and keeps its stage |
| Chat.ChatService.GetOrCreateSession | services/chat_service.py:17-23 | an existing active session is used unchanged; otherwise a new welcome-stage session is created and stored |
| Chat.ChatService.HandleBreedDetection | services/chat_service.py:41-64 | the store changes exactly as the breed-detection step saves, and the reply is that step's |
| Chat.ChatService.ProcessChatMessage | services/chat_service.py:66-106 | an unknown user is refused before any session is read or created; otherwise the turn is answered from the user's session or a new one, and the store changes only by that turn's save |
| UserModels.ValidationErrors | modals/user.py:6-10 | a field is rejected exactly when it breaks its constraint: not an e-mail address, name outside 2 to 100, phone outside 10 to 15, password outside 6 to 100 characters |
| UserModels.ValidateUserCreateAccepts | modals/user.py:6-10 | a form is accepted exactly when all four constraints hold; it then keeps every field as submitted except the e-mail, which is replaced by its normalised form |
| UserModels.NewUserResponse | modals/user.py:16-23 | `is_active` defaults to true |
| UserModels.NewToken | modals/user.py:25-28 | `token_type` defaults to "bearer" |
| UserModels.EmptyTokenData | modals/user.py:30-31 | the e-mail defaults to absent |
| UserStore.StoredUserAsWritten | repositories/user_repository.py:18-32 | the inserted record takes `created_at` and `last_active` from two clock readings, is active and has no failed attempts |
| UserStore.FreshUserNotNewAsWritten | repositories/user_repository.py:26-27 | with two different readings, a user who has just registered is not recognised as new |
| UserStore.NewUserRecord | repositories/user_repository.py:18-32 | the corrected record: one reading for both timestamps, so a new user is recognised as new; active, no failed attempts, given fields kept |
| UserStore.UserRepository.CreateUser | repositories/user_repository.py:18-32 | an insert succeeds exactly when the id and the e-mail are both new, and then stores the new record under the returned id; a refused insert changes nothing |
| UserStore.UserRepository.GetUserByEmail | repositories/user_repository.py:34-36 | the stored record with that e-mail, or nothing exactly when none has it |
| UserStore.UserRepository.GetUserById | repositories/user_repository.py:38-40 | the stored record with that id, or nothing exactly when none has it |
| UserStore.UserRepository.UpdateLastActive | repositories/user_repository.py:42-47 | only `last_active` of the matching user changes |
| UserStore.UserRepository.IncrementLoginAttempts | repositories/user_repository.py:49-54 | one user's counter grows by exactly 1; nothing else changes |
| UserStore.UserRepository.ResetLoginAttempts | repositories/user_repository.py:56-61 | one user's counter becomes 0; nothing else changes |
| Auth.TokenExpiry | services/auth_service.py:24-30 | expiry is now plus the given lifetime, or now plus 15 minutes when none (or a zero one) is given |
| Auth.TokenExpiresAfterIssue | services/auth_service.py:24-30 | a token with no negative lifetime expires strictly after it is issued |
| Auth.TokenClaims | services/auth_service.py:24-32 | the signed claims are the given ones plus `exp` |
| Auth.ResponseOf | services/auth_service.py:150-158 | the reply carries all seven of the stored user's fields: id, e-mail, name, phone number, both timestamps and the active flag |
| Auth.AuthService.CreateUser | services/auth_service.py:34-63 | a known e-mail fails with 400 and stores nothing; otherwise the hashed record is stored and the reply carries the new id, the submitted fields, its own two clock readings and is active |
| Auth.AuthService.AuthenticateUser | services/auth_service.py:65-128 | unknown e-mail, inactive account and wrong password fail with 401, in that order, and only a wrong password adds one attempt; a success resets attempts, stores the login reading as `last_active`, and returns a bearer token for the e-mail issued at a third reading with the user's reply stamped at a second one; "new" is judged on the record read before the login |
| Auth.AuthService.GetCurrentUser | services/auth_service.py:130-158 | a token that does not decode, lacks `sub`, or names an unknown e-mail is refused with 401; a token whose `sub` names a stored user returns exactly that user's reply |
| DocumentModels.DocumentTypeWireInjective | modals/document.py:7-9 | the two document types have distinct wire values |
| DocumentModels.NamespaceTypeWireInjective | modals/document.py:11-13 | the two namespaces have distinct wire values |
| DocumentModels.NewChunk | modals/document.py:15-23 | a new chunk has no embedding |
| DocumentModels.NewDocumentCreate | modals/document.py:25-31 | the metadata defaults to empty |
| DocumentModels.NewEmbeddingRequest | modals/document.py:45-48 | model "models/embedding-001" and dimensionality 768 by default |
| DocumentModels.NewSimilaritySearchRequest | modals/document.py:50-53 | `k` defaults to 5 and the filter to empty |
| DocumentModels.NewProcessDocumentsRequest | routers/documents.py:15-22 | no source folder, no forced re-index and no subfolders by default |
| DocumentModels.NewBulkProcessRequest | routers/documents.py:72-79 | knowledge documents, pattern "*.txt" and no forced re-index by default |
| Documents.DefaultConfig | services/document_service.py:24-31 | the default folders, and the namespaces equal to the two wire values |
| Documents.SourceFolder | services/document_service.py:71-78 | a given source folder wins; otherwise the knowledge folder for knowledge and the products folder for products |
| Documents.FlexibleNamespaces | services/document_service.py:81-85 | the target comes from the request and the original from the document type |
| Documents.FlexibleOverrideIff | services/document_service.py:81-85 | the target differs from the original exactly when the requested namespace is not the type's own |
| Documents.BulkNamespaces | services/document_service.py:103-104 | in bulk mode the original namespace equals the target |
| Documents.FirstMatchIndex | services/document_service.py:316-344 | the index of the first keyword group that matches, all earlier groups failing |
| Documents.FirstMatchWins | services/document_service.py:316-328 | the first matching group's category is the result |
| Documents.FirstMatchFallback | services/document_service.py:327-328 | with no matching group the fallback is the result |
| Documents.MedicalConditionsWin | services/document_service.py:316-326 | a name containing a disease word is `medical_conditions` whatever else it contains |
| Documents.KnowledgeTypeIsFirstMatch | services/document_service.py:316-328 | the knowledge type is the first matching group of the lower-cased name, and `general_knowledge` exactly when none matches |
| Documents.ProductTypeIsFirstMatch | services/document_service.py:330-344 | the product type is the first matching group in the fixed order, and `general_product` exactly when none matches |
| Documents.LastIndexOf | services/document_service.py:184 | the last position of a character, or none when it does not occur |
| Documents.PathSuffix | services/document_service.py:184 | the suffix is a final ".ext" with no other dot, not the whole name |
| Documents.BaseKeysKept | services/document_service.py:240-282 | the type and folder entries never overwrite the base entries |
| Documents.FileMetadataNamespaces | services/document_service.py:250-258 | the metadata records the type, both namespaces, the file name and `namespace_override` true exactly when they differ |
| Documents.FileMetadataType | services/document_service.py:261-274 | knowledge files get a knowledge type and no product type; product files the other way round |
| Documents.FileMetadataFolder | services/document_service.py:277-280 | folder entries appear exactly when the path has a parent |
| Documents.ProcessSingleFile | services/document_service.py:197-238 | a file gives a document exactly when it was read and its cleaned text is not blank, with the cleaner supplied as a given function |
| Documents.ProcessedFilesProperties | services/document_service.py:121-158 | at most one document per file, each non-blank, with the request's type and namespaces, and `.txt` only in pattern mode |
| Documents.ProcessFiles | services/document_service.py:121-158 | the loop yields the documents of the files in order |
| Documents.ProcessFolder | services/document_service.py:121-158 | the folder's "*.txt" files, processed in order; none when listing fails |
| Documents.ProcessFolderWithPattern | services/document_service.py:160-195 | the files matching the pattern with a `.txt` suffix, processed in order |
| Documents.ReadTextFilesFlexible | services/document_service.py:63-99 | the documents of the selected folder with the flexible namespaces |
| Documents.ReadTextFilesBulk | services/document_service.py:101-119 | the documents of the bulk folder and pattern with original equal to target |
| Documents.ChunkExtrasMerge | services/document_service.py:294-302 | a chunk's metadata carries its index, total and size, and keeps every other document entry |
| Documents.MakeChunkProperties | services/document_service.py:287-307 | a chunk has the given content, no embedding, and the document's type and namespaces |
| Documents.PieceChunkLength | services/document_service.py:290-292 | a blank piece gives no chunk, any other piece one |
| Documents.PieceChunkProperties | services/document_service.py:287-307 | a kept piece becomes a chunk with the stripped content and the piece's own position as index |
| Documents.ChunkedCount | services/document_service.py:287-307 | one chunk per non-blank piece |
| Documents.ChunkedShapes | services/document_service.py:287-307 | every chunk carries the full splitter length as total and the document's type and namespaces |
| Documents.ChunkPieces | services/document_service.py:287-310 | the append loop builds exactly the specified chunks |
| Documents.CreateChunks | services/document_service.py:284-314 | no chunks when splitting fails or the document has no metadata; otherwise one per non-blank piece |
| Embedding.DefaultEmbeddingConfig | services/embedding_service.py:13-14 | model "models/embedding-001", dimension 768 |
| Embedding.CreateSingleEmbedding | services/embedding_service.py:26-50 | blank text gives none before calling the API; otherwise the API's non-empty embedding of the stripped text |
| Embedding.EmbeddingsPointwise | services/embedding_service.py:52-70 | one entry per text, each the single embedding of that text |
| Embedding.EmbeddingsAppend | services/embedding_service.py:52-70 | embedding two lists is embedding their concatenation |
| Embedding.EmbedBatch | services/embedding_service.py:58-66 | a batch is embedded text by text, in order |
| Embedding.CreateBatchEmbeddings | services/embedding_service.py:52-70 | any positive batch size gives one entry per text, in order |
| Embedding.BatchEmbeddingsPointwise | services/embedding_service.py:52-70 | entry k is the embedding of text k |
| Embedding.KeepEmbeddedProperties | services/embedding_service.py:76-89 | entry j is the j-th chunk whose embedding is present, with that embedding set; those positions increase, and every chunk with an embedding is among them |
| Embedding.KeepEmbeddedAll | services/embedding_service.py:76-89 | when every embedding succeeds every chunk is kept |
| Embedding.AttachEmbeddings | services/embedding_service.py:80-88 | the loop keeps exactly the embedded chunks |
| Embedding.EmbedDocumentChunks | services/embedding_service.py:72-89 | the chunks whose embedding is not none, in input order, with their embeddings |
| Embedding.DefaultDimensionIs768 | services/embedding_service.py:128-130 | with the default configuration a vector is valid exactly when it has 768 entries |
| Embedding.ScoredItemsProperties | services/embedding_service.py:100-116 | every scored item comes from a stored item that has an embedding |
| Embedding.SimilaritySearch | services/embedding_service.py:91-126 | none when the query embedding fails; otherwise at most `top_k` scored items in non-increasing score order |
| Embedding.ScoredItemsFailed | services/embedding_service.py:100-126 | a similarity failure on one item makes the whole search fail |
| Embedding.SearchResultsOrdered | services/embedding_service.py:118-122 | the result is sorted by descending score, has at most `top_k` items, draws each item from the scored items no more often than it occurs there, and every scored item left out scores no higher than every item returned |
| Sorting.InsertBySorted | services/embedding_service.py:118-120 | inserting into a sorted list keeps it sorted |
| Sorting.SortBy | services/embedding_service.py:118-120 | the sort is a sorted permutation |
| Sorting.SortByStable | services/embedding_service.py:120-121 | the sort is stable: for every key, the elements with that key come out in their input order, so which tied items survive the `[:top_k]` cut is fixed as in Python's `sort(reverse=True)` |
| Base64.Decode | services/llm_service.py:66 | a successful decoding was of text whose length is a multiple of four |
| Base64.DecodeEncode | services/llm_service.py:66 | decoding the encoding of any byte string gives it back |
| VectorDb.TargetNamespace | services/vector_db_service.py:59 | a missing or empty namespace becomes "default" |
| VectorDb.TruncatedContent | services/vector_db_service.py:66 | stored content is a prefix of at most 1000 characters, the whole text when short enough |
| VectorDb.VectorMetadataProperties | services/vector_db_service.py:68-78 | only scalar entries are kept, and content, timestamp, namespace and type overwrite same-named ones |
| VectorDb.PreparedLength | services/vector_db_service.py:61-83 | at most one vector per chunk, and none exactly when no chunk has an embedding |
| VectorDb.PreparedSound | services/vector_db_service.py:61-79 | every prepared vector is that of an embedded chunk |
| VectorDb.PreparedComplete | services/vector_db_service.py:61-79 | every embedded chunk has its vector prepared |
| VectorDb.PrepareVectors | services/vector_db_service.py:61-79 | the loop prepares exactly the specified vectors |
| VectorDb.BatchesFlatten | services/vector_db_service.py:86-90 | the batches together are the vectors, each once, in order |
| VectorDb.BatchesSizes | services/vector_db_service.py:86-90 | every batch has between 1 and 100 vectors |
| VectorDb.UpsertRequestsAppend | services/vector_db_service.py:86-90 | the upsert requests of two batch lists are the concatenation of theirs |
| VectorDb.UpsertRequestsPointwise | services/vector_db_service.py:86-90 | request j upserts batch j in the namespace |
| VectorDb.NamespaceStats | services/vector_db_service.py:156-181 | an error without index or description; the namespaces otherwise |
| VectorDb.ListNamespaces | services/vector_db_service.py:187-196 | the namespace names of the stats, or none on error |
| VectorDb.FormatMatch | services/vector_db_service.py:124-133 | content defaults to "", metadata loses "content", score and id are kept |
| VectorDb.VectorIndex.AcceptedPrefixProperties | services/vector_db_service.py:86-97 | the requests carried out are a prefix of those sent, all the requests exactly when none was refused |
| VectorDb.VectorIndex.AcceptedPrefixAppend | services/vector_db_service.py:86-97 | after accepted requests, the rest decides |
| VectorDb.VectorIndex.AcceptedUpserts | services/vector_db_service.py:86-90 | the requests carried out are all upserts |
| VectorDb.VectorIndex.RefusedBatch | services/vector_db_service.py:86-97 | a refused batch stops the loop |
| VectorDb.VectorIndex.AcceptedBatch | services/vector_db_service.py:86-90 | an accepted batch is logged and the loop goes on |
| VectorDb.VectorIndex.UpsertChunks | services/vector_db_service.py:52-97 | false and nothing sent without index or vectors; otherwise the batches are upserted in order until one is refused, and true exactly when all were carried out |
| VectorDb.VectorIndex.SendBatches | services/vector_db_service.py:86-97 | the batch loop sends the accepted prefix of the batch requests |
| VectorDb.VectorIndex.SimilaritySearch | services/vector_db_service.py:99-140 | nothing without index or when the query fails; otherwise one formatted hit per match, in order, in the defaulted namespace |
| VectorDb.VectorIndex.DeleteNamespaceOf | services/vector_db_service.py:142-154 | true exactly when the index deletes the namespace, and only then is it logged |
| VectorDb.VectorIndex.DeleteAllVectors | services/vector_db_service.py:198-213 | a given namespace is delegated to the namespace delete; otherwise everything is deleted |
| KnowledgeBase.EntryOfProperties | services/knowledge_base_service.py:145-155 | `namespace_override` is true exactly when the namespaces differ, and 0 < embedded ≤ chunks |
| KnowledgeBase.DocIndexedIffAllSent | services/knowledge_base_service.py:132-144 | a document counts as indexed exactly when it was not skipped, the index exists, and the index carried out every one of its batches, of which there is at least one |
| KnowledgeBase.ListUpsertsOnlyUpserts | services/knowledge_base_service.py:114-161 | everything the document loop sends to the index is an upsert |
| Common.KeptIndicesSound | services/knowledge_base_service.py:114-161 | every index kept is below the bound and belongs to a document that was not skipped |
| Common.KeptIndicesIncrease | services/knowledge_base_service.py:114-161 | kept documents appear in input order |
| Common.KeptIndicesComplete | services/knowledge_base_service.py:114-161 | every document not skipped is kept, so a skipped one does not stop the loop |
| KnowledgeBase.SumsOrdered | services/knowledge_base_service.py:139-143 | indexed ≤ embedded ≤ total over the file entries |
| KnowledgeBase.RecordTallied | services/knowledge_base_service.py:139-155 | recording an entry keeps the counters equal to the sums over the files and `processed_documents` equal to their number |
| KnowledgeBase.NothingProcessed | services/knowledge_base_service.py:105-112 | the initial results are consistent |
| KnowledgeBase.EntriesOfKeptStep | services/knowledge_base_service.py:114-161 | processing one more document keeps the entries those of the kept documents |
| KnowledgeBase.SumsAppend | services/knowledge_base_service.py:139-143 | counters grow by the entry's counts, the indexed one only when indexed |
| KnowledgeBase.KnowledgeBaseService.ProcessDocument | services/knowledge_base_service.py:116-158 | a skipped document sends nothing and has no entry; otherwise the index receives its batches up to the first refused one, and its entry records `indexed` as whether every batch was carried out |
| KnowledgeBase.KnowledgeBaseService.ProcessAndRecord | services/knowledge_base_service.py:116-161 | one loop step keeps the loop invariant: tallied counters, the entries of the kept documents, and exactly their upserts sent |
| KnowledgeBase.KnowledgeBaseService.ProcessDocumentList | services/knowledge_base_service.py:91-164 | the namespace is the first document's; the counters are consistent (indexed ≤ embedded ≤ total, files counted); the entries are those of the kept documents in order, each with its own `indexed`; the index receives exactly the documents' upserts, in order |
| KnowledgeBase.KnowledgeBaseService.ClearIfForced | services/knowledge_base_service.py:41-44 | with force the namespace is deleted once, otherwise nothing is sent |
| KnowledgeBase.KnowledgeBaseService.ProcessDocumentsFlexible | services/knowledge_base_service.py:21-50 | no documents gives the error report and sends nothing; otherwise the index receives the forced delete of the first document's namespace, if any, then exactly the documents' upserts; the report carries the request info and consistent results |
| KnowledgeBase.KnowledgeBaseService.ProcessDocumentsBulk | services/knowledge_base_service.py:52-89 | as the flexible path, with the pattern error message and `force_reindex` false in the request info |
| RagService.SearchNamespace | services/rag_service.py:103-111 | "product" searches the products namespace; every other context type the knowledge namespace |
| RagService.ContextDocOf | services/rag_service.py:88-93 | source defaults to "Unknown" and document type to "general"; content and score are the hit's |
| RagService.UserContextOf | services/rag_service.py:113-134 | without a session everything is empty; otherwise breed, condition and history come from the session |
| RagService.ContentSnippet | services/rag_service.py:174 | a string is cut to its first 300 characters; only strings and lists can be sliced |
| RagService.NumberedEntries | services/rag_service.py:171-175 | one entry per context document |
| RagService.ContextBodyEntries | services/rag_service.py:170-175 | the context section fails exactly when some content cannot be sliced; otherwise it is the entries in order, numbered from 1 |
| RagService.HistorySectionWindow | services/rag_service.py:178-183 | entries older than the last three never reach the prompt |
| RagService.HistorySectionEmpty | services/rag_service.py:178-183 | the history section is empty exactly when there is no history |
| RagService.DogInfoShownIffBreed | services/rag_service.py:161-167 | the dog section appears exactly when a breed is known, so a condition alone never shows |
| RagService.DetectionSectionEmpty | services/rag_service.py:186-197 | the detection section is empty exactly when neither detection is present |
| RagService.PromptTextSliceable | services/rag_service.py:140-211 | laying out the prompt fails exactly when a retrieved content cannot be sliced |
| RagService.PromptTextHistoryWindow | services/rag_service.py:178-183 | the prompt is the same whatever precedes the last three history entries |
| RagService.HealthGuidanceRequest | services/rag_service.py:236-251 | the query is "dog health {condition}", plus " {breed}" only for a given breed; context type `health_guidance` |
| RagService.HealthGuidanceSearchesKnowledge | services/rag_service.py:236-251 | health guidance searches the knowledge namespace |
| RagService.BreedAdviceRequest | services/rag_service.py:223-234 | the query is "{breed} {topic}" with context type `breed_info` |
| RagService.RagServiceImpl.RelevantContextProperties | services/rag_service.py:66-101 | no context for a blank query or without index; otherwise one document per match, in order, with the content, source and type defaults |
| RagService.RagServiceImpl.GetRelevantContext | services/rag_service.py:66-101 | the loop builds exactly the specified context |
| RagService.RagServiceImpl.BuildContextSection | services/rag_service.py:169-175 | the enumerate loop builds exactly the context section |
| RagService.RagServiceImpl.BuildHistorySection | services/rag_service.py:177-183 | the history loop builds exactly the history section |
| RagService.RagServiceImpl.CreatePersonalizedPrompt | services/rag_service.py:140-211 | the prompt is the specified layout of the sections |
| RagService.RagServiceImpl.PersonalizedResponse | services/rag_service.py:31-64 | a failed prompt gives the fixed apology with no sources; otherwise the text is the model's answer to the prompt, or the rephrasing apology when generation fails, and the sources are the context, with confidence 0.85 and the request's context type |
| RagService.RagServiceImpl.FallbackIffUnsliceable | services/rag_service.py:31-64 | the apology comes exactly from a retrieved content that cannot be sliced |
| RagService.RagServiceImpl.GetPersonalizedResponse | services/rag_service.py:31-64 | the method answers the specified response |
| RagService.RagServiceImpl.GetHealthGuidance | services/rag_service.py:236-251 | the answer to the health-guidance request |
| RagService.RagServiceImpl.GetBreedSpecificAdvice | services/rag_service.py:223-234 | the answer to the breed-advice request |
| LlmService.DecodeImageErrors | services/llm_service.py:60-75 | every failure is "Invalid image data", and a success is an image |
| LlmService.DecodeImagePlain | services/llm_service.py:62-72 | plain base64 text decodes to the bytes it encodes |
| LlmService.DecodeImageDataUrl | services/llm_service.py:63-66 | in a data URL only the part after the first comma is decoded |
| LlmService.ArgMax | services/llm_service.py:95 | the first index of a maximal confidence |
| LlmService.DetectionErrors | services/llm_service.py:82-83 | a missing model, an invalid image or a model that raises gives "Error" with 0.0; the error entry appears exactly on failure |
| LlmService.BreedFallback | services/llm_service.py:101-108 | no boxes or no result gives "Unknown" with 0.0 |
| LlmService.DiseaseFallback | services/llm_service.py:158-165 | no boxes gives "Normal" with 0.8, no result "Unclear" with 0.0 |
| LlmService.DetectionPicksBest | services/llm_service.py:152-156 | the class and confidence are those of the first box of maximal confidence; an unnamed class raises |
| LlmService.DetectionConfidenceBounded | services/llm_service.py:112-132 | the reported confidence is in [0, 1] when the model's are |
| LlmService.AccumulatedJoins | services/llm_service.py:209-213 | the loop leaves the non-empty texts joined by spaces with one trailing space |
| LlmService.KnowledgeFromJoin | services/llm_service.py:208-215 | the knowledge is the non-empty texts joined by spaces and stripped |
| LlmService.ChatContextCondition | services/llm_service.py:295-297 | the condition is appended exactly when one is set |
| LlmService.ChatHistoryWindowed | services/llm_service.py:299 | only the last four entries count, and no history is "First conversation" |
| LlmService.LlmServiceImpl.DetectBreed | services/llm_service.py:77-132 | the record is a breed detection with the measured time |
| LlmService.LlmServiceImpl.DetectDisease | services/llm_service.py:134-189 | the record is a disease detection with the measured time |
| LlmService.LlmServiceImpl.KnowledgeProperties | services/llm_service.py:191-219 | "" for a blank query or without index; otherwise the joined, stripped texts |
| LlmService.LlmServiceImpl.SearchKnowledge | services/llm_service.py:191-219 | the method answers the specified knowledge |
| LlmService.LlmServiceImpl.GatherText | services/llm_service.py:209-215 | the loop gathers exactly the specified knowledge |
| LlmService.LlmServiceImpl.GenerateResponse | services/llm_service.py:221-233 | a failed completion gives the fixed apology; otherwise the completion stripped, with no space at either end |
| LlmService.LlmServiceImpl.GenerateChatResponse | services/llm_service.py:292-318 | a failed completion gives the apology; otherwise the reply is the stripped completion of the chat prompt |

## Left out

- Network, database and file I/O: the services' external calls are parameters of the model.
  - Mongo, Pinecone, Gemini, Groq and YOLO;
  - filesystem globbing and reads;
  - the clock, `uuid4` and `ObjectId`.
- Concurrency: `async`/`await` scheduling is not modelled.
- Routers and app setup: not modelled. The router's user-id check (403) would be a precondition of the chat service.
- Floating point: cosine similarity and `:.1%` formatting are given functions; scores are reals.
- Base64: Python's lenient `b64decode` (it skips non-alphabet characters) is modelled by the strict decoder of RFC 4648.
- ASCII case folding: `Lower` stands for `str.lower`.
- Embedding.CreateBatchEmbeddings: requires a non-zero batch size, because `range` raises for a step of 0.
- Embedding.EmbedDocumentChunks: it returns new chunk values. It does not capture that Python sets `chunk.embedding` on the caller's objects.
- Documents.CreateChunks: raising on a document without metadata is modelled as the empty result that follows from it; one clock reading `now` stands for the `datetime.utcnow()` call that services/document_service.py:297 makes for each chunk, so all the chunks of a call share one `processing_timestamp`.
- Documents.ProcessSingleFile: `_clean_text` (services/document_service.py:210), `_extract_knowledge_category` (line 264) and `_extract_product_category` (line 271) are called but defined nowhere; line 346 only leaves a placeholder comment for them. As written, each call raises AttributeError, which `_process_single_file` catches, so every file yields no document and every run reports that no documents were found. The model substitutes the given functions `cleanText`, `knowledgeCategory` and `productCategory` and describes the program with those helpers in place.
- VectorDb.NamespaceStats: keeps only the namespace names and counts of the stats reply.
- VectorDb.VectorIndex: the contents of the remote index are not modelled, only the log of the requests it carried out.
- KnowledgeBase error reports: the "request" dictionaries echoed in error reports are not modelled. `_process_document_list` has no outer handler; its only `except` is inside the loop, at services/knowledge_base_service.py:159-161, and it is modelled as a skip. The outer handlers of `process_documents_flexible` (lines 48-50) and `process_documents_bulk` (lines 87-89) catch an exception raised while listing the files, such as `Path.glob` raising on an empty or absolute pattern, and return `{"error": str(e)}`. That report is not modelled, because the given file lister is total: it can only report a missing folder.
- repositories/document_repository.py: modelled as the `saveDocument`/`saveChunks` functions of the pipeline. `save_document` re-raises, which skips the document; `save_chunks` catches its own errors and its answer is never read, so it skips nothing.
- Auth: `Token` drops `is_new_user` (pydantic ignores unknown fields). The model returns it as a separate output of `AuthenticateUser`. The 500 "Authentication failed" branch of `authenticate_user` (services/auth_service.py:121-128), taken when something other than an `HTTPException` raises (bcrypt on a malformed hash, a failing Mongo call), is not modelled: the given functions for password checking, token encoding and the store never raise, so `AuthenticateUser` never fails with 500.
- RagService: a Mongo error in `_get_user_context` returns `{}`, which behaves as "no session". `findSession` returning none covers both.
- RagService: Python's `str()` of non-string values and the percentage formatting are given functions.
- LlmService: the model-loading step becomes the presence or absence of each detector.
- LlmService: `generate_welcome_message`, `generate_breed_response`, `generate_options_message`, `generate_disease_request` and `generate_disease_response` are fixed prompt templates with no branching, so they are not modelled.
- LlmService.LlmServiceImpl.DetectBreed, LlmService.LlmServiceImpl.DetectDisease: `processing_time` and `timestamp` are inputs (`elapsed`, `now`).
- ChatStore.ChatRepository.GetSessionByUserId: `chat_repo.get_session_by_user_id` is called by services/chat_service.py:19 but defined nowhere in the repository. The model substitutes a lookup of an active session of the user, and leaves open which one when there are several.
- Chat: `ApiRequest` and `ApiResponse`, imported by services/chat_service.py:1, are not defined in modals/chat.py. Their fields in the model (user id, message, image, reply text, expected input, stage) are those the service reads and writes.
- ChatModels: `ChatStage.STAGE_2_HEALTH_CHECK`, used at services/chat_service.py:54 and 83, is not a member of the enumeration in modals/chat.py:7-18. The model adds it, with the wire value "stage_2_health_check".
- Chat.ChatService.ProcessChatMessage: `auth_service.get_user_by_id` (services/chat_service.py:68) is not a method of the authentication service. The model substitutes `UserStore.UserRepository.GetUserById`.
- Chat: `rag_service.query_knowledge_base` (services/chat_service.py:92) is not a method of the RAG service. The model takes it as a given function from question to answer.
- DocumentModels: `ProcessDocumentsRequest` and `BulkProcessRequest` are imported by services/document_service.py and services/knowledge_base_service.py but are not defined in modals/document.py. Their fields and defaults in the model come from the router parameters at routers/documents.py:15-22 and 72-79.
- UserStore.UserRepository.CreateUser: stores the corrected record (`NewUserRecord`, one clock reading for both timestamps) of the finding below, not the two readings the source takes; `StoredUserAsWritten` is the record as written.
- Auth.AuthService.CreateUser: the stored record is likewise the corrected one, with `now` its single reading. The reply takes its own two readings, as the source does.
- ChatModels.NewSession: one clock reading stands for the two `datetime.utcnow` defaults of `created_at` and `updated_at`; no property depends on them being equal.
- The HTTP glue, services/yolo_service.py, create_embeddings_simple.py and the smoke scripts are not part of this model.

## Findings

| source | as written | input that shows it | evidently intended | confidence | as-written member | corrected member |
|---|---|---|---|---|---|---|
| repositories/user_repository.py:26-27 | `created_at` and `last_active` take two separate `utcnow()` readings | a registration during which the clock advances (readings 999 and 1000) | one reading for both, so the greeting and `is_new_user` treat a just-registered user as new | medium, not executed | UserStore.FreshUserNotNewAsWritten | UserStore.NewUserRecord |
