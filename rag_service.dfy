/** Retrieval-augmented answers (services/rag_service.py): the query is
    embedded, the vector store is searched in the namespace the context type
    selects, and the hits, the user's dog and recent conversation are laid
    out in a prompt for the language model. The session collection, the
    model call, Python's `str()` of non-string values and the percentage
    formatting of confidences are given functions. */
module RagService {
  import opened Common
  import opened Text
  import opened DocumentModels
  import opened ChatModels
  import Embedding
  import VectorDb

  const SnippetLimit: nat := 300
  const HistoryWindow: nat := 3
  const ContextTopK: int := 5

  const KnowledgeBaseApology: string :=
    "I'm sorry, I'm having trouble accessing my knowledge base right now. Please try again in a moment."
  const GenerationApology: string :=
    "I apologize, but I'm having trouble generating a response right now. Please try rephrasing your question or try again in a moment."

  const SystemPrompt: string :=
    "You are an expert AI dog care assistant. Provide helpful, accurate, and personalized advice about dog care, health, nutrition, and behavior. Always prioritize the dog's safety and wellbeing.\n\n"
    + "IMPORTANT GUIDELINES:\n"
    + "- If discussing health issues, always recommend consulting a veterinarian for serious concerns\n"
    + "- Provide practical, actionable advice\n"
    + "- Be empathetic and understanding\n"
    + "- Use the provided context to give specific, relevant information\n"
    + "- Personalize responses based on the dog's breed when known\n"
    + "- Keep responses concise but informative\n"

  const ClosingInstruction: string :=
    "Please provide a helpful, personalized response based on the above information. If the question is about health concerns, remind the user to consult with their veterinarian for professional medical advice."

  /** `_determine_search_namespace`: products for "product", the knowledge
      namespace for every other context type. */
  function SearchNamespace(contextType: string): (ns: string)
    ensures contextType == "product" ==> ns == NamespaceTypeWire(ProductsNamespace)
    ensures contextType != "product" ==> ns == NamespaceTypeWire(KnowledgeNamespace)
  {
    if contextType == "health_guidance" then "dog-health-knowledge"
    else if contextType == "product" then "marshee-products"
    else "dog-health-knowledge"
  }

  /** One context document made of a search hit: the source defaults to
      "Unknown" and the document type to "general". */
  function ContextDocOf(hit: VectorDb.SearchHit): (c: ContextDoc)
    ensures c.content == hit.content && c.score == hit.score
    ensures c.source == if "file_name" in hit.metadata then hit.metadata["file_name"] else VStr("Unknown")
    ensures c.documentType == if "document_type" in hit.metadata then hit.metadata["document_type"] else VStr("general")
  {
    ContextDoc(hit.content, Lookup(hit.metadata, "file_name", VStr("Unknown")), hit.score,
               Lookup(hit.metadata, "document_type", VStr("general")))
  }

  /** What `_get_user_context` reads of the session: `recent_detections` is
      `[breed_detection, disease_detection]`, or empty without a session,
      which `any` treats like two missing detections. */
  datatype UserContext = UserContext(
    dogBreed: Option<string>,
    healthCondition: Option<string>,
    breedDetection: Option<YoloDetectionResult>,
    diseaseDetection: Option<YoloDetectionResult>,
    conversationHistory: seq<string>)

  function UserContextOf(session: Option<ChatSession>): (u: UserContext)
    ensures session.None? ==> u == UserContext(None, None, None, None, [])
    ensures session.Some? ==> u.dogBreed == session.value.dogBreed && u.healthCondition == session.value.healthCondition
                              && u.conversationHistory == session.value.conversationHistory
  {
    match session
    case None => UserContext(None, None, None, None, [])
    case Some(s) => UserContext(s.dogBreed, s.healthCondition, s.breedDetection, s.diseaseDetection, s.conversationHistory)
  }

  // ---------------------------------------------------------------------
  // Prompt sections

  function Concat(parts: seq<string>): string
  {
    if parts == [] then "" else Concat(parts[..|parts| - 1]) + parts[|parts| - 1]
  }

  /** `doc['content'][:300]`: a string or a list can be sliced; slicing any
      other value raises. A sliced list is shown with `str()`. */
  function ContentSnippet(content: Value, show: Value -> string): (r: Option<string>)
    ensures content.VStr? ==> r.Some? && r.value == Prefix(content.s, SnippetLimit)
    ensures r.Some? <==> content.VStr? || content.VList?
  {
    match content
    case VStr(s) => Some(Prefix(s, SnippetLimit))
    case VList(items) => Some(show(VList(Prefix(items, SnippetLimit))))
    case _ => None
  }

  /** The text of a value in an f-string. */
  function Shown(v: Value, show: Value -> string): string
  {
    if v.VStr? then v.s else show(v)
  }

  /** The lines of the `i`-th context document (counting from 1). */
  function ContextEntry(i: nat, snippet: string, doc: ContextDoc, show: Value -> string): string
  {
    NatToString(i) + ". " + snippet + "...\n" + "   Source: " + Shown(doc.source, show) + "\n\n"
  }

  /** The entries of the context section, as the `enumerate(..., 1)` loop
      appends them; `None` when a content cannot be sliced. */
  function ContextBody(docs: seq<ContextDoc>, show: Value -> string): Option<string>
  {
    if docs == [] then Some("")
    else
      var n := |docs| - 1;
      match ContextBody(docs[..n], show)
      case None => None
      case Some(front) =>
        match ContentSnippet(docs[n].content, show)
        case None => None
        case Some(snippet) => Some(front + ContextEntry(n + 1, snippet, docs[n], show))
  }

  /** Every content can be sliced. */
  ghost predicate AllSliceable(docs: seq<ContextDoc>)
  {
    forall j :: 0 <= j < |docs| ==> docs[j].content.VStr? || docs[j].content.VList?
  }

  /** The `j`-th entry, numbered `j + 1`. */
  function NumberedEntries(docs: seq<ContextDoc>, show: Value -> string): (es: seq<string>)
    ensures |es| == |docs|
  {
    seq(|docs|, j requires 0 <= j < |docs| =>
      ContextEntry(j + 1, ContentSnippet(docs[j].content, show).GetOr(""), docs[j], show))
  }

  /** The context body fails exactly when some content cannot be sliced;
      otherwise it is the documents' entries in order, numbered from 1. */
  lemma {:induction false} ContextBodyEntries(docs: seq<ContextDoc>, show: Value -> string)
    ensures ContextBody(docs, show).Some? <==> AllSliceable(docs)
    ensures ContextBody(docs, show).Some? ==> ContextBody(docs, show).value == Concat(NumberedEntries(docs, show))
    decreases |docs|
  {
    if docs != [] {
      var n := |docs| - 1;
      var init := docs[..n];
      ContextBodyEntries(init, show);
      assert forall j :: 0 <= j < n ==> init[j] == docs[j];
      assert NumberedEntries(docs, show)[..n] == NumberedEntries(init, show);
      assert AllSliceable(docs) <==> AllSliceable(init) && (docs[n].content.VStr? || docs[n].content.VList?);
    }
  }

  /** `context_section`: empty without documents. */
  function ContextSection(docs: seq<ContextDoc>, show: Value -> string): Option<string>
  {
    if docs == [] then Some("")
    else match ContextBody(docs, show)
      case None => None
      case Some(body) => Some("\nRELEVANT INFORMATION:\n" + body)
  }

  function HistoryBody(messages: seq<string>): string
  {
    if messages == [] then "" else HistoryBody(messages[..|messages| - 1]) + "- " + messages[|messages| - 1] + "\n"
  }

  /** `history_section`: the last three entries only, empty without history. */
  function HistorySection(history: seq<string>): string
  {
    if history == [] then "" else "\nRECENT CONVERSATION:\n" + HistoryBody(Suffix(history, HistoryWindow))
  }

  /** Entries older than the last three never reach the prompt, and the
      section is empty exactly when there is no history. */
  lemma HistorySectionWindow(older: seq<string>, recent: seq<string>)
    requires |recent| >= HistoryWindow
    ensures HistorySection(older + recent) == HistorySection(recent)
    ensures HistorySection(recent) != ""
  {
    assert Suffix(older + recent, HistoryWindow) == Suffix(recent, HistoryWindow);
  }

  lemma HistorySectionEmpty(history: seq<string>)
    ensures HistorySection(history) == "" <==> history == []
  {
  }

  /** `dog_info` */
  function DogInfo(u: UserContext): string
  {
    if !Present(u.dogBreed) then ""
    else
      "\nUSER'S DOG INFORMATION:\n" + "- Breed: " + u.dogBreed.value + "\n"
      + (if Present(u.healthCondition) then "- Recent Health Condition: " + u.healthCondition.value + "\n" else "")
  }

  /** The dog section appears exactly when a breed is known, so a health
      condition alone never shows. */
  lemma DogInfoShownIffBreed(u: UserContext)
    ensures DogInfo(u) == "" <==> !Present(u.dogBreed)
    ensures Present(u.dogBreed) && !Present(u.healthCondition) ==>
              DogInfo(u) == "\nUSER'S DOG INFORMATION:\n- Breed: " + u.dogBreed.value + "\n"
  {
  }

  function DetectionLine(kind: string, d: YoloDetectionResult, percent: real -> string): string
  {
    "- " + kind + " detected: " + d.detectedClass + " (confidence: " + percent(d.confidence) + ")\n"
  }

  /** `detection_section` */
  function DetectionSection(u: UserContext, percent: real -> string): string
  {
    if u.breedDetection.None? && u.diseaseDetection.None? then ""
    else
      "\nRECENT DETECTION RESULTS:\n"
      + (if u.breedDetection.Some? then DetectionLine("Breed", u.breedDetection.value, percent) else "")
      + (if u.diseaseDetection.Some? then DetectionLine("Health condition", u.diseaseDetection.value, percent) else "")
  }

  lemma DetectionSectionEmpty(u: UserContext, percent: real -> string)
    ensures DetectionSection(u, percent) == "" <==> u.breedDetection.None? && u.diseaseDetection.None?
  {
  }

  /** The whole prompt, or `None` when laying out the context raises. */
  function PromptText(request: RagRequest, docs: seq<ContextDoc>, u: UserContext,
                      show: Value -> string, percent: real -> string): Option<string>
  {
    match ContextSection(docs, show)
    case None => None
    case Some(context) =>
      Some(SystemPrompt + "\n\n" + DogInfo(u) + "\n" + context + "\n" + HistorySection(u.conversationHistory) + "\n"
           + DetectionSection(u, percent) + "\n\nUSER'S QUESTION: " + request.query + "\n\n" + ClosingInstruction)
  }

  /** Laying out the prompt fails exactly when a retrieved content cannot
      be sliced. */
  lemma PromptTextSliceable(request: RagRequest, docs: seq<ContextDoc>, u: UserContext,
                            show: Value -> string, percent: real -> string)
    ensures PromptText(request, docs, u, show, percent).Some? <==> AllSliceable(docs)
  {
    ContextBodyEntries(docs, show);
  }

  /** Only the last three history entries reach the prompt. */
  lemma PromptTextHistoryWindow(request: RagRequest, docs: seq<ContextDoc>, u: UserContext, older: seq<string>,
                                show: Value -> string, percent: real -> string)
    requires |u.conversationHistory| >= HistoryWindow
    ensures PromptText(request, docs, u.(conversationHistory := older + u.conversationHistory), show, percent)
            == PromptText(request, docs, u, show, percent)
  {
    HistorySectionWindow(older, u.conversationHistory);
  }

  /** `get_health_guidance`'s query and request. */
  function HealthGuidanceRequest(condition: string, breed: Option<string>): (r: RagRequest)
    ensures r.contextType == "health_guidance" && r.sessionId == "health_guidance" && r.userId == "system"
    ensures r.dogBreed == breed
    ensures !Present(breed) ==> r.query == "dog health " + condition
    ensures Present(breed) ==> r.query == "dog health " + condition + " " + breed.value
  {
    var query := "dog health " + condition + (if Present(breed) then " " + breed.value else "");
    RagRequest(query, "health_guidance", "system", breed, None, [], "health_guidance")
  }

  /** Health guidance is looked up in the knowledge namespace. */
  lemma HealthGuidanceSearchesKnowledge(condition: string, breed: Option<string>)
    ensures SearchNamespace(HealthGuidanceRequest(condition, breed).contextType) == NamespaceTypeWire(KnowledgeNamespace)
  {
  }

  /** `get_breed_specific_advice`'s request. */
  function BreedAdviceRequest(breed: string, topic: string): (r: RagRequest)
    ensures r.query == breed + " " + topic && r.contextType == "breed_info"
    ensures r.sessionId == "breed_advice" && r.userId == "system" && r.dogBreed == Some(breed)
  {
    RagRequest(breed + " " + topic, "breed_advice", "system", Some(breed), None, [], "breed_info")
  }

  const FallbackResponse: RagResponse := RagResponse(KnowledgeBaseApology, [], 0.0, "error")

  class RagServiceImpl {
    const vectorDb: VectorDb.VectorIndex
    const embedConfig: Embedding.EmbeddingConfig
    const embedApi: Embedding.EmbedApi
    /** `chat_sessions_collection.find_one({"session_id": ...})` */
    const findSession: string -> Option<ChatSession>
    /** `chat_model.generate_content(prompt).text`; `None` when it raises. */
    const generate: string -> Option<string>
    /** Python's `str()` of a value that is not a string. */
    const show: Value -> string
    /** The `:.1%` formatting of a confidence. */
    const percent: real -> string

    constructor (vectorDb: VectorDb.VectorIndex, embedConfig: Embedding.EmbeddingConfig, embedApi: Embedding.EmbedApi,
                 findSession: string -> Option<ChatSession>, generate: string -> Option<string>,
                 show: Value -> string, percent: real -> string)
      ensures this.vectorDb == vectorDb && this.embedConfig == embedConfig && this.embedApi == embedApi
      ensures this.findSession == findSession && this.generate == generate
      ensures this.show == show && this.percent == percent
    {
      this.vectorDb := vectorDb;
      this.embedConfig := embedConfig;
      this.embedApi := embedApi;
      this.findSession := findSession;
      this.generate := generate;
      this.show := show;
      this.percent := percent;
    }

    /** The hits of the vector search for a request, as `similarity_search` formats them. */
    function SearchHits(request: RagRequest, query: Embedding.Vector): seq<VectorDb.SearchHit>
    {
      var ns := SearchNamespace(request.contextType);
      if !vectorDb.hasIndex then []
      else match vectorDb.query(query, ContextTopK, map[], ns)
        case None => []
        case Some(matches) => seq(|matches|, j requires 0 <= j < |matches| => VectorDb.FormatMatch(matches[j], ns))
    }

    /** `_get_relevant_context`: nothing without a query embedding,
        otherwise one context document per hit, in order. */
    function RelevantContext(request: RagRequest): (docs: seq<ContextDoc>)
    {
      match Embedding.CreateSingleEmbedding(embedConfig, embedApi, request.query)
      case None => []
      case Some(q) =>
        if q == [] then []
        else
          var hits := SearchHits(request, q);
          seq(|hits|, j requires 0 <= j < |hits| => ContextDocOf(hits[j]))
    }

    /** The context is empty for a blank query or without an index, and
        otherwise holds one document per match the index returns in the
        selected namespace, in order, with the content, source and type
        defaults applied. */
    lemma RelevantContextProperties(request: RagRequest, q: Embedding.Vector, matches: seq<VectorDb.Match>)
      ensures IsBlank(request.query) ==> RelevantContext(request) == []
      ensures !vectorDb.hasIndex ==> RelevantContext(request) == []
      ensures Embedding.CreateSingleEmbedding(embedConfig, embedApi, request.query) == Some(q) && vectorDb.hasIndex
              && vectorDb.query(q, ContextTopK, map[], SearchNamespace(request.contextType)) == Some(matches) ==>
                var docs := RelevantContext(request);
                |docs| == |matches|
                && forall j :: 0 <= j < |matches| ==>
                     docs[j].score == matches[j].score
                     && docs[j].content == Lookup(matches[j].metadata, "content", VStr(""))
                     && docs[j].source == Lookup(matches[j].metadata, "file_name", VStr("Unknown"))
                     && docs[j].documentType == Lookup(matches[j].metadata, "document_type", VStr("general"))
    {
      if Embedding.CreateSingleEmbedding(embedConfig, embedApi, request.query) == Some(q) && vectorDb.hasIndex
         && vectorDb.query(q, ContextTopK, map[], SearchNamespace(request.contextType)) == Some(matches) {
        var docs := RelevantContext(request);
        var hits := SearchHits(request, q);
        forall j | 0 <= j < |matches|
          ensures docs[j].source == Lookup(matches[j].metadata, "file_name", VStr("Unknown"))
          ensures docs[j].documentType == Lookup(matches[j].metadata, "document_type", VStr("general"))
        {
          assert "file_name" != "content" && "document_type" != "content";
        }
      }
    }

    method GetRelevantContext(request: RagRequest) returns (docs: seq<ContextDoc>)
      ensures docs == RelevantContext(request)
    {
      var q := Embedding.CreateSingleEmbedding(embedConfig, embedApi, request.query);
      if q.None? || q.value == [] {
        return [];
      }
      var ns := SearchNamespace(request.contextType);
      var results := vectorDb.SimilaritySearch(q.value, ContextTopK, Some(map[]), Some(ns));
      ghost var hits := SearchHits(request, q.value);
      assert |results| == |hits| && forall j :: 0 <= j < |hits| ==> results[j] == hits[j];
      docs := [];
      for j := 0 to |results|
        invariant |docs| == j
        invariant forall k :: 0 <= k < j ==> docs[k] == ContextDocOf(results[k])
      {
        docs := docs + [ContextDocOf(results[j])];
      }
    }

    /** The enumerate loop of `_create_personalized_prompt`. */
    method BuildContextSection(docs: seq<ContextDoc>) returns (section: Option<string>)
      ensures section == ContextSection(docs, show)
    {
      if docs == [] {
        return Some("");
      }
      var body := "";
      for i := 0 to |docs|
        invariant ContextBody(docs[..i], show) == Some(body)
      {
        assert docs[..i + 1][..i] == docs[..i];
        var snippet := ContentSnippet(docs[i].content, show);
        if snippet.None? {
          ContextBodyEntries(docs, show);
          return None;
        }
        body := body + ContextEntry(i + 1, snippet.value, docs[i], show);
      }
      assert docs[..|docs|] == docs;
      section := Some("\nRELEVANT INFORMATION:\n" + body);
    }

    /** The history loop of `_create_personalized_prompt`. */
    method BuildHistorySection(history: seq<string>) returns (section: string)
      ensures section == HistorySection(history)
    {
      if history == [] {
        return "";
      }
      var recent := Suffix(history, HistoryWindow);
      var body := "";
      for i := 0 to |recent|
        invariant body == HistoryBody(recent[..i])
      {
        assert recent[..i + 1][..i] == recent[..i];
        body := body + "- " + recent[i] + "\n";
      }
      assert recent[..|recent|] == recent;
      section := "\nRECENT CONVERSATION:\n" + body;
    }

    /** `_create_personalized_prompt` */
    method CreatePersonalizedPrompt(request: RagRequest, docs: seq<ContextDoc>, u: UserContext) returns (prompt: Option<string>)
      ensures prompt == PromptText(request, docs, u, show, percent)
    {
      var dogInfo := DogInfo(u);
      var context := BuildContextSection(docs);
      if context.None? {
        return None;
      }
      var history := BuildHistorySection(u.conversationHistory);
      var detections := DetectionSection(u, percent);
      prompt := Some(SystemPrompt + "\n\n" + dogInfo + "\n" + context.value + "\n" + history + "\n"
                     + detections + "\n\nUSER'S QUESTION: " + request.query + "\n\n" + ClosingInstruction);
    }

    /** `get_personalized_response`: a prompt that cannot be laid out gives
        the fixed apology; otherwise the model's answer (or its own apology)
        with the retrieved sources, confidence 0.85 and the request's
        context type. */
    function PersonalizedResponse(request: RagRequest): (r: RagResponse)
      ensures PromptText(request, RelevantContext(request), UserContextOf(findSession(request.sessionId)), show, percent).None?
              ==> r == FallbackResponse
      ensures PromptText(request, RelevantContext(request), UserContextOf(findSession(request.sessionId)), show, percent).Some?
              ==> r.sources == RelevantContext(request) && r.confidence == 0.85 && r.responseType == request.contextType
      ensures var prompt := PromptText(request, RelevantContext(request), UserContextOf(findSession(request.sessionId)), show, percent);
              prompt.Some? ==> (generate(prompt.value).Some? ==> r.response == generate(prompt.value).value)
                               && (generate(prompt.value).None? ==> r.response == GenerationApology)
    {
      var docs := RelevantContext(request);
      match PromptText(request, docs, UserContextOf(findSession(request.sessionId)), show, percent)
      case None => FallbackResponse
      case Some(prompt) => RagResponse(generate(prompt).GetOr(GenerationApology), docs, 0.85, request.contextType)
    }

    /** The apology comes exactly from a retrieved content that cannot be sliced. */
    lemma FallbackIffUnsliceable(request: RagRequest)
      ensures PersonalizedResponse(request) == FallbackResponse <==> !AllSliceable(RelevantContext(request))
    {
      PromptTextSliceable(request, RelevantContext(request), UserContextOf(findSession(request.sessionId)), show, percent);
    }

    method GetPersonalizedResponse(request: RagRequest) returns (r: RagResponse)
      ensures r == PersonalizedResponse(request)
    {
      var docs := GetRelevantContext(request);
      var u := UserContextOf(findSession(request.sessionId));
      var prompt := CreatePersonalizedPrompt(request, docs, u);
      if prompt.None? {
        return FallbackResponse;
      }
      var answer := generate(prompt.value).GetOr(GenerationApology);
      r := RagResponse(answer, docs, 0.85, request.contextType);
    }

    /** `get_health_guidance` */
    method GetHealthGuidance(condition: string, breed: Option<string>) returns (answer: string)
      ensures answer == PersonalizedResponse(HealthGuidanceRequest(condition, breed)).response
    {
      var response := GetPersonalizedResponse(HealthGuidanceRequest(condition, breed));
      answer := response.response;
    }

    /** `get_breed_specific_advice` */
    method GetBreedSpecificAdvice(breed: string, topic: string) returns (answer: string)
      ensures answer == PersonalizedResponse(BreedAdviceRequest(breed, topic)).response
    {
      var response := GetPersonalizedResponse(BreedAdviceRequest(breed, topic));
      answer := response.response;
    }
  }
}
