/** Records and enumerations of the chat flow (modals/chat.py), with the
    defaults the source gives them, plus the request and reply envelopes that
    the chat service uses (`ApiRequest`, `ApiResponse`), whose fields are
    taken from their use in services/chat_service.py. */
module ChatModels {
  import opened Common

  /** The conversation stages. `Stage2HealthCheck` is written by the chat
      service but missing from the source's enumeration; it is added here. */
  datatype ChatStage =
    | Stage1Welcome
    | Stage1BreedDetection
    | Stage1Complete
    | Stage2Options
    | Stage2HealthCheck
    | Stage2aDiseaseRequest
    | Stage2aDiseaseProcessing
    | Stage2aDiseaseResult
    | Stage2aFollowup
    | Stage2bGeneralChat
    | SessionComplete

  /** The string each stage is stored and sent as. */
  function StageWire(s: ChatStage): string
  {
    match s
    case Stage1Welcome => "stage_1_welcome"
    case Stage1BreedDetection => "stage_1_breed"
    case Stage1Complete => "stage_1_complete"
    case Stage2Options => "stage_2_options"
    case Stage2HealthCheck => "stage_2_health_check"
    case Stage2aDiseaseRequest => "stage_2a_disease_request"
    case Stage2aDiseaseProcessing => "stage_2a_processing"
    case Stage2aDiseaseResult => "stage_2a_result"
    case Stage2aFollowup => "stage_2a_followup"
    case Stage2bGeneralChat => "stage_2b_general_chat"
    case SessionComplete => "session_complete"
  }

  /** `ChatStage(w)`: the stage whose wire string is `w`, if any. */
  function ParseStage(w: string): (r: Option<ChatStage>)
    ensures r.Some? ==> StageWire(r.value) == w
  {
    if w == "stage_1_welcome" then Some(Stage1Welcome)
    else if w == "stage_1_breed" then Some(Stage1BreedDetection)
    else if w == "stage_1_complete" then Some(Stage1Complete)
    else if w == "stage_2_options" then Some(Stage2Options)
    else if w == "stage_2_health_check" then Some(Stage2HealthCheck)
    else if w == "stage_2a_disease_request" then Some(Stage2aDiseaseRequest)
    else if w == "stage_2a_processing" then Some(Stage2aDiseaseProcessing)
    else if w == "stage_2a_result" then Some(Stage2aDiseaseResult)
    else if w == "stage_2a_followup" then Some(Stage2aFollowup)
    else if w == "stage_2b_general_chat" then Some(Stage2bGeneralChat)
    else if w == "session_complete" then Some(SessionComplete)
    else None
  }

  /** Decoding the wire string of a stage gives that stage back. */
  lemma StageWireRoundTrip(s: ChatStage)
    ensures ParseStage(StageWire(s)) == Some(s)
  {
  }

  /** Distinct stages are sent as distinct strings. */
  lemma StageWireInjective(a: ChatStage, b: ChatStage)
    ensures StageWire(a) == StageWire(b) ==> a == b
  {
    StageWireRoundTrip(a);
    StageWireRoundTrip(b);
  }

  datatype MessageType = Text | Image | System | Options | DetectionResult | Error

  function MessageTypeWire(t: MessageType): string
  {
    match t
    case Text => "text"
    case Image => "image"
    case System => "system"
    case Options => "options"
    case DetectionResult => "detection_result"
    case Error => "error"
  }

  /** Distinct message types are sent as distinct strings. */
  lemma MessageTypeWireInjective(a: MessageType, b: MessageType)
    ensures MessageTypeWire(a) == MessageTypeWire(b) ==> a == b
  {
  }

  datatype ChatOption = ChatOption(id: string, text: string, description: string, icon: Option<string>)

  datatype YoloDetectionResult = YoloDetectionResult(
    modelType: string,
    detectedClass: string,
    confidence: real,
    textResult: string,
    additionalInfo: map<string, Value>,
    processingTime: real,
    timestamp: Instant)

  datatype ChatSession = ChatSession(
    sessionId: string,
    userId: string,
    currentStage: ChatStage,
    createdAt: Instant,
    updatedAt: Instant,
    breedDetection: Option<YoloDetectionResult>,
    dogBreed: Option<string>,
    breedConfidence: Option<real>,
    diseaseDetection: Option<YoloDetectionResult>,
    healthCondition: Option<string>,
    conditionConfidence: Option<real>,
    conversationHistory: seq<string>,
    userPreferences: map<string, Value>,
    isActive: bool,
    completedAt: Option<Instant>)

  /** `ChatSession(user_id=...)`: every other field takes its default. The
      identifier comes from `uuid4` and both timestamps from the clock. */
  function NewSession(sessionId: string, userId: string, now: Instant): (s: ChatSession)
    ensures s.sessionId == sessionId && s.userId == userId
    ensures s.currentStage == Stage1Welcome && s.isActive && s.completedAt.None?
    ensures s.createdAt == now && s.updatedAt == now
    ensures s.breedDetection.None? && s.dogBreed.None? && s.breedConfidence.None?
    ensures s.diseaseDetection.None? && s.healthCondition.None? && s.conditionConfidence.None?
    ensures s.conversationHistory == [] && s.userPreferences == map[]
  {
    ChatSession(sessionId, userId, Stage1Welcome, now, now, None, None, None, None, None, None, [], map[], true, None)
  }

  datatype ChatMessage = ChatMessage(
    messageId: string,
    sessionId: string,
    userId: string,
    messageType: MessageType,
    content: string,
    timestamp: Instant,
    imageData: Option<string>,
    options: Option<seq<ChatOption>>,
    detectionResult: Option<YoloDetectionResult>,
    isUserMessage: bool,
    metadata: map<string, Value>)

  /** A message built from its required fields only. */
  function NewMessage(messageId: string, sessionId: string, userId: string, messageType: MessageType,
                      content: string, now: Instant): (m: ChatMessage)
    ensures m.messageId == messageId && m.sessionId == sessionId && m.userId == userId
    ensures m.messageType == messageType && m.content == content && m.timestamp == now
    ensures m.isUserMessage
    ensures m.imageData.None? && m.options.None? && m.detectionResult.None? && m.metadata == map[]
  {
    ChatMessage(messageId, sessionId, userId, messageType, content, now, None, None, None, true, map[])
  }

  datatype ChatRequest = ChatRequest(
    sessionId: Option<string>,
    message: Option<string>,
    imageData: Option<string>,
    selectedOption: Option<string>)

  /** `ChatRequest()` is a valid request: every field is optional. */
  function EmptyChatRequest(): (r: ChatRequest)
    ensures r.sessionId.None? && r.message.None? && r.imageData.None? && r.selectedOption.None?
  {
    ChatRequest(None, None, None, None)
  }

  /** The `data` part of an `ApiRequest`. */
  datatype ApiData = ApiData(imageBase64: Option<string>)

  datatype ApiRequest = ApiRequest(userId: string, userMessage: Option<string>, data: Option<ApiData>)

  datatype ApiResponse = ApiResponse(
    userId: string,
    botResponse: string,
    nextInputExpected: string,
    currentStage: ChatStage)

  /** `request.user_message` is truthy. */
  predicate HasText(r: ApiRequest)
  {
    Present(r.userMessage)
  }

  /** `request.data and request.data.image_base64` is truthy. */
  predicate HasImage(r: ApiRequest)
  {
    r.data.Some? && Present(r.data.value.imageBase64)
  }

  /** One entry of `RAGResponse.sources`: a retrieved snippet. */
  datatype ContextDoc = ContextDoc(content: Value, source: Value, score: real, documentType: Value)

  datatype RagRequest = RagRequest(
    query: string,
    sessionId: string,
    userId: string,
    dogBreed: Option<string>,
    healthCondition: Option<string>,
    conversationHistory: seq<string>,
    contextType: string)

  /** A request with the defaults of `RAGRequest` for the optional fields. */
  function NewRagRequest(query: string, sessionId: string, userId: string): (r: RagRequest)
    ensures r.query == query && r.sessionId == sessionId && r.userId == userId
    ensures r.dogBreed.None? && r.healthCondition.None?
    ensures r.conversationHistory == [] && r.contextType == "general"
  {
    RagRequest(query, sessionId, userId, None, None, [], "general")
  }

  datatype RagResponse = RagResponse(response: string, sources: seq<ContextDoc>, confidence: real, responseType: string)
}
