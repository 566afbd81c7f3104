/** The chat stage dispatcher (services/chat_service.py). One turn finds the
    user, finds or creates the user's session, and answers according to the
    session's stage and to whether the request carries text or an image.

    `Turn` states the answer and the session to persist as a function of the
    session, the user and the request; `ChatService.ProcessChatMessage` is the
    operation on the stores, proved to follow it. Breed detection and the
    knowledge-base query are opaque functions given to the service. */
module Chat {
  import opened Common
  import opened ChatModels
  import opened ChatStore
  import opened UserStore
  import Base64

  datatype ChatError =
    | UserNotFound
      /** `create_session` was refused: the new identifier is already stored. */
    | SessionNotStored
      /** `b64decode` rejected the uploaded image. */
    | InvalidImage

  /** The answer of one turn and the session it persists, if any. */
  datatype TurnOutcome = TurnOutcome(reply: ApiResponse, saved: Option<ChatSession>)

  const UploadPrompt: string := "Please upload an image to detect the breed."
  const HealthPrompt: string := "Please ask a question about your dog's health."
  const NotImplemented: string := "This chat stage is not yet implemented."

  function WelcomeNewText(name: string): string
  {
    "Welcome, " + name + ", to Marshee Pet Tech! To get started, please upload a photo of your dog."
  }

  function WelcomeBackText(name: string): string
  {
    "Welcome back, " + name + "! Please upload a photo of your dog to continue."
  }

  /** The first-time greeting is the one that begins "Welcome,". */
  predicate IsFirstTimeGreeting(s: string)
  {
    |s| >= 8 && s[..8] == "Welcome,"
  }

  /** `_handle_welcome`: greets the user, asks for an image, keeps the stage. */
  function HandleWelcome(session: ChatSession, user: UserRecord): (r: ApiResponse)
    ensures r.userId == session.userId && r.nextInputExpected == "image"
    ensures r.currentStage == session.currentStage
    ensures IsFirstTimeGreeting(r.botResponse) <==> IsNewUser(user)
  {
    var text := if IsNewUser(user) then WelcomeNewText(user.name) else WelcomeBackText(user.name);
    assert !IsNewUser(user) ==> text[7] == ' ';
    ApiResponse(session.userId, text, "image", session.currentStage)
  }

  function BreedDetectedText(breed: string): string
  {
    "Breed detected: " + breed + ". Now, let's check your dog's health. You can ask me anything about it."
  }

  /** `_handle_breed_detection`: without an image, asks for one; with one,
      decodes it, detects the breed and moves the session to the health check. */
  function BreedDetectionStep(session: ChatSession, request: ApiRequest,
                              detectBreed: seq<byte> -> string): Result<TurnOutcome, ChatError>
  {
    if !HasImage(request) then
      Ok(TurnOutcome(ApiResponse(session.userId, UploadPrompt, "image", session.currentStage), None))
    else
      match Base64.Decode(request.data.value.imageBase64.value)
      case None => Err(InvalidImage)
      case Some(bytes) =>
        var advanced := session.(currentStage := Stage2HealthCheck);
        Ok(TurnOutcome(ApiResponse(session.userId, BreedDetectedText(detectBreed(bytes)), "text", Stage2HealthCheck),
                       Some(advanced)))
  }

  /** The health-check stage: a question goes to the knowledge base. */
  function HealthCheckReply(session: ChatSession, request: ApiRequest, queryKnowledgeBase: string -> string): ApiResponse
  {
    if !HasText(request) then ApiResponse(session.userId, HealthPrompt, "text", session.currentStage)
    else ApiResponse(session.userId, queryKnowledgeBase(request.userMessage.value), "text", session.currentStage)
  }

  /** The stage dispatch of `process_chat_message`, once the user and the
      session are known. */
  function Turn(session: ChatSession, user: UserRecord, request: ApiRequest,
                detectBreed: seq<byte> -> string, queryKnowledgeBase: string -> string): Result<TurnOutcome, ChatError>
  {
    if session.currentStage == Stage1Welcome then
      if HasText(request) || HasImage(request) then BreedDetectionStep(session, request, detectBreed)
      else Ok(TurnOutcome(HandleWelcome(session, user), None))
    else if session.currentStage == Stage2HealthCheck then
      Ok(TurnOutcome(HealthCheckReply(session, request, queryKnowledgeBase), None))
    else
      Ok(TurnOutcome(ApiResponse(session.userId, NotImplemented, "text", session.currentStage), None))
  }

  /** The stage moves that a turn can make: none, or from the welcome stage
      to the health check. */
  predicate Transition(from: ChatStage, to: ChatStage)
  {
    from == to || (from == Stage1Welcome && to == Stage2HealthCheck)
  }

  /** Every reply is addressed to the session's user, reports the stage the
      session is in after the turn, and moves the stage only as `Transition`
      allows; a persisted session differs from the old one only in its stage. */
  lemma TurnKeepsUserAndStage(session: ChatSession, user: UserRecord, request: ApiRequest,
                              detectBreed: seq<byte> -> string, queryKnowledgeBase: string -> string)
    ensures var t := Turn(session, user, request, detectBreed, queryKnowledgeBase);
            t.Ok? ==> t.value.reply.userId == session.userId
                      && Transition(session.currentStage, t.value.reply.currentStage)
                      && (t.value.saved.None? ==> t.value.reply.currentStage == session.currentStage)
                      && (t.value.saved.Some? ==> t.value.saved.value == session.(currentStage := t.value.reply.currentStage))
  {
  }

  /** Only a decodable image in the welcome stage advances the session, and
      only then is the session persisted; an undecodable one is the only error. */
  lemma TurnAdvancesOnlyOnImage(session: ChatSession, user: UserRecord, request: ApiRequest,
                                detectBreed: seq<byte> -> string, queryKnowledgeBase: string -> string)
    ensures var t := Turn(session, user, request, detectBreed, queryKnowledgeBase);
            var welcomeImage := session.currentStage == Stage1Welcome && HasImage(request);
            (t.Err? <==> welcomeImage && Base64.Decode(request.data.value.imageBase64.value).None?)
            && (t.Ok? && t.value.saved.Some? <==> welcomeImage && Base64.Decode(request.data.value.imageBase64.value).Some?)
            && (t.Ok? && t.value.saved.Some? ==>
                  t.value.reply.currentStage == Stage2HealthCheck && t.value.reply.nextInputExpected == "text"
                  && t.value.reply.botResponse ==
                       BreedDetectedText(detectBreed(Base64.Decode(request.data.value.imageBase64.value).value)))
  {
  }

  /** In the welcome stage, a request with neither text nor image is greeted;
      text alone is asked for an image; neither persists anything. */
  lemma TurnWelcomeReprompts(session: ChatSession, user: UserRecord, request: ApiRequest,
                             detectBreed: seq<byte> -> string, queryKnowledgeBase: string -> string)
    requires session.currentStage == Stage1Welcome && !HasImage(request)
    ensures var t := Turn(session, user, request, detectBreed, queryKnowledgeBase);
            t.Ok? && t.value.saved.None? && t.value.reply.currentStage == Stage1Welcome
            && t.value.reply.nextInputExpected == "image"
            && (HasText(request) ==> t.value.reply.botResponse == UploadPrompt)
            && (!HasText(request) ==> t.value.reply == HandleWelcome(session, user))
  {
  }

  /** In the health check, a question is answered with exactly the knowledge
      base's answer, and a request without one is asked for a question. */
  lemma TurnHealthCheckAnswers(session: ChatSession, user: UserRecord, request: ApiRequest,
                               detectBreed: seq<byte> -> string, queryKnowledgeBase: string -> string)
    requires session.currentStage == Stage2HealthCheck
    ensures var t := Turn(session, user, request, detectBreed, queryKnowledgeBase);
            t.Ok? && t.value.saved.None? && t.value.reply.currentStage == Stage2HealthCheck
            && t.value.reply.nextInputExpected == "text"
            && t.value.reply.botResponse ==
                 if HasText(request) then queryKnowledgeBase(request.userMessage.value) else HealthPrompt
  {
  }

  /** Stages without a handler answer with a fixed text and stay where they are. */
  lemma TurnOtherStagesUnimplemented(session: ChatSession, user: UserRecord, request: ApiRequest,
                                     detectBreed: seq<byte> -> string, queryKnowledgeBase: string -> string)
    requires session.currentStage != Stage1Welcome && session.currentStage != Stage2HealthCheck
    ensures Turn(session, user, request, detectBreed, queryKnowledgeBase)
            == Ok(TurnOutcome(ApiResponse(session.userId, NotImplemented, "text", session.currentStage), None))
  {
  }

  /** The sessions after a turn: the persisted session replaces its stored
      version (`update_session` has no upsert). */
  function ApplySave(sessions: map<string, ChatSession>, t: Result<TurnOutcome, ChatError>): map<string, ChatSession>
  {
    if t.Ok? && t.value.saved.Some? && t.value.saved.value.sessionId in sessions then
      sessions[t.value.saved.value.sessionId := t.value.saved.value]
    else sessions
  }

  function ReplyOf(t: Result<TurnOutcome, ChatError>): Result<ApiResponse, ChatError>
  {
    match t
    case Ok(o) => Ok(o.reply)
    case Err(e) => Err(e)
  }

  class ChatService {
    const chats: ChatRepository
    const users: UserRepository
    const detectBreed: seq<byte> -> string
    const queryKnowledgeBase: string -> string

    constructor (chats: ChatRepository, users: UserRepository,
                 detectBreed: seq<byte> -> string, queryKnowledgeBase: string -> string)
      ensures this.chats == chats && this.users == users
      ensures this.detectBreed == detectBreed && this.queryKnowledgeBase == queryKnowledgeBase
    {
      this.chats := chats;
      this.users := users;
      this.detectBreed := detectBreed;
      this.queryKnowledgeBase := queryKnowledgeBase;
    }

    /** `_get_or_create_session`: an active session of the user, unchanged, or
        a new welcome-stage session, stored under `newSessionId`. */
    method GetOrCreateSession(userId: string, newSessionId: string, now: Instant) returns (r: Result<ChatSession, ChatError>)
      requires chats.Valid()
      modifies chats
      ensures chats.Valid() && chats.messages == old(chats.messages)
      ensures old(chats.HasActiveSession(userId)) ==>
                r.Ok? && r.value.userId == userId && r.value.isActive
                && r.value.sessionId in old(chats.sessions) && old(chats.sessions)[r.value.sessionId] == r.value
                && chats.sessions == old(chats.sessions)
      ensures !old(chats.HasActiveSession(userId)) && newSessionId !in old(chats.sessions) ==>
                r == Ok(NewSession(newSessionId, userId, now))
                && chats.sessions == old(chats.sessions)[newSessionId := NewSession(newSessionId, userId, now)]
      ensures !old(chats.HasActiveSession(userId)) && newSessionId in old(chats.sessions) ==>
                r == Err(SessionNotStored) && chats.sessions == old(chats.sessions)
    {
      var existing := chats.GetSessionByUserId(userId);
      if existing.Some? {
        return Ok(existing.value);
      }
      var session := NewSession(newSessionId, userId, now);
      var ok := chats.CreateSession(session);
      if !ok {
        return Err(SessionNotStored);
      }
      r := Ok(session);
    }

    method HandleBreedDetection(session: ChatSession, request: ApiRequest) returns (r: Result<ApiResponse, ChatError>)
      requires chats.Valid()
      modifies chats
      ensures chats.Valid() && chats.messages == old(chats.messages)
      ensures r == ReplyOf(BreedDetectionStep(session, request, detectBreed))
      ensures chats.sessions == ApplySave(old(chats.sessions), BreedDetectionStep(session, request, detectBreed))
    {
      if !HasImage(request) {
        return Ok(ApiResponse(session.userId, UploadPrompt, "image", session.currentStage));
      }
      var imageData := Base64.Decode(request.data.value.imageBase64.value);
      if imageData.None? {
        return Err(InvalidImage);
      }
      var breed := detectBreed(imageData.value);
      var advanced := session.(currentStage := Stage2HealthCheck);
      chats.UpdateSession(advanced);
      r := Ok(ApiResponse(session.userId, BreedDetectedText(breed), "text", advanced.currentStage));
    }

    /** `process_chat_message`. The user is looked up first; an unknown user
        is refused before any session is read or created. `used` is the
        session the turn was answered from. */
    method ProcessChatMessage(request: ApiRequest, newSessionId: string, now: Instant)
      returns (r: Result<ApiResponse, ChatError>, ghost used: ChatSession)
      requires chats.Valid() && users.Valid()
      modifies chats
      ensures chats.Valid() && chats.messages == old(chats.messages)
      ensures users.GetUserById(request.userId).None? ==>
                r == Err(UserNotFound) && chats.sessions == old(chats.sessions)
      ensures users.GetUserById(request.userId).Some? ==>
                var user := users.GetUserById(request.userId).value;
                var created := !old(chats.HasActiveSession(request.userId));
                (!created ==> used.sessionId in old(chats.sessions) && old(chats.sessions)[used.sessionId] == used
                              && used.userId == request.userId && used.isActive)
                && (created ==> used == NewSession(newSessionId, request.userId, now))
                && (created && newSessionId in old(chats.sessions) ==>
                      r == Err(SessionNotStored) && chats.sessions == old(chats.sessions))
                && (!(created && newSessionId in old(chats.sessions)) ==>
                      var stored := if created then old(chats.sessions)[newSessionId := used] else old(chats.sessions);
                      var t := Turn(used, user, request, detectBreed, queryKnowledgeBase);
                      r == ReplyOf(t) && chats.sessions == ApplySave(stored, t))
    {
      used := NewSession(newSessionId, request.userId, now);
      var found := users.GetUserById(request.userId);
      if found.None? {
        return Err(UserNotFound), used;
      }
      var user := found.value;
      var session := GetOrCreateSession(request.userId, newSessionId, now);
      if session.Err? {
        return Err(session.error), used;
      }
      var current := session.value;
      used := current;
      if current.currentStage == Stage1Welcome {
        if HasText(request) || HasImage(request) {
          r := HandleBreedDetection(current, request);
        } else {
          r := Ok(HandleWelcome(current, user));
        }
        return;
      }
      if current.currentStage == Stage2HealthCheck {
        if !HasText(request) {
          return Ok(ApiResponse(current.userId, HealthPrompt, "text", current.currentStage)), used;
        }
        var answer := queryKnowledgeBase(request.userMessage.value);
        return Ok(ApiResponse(current.userId, answer, "text", current.currentStage)), used;
      }
      r := Ok(ApiResponse(current.userId, NotImplemented, "text", current.currentStage));
    }
  }
}
