/** The image models and the chat model behind the conversation
    (services/llm_service.py): decoding an uploaded image, picking the most
    confident detection with its fallbacks, gathering knowledge text from the
    vector store and assembling the chat prompt. The YOLO models, the image
    library, the Groq completion call, the clock and the percentage
    formatting are given functions. */
module LlmService {
  import opened Common
  import opened Text
  import opened DocumentModels
  import opened ChatModels
  import Base64
  import Embedding
  import VectorDb

  const InvalidImage: string := "Invalid image data"
  const DataUrlMarker: string := "data:image"
  const KnowledgeTopK: int := 3
  const ChatHistoryWindow: nat := 4
  const ChatMaxTokens: int := 300
  const GenerationApology: string :=
    "I apologize, but I'm having trouble generating a response right now. Please try again."

  // ---------------------------------------------------------------------
  // Image decoding

  /** The base64 text of an upload: a data URL keeps what follows its first
      comma; `split(",")[1]` raises when there is no comma. */
  function ImagePayload(imageData: string): Option<string>
  {
    if !Contains(imageData, DataUrlMarker) then Some(imageData)
    else
      var fields := Split(imageData, ',');
      if |fields| < 2 then None else Some(fields[1])
  }

  /** `_decode_image`: every failure, including bytes the image library
      cannot open, becomes "Invalid image data". */
  function DecodeImage(imageData: string, isImage: seq<byte> -> bool): Result<seq<byte>, string>
  {
    match ImagePayload(imageData)
    case None => Err(InvalidImage)
    case Some(payload) =>
      match Base64.Decode(payload)
      case None => Err(InvalidImage)
      case Some(bytes) => if isImage(bytes) then Ok(bytes) else Err(InvalidImage)
  }

  lemma DecodeImageErrors(imageData: string, isImage: seq<byte> -> bool)
    ensures DecodeImage(imageData, isImage).Err? ==> DecodeImage(imageData, isImage).error == InvalidImage
    ensures DecodeImage(imageData, isImage).Ok? ==> isImage(DecodeImage(imageData, isImage).value)
  {
  }

  /** Base64 text only uses the alphabet and the padding character. */
  lemma {:induction false} EncodeCharacters(b: seq<byte>)
    ensures forall i :: 0 <= i < |Base64.Encode(b)| ==>
              Base64.IsAlphabetChar(Base64.Encode(b)[i]) || Base64.Encode(b)[i] == '='
    decreases |b|
  {
    if |b| >= 3 {
      EncodeCharacters(b[3..]);
      var s := Base64.Encode(b);
      var q := Base64.EncodeTriple(b[0], b[1], b[2]);
      assert s == q + Base64.Encode(b[3..]);
      forall i | 0 <= i < |s|
        ensures Base64.IsAlphabetChar(s[i]) || s[i] == '='
      {
        if i >= 4 {
          assert s[i] == Base64.Encode(b[3..])[i - 4];
        }
      }
    }
  }

  /** A string without some character of `sub` does not contain `sub`. */
  lemma MissingCharNotContained(s: string, sub: string, k: nat)
    requires k < |sub| && sub[k] !in s
    ensures !Contains(s, sub)
  {
    forall i | 0 <= i && i + |sub| <= |s|
      ensures !OccursAt(s, sub, i)
    {
      assert s[i..i + |sub|][k] == s[i + k];
      assert s[i + k] in s;
    }
    ContainsIffOccurs(s, sub);
  }

  lemma ContainsExtend(s: string, t: string, sub: string)
    requires Contains(s, sub)
    ensures Contains(s + t, sub)
  {
    ContainsIffOccurs(s, sub);
    ContainsIffOccurs(s + t, sub);
    var i :| OccursAt(s, sub, i);
    assert (s + t)[i..i + |sub|] == s[i..i + |sub|];
    assert OccursAt(s + t, sub, i);
  }

  lemma {:induction false} SplitNoSeparator(s: string, sep: char)
    requires sep !in s
    ensures Split(s, sep) == [s]
    decreases |s|
  {
    if s != [] {
      SplitNoSeparator(s[1..], sep);
      assert [s[0]] + s[1..] == s;
    }
  }

  lemma {:induction false} SplitAtFirst(a: string, b: string, sep: char)
    requires sep !in a
    ensures Split(a + [sep] + b, sep) == [a] + Split(b, sep)
    decreases |a|
  {
    var s := a + [sep] + b;
    if a == [] {
      assert s[1..] == b;
    } else {
      assert s[1..] == a[1..] + [sep] + b;
      SplitAtFirst(a[1..], b, sep);
      assert [a[0]] + a[1..] == a;
    }
  }

  /** An upload of plain base64 text decodes to the bytes it encodes. */
  lemma DecodeImagePlain(b: seq<byte>, isImage: seq<byte> -> bool)
    requires isImage(b)
    ensures DecodeImage(Base64.Encode(b), isImage) == Ok(b)
  {
    EncodeCharacters(b);
    assert DataUrlMarker[4] == ':';
    MissingCharNotContained(Base64.Encode(b), DataUrlMarker, 4);
    Base64.DecodeEncode(b);
  }

  /** A data URL whose header has no comma decodes to the bytes encoded
      after that comma. */
  lemma DecodeImageDataUrl(header: string, b: seq<byte>, isImage: seq<byte> -> bool)
    requires Contains(header, DataUrlMarker) && ',' !in header
    requires isImage(b)
    ensures DecodeImage(header + "," + Base64.Encode(b), isImage) == Ok(b)
  {
    var e := Base64.Encode(b);
    EncodeCharacters(b);
    assert ',' !in e;
    ContainsExtend(header, "," + e, DataUrlMarker);
    assert header + "," + e == header + ("," + e);
    SplitAtFirst(header, e, ',');
    SplitNoSeparator(e, ',');
    assert Split(header + "," + e, ',') == [header, e];
    Base64.DecodeEncode(b);
  }

  // ---------------------------------------------------------------------
  // Detection

  /** One box of a YOLO result: its confidence and its class index. */
  datatype Box = Box(conf: real, cls: int)

  /** What a model call gives back: it raises, returns no result, or returns
      a first result with its boxes (none when `boxes` is missing) and its
      class names when it has them. */
  datatype Inference =
    | Raised(message: string)
    | NoResults
    | FirstResult(boxes: seq<Box>, names: Option<map<int, string>>)

  type Detector = seq<byte> -> Inference

  datatype Kind = BreedKind | DiseaseKind

  function ModelType(k: Kind): string
  {
    match k
    case BreedKind => "breed"
    case DiseaseKind => "disease"
  }

  function MissingModel(k: Kind): string
  {
    match k
    case BreedKind => "Breed detection model not available"
    case DiseaseKind => "Disease detection model not available"
  }

  function ErrorPrefix(k: Kind): string
  {
    match k
    case BreedKind => "Error during breed detection: "
    case DiseaseKind => "Error during health analysis: "
  }

  /** The outcome before it is packed into a detection record, or the
      message of what was raised. */
  datatype Outcome = Found(detectedClass: string, confidence: real, text: string) | Failed(error: string)

  /** `np.argmax`: the first index of a maximal entry. */
  function ArgMax(xs: seq<real>): (i: nat)
    requires xs != []
    ensures i < |xs|
    ensures forall j :: 0 <= j < |xs| ==> xs[j] <= xs[i]
    ensures forall j :: 0 <= j < i ==> xs[j] < xs[i]
  {
    if |xs| == 1 then 0
    else
      var k := ArgMax(xs[..|xs| - 1]);
      if xs[|xs| - 1] > xs[k] then |xs| - 1 else k
  }

  function Confidences(boxes: seq<Box>): (cs: seq<real>)
    ensures |cs| == |boxes| && forall j :: 0 <= j < |boxes| ==> cs[j] == boxes[j].conf
  {
    seq(|boxes|, j requires 0 <= j < |boxes| => boxes[j].conf)
  }

  /** The class name and confidence of the best box; a class missing from
      `names` raises a `KeyError` whose text is the index. */
  function BestBox(k: Kind, boxes: seq<Box>, names: Option<map<int, string>>, percent: real -> string): Outcome
    requires boxes != []
  {
    var best := boxes[ArgMax(Confidences(boxes))];
    var name :=
      match names
      case None => Some((if k.BreedKind? then "breed_" else "condition_") + IntToString(best.cls))
      case Some(ns) => if best.cls in ns then Some(ns[best.cls]) else None;
    if name.None? then Failed(IntToString(best.cls))
    else
      Found(name.value, best.conf,
            (if k.BreedKind? then "Detected breed: " else "Detected condition: ")
            + name.value + " (confidence: " + percent(best.conf) + ")")
  }

  /** The try block of `detect_breed` / `detect_disease`. */
  function Analyse(k: Kind, model: Option<Detector>, imageData: string, isImage: seq<byte> -> bool,
                   percent: real -> string): Outcome
  {
    if model.None? then Failed(MissingModel(k))
    else
      match DecodeImage(imageData, isImage)
      case Err(e) => Failed(e)
      case Ok(image) =>
        match model.value(image)
        case Raised(m) => Failed(m)
        case NoResults =>
          if k.BreedKind? then Found("Unknown", 0.0, "Could not analyze the image. Please try a different photo.")
          else Found("Unclear", 0.0, "Could not analyze the skin condition clearly. Please try a clearer photo.")
        case FirstResult(boxes, names) =>
          if boxes == [] then
            if k.BreedKind? then Found("Unknown", 0.0, "No clear breed detected. Please try a clearer photo.")
            else Found("Normal", 0.8, "No concerning skin conditions detected. The area appears normal.")
          else BestBox(k, boxes, names, percent)
  }

  /** The detection record, in both the normal and the error path. */
  function Detection(k: Kind, model: Option<Detector>, imageData: string, sessionId: string, userId: string,
                     isImage: seq<byte> -> bool, percent: real -> string, elapsed: real, now: Instant): YoloDetectionResult
  {
    match Analyse(k, model, imageData, isImage, percent)
    case Found(c, conf, text) =>
      YoloDetectionResult(ModelType(k), c, conf, text, map["session_id" := VStr(sessionId), "user_id" := VStr(userId)], elapsed, now)
    case Failed(e) =>
      YoloDetectionResult(ModelType(k), "Error", 0.0, ErrorPrefix(k) + e, map["error" := VStr(e)], elapsed, now)
  }

  /** Nothing propagates: a missing model, an undecodable image or a model
      that raises all give class "Error" with confidence 0.0, and the
      record carries the error exactly then. */
  lemma DetectionErrors(k: Kind, model: Option<Detector>, imageData: string, sessionId: string, userId: string,
                        isImage: seq<byte> -> bool, percent: real -> string, elapsed: real, now: Instant)
    ensures var r := Detection(k, model, imageData, sessionId, userId, isImage, percent, elapsed, now);
            r.modelType == ModelType(k)
            && (model.None? ==> r.detectedClass == "Error" && r.confidence == 0.0 && r.textResult == ErrorPrefix(k) + MissingModel(k))
            && (model.Some? && DecodeImage(imageData, isImage).Err? ==>
                  r.detectedClass == "Error" && r.confidence == 0.0 && r.textResult == ErrorPrefix(k) + InvalidImage)
            && (model.Some? && DecodeImage(imageData, isImage).Ok? && model.value(DecodeImage(imageData, isImage).value).Raised? ==>
                  r.detectedClass == "Error" && r.confidence == 0.0
                  && r.additionalInfo == map["error" := VStr(model.value(DecodeImage(imageData, isImage).value).message)])
            && ("error" in r.additionalInfo <==> Analyse(k, model, imageData, isImage, percent).Failed?)
  {
  }

  /** A breed model that sees nothing reports "Unknown" at 0.0, whether
      it returned no result or a result without boxes. */
  lemma BreedFallback(d: Detector, imageData: string, isImage: seq<byte> -> bool, percent: real -> string)
    requires DecodeImage(imageData, isImage).Ok?
    requires var i := d(DecodeImage(imageData, isImage).value); i.NoResults? || (i.FirstResult? && i.boxes == [])
    ensures var o := Analyse(BreedKind, Some(d), imageData, isImage, percent);
            o.Found? && o.detectedClass == "Unknown" && o.confidence == 0.0
  {
  }

  /** A skin image with no boxes is "Normal" at 0.8; one with no result at
      all is "Unclear" at 0.0. */
  lemma DiseaseFallback(d: Detector, imageData: string, isImage: seq<byte> -> bool, percent: real -> string)
    requires DecodeImage(imageData, isImage).Ok?
    requires var i := d(DecodeImage(imageData, isImage).value); i.NoResults? || (i.FirstResult? && i.boxes == [])
    ensures var o := Analyse(DiseaseKind, Some(d), imageData, isImage, percent);
            o.Found?
            && (d(DecodeImage(imageData, isImage).value).NoResults? ==> o.detectedClass == "Unclear" && o.confidence == 0.0)
            && (d(DecodeImage(imageData, isImage).value).FirstResult? ==> o.detectedClass == "Normal" && o.confidence == 0.8)
  {
  }

  /** With boxes, the reported class and confidence are those of the first
      box of maximal confidence. */
  lemma DetectionPicksBest(k: Kind, d: Detector, imageData: string, isImage: seq<byte> -> bool, percent: real -> string)
    requires DecodeImage(imageData, isImage).Ok?
    requires var i := d(DecodeImage(imageData, isImage).value); i.FirstResult? && i.boxes != []
    ensures var i := d(DecodeImage(imageData, isImage).value);
            var o := Analyse(k, Some(d), imageData, isImage, percent);
            var b := ArgMax(Confidences(i.boxes));
            (forall j :: 0 <= j < |i.boxes| ==> i.boxes[j].conf <= i.boxes[b].conf)
            && (forall j :: 0 <= j < b ==> i.boxes[j].conf < i.boxes[b].conf)
            && (i.names.Some? && i.boxes[b].cls in i.names.value ==>
                  o.Found? && o.detectedClass == i.names.value[i.boxes[b].cls] && o.confidence == i.boxes[b].conf)
            && (i.names.Some? && i.boxes[b].cls !in i.names.value ==> o.Failed?)
            && (i.names.None? ==> o.Found? && o.confidence == i.boxes[b].conf)
  {
    var i := d(DecodeImage(imageData, isImage).value);
    var b := ArgMax(Confidences(i.boxes));
    assert forall j :: 0 <= j < |i.boxes| ==> Confidences(i.boxes)[j] == i.boxes[j].conf;
  }

  /** A reported confidence is a probability when the model's are. */
  lemma DetectionConfidenceBounded(k: Kind, model: Option<Detector>, imageData: string, sessionId: string, userId: string,
                                   isImage: seq<byte> -> bool, percent: real -> string, elapsed: real, now: Instant)
    requires model.Some? && DecodeImage(imageData, isImage).Ok?
    requires var i := model.value(DecodeImage(imageData, isImage).value);
             i.FirstResult? ==> forall j :: 0 <= j < |i.boxes| ==> 0.0 <= i.boxes[j].conf <= 1.0
    ensures 0.0 <= Detection(k, model, imageData, sessionId, userId, isImage, percent, elapsed, now).confidence <= 1.0
  {
    var i := model.value(DecodeImage(imageData, isImage).value);
    if i.FirstResult? && i.boxes != [] {
      var b := ArgMax(Confidences(i.boxes));
      assert Confidences(i.boxes)[b] == i.boxes[b].conf;
    }
  }

  // ---------------------------------------------------------------------
  // Knowledge text

  /** What one search result adds: its metadata "text" and a space, nothing
      when that is falsy, and `None` when a non-string is added to " ". */
  function HitText(hit: VectorDb.SearchHit): Option<string>
  {
    var v := Lookup(hit.metadata, "text", VStr(""));
    if !Truthy(v) then Some("")
    else if v.VStr? then Some(v.s + " ")
    else None
  }

  /** `knowledge_text` after the loop over the results. */
  function Accumulated(hits: seq<VectorDb.SearchHit>): Option<string>
  {
    if hits == [] then Some("")
    else
      match Accumulated(hits[..|hits| - 1])
      case None => None
      case Some(front) =>
        match HitText(hits[|hits| - 1])
        case None => None
        case Some(t) => Some(front + t)
  }

  /** The non-empty texts of the results, in order. */
  function Texts(hits: seq<VectorDb.SearchHit>): seq<string>
  {
    if hits == [] then []
    else
      var last := Lookup(hits[|hits| - 1].metadata, "text", VStr(""));
      Texts(hits[..|hits| - 1]) + (if last.VStr? && last.s != "" then [last.s] else [])
  }

  lemma {:induction false} JoinAppend(parts: seq<string>, t: string, sep: string)
    requires parts != []
    ensures Join(parts + [t], sep) == Join(parts, sep) + sep + t
    decreases |parts|
  {
    if |parts| > 1 {
      assert (parts + [t])[1..] == parts[1..] + [t];
      JoinAppend(parts[1..], t, sep);
    }
  }

  /** The loop leaves the non-empty texts joined by spaces, with one trailing space. */
  lemma {:induction false} AccumulatedJoins(hits: seq<VectorDb.SearchHit>)
    requires Accumulated(hits).Some?
    ensures Accumulated(hits).value == if Texts(hits) == [] then "" else Join(Texts(hits), " ") + " "
    decreases |hits|
  {
    if hits != [] {
      var init := hits[..|hits| - 1];
      var last := Lookup(hits[|hits| - 1].metadata, "text", VStr(""));
      AccumulatedJoins(init);
      if last.VStr? && last.s != "" {
        assert Texts(hits) == Texts(init) + [last.s];
        assert Accumulated(hits).value == Accumulated(init).value + last.s + " ";
        if Texts(init) != [] {
          JoinAppend(Texts(init), last.s, " ");
        } else {
          assert Texts(hits) == [last.s];
        }
      } else {
        assert Texts(hits) == Texts(init);
        assert Accumulated(hits).value == Accumulated(init).value;
      }
    }
  }

  /** `search_knowledge`'s answer from the results: the non-empty texts
      joined with spaces and stripped, or "" when adding a text raises. */
  function KnowledgeFrom(hits: seq<VectorDb.SearchHit>): string
  {
    match Accumulated(hits)
    case None => ""
    case Some(acc) => Strip(acc)
  }

  lemma KnowledgeFromJoin(hits: seq<VectorDb.SearchHit>)
    requires Accumulated(hits).Some?
    ensures KnowledgeFrom(hits) == Strip(Join(Texts(hits), " "))
  {
    AccumulatedJoins(hits);
    if Texts(hits) != [] {
      StripTrailingSpace(Join(Texts(hits), " "));
    }
  }

  // ---------------------------------------------------------------------
  // Chat prompt

  /** `context` of `generate_chat_response`. */
  function ChatContext(session: ChatSession): string
  {
    (if Present(session.dogBreed) then "User's dog breed: " + session.dogBreed.value else "General inquiry")
    + (if Present(session.healthCondition) then " | Detected health condition: " + session.healthCondition.value else "")
  }

  /** The health condition appears exactly when one is set. */
  lemma ChatContextCondition(session: ChatSession)
    ensures !Present(session.healthCondition) ==>
              ChatContext(session) == (if Present(session.dogBreed) then "User's dog breed: " + session.dogBreed.value else "General inquiry")
    ensures Present(session.healthCondition) ==>
              var tail := " | Detected health condition: " + session.healthCondition.value;
              |tail| <= |ChatContext(session)| && ChatContext(session)[|ChatContext(session)| - |tail|..] == tail
  {
  }

  /** `history`: the last four entries joined by newlines. */
  function ChatHistory(history: seq<string>): string
  {
    if history == [] then "First conversation" else Join(Suffix(history, ChatHistoryWindow), "\n")
  }

  lemma ChatHistoryWindowed(older: seq<string>, recent: seq<string>)
    requires |recent| >= ChatHistoryWindow
    ensures ChatHistory(older + recent) == ChatHistory(recent)
    ensures ChatHistory([]) == "First conversation"
  {
    assert Suffix(older + recent, ChatHistoryWindow) == Suffix(recent, ChatHistoryWindow);
  }

  function ChatPrompt(userMessage: string, session: ChatSession, history: seq<string>, knowledge: string): string
  {
    "You are Marshee, an AI dog health assistant.\n\n"
    + "USER CONTEXT: " + ChatContext(session) + "\n"
    + "CONVERSATION HISTORY: " + ChatHistory(history) + "\n"
    + "USER MESSAGE: \"" + userMessage + "\"\n"
    + "RELEVANT KNOWLEDGE: " + knowledge + "\n\n"
    + "Generate a helpful, personalized response that:\n"
    + "1. Addresses their question directly\n"
    + "2. Uses their dog's breed info when relevant\n"
    + "3. Provides actionable advice\n"
    + "4. Maintains a caring tone\n"
    + "5. Keep it under 200 words\n"
    + "6. Ask a follow-up question when appropriate\n\n"
    + "If you don't have specific info, be honest but still helpful."
  }

  class LlmServiceImpl {
    const breedModel: Option<Detector>
    const diseaseModel: Option<Detector>
    /** Whether the image library can open the bytes. */
    const isImage: seq<byte> -> bool
    /** The `:.1%` formatting of a confidence. */
    const percent: real -> string
    /** `chat.completions.create(...).choices[0].message.content`; `None` when it raises. */
    const complete: (string, int) -> Option<string>
    const vectorDb: VectorDb.VectorIndex
    const embedConfig: Embedding.EmbeddingConfig
    const embedApi: Embedding.EmbedApi

    constructor (breedModel: Option<Detector>, diseaseModel: Option<Detector>, isImage: seq<byte> -> bool,
                 percent: real -> string, complete: (string, int) -> Option<string>,
                 vectorDb: VectorDb.VectorIndex, embedConfig: Embedding.EmbeddingConfig, embedApi: Embedding.EmbedApi)
      ensures this.breedModel == breedModel && this.diseaseModel == diseaseModel && this.isImage == isImage
      ensures this.percent == percent && this.complete == complete
      ensures this.vectorDb == vectorDb && this.embedConfig == embedConfig && this.embedApi == embedApi
    {
      this.breedModel := breedModel;
      this.diseaseModel := diseaseModel;
      this.isImage := isImage;
      this.percent := percent;
      this.complete := complete;
      this.vectorDb := vectorDb;
      this.embedConfig := embedConfig;
      this.embedApi := embedApi;
    }

    /** `detect_breed`; `elapsed` is the measured processing time. */
    function DetectBreed(imageData: string, sessionId: string, userId: string, elapsed: real, now: Instant): (r: YoloDetectionResult)
      ensures r.modelType == "breed" && r.processingTime == elapsed
    {
      Detection(BreedKind, breedModel, imageData, sessionId, userId, isImage, percent, elapsed, now)
    }

    /** `detect_disease` */
    function DetectDisease(imageData: string, sessionId: string, userId: string, elapsed: real, now: Instant): (r: YoloDetectionResult)
      ensures r.modelType == "disease" && r.processingTime == elapsed
    {
      Detection(DiseaseKind, diseaseModel, imageData, sessionId, userId, isImage, percent, elapsed, now)
    }

    /** The results `search_knowledge` gets back for a query embedding. */
    function KnowledgeHits(q: Embedding.Vector, namespace: string): seq<VectorDb.SearchHit>
    {
      var ns := VectorDb.TargetNamespace(Some(namespace));
      if !vectorDb.hasIndex then []
      else match vectorDb.query(q, KnowledgeTopK, map[], ns)
        case None => []
        case Some(matches) => seq(|matches|, j requires 0 <= j < |matches| => VectorDb.FormatMatch(matches[j], ns))
    }

    /** What `search_knowledge` answers: "" without a query embedding,
        otherwise the knowledge gathered from the results. */
    function Knowledge(query: string, namespace: string): string
    {
      match Embedding.CreateSingleEmbedding(embedConfig, embedApi, query)
      case None => ""
      case Some(q) => KnowledgeFrom(KnowledgeHits(q, namespace))
    }

    /** A blank query or a missing index gives no knowledge; otherwise the
        answer is the results' texts joined by spaces and stripped. */
    lemma KnowledgeProperties(query: string, namespace: string)
      ensures IsBlank(query) || !vectorDb.hasIndex ==> Knowledge(query, namespace) == ""
      ensures Embedding.CreateSingleEmbedding(embedConfig, embedApi, query).Some? ==>
                var hits := KnowledgeHits(Embedding.CreateSingleEmbedding(embedConfig, embedApi, query).value, namespace);
                Accumulated(hits).Some? ==> Knowledge(query, namespace) == Strip(Join(Texts(hits), " "))
    {
      var e := Embedding.CreateSingleEmbedding(embedConfig, embedApi, query);
      if e.Some? && Accumulated(KnowledgeHits(e.value, namespace)).Some? {
        KnowledgeFromJoin(KnowledgeHits(e.value, namespace));
      }
    }

    method SearchKnowledge(query: string, namespace: string) returns (knowledge: string)
      ensures knowledge == Knowledge(query, namespace)
    {
      var q := Embedding.CreateSingleEmbedding(embedConfig, embedApi, query);
      if q.None? {
        return "";
      }
      var results := vectorDb.SimilaritySearch(q.value, KnowledgeTopK, None, Some(namespace));
      ghost var hits := KnowledgeHits(q.value, namespace);
      assert results == hits;
      if results == [] {
        return "";
      }
      knowledge := GatherText(results);
    }

    /** The loop of `search_knowledge` over its results. */
    method GatherText(results: seq<VectorDb.SearchHit>) returns (knowledge: string)
      ensures knowledge == KnowledgeFrom(results)
    {
      var text := "";
      for j := 0 to |results|
        invariant Accumulated(results[..j]) == Some(text)
      {
        assert results[..j + 1][..j] == results[..j] && results[..j + 1][j] == results[j];
        var v := Lookup(results[j].metadata, "text", VStr(""));
        assert HitText(results[j]) == if !Truthy(v) then Some("") else if v.VStr? then Some(v.s + " ") else None;
        if Truthy(v) {
          if !v.VStr? {
            AccumulatedFails(results, j + 1);
            return "";
          }
          text := text + (v.s + " ");
        } else {
          assert text + "" == text;
        }
      }
      assert results[..|results|] == results;
      knowledge := Strip(text);
    }

    /** `generate_response`: the stripped completion, or a fixed apology. */
    function GenerateResponse(prompt: string, maxTokens: int): (r: string)
      ensures complete(prompt, maxTokens).None? ==> r == GenerationApology
      ensures complete(prompt, maxTokens).Some? ==>
                r == Strip(complete(prompt, maxTokens).value) && (r != [] ==> !IsSpaceChar(r[0]) && !IsSpaceChar(r[|r| - 1]))
    {
      match complete(prompt, maxTokens)
      case None => GenerationApology
      case Some(c) => StripEnds(c); Strip(c)
    }

    /** `generate_chat_response`: the completion of the chat prompt with at
        most 300 tokens, stripped, or the apology when the call fails. */
    function GenerateChatResponse(userMessage: string, session: ChatSession, history: seq<string>, knowledge: string): (r: string)
      ensures complete(ChatPrompt(userMessage, session, history, knowledge), ChatMaxTokens).None? ==> r == GenerationApology
      ensures complete(ChatPrompt(userMessage, session, history, knowledge), ChatMaxTokens).Some? ==>
                r == Strip(complete(ChatPrompt(userMessage, session, history, knowledge), ChatMaxTokens).value)
    {
      GenerateResponse(ChatPrompt(userMessage, session, history, knowledge), ChatMaxTokens)
    }
  }

  /** Once adding a text raises, every longer list of results does too. */
  lemma {:induction false} AccumulatedFails(hits: seq<VectorDb.SearchHit>, n: nat)
    requires 0 < n <= |hits| && Accumulated(hits[..n]).None?
    ensures Accumulated(hits).None?
    decreases |hits| - n
  {
    if n < |hits| {
      assert hits[..n + 1][..n] == hits[..n];
      AccumulatedFails(hits, n + 1);
    } else {
      assert hits[..n] == hits;
    }
  }
}
