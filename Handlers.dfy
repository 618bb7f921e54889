/**
 * The three exported request handlers: `analyzeBusinessAudio`, which chains
 * transcription and analysis behind a fixed reply table, and the two WhatsApp
 * message handlers. A reply is the status code and the fields of its JSON body.
 */
module Handlers {
  import opened Wrappers
  import opened JsText
  import opened Json
  import opened Transcriber
  import opened Sanitizer
  import opened Repair
  import opened Analysis

  // ---------------------------------------------------------------------------
  // analyzeBusinessAudio
  // ---------------------------------------------------------------------------

  datatype AudioReply = AudioReply(
    status: nat,
    success: bool,
    partial: bool,
    transcript: Option<string>,
    error: Option<string>,
    message: Option<string>,
    analysis: Option<AnalysisRecord>,
    details: Option<string>)

  /** The records the handler itself answers with, which differ only in their problem and confidence. */
  function ReplyFallback(problem: string, confidence: int): AnalysisRecord {
    AnalysisRecord(
      DefaultBusinessType, DefaultFocus, [JStr(problem)],
      DefaultPrimary, DefaultSecondary,
      Int(confidence))
  }

  /** `a || b` on two texts. */
  function OrText(a: string, b: string): (r: string)
    ensures a != [] ==> r == a
    ensures a == [] ==> r == b
  {
    if a != [] then a else b
  }

  const PartialError := "Failed to parse AI response completely"

  const NoUploadError := "No audio file uploaded"
  const NoUploadMessage := "Please upload an audio file for analysis."
  const CrashError := "Internal Server Error"
  const CrashMessage := "An unexpected error occurred during audio analysis."
  const UnheardError := "Failed to transcribe audio"
  const UnheardMessage := "We couldn't transcribe your audio. Please try speaking more clearly or check your microphone."
  const FallbackError := "Using fallback analysis"
  const PartialFallbackError := "Failed to analyze transcript"

  /** The reply once the upload has been transcribed, for each outcome of the analysis. */
  function TranscribedReply(text: string, outcome: Outcome): (r: AudioReply)
    ensures r.status == 200 && r.success && r.transcript == Some(text) && r.analysis.Some? && r.details.None?
    ensures r.partial <==> !outcome.Analysed?
    ensures outcome.Analysed? ==> r.analysis == Some(outcome.data) && r.error.None?
    ensures outcome.Fallback? ==>
              r.analysis == Some(outcome.fallback) && r.error == Some(OrText(outcome.error, FallbackError))
    ensures outcome.PartialResult? ==>
              r.analysis == Some(ReplyFallback("Vertex AI analysis failed", 70)) && r.error == Some(PartialError)
  {
    match outcome
    case Fallback(e, record) =>
      AudioReply(200, true, true, Some(text), Some(OrText(e, FallbackError)), None, Some(record), None)
    case PartialResult(_, _) =>
      AudioReply(200, true, true, Some(text), Some(OrText(PartialError, PartialFallbackError)), None,
                 Some(ReplyFallback("Vertex AI analysis failed", 70)), None)
    case Analysed(data, _) =>
      AudioReply(200, true, false, Some(text), None, None, Some(data), None)
  }

  /** The reply for an uploaded file, given what `transcribeAudio` returned or threw. */
  function HeardReply(t: Result<Transcription, string>, aiReady: bool, generate: Generator): (r: AudioReply)
    ensures r.status == 500 <==> t.Err?
    ensures t.Err? ==> !r.success && r.analysis.None? && r.details == Some(t.error)
    ensures t.Ok? && t.value.NotTranscribed? ==>
              r.status == 200 && !r.success && r.transcript.None? &&
              r.analysis == Some(ReplyFallback("Transcription failed", 60)) &&
              r.error == Some(OrText(t.value.error, UnheardError))
    ensures t.Ok? && t.value.Transcribed? ==>
              r == TranscribedReply(t.value.text, AnalyzeTranscript(t.value.text, aiReady, generate))
  {
    match t
    case Err(m) =>
      AudioReply(500, false, false, None, Some(CrashError), Some(CrashMessage), None, Some(m))
    case Ok(NotTranscribed(e)) =>
      AudioReply(200, false, false, None, Some(OrText(e, UnheardError)), Some(UnheardMessage),
                 Some(ReplyFallback("Transcription failed", 60)), None)
    case Ok(Transcribed(text)) =>
      TranscribedReply(text, AnalyzeTranscript(text, aiReady, generate))
  }

  /**
   * `analyzeBusinessAudio(req, res)`. `upload` is the uploaded file's buffer,
   * `None` when there is no file or it has no buffer (an empty buffer is still a
   * buffer); `speechReady` and `aiReady` say whether the two clients were created.
   */
  function AnalyzeBusinessAudio(upload: Option<seq<bv8>>, speechReady: bool, recognize: Recognizer,
                                aiReady: bool, generate: Generator): (r: AudioReply)
    ensures r.status == 500 <==> upload.Some? && !speechReady
    ensures r.status == 500 ==> !r.success && r.analysis.None? && r.details == Some(NotInitialised)
    ensures r.status != 500 ==> r.status == 200 && r.analysis.Some?
    ensures upload.None? ==> !r.success && r.analysis == Some(ReplyFallback("No audio provided", 50))
    ensures r.success <==> r.transcript.Some?
    ensures r.partial ==> r.success && r.error.Some?
    ensures r.success ==> upload.Some? && Transcribe(upload.value, speechReady, recognize) == Ok(Transcribed(r.transcript.value))
    ensures upload.Some? && r.status == 200 && !r.success ==>
              Transcribe(upload.value, speechReady, recognize).Ok? &&
              Transcribe(upload.value, speechReady, recognize).value.NotTranscribed? &&
              r.analysis == Some(ReplyFallback("Transcription failed", 60)) &&
              r.error == Some(Transcribe(upload.value, speechReady, recognize).value.error)
    ensures r.success && !r.partial ==>
              AnalyzeTranscript(r.transcript.value, aiReady, generate).Analysed? &&
              r.analysis == Some(AnalyzeTranscript(r.transcript.value, aiReady, generate).data)
    ensures upload.None? ==>
              r == AudioReply(200, false, false, None, Some(NoUploadError), Some(NoUploadMessage),
                              Some(ReplyFallback("No audio provided", 50)), None)
    ensures upload.Some? ==> r == HeardReply(Transcribe(upload.value, speechReady, recognize), aiReady, generate)
  {
    match upload
    case None =>
      AudioReply(200, false, false, None, Some(NoUploadError), Some(NoUploadMessage),
                 Some(ReplyFallback("No audio provided", 50)), None)
    case Some(audio) =>
      HeardReply(Transcribe(audio, speechReady, recognize), aiReady, generate)
  }

  /** Without the model, a transcribed upload is answered with the initialisation fallback record. */
  lemma {:induction false} AudioWithoutModel(audio: seq<bv8>, recognize: Recognizer, generate: Generator)
    requires Transcribe(audio, true, recognize).Ok? && Transcribe(audio, true, recognize).value.Transcribed?
    ensures var r := AnalyzeBusinessAudio(Some(audio), true, recognize, false, generate);
      r.success && r.partial && r.error == Some(AiNotInitialised) && r.analysis == Some(InitFallback)
  {
  }

  /** A failed transcription names the last error of the speech service in the reply. */
  lemma {:induction false} AudioNotHeard(audio: seq<bv8>, recognize: Recognizer, aiReady: bool, generate: Generator)
    requires forall k :: 0 <= k < |Encodings| ==> recognize(audio, Encodings[k]).Threw?
    ensures var r := AnalyzeBusinessAudio(Some(audio), true, recognize, aiReady, generate);
      r.status == 200 && !r.success &&
      r.error == Some(FailureMessage(Some(recognize(audio, Encodings[3]).message)))
  {
    AllThrow(audio, recognize);
  }

  /** A transcribed upload whose model reply parses strictly to an object is answered with that object, coerced. */
  lemma {:induction false} AudioAnalysed(audio: seq<bv8>, recognize: Recognizer, generate: Generator, transcript: string,
                      text: string, data: Json)
    requires Transcribe(audio, true, recognize) == Ok(Transcribed(transcript))
    requires generate([SafeTranscript(transcript)]).Generated?
    requires ProbeText(generate([SafeTranscript(transcript)]).result) == Ok(text)
    requires Parse(Sanitize(text)) == Ok(data) && data.JObj? && !HasKey(data.members, "partial")
    ensures AnalyzeBusinessAudio(Some(audio), true, recognize, true, generate) ==
              AudioReply(200, true, false, Some(transcript), None, None, Some(Coerce(data)), None)
  {
    AnalysedWhenStrictParseWorks(transcript, generate, text, data);
  }

  /**
   * A reply that only the repair step can parse into an object still ends in the
   * fallback record, because the repaired value is re-parsed as its `String()` text.
   */
  lemma {:induction false} AudioRepairedFallsBack(audio: seq<bv8>, recognize: Recognizer, generate: Generator, transcript: string)
    requires Transcribe(audio, true, recognize) == Ok(Transcribed(transcript))
    requires generate([SafeTranscript(transcript)]).Generated?
    requires var result := generate([SafeTranscript(transcript)]).result;
             ProbeText(result).Ok? && var s := Sanitize(ProbeText(result).value);
             Parse(s).Err? && RepairJson(s).JObj? && !HasKey(RepairJson(s).members, ToStringKey)
    ensures AnalyzeBusinessAudio(Some(audio), true, recognize, true, generate) ==
              AudioReply(200, true, true, Some(transcript),
                         Some(ParseFailurePrefix + ObjectTextError), None,
                         Some(ErrorFallback), None)
  {
    RepairedObjectFallsBack(transcript, generate);
  }

  // ---------------------------------------------------------------------------
  // The WhatsApp handlers
  // ---------------------------------------------------------------------------

  datatype MessageReply = MessageReply(
    status: nat,
    success: bool,
    partial: bool,
    message: Option<Json>,
    error: Option<string>,
    businessType: Option<Json>,
    sessionId: Option<Json>)

  /** A handler either answers, or throws before its `try` and sends no reply. */
  datatype HandlerOutcome = Replied(reply: MessageReply) | Unanswered(error: string)

  /** `const { key, … } = req.body`: the request body, `None` when it is undefined. */
  function Destructure(body: Option<Json>, key: string): Result<Option<Json>, string> {
    if body.None? then Err(DestructurePrefix + key + UndefinedBody)
    else if body.value.JNull? then Err(DestructurePrefix + key + NullBody)
    else Ok(Get(body, key))
  }

  const DestructurePrefix := "Cannot destructure property '"
  const UndefinedBody := "' of 'req.body' as it is undefined."
  const NullBody := "' of 'req.body' as it is null."

  /** The values of a template literal's substitutions, converted in order; the first that throws ends it. */
  function Render(parts: seq<Result<string, string>>): (r: Result<seq<string>, string>)
    ensures r.Ok? <==> forall k :: 0 <= k < |parts| ==> parts[k].Ok?
    ensures r.Ok? ==> |r.value| == |parts| && forall k :: 0 <= k < |parts| ==> r.value[k] == parts[k].value
    ensures r.Err? ==> exists k :: 0 <= k < |parts| && parts[k] == Err(r.error) && forall l :: 0 <= l < k ==> parts[l].Ok?
  {
    if parts == [] then Ok([])
    else
      match parts[0]
      case Err(e) => Err(e)
      case Ok(p) =>
        match Render(parts[1..])
        case Err(e) => Err(e)
        case Ok(ps) => Ok([p] + ps)
  }

  const GenerateFailed := "Failed to generate message"

  /** `error.message || "Failed to generate message"`. */
  function FailedText(m: string): (r: string)
    ensures r != []
    ensures m != [] ==> r == m
    ensures m == [] ==> r == GenerateFailed
  {
    if m != [] then m else GenerateFailed
  }

  /** The text the model answered with: the first truthy of the two places the WhatsApp handlers look. */
  function MessageText(result: Json): (r: Option<Json>)
    ensures r.Some? ==> Truthy(r)
    ensures r.None? <==> !Truthy(PartsText(result)) && !Truthy(ResponseField(result))
    ensures Truthy(PartsText(result)) ==> r == PartsText(result)
    ensures !Truthy(PartsText(result)) && Truthy(ResponseField(result)) ==> r == ResponseField(result)
  {
    if Truthy(PartsText(result)) then PartsText(result)
    else if Truthy(ResponseField(result)) then ResponseField(result)
    else None
  }

  const Greeting :=
    "\U{1F44B} Hello there! Thank you for your interest in our craft business. We'd love to hear more about what you're looking for!"

  const FallbackOpening := "\U{1F44B} Hello there!\n\nThank you for your interest in our "
  const FallbackMiddle := ". We specialize in "
  const FallbackClosing :=
    " made with care and attention to detail.\n\nWe'd love to hear more about what you're looking for! " +
    "Please reply to this message and we'll get back to you as soon as possible.\n\n\U{2728} Thank you!"

  /** The template of the `catch` block, which names the business type and the focus. */
  function MessageFallbackText(businessType: string, focus: string): (r: string)
    ensures r != []
    ensures FallbackOpening + businessType <= r
  {
    FallbackOpening + businessType + FallbackMiddle + focus + FallbackClosing
  }

  const CatchBusinessDefault := JStr("craft business")
  const CatchFocusDefault := JStr("handmade products")
  const PromptBusinessDefault := JStr("Craft Business")
  const PromptFocusDefault := JStr("Handmade products")

  /** The two values the `catch` template interpolates: `businessType || "craft business"` and `detectedFocus || "handmade products"`. */
  function CatchParts(businessType: Option<Json>, focus: Option<Json>): (r: Result<seq<string>, string>)
    ensures r.Ok? ==> |r.value| == 2
    ensures r.Ok? && Truthy(businessType) && businessType.value.JStr? ==> r.value[0] == businessType.value.s
    ensures r.Ok? && !Truthy(businessType) ==> r.value[0] == CatchBusinessDefault.s
    ensures r.Ok? && Truthy(focus) && focus.value.JStr? ==> r.value[1] == focus.value.s
    ensures r.Ok? && !Truthy(focus) ==> r.value[1] == CatchFocusDefault.s
    ensures (!Truthy(businessType) || businessType.value.JStr?) && (!Truthy(focus) || focus.value.JStr?) ==> r.Ok?
  {
    Render([ToJsString(Or(businessType, CatchBusinessDefault)), ToJsString(Or(focus, CatchFocusDefault))])
  }

  /** The `catch` of `generateWhatsAppMessage`, whose template can itself throw. */
  function MessageCatch(businessType: Option<Json>, focus: Option<Json>, error: string): (r: HandlerOutcome)
    ensures r.Replied? ==> r.reply.status == 200 && r.reply.success && r.reply.partial
    ensures r.Replied? ==> r.reply.message.Some? && r.reply.message.value.JStr? && r.reply.message.value.s != []
    ensures r.Replied? ==> r.reply.error == Some(FailedText(error))
    ensures CatchParts(businessType, focus).Ok? ==>
              var p := CatchParts(businessType, focus).value;
              r == Replied(MessageReply(200, true, true, Some(JStr(MessageFallbackText(p[0], p[1]))),
                                        Some(FailedText(error)), None, None))
    ensures CatchParts(businessType, focus).Err? ==> r == Unanswered(CatchParts(businessType, focus).error)
  {
    match CatchParts(businessType, focus)
    case Err(e) => Unanswered(e)
    case Ok(p) =>
      Replied(MessageReply(200, true, true, Some(JStr(MessageFallbackText(p[0], p[1]))), Some(FailedText(error)), None, None))
  }

  /** Without a business type or a focus, the fallback message names "craft business" and "handmade products". */
  lemma {:induction false} MessageCatchDefaults(error: string)
    ensures MessageCatch(None, None, error) ==
              Replied(MessageReply(200, true, true, Some(JStr(MessageFallbackText("craft business", "handmade products"))),
                                   Some(FailedText(error)), None, None))
  {
    var p := CatchParts(None, None);
    assert p.Ok?;
    assert p.value[0] == "craft business" && p.value[1] == "handmade products";
  }

  /** The values interpolated into the prompt: business type, focus and transcript, each with its default. */
  function MessagePrompt(businessType: Option<Json>, focus: Option<Json>, transcript: Json): Result<seq<string>, string> {
    Render([ToJsString(Or(businessType, PromptBusinessDefault)),
            ToJsString(Or(focus, PromptFocusDefault)),
            ToJsString(transcript)])
  }

  /** The `try` of `generateWhatsAppMessage` once the prompt is built. */
  function MessageAnswer(businessType: Option<Json>, focus: Option<Json>, prompt: seq<string>,
                         generate: Generator): (r: HandlerOutcome)
    ensures r.Replied? ==> r.reply.status == 200 && r.reply.success && Truthy(r.reply.message)
    ensures r.Replied? && !r.reply.partial ==>
              generate(prompt).Generated? && r.reply.message == MessageText(generate(prompt).result) &&
              r.reply.businessType == Some(Or(businessType, PromptBusinessDefault))
    ensures r.Replied? && r.reply.partial ==>
              r.reply.error.Some? && (generate(prompt).Generated? ==> r.reply.error == Some(InvalidFormat))
    ensures generate(prompt).GenerationFailed? ==> r == MessageCatch(businessType, focus, generate(prompt).message)
    ensures generate(prompt).Generated? && MessageText(generate(prompt).result).None? ==>
              r == MessageCatch(businessType, focus, InvalidFormat)
    ensures generate(prompt).Generated? && MessageText(generate(prompt).result).Some? ==>
              r == Replied(MessageReply(200, true, false, MessageText(generate(prompt).result), None,
                                        Some(Or(businessType, PromptBusinessDefault)), None))
  {
    match generate(prompt)
    case GenerationFailed(m) => MessageCatch(businessType, focus, m)
    case Generated(result) =>
      match MessageText(result)
      case None => MessageCatch(businessType, focus, InvalidFormat)
      case Some(message) =>
        Replied(MessageReply(200, true, false, Some(message), None, Some(Or(businessType, PromptBusinessDefault)), None))
  }

  const TranscriptRequired := "Transcript is required"

  /** `generateWhatsAppMessage(req, res)`; the model is given the business type, the focus and the transcript. */
  function GenerateWhatsAppMessage(body: Option<Json>, aiReady: bool, generate: Generator): (r: HandlerOutcome)
    ensures !aiReady ==> r == Replied(MessageReply(200, true, true, Some(JStr(Greeting)), Some(AiNotInitialised), None, None))
    ensures r.Replied? ==> r.reply.status == 200 || r.reply.status == 400
    ensures r.Replied? && r.reply.status == 400 <==>
              aiReady && Destructure(body, "businessType").Ok? && !Truthy(Get(body, "transcript"))
    ensures r.Replied? && r.reply.status == 200 ==> r.reply.success && Truthy(r.reply.message)
    ensures r.Replied? && r.reply.status == 200 && !r.reply.partial ==>
              Truthy(Get(body, "transcript")) &&
              MessagePrompt(Get(body, "businessType"), Get(body, "detectedFocus"), Get(body, "transcript").value).Ok? &&
              var prompt := MessagePrompt(Get(body, "businessType"), Get(body, "detectedFocus"), Get(body, "transcript").value).value;
              generate(prompt).Generated? && r.reply.message == MessageText(generate(prompt).result)
    ensures r.Unanswered? ==> aiReady
    ensures aiReady && Destructure(body, "businessType").Err? ==> r == Unanswered(Destructure(body, "businessType").error)
    ensures aiReady && Destructure(body, "businessType").Ok? && !Truthy(Get(body, "transcript")) ==>
              r == Replied(MessageReply(400, false, false, None, Some(TranscriptRequired), None, None))
    ensures aiReady && Destructure(body, "businessType").Ok? && Truthy(Get(body, "transcript")) ==>
              var prompt := MessagePrompt(Get(body, "businessType"), Get(body, "detectedFocus"), Get(body, "transcript").value);
              (prompt.Err? ==> r == Unanswered(prompt.error)) &&
              (prompt.Ok? ==> r == MessageAnswer(Get(body, "businessType"), Get(body, "detectedFocus"), prompt.value, generate))
  {
    if !aiReady then
      Replied(MessageReply(200, true, true, Some(JStr(Greeting)), Some(AiNotInitialised), None, None))
    else
      match Destructure(body, "businessType")
      case Err(e) => Unanswered(e)
      case Ok(businessType) =>
        var focus := Get(body, "detectedFocus");
        var transcript := Get(body, "transcript");
        if !Truthy(transcript) then
          Replied(MessageReply(400, false, false, None, Some(TranscriptRequired), None, None))
        else
          match MessagePrompt(businessType, focus, transcript.value)
          case Err(e) => Unanswered(e)
          case Ok(prompt) => MessageAnswer(businessType, focus, prompt, generate)
  }

  /** What the internal session endpoint does for the session id's text: answers with a body, or the request rejects. */
  datatype SessionLookup = Found(data: Json) | LookupFailed(message: string)

  type SessionStore = string -> SessionLookup

  /** `getSession`'s `r.data.session || r.data`, which accepts both shapes of the endpoint's body. */
  function SessionOf(data: Json): (r: Result<Json, string>)
    ensures data.JNull? <==> r.Err?
    ensures r.Ok? && Truthy(Get(Some(data), "session")) ==> Some(r.value) == Get(Some(data), "session")
    ensures r.Ok? && !Truthy(Get(Some(data), "session")) ==> r.value == data
  {
    if data.JNull? then Err("Cannot read properties of null (reading 'session')")
    else Ok(Or(Get(Some(data), "session"), data))
  }

  /** `getSession(sessionId)`, given the text the id turns into inside the URL. */
  function GetSession(id: string, store: SessionStore): Result<Json, string> {
    match store(id)
    case LookupFailed(m) => Err(m)
    case Found(data) => SessionOf(data)
  }

  /** `features.slice(0, n).join(", ")`: only an array has both; a string has `slice` but its result has no `join`. */
  function FeatureList(features: Json, n: nat): (r: Result<string, string>)
    ensures !features.JArr? && !features.JStr? ==> r == Err("features.slice is not a function")
    ensures features.JStr? ==> r == Err(NotJoinable)
  {
    match features
    case JArr(items) =>
      var kept := JArr(items[..if |items| < n then |items| else n]);
      JoinItems(kept, 0, ", ")
    case JStr(_) => Err(NotJoinable)
    case _ => Err("features.slice is not a function")
  }

  /** The TypeError of `features.slice(0, n).join`, for a string: its slice is a string, which has no `join`. */
  const NotJoinable := "features.slice(...).join is not a function"

  /** `parts.join(sep)` on texts: the reference the feature list is compared with. */
  function JoinTexts(parts: seq<string>, sep: string): string {
    if parts == [] then ""
    else if |parts| == 1 then parts[0]
    else parts[0] + sep + JoinTexts(parts[1..], sep)
  }

  /** The texts as the elements of a JSON array. */
  function Texts(ts: seq<string>): (r: seq<Json>)
    ensures |r| == |ts| && forall k :: 0 <= k < |ts| ==> r[k] == JStr(ts[k])
  {
    seq(|ts|, k requires 0 <= k < |ts| => JStr(ts[k]))
  }

  /** Joining an array of texts from index `i` on is joining those texts. */
  lemma {:induction false} JoinTextItems(ts: seq<string>, i: nat, sep: string)
    requires i <= |ts|
    ensures JoinItems(JArr(Texts(ts)), i, sep) == Ok(JoinTexts(ts[i..], sep))
    decreases |ts| - i
  {
    if i + 1 < |ts| {
      JoinTextItems(ts, i + 1, sep);
      assert ts[i..][1..] == ts[i + 1..];
    }
  }

  /** A list of texts shows its first `n` texts, joined with a comma and a space. */
  lemma {:induction false} FeatureTexts(ts: seq<string>, n: nat)
    ensures FeatureList(JArr(Texts(ts)), n) == Ok(JoinTexts(ts[..if |ts| < n then |ts| else n], ", "))
  {
    var m := if |ts| < n then |ts| else n;
    assert Texts(ts)[..m] == Texts(ts[..m]);
    JoinTextItems(ts[..m], 0, ", ");
    assert ts[..m][0..] == ts[..m];
  }

  /** The first two features of a list of texts are joined with a comma and a space; the rest are not shown. */
  lemma {:induction false} TwoFeatures(a: string, b: string, rest: seq<Json>)
    ensures FeatureList(JArr([JStr(a), JStr(b)] + rest), 2) == Ok(a + ", " + b)
  {
    var kept := JArr(([JStr(a), JStr(b)] + rest)[..2]);
    assert kept == JArr([JStr(a), JStr(b)]);
    assert JoinItems(kept, 1, ", ") == Ok(b);
  }

  const SessionFallbackText :=
    "\U{1F44B} Hello! Thank you for your interest in our handmade products. We'd love to help you find exactly what you're looking for! Please let us know how we can assist you. \U{1F60A}"

  const TemplateFocus := "! We specialize in "
  const TemplateProduct := ".\n\n\U{2728} "
  const TemplateFeatures := " - "
  const TemplatePricing := "\n\n\U{1F4B0} "
  const TemplateClosing := "\n\nPlease let us know what you're looking for and we'll be happy to help! \U{1F60A}"

  /** The reply template of the session handler, over its five interpolated values. */
  function SessionTemplateText(p: seq<string>): (r: string)
    requires |p| == 5
    ensures r != []
    ensures FallbackOpening + p[0] <= r
  {
    FallbackOpening + p[0] + TemplateFocus + p[1] + TemplateProduct + p[2] + TemplateFeatures + p[3] +
    TemplatePricing + p[4] + TemplateClosing
  }

  /** The `catch` of `generateWhatsAppFromSession`. */
  function SessionCatch(error: string): (r: MessageReply)
    ensures r.status == 200 && r.success && r.partial && r.message == Some(JStr(SessionFallbackText))
    ensures Truthy(r.message)
    ensures r.error == Some(FailedText(error)) && r.businessType.None? && r.sessionId.None?
  {
    MessageReply(200, true, true, Some(JStr(SessionFallbackText)), Some(FailedText(error)), None, None)
  }

  /** The session fields the handler reads, with their defaults. */
  datatype SessionFacts = SessionFacts(businessType: Json, focus: Json, productName: Json, features: Json, pricing: Json)

  const ProductDefault := JStr("our products")
  const PricingDefault := JStr("Competitive pricing")

  /** `session.businessSummary` */
  function Summary(session: Json): Option<Json> { Get(Some(session), "businessSummary") }

  /** `session.productAnalysis?.productSummary` */
  function ProductSummary(session: Json): Option<Json> { Get(Get(Some(session), "productAnalysis"), "productSummary") }

  /** `session.productAnalysis?.marketingInsights` */
  function Insights(session: Json): Option<Json> { Get(Get(Some(session), "productAnalysis"), "marketingInsights") }

  /** Each fact is the first truthy value of its chain of places, or its default. */
  function Facts(session: Json): (f: SessionFacts)
    ensures Truthy(Some(f.businessType)) && Truthy(Some(f.focus)) && Truthy(Some(f.productName)) && Truthy(Some(f.pricing))
    ensures Truthy(Get(Summary(session), "businessName")) ==> Some(f.businessType) == Get(Summary(session), "businessName")
    ensures !Truthy(Get(Summary(session), "businessName")) && Truthy(Get(Summary(session), "businessType")) ==>
              Some(f.businessType) == Get(Summary(session), "businessType")
    ensures !Truthy(Get(Summary(session), "businessName")) && !Truthy(Get(Summary(session), "businessType")) ==>
              f.businessType == PromptBusinessDefault
    ensures Truthy(Get(Summary(session), "detectedFocus")) ==> Some(f.focus) == Get(Summary(session), "detectedFocus")
    ensures !Truthy(Get(Summary(session), "detectedFocus")) ==> f.focus == PromptFocusDefault
    ensures Truthy(Get(ProductSummary(session), "name")) ==> Some(f.productName) == Get(ProductSummary(session), "name")
    ensures !Truthy(Get(ProductSummary(session), "name")) ==> f.productName == ProductDefault
    ensures Truthy(Get(ProductSummary(session), "uniqueFeatures")) ==>
              Some(f.features) == Get(ProductSummary(session), "uniqueFeatures")
    ensures !Truthy(Get(ProductSummary(session), "uniqueFeatures")) ==> f.features == JArr([])
    ensures Truthy(Get(Insights(session), "pricingRange")) ==> Some(f.pricing) == Get(Insights(session), "pricingRange")
    ensures !Truthy(Get(Insights(session), "pricingRange")) ==> f.pricing == PricingDefault
  {
    var summary := Summary(session);
    var product := ProductSummary(session);
    var insights := Insights(session);
    SessionFacts(
      Or(Get(summary, "businessName"), Or(Get(summary, "businessType"), PromptBusinessDefault)),
      Or(Get(summary, "detectedFocus"), PromptFocusDefault),
      Or(Get(product, "name"), ProductDefault),
      Or(Get(product, "uniqueFeatures"), JArr([])),
      Or(Get(insights, "pricingRange"), PricingDefault))
  }

  function FactParts(f: SessionFacts, featureCount: nat): seq<Result<string, string>> {
    [ToJsString(f.businessType), ToJsString(f.focus), ToJsString(f.productName),
     FeatureList(f.features, featureCount), ToJsString(f.pricing)]
  }

  /** The answer once the model has been asked: its text, trimmed, or the `catch` fallback. */
  function SessionAnswer(sessionId: Option<Json>, f: SessionFacts, prompt: seq<string>, generate: Generator): (r: MessageReply)
    ensures r.status == 200 && r.success && r.message.Some? && r.message.value.JStr?
    ensures !r.partial ==>
              generate(prompt).Generated? && MessageText(generate(prompt).result).Some? &&
              MessageText(generate(prompt).result).value.JStr?
    ensures !r.partial ==> r.message == Some(JStr(Trim(MessageText(generate(prompt).result).value.s)))
    ensures !r.partial ==> r.sessionId == sessionId
    ensures !r.partial ==> r.businessType == Some(f.businessType)
    ensures r.partial ==> r.message == Some(JStr(SessionFallbackText))
    ensures !r.partial <==>
              generate(prompt).Generated? && MessageText(generate(prompt).result).Some? &&
              MessageText(generate(prompt).result).value.JStr?
    ensures generate(prompt).GenerationFailed? ==> r == SessionCatch(generate(prompt).message)
    ensures generate(prompt).Generated? && MessageText(generate(prompt).result).None? ==>
              r == SessionCatch(InvalidFormat)
    ensures generate(prompt).Generated? && MessageText(generate(prompt).result).Some? &&
            !MessageText(generate(prompt).result).value.JStr? ==>
              r == SessionCatch(NotTrimmable)
    ensures generate(prompt).Generated? && MessageText(generate(prompt).result).Some? &&
            MessageText(generate(prompt).result).value.JStr? ==>
              r == MessageReply(200, true, false, Some(JStr(Trim(MessageText(generate(prompt).result).value.s))),
                                None, Some(f.businessType), sessionId)
  {
    match generate(prompt)
    case GenerationFailed(m) => SessionCatch(m)
    case Generated(result) =>
      match MessageText(result)
      case None => SessionCatch(InvalidFormat)
      case Some(JStr(t)) =>
        MessageReply(200, true, false, Some(JStr(Trim(t))), None, Some(f.businessType), sessionId)
      case Some(_) => SessionCatch(NotTrimmable)
  }

  /** The TypeError of `message.trim()` when the text the model answered with is not a string. */
  const NotTrimmable := "message.trim is not a function"

  /** The reply once the session has been found. */
  function SessionReply(sessionId: Option<Json>, session: Json, aiReady: bool, generate: Generator): (r: MessageReply)
    ensures r.status == 200 && r.success && r.message.Some? && r.message.value.JStr?
    ensures r.partial ==> r.message == Some(JStr(SessionFallbackText)) || !aiReady
    ensures !r.partial ==>
              aiReady && r.sessionId == sessionId && r.message.Some? && r.message.value.JStr? &&
              IsTrimmed(r.message.value.s)
    ensures !aiReady && Render(FactParts(Facts(session), 2)).Ok? ==>
              r == MessageReply(200, true, true, Some(JStr(SessionTemplateText(Render(FactParts(Facts(session), 2)).value))),
                                Some(AiNotInitialised), None, None)
    ensures !aiReady && Render(FactParts(Facts(session), 2)).Err? ==>
              r == SessionCatch(Render(FactParts(Facts(session), 2)).error)
    ensures aiReady && Render(FactParts(Facts(session), 3)).Ok? ==>
              r == SessionAnswer(sessionId, Facts(session), Render(FactParts(Facts(session), 3)).value, generate)
    ensures aiReady && Render(FactParts(Facts(session), 3)).Err? ==>
              r == SessionCatch(Render(FactParts(Facts(session), 3)).error)
  {
    var f := Facts(session);
    if !aiReady then
      match Render(FactParts(f, 2))
      case Err(e) => SessionCatch(e)
      case Ok(p) =>
        MessageReply(200, true, true, Some(JStr(SessionTemplateText(p))), Some(AiNotInitialised), None, None)
    else
      match Render(FactParts(f, 3))
      case Err(e) => SessionCatch(e)
      case Ok(p) => SessionAnswer(sessionId, f, p, generate)
  }

  const IdRequired := "sessionId is required"
  const SessionMissing := "Session not found"

  /**
   * Features stored as one string make the template throw, with or without the
   * model, once the three facts before them have a text: the reply is the catch's.
   */
  lemma {:induction false} StringFeaturesCaught(sessionId: Option<Json>, session: Json, aiReady: bool, generate: Generator)
    requires Truthy(Get(ProductSummary(session), "uniqueFeatures")) && Get(ProductSummary(session), "uniqueFeatures").value.JStr?
    requires ToJsString(Facts(session).businessType).Ok? && ToJsString(Facts(session).focus).Ok? &&
             ToJsString(Facts(session).productName).Ok?
    ensures SessionReply(sessionId, session, aiReady, generate) == SessionCatch(NotJoinable)
  {
    var f := Facts(session);
    var n := if aiReady then 3 else 2;
    assert f.features.JStr?;
    StringFeaturesStop(f, n);
  }

  lemma {:induction false} StringFeaturesStop(f: SessionFacts, n: nat)
    requires f.features.JStr?
    requires ToJsString(f.businessType).Ok? && ToJsString(f.focus).Ok? && ToJsString(f.productName).Ok?
    ensures Render(FactParts(f, n)) == Err(NotJoinable)
  {
    var parts := FactParts(f, n);
    assert parts[3] == Err(NotJoinable);
    RenderStopsAt(parts, 3);
  }

  /** A template stops at its first substitution that throws, with that error. */
  lemma {:induction false} RenderStopsAt(parts: seq<Result<string, string>>, i: nat)
    requires i < |parts| && parts[i].Err? && forall k :: 0 <= k < i ==> parts[k].Ok?
    ensures Render(parts) == Err(parts[i].error)
  {
    assert !parts[i].Ok?;
    var r := Render(parts);
    var k :| 0 <= k < |parts| && parts[k] == Err(r.error) && forall l :: 0 <= l < k ==> parts[l].Ok?;
    assert k == i;
  }

  /** The looked-up session, when the id is present, has a text and the lookup resolves. */
  function LookedUp(body: Option<Json>, store: SessionStore): Option<Json> {
    var sessionId := Get(body, "sessionId");
    if Truthy(sessionId) && ToJsString(sessionId.value).Ok? && GetSession(ToJsString(sessionId.value).value, store).Ok?
    then Some(GetSession(ToJsString(sessionId.value).value, store).value)
    else None
  }

  /**
   * `generateWhatsAppFromSession(req, res)`. Its whole body is inside `try`,
   * so it always answers; the model is given the five session facts.
   */
  function GenerateWhatsAppFromSession(body: Option<Json>, store: SessionStore, aiReady: bool,
                                       generate: Generator): (r: MessageReply)
    ensures r.status == 200 || r.status == 400 || r.status == 404
    ensures r.status == 400 <==> Destructure(body, "sessionId").Ok? && !Truthy(Get(body, "sessionId"))
    ensures r.status == 404 <==> Destructure(body, "sessionId").Ok? && LookedUp(body, store).Some? &&
                                  !Truthy(LookedUp(body, store))
    ensures r.status == 200 ==> r.success && r.message.Some? && r.message.value.JStr?
    ensures r.status == 200 && !r.partial ==>
              aiReady && r.sessionId == Get(body, "sessionId") && r.message.Some? && r.message.value.JStr? &&
              IsTrimmed(r.message.value.s)
    ensures Destructure(body, "sessionId").Err? ==> r == SessionCatch(Destructure(body, "sessionId").error)
    ensures Destructure(body, "sessionId").Ok? && !Truthy(Get(body, "sessionId")) ==>
              r == MessageReply(400, false, false, None, Some(IdRequired), None, None)
    ensures Destructure(body, "sessionId").Ok? && Truthy(Get(body, "sessionId")) ==>
              var id := ToJsString(Get(body, "sessionId").value);
              (id.Err? ==> r == SessionCatch(id.error)) &&
              (id.Ok? && GetSession(id.value, store).Err? ==> r == SessionCatch(GetSession(id.value, store).error))
    ensures Destructure(body, "sessionId").Ok? && LookedUp(body, store).Some? && !Truthy(LookedUp(body, store)) ==>
              r == MessageReply(404, false, false, None, Some(SessionMissing), None, None)
    ensures Destructure(body, "sessionId").Ok? && LookedUp(body, store).Some? && Truthy(LookedUp(body, store)) ==>
              r == SessionReply(Get(body, "sessionId"), LookedUp(body, store).value, aiReady, generate)
  {
    match Destructure(body, "sessionId")
    case Err(e) => SessionCatch(e)
    case Ok(sessionId) =>
      if !Truthy(sessionId) then
        MessageReply(400, false, false, None, Some(IdRequired), None, None)
      else
        match ToJsString(sessionId.value)
        case Err(e) => SessionCatch(e)
        case Ok(id) =>
          match GetSession(id, store)
          case Err(m) => SessionCatch(m)
          case Ok(session) =>
            if !Truthy(Some(session)) then
              MessageReply(404, false, false, None, Some(SessionMissing), None, None)
            else SessionReply(sessionId, session, aiReady, generate)
  }
}
