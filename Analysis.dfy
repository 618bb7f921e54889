/**
 * `analyzeTranscriptWithVertexAI` and `ensureValidAnalysisFormat`: the prompt
 * input, the probe of the model's response for its text, the two parse steps
 * and the coercion of the parsed value into an analysis record.
 */
module Analysis {
  import opened Wrappers
  import opened JsText
  import opened Json
  import opened Sanitizer
  import opened Repair

  // ---------------------------------------------------------------------------
  // The analysis record
  // ---------------------------------------------------------------------------

  /** A recommended channel: `id` and `reason` are whatever truthy values the model gave, or the defaults. */
  datatype Solution = Solution(id: Json, reason: Json)

  datatype AnalysisRecord = AnalysisRecord(
    businessType: string,
    detectedFocus: string,
    topProblems: seq<Json>,
    primary: Solution,
    secondary: Solution,
    confidence: Number)

  const DefaultBusinessType := "Craft Business"
  const DefaultFocus := "Handmade Products"
  const DefaultConfidence := 85

  /** The text of a string value. */
  function StringField(v: Option<Json>): Option<string> {
    if v.Some? && v.value.JStr? then Some(v.value.s) else None
  }

  /** `typeof c === 'number' ? c : (typeof c === 'string' && !isNaN(parseInt(c)) ? parseInt(c) : 85)`. */
  function CoerceConfidence(c: Option<Json>): (r: Number)
    ensures c.Some? && c.value.JNum? ==> r == c.value.n
    ensures c.Some? && c.value.JStr? && ParseInt(c.value.s).Some? ==> RealValue(r) == ParseInt(c.value.s).value as real
    ensures !(c.Some? && c.value.JNum?) && !(c.Some? && c.value.JStr? && ParseInt(c.value.s).Some?) ==>
              RealValue(r) == DefaultConfidence as real
  {
    if c.Some? && c.value.JNum? then c.value.n
    else if c.Some? && c.value.JStr? && ParseInt(c.value.s).Some? then Int(ParseInt(c.value.s).value)
    else Int(DefaultConfidence)
  }

  /** `typeof v === 'string' ? v : fallback`. */
  function CoerceText(v: Option<Json>, fallback: string): (r: string)
    ensures StringField(v).Some? ==> r == StringField(v).value
    ensures StringField(v).None? ==> r == fallback
  {
    match StringField(v) case Some(t) => t case None => fallback
  }

  const DefaultProblems := [JStr("No specific problems detected")]

  /** `Array.isArray(p) ? p : ["No specific problems detected"]`. */
  function CoerceProblems(p: Option<Json>): (r: seq<Json>)
    ensures p.Some? && p.value.JArr? ==> r == p.value.items
    ensures !(p.Some? && p.value.JArr?) ==> r == DefaultProblems
  {
    if p.Some? && p.value.JArr? then p.value.items else DefaultProblems
  }

  const DefaultPrimary := Solution(JStr("website"), JStr("A basic online presence is essential"))
  const DefaultSecondary := Solution(JStr("instagram"), JStr("Visual platform ideal for products"))

  /** `{ id: advice?.id || fallback.id, reason: advice?.reason || fallback.reason }`. */
  function CoerceSolution(advice: Option<Json>, fallback: Solution): (r: Solution)
    requires Truthy(Some(fallback.id)) && Truthy(Some(fallback.reason))
    ensures Truthy(Get(advice, "id")) ==> Some(r.id) == Get(advice, "id")
    ensures !Truthy(Get(advice, "id")) ==> r.id == fallback.id
    ensures Truthy(Get(advice, "reason")) ==> Some(r.reason) == Get(advice, "reason")
    ensures !Truthy(Get(advice, "reason")) ==> r.reason == fallback.reason
    ensures Truthy(Some(r.id)) && Truthy(Some(r.reason))
  {
    Solution(Or(Get(advice, "id"), fallback.id), Or(Get(advice, "reason"), fallback.reason))
  }

  /**
   * `ensureValidAnalysisFormat(data)`: every field of the record is the model's
   * value when it has the right kind, and the default otherwise. (The one caller
   * has already read a property of `data`, so it is never null here.)
   */
  function Coerce(data: Json): (r: AnalysisRecord)
    requires !data.JNull?
    ensures StringField(Get(Some(data), "businessType")).Some? ==>
              r.businessType == StringField(Get(Some(data), "businessType")).value
    ensures StringField(Get(Some(data), "businessType")).None? ==> r.businessType == DefaultBusinessType
    ensures StringField(Get(Some(data), "detectedFocus")).Some? ==>
              r.detectedFocus == StringField(Get(Some(data), "detectedFocus")).value
    ensures StringField(Get(Some(data), "detectedFocus")).None? ==> r.detectedFocus == DefaultFocus
    ensures var p := Get(Some(data), "topProblems");
              if p.Some? && p.value.JArr? then r.topProblems == p.value.items else r.topProblems == DefaultProblems
    ensures Truthy(Advice(data, "primary", "id")) ==> Some(r.primary.id) == Advice(data, "primary", "id")
    ensures !Truthy(Advice(data, "primary", "id")) ==> r.primary.id == DefaultPrimary.id
    ensures Truthy(Advice(data, "primary", "reason")) ==> Some(r.primary.reason) == Advice(data, "primary", "reason")
    ensures !Truthy(Advice(data, "primary", "reason")) ==> r.primary.reason == DefaultPrimary.reason
    ensures Truthy(Advice(data, "secondary", "id")) ==> Some(r.secondary.id) == Advice(data, "secondary", "id")
    ensures !Truthy(Advice(data, "secondary", "id")) ==> r.secondary.id == DefaultSecondary.id
    ensures Truthy(Advice(data, "secondary", "reason")) ==> Some(r.secondary.reason) == Advice(data, "secondary", "reason")
    ensures !Truthy(Advice(data, "secondary", "reason")) ==> r.secondary.reason == DefaultSecondary.reason
    ensures WellFormed(r)
    ensures r.confidence == CoerceConfidence(Get(Some(data), "confidence"))
  {
    var solutions := Get(Some(data), "recommendedSolutions");
    AnalysisRecord(
      CoerceText(Get(Some(data), "businessType"), DefaultBusinessType),
      CoerceText(Get(Some(data), "detectedFocus"), DefaultFocus),
      CoerceProblems(Get(Some(data), "topProblems")),
      CoerceSolution(Get(solutions, "primary"), DefaultPrimary),
      CoerceSolution(Get(solutions, "secondary"), DefaultSecondary),
      CoerceConfidence(Get(Some(data), "confidence")))
  }

  /** `data.recommendedSolutions?.[which]?.[key]` */
  function Advice(data: Json, which: string, key: string): Option<Json> {
    Get(Get(Get(Some(data), "recommendedSolutions"), which), key)
  }

  /** The record as the JSON object the handlers send. */
  function RecordJson(r: AnalysisRecord): Json {
    JObj([
      Member("businessType", JStr(r.businessType)),
      Member("detectedFocus", JStr(r.detectedFocus)),
      Member("topProblems", JArr(r.topProblems)),
      Member("recommendedSolutions", JObj([
        Member("primary", JObj([Member("id", r.primary.id), Member("reason", r.primary.reason)])),
        Member("secondary", JObj([Member("id", r.secondary.id), Member("reason", r.secondary.reason)]))])),
      Member("confidence", JNum(r.confidence))])
  }

  /** A record whose channel fields are all truthy: the shape `Coerce` always produces. */
  predicate WellFormed(r: AnalysisRecord) {
    Truthy(Some(r.primary.id)) && Truthy(Some(r.primary.reason)) &&
    Truthy(Some(r.secondary.id)) && Truthy(Some(r.secondary.reason))
  }

  /** In members with pairwise different keys, a key's value is that of its one member. */
  lemma {:induction false} OnlyMember(ms: seq<Member>, i: nat)
    requires i < |ms|
    requires forall a, b :: 0 <= a < b < |ms| ==> |ms[a].key| != |ms[b].key|
    ensures LastValue(ms, ms[i].key) == Some(ms[i].value)
  {
    assert HasKey(ms, ms[i].key);
    var k :| 0 <= k < |ms| && ms[k] == Member(ms[i].key, LastValue(ms, ms[i].key).value);
    assert k == i;
  }

  lemma {:induction false} LastOfTwo(a: Member, b: Member, key: string)
    ensures LastValue([a, b], key) == if b.key == key then Some(b.value) else if a.key == key then Some(a.value) else None
  {
    assert [a, b][..1] == [a];
    assert [a][..0] == [];
  }

  /** The top-level fields of a record's object. */
  lemma {:induction false} RecordFields(r: AnalysisRecord)
    ensures var j := Some(RecordJson(r));
      Get(j, "businessType") == Some(JStr(r.businessType)) &&
      Get(j, "detectedFocus") == Some(JStr(r.detectedFocus)) &&
      Get(j, "topProblems") == Some(JArr(r.topProblems)) &&
      Get(j, "confidence") == Some(JNum(r.confidence)) &&
      Get(j, "recommendedSolutions") == Some(RecordJson(r).members[3].value)
  {
    var ms := RecordJson(r).members;
    assert forall i, k :: 0 <= i < k < |ms| ==> |ms[i].key| != |ms[k].key|;
    OnlyMember(ms, 0);
    OnlyMember(ms, 1);
    OnlyMember(ms, 2);
    OnlyMember(ms, 3);
    OnlyMember(ms, 4);
  }

  /** The four channel fields of a record's object. */
  lemma {:induction false} AdviceFields(r: AnalysisRecord)
    ensures Advice(RecordJson(r), "primary", "id") == Some(r.primary.id)
    ensures Advice(RecordJson(r), "primary", "reason") == Some(r.primary.reason)
    ensures Advice(RecordJson(r), "secondary", "id") == Some(r.secondary.id)
    ensures Advice(RecordJson(r), "secondary", "reason") == Some(r.secondary.reason)
  {
    RecordFields(r);
    var pm, qm := Member("id", r.primary.id), Member("reason", r.primary.reason);
    var sm, tm := Member("id", r.secondary.id), Member("reason", r.secondary.reason);
    var sol := Get(Some(RecordJson(r)), "recommendedSolutions");
    assert sol == Some(JObj([Member("primary", JObj([pm, qm])), Member("secondary", JObj([sm, tm]))]));
    LastOfTwo(Member("primary", JObj([pm, qm])), Member("secondary", JObj([sm, tm])), "primary");
    LastOfTwo(Member("primary", JObj([pm, qm])), Member("secondary", JObj([sm, tm])), "secondary");
    LastOfTwo(pm, qm, "id");
    LastOfTwo(pm, qm, "reason");
    LastOfTwo(sm, tm, "id");
    LastOfTwo(sm, tm, "reason");
  }

  /** Coercing the object of a well-formed record gives the record back. */
  lemma {:induction false} CoerceRecordJson(r: AnalysisRecord)
    requires WellFormed(r)
    ensures Coerce(RecordJson(r)) == r
  {
    TextFieldsBack(r);
    ValueFieldsBack(r);
    SolutionsBack(r);
  }

  lemma {:induction false} TextFieldsBack(r: AnalysisRecord)
    ensures Coerce(RecordJson(r)).businessType == r.businessType
    ensures Coerce(RecordJson(r)).detectedFocus == r.detectedFocus
  {
    RecordFields(r);
  }

  lemma {:induction false} ValueFieldsBack(r: AnalysisRecord)
    ensures Coerce(RecordJson(r)).topProblems == r.topProblems
    ensures Coerce(RecordJson(r)).confidence == r.confidence
  {
    RecordFields(r);
  }

  lemma {:induction false} SolutionsBack(r: AnalysisRecord)
    requires WellFormed(r)
    ensures Coerce(RecordJson(r)).primary == r.primary
    ensures Coerce(RecordJson(r)).secondary == r.secondary
  {
    AdviceFields(r);
  }

  /** Coercion is idempotent: a coerced record survives being sent and coerced again. */
  lemma {:induction false} CoerceIdempotent(data: Json)
    requires !data.JNull?
    ensures Coerce(RecordJson(Coerce(data))) == Coerce(data)
  {
    CoerceRecordJson(Coerce(data));
  }

  const InitFallback := AnalysisRecord(
    DefaultBusinessType, DefaultFocus,
    [JStr("Unable to process due to AI initialization failure")],
    Solution(JStr("website"), JStr("A basic online presence is essential for any craft business")),
    Solution(JStr("instagram"), JStr("Visual platform ideal for showcasing handmade products")),
    Int(80))

  const ErrorFallback := AnalysisRecord(
    DefaultBusinessType, DefaultFocus,
    [JStr("Unable to determine from transcript")],
    Solution(JStr("website"), JStr("A basic online presence is essential for any craft business")),
    Solution(JStr("instagram"), JStr("Visual platform ideal for showcasing handmade products")),
    Int(80))

  // ---------------------------------------------------------------------------
  // The prompt input
  // ---------------------------------------------------------------------------

  const PromptLimit := 1500

  /** `transcript.replace(/"/g, "'").substring(0, 1500)`. */
  function SafeTranscript(transcript: string): (r: string)
    ensures |r| == if |transcript| < PromptLimit then |transcript| else PromptLimit
    ensures '"' !in r
    ensures forall i :: 0 <= i < |r| ==> r[i] == if transcript[i] == '"' then '\'' else transcript[i]
  {
    var n := if |transcript| < PromptLimit then |transcript| else PromptLimit;
    seq(n, i requires 0 <= i < n => if transcript[i] == '"' then '\'' else transcript[i])
  }

  /** Cutting first and replacing afterwards gives the same text: the order of the two steps does not matter. */
  lemma {:induction false} SafeTranscriptOfPrefix(transcript: string)
    ensures SafeTranscript(transcript) == SafeTranscript(transcript[..if |transcript| < PromptLimit then |transcript| else PromptLimit])
  {
  }

  // ---------------------------------------------------------------------------
  // The model's response
  // ---------------------------------------------------------------------------

  /** What `generateContent` does: resolves with a result object, or rejects with an error message. */
  datatype Generation = Generated(result: Json) | GenerationFailed(message: string)

  /** The model, given the values interpolated into the prompt, in prompt order. */
  type Generator = seq<string> -> Generation

  const InvalidFormat := "Invalid response format from Vertex AI"

  /** `result?.response?.candidates?.[0]?.content?.parts?.[0]?.text` */
  function PartsText(result: Json): Option<Json> {
    Get(First(Get(Get(First(Get(Get(Some(result), "response"), "candidates")), "content"), "parts")), "text")
  }

  /** `result?.response?.text` */
  function ResponseField(result: Json): Option<Json> {
    Get(Get(Some(result), "response"), "text")
  }

  /** `result?.response?.candidates?.[0]?.content?.text` */
  function ContentText(result: Json): Option<Json> {
    Get(Get(First(Get(Get(Some(result), "response"), "candidates")), "content"), "text")
  }

  /**
   * Lines 250-266: the first truthy text of three places, else the response
   * itself when it is a string, else an error. A value that is not a string
   * makes the next `responseText.substring` call throw.
   */
  function ProbeText(result: Json): (r: Result<string, string>)
    ensures Truthy(PartsText(result)) ==> r == TextOf(PartsText(result).value)
    ensures !Truthy(PartsText(result)) && Truthy(ResponseField(result)) ==> r == TextOf(ResponseField(result).value)
    ensures !Truthy(PartsText(result)) && !Truthy(ResponseField(result)) && Truthy(ContentText(result)) ==>
              r == TextOf(ContentText(result).value)
    ensures !Truthy(PartsText(result)) && !Truthy(ResponseField(result)) && !Truthy(ContentText(result)) &&
            Get(Some(result), "response").Some? && Get(Some(result), "response").value.JStr? ==>
              r == Ok(Get(Some(result), "response").value.s)
    ensures Truthy(PartsText(result)) && PartsText(result).value.JStr? ==> r == Ok(PartsText(result).value.s)
    ensures !Truthy(PartsText(result)) && !Truthy(ResponseField(result)) && !Truthy(ContentText(result)) &&
            !(Get(Some(result), "response").Some? && Get(Some(result), "response").value.JStr?) ==>
              r == Err(InvalidFormat)
    ensures r.Ok? ==> Some(JStr(r.value)) in [PartsText(result), ResponseField(result), ContentText(result), Get(Some(result), "response")]
  {
    var response := Get(Some(result), "response");
    var chosen :=
      if Truthy(PartsText(result)) then PartsText(result)
      else if Truthy(ResponseField(result)) then ResponseField(result)
      else if Truthy(ContentText(result)) then ContentText(result)
      else if response.Some? && response.value.JStr? then response
      else None;
    match chosen
    case None => Err(InvalidFormat)
    case Some(v) => TextOf(v)
  }

  /** The TypeError the first `responseText.substring` call raises when the text found is not a string. */
  const NotAString := "responseText.substring is not a function"

  /** The text found, when it is a string; any other value makes the next line throw. */
  function TextOf(v: Json): (r: Result<string, string>)
    ensures r.Ok? <==> v.JStr?
    ensures r.Ok? ==> r.value == v.s
    ensures r.Err? ==> r.error == NotAString
  {
    if v.JStr? then Ok(v.s) else Err(NotAString)
  }

  /** An empty text can only come from a response that is itself the empty string: every other place must be truthy. */
  lemma {:induction false} EmptyTextIsEmptyResponse(result: Json)
    requires ProbeText(result) == Ok("")
    ensures Get(Some(result), "response") == Some(JStr(""))
  {
    if Truthy(PartsText(result)) {
      TruthyText(PartsText(result).value);
    } else if Truthy(ResponseField(result)) {
      TruthyText(ResponseField(result).value);
    } else if Truthy(ContentText(result)) {
      TruthyText(ContentText(result).value);
    }
  }

  lemma {:induction false} TruthyText(v: Json)
    requires Truthy(Some(v)) && v.JStr?
    ensures v.s != []
  {
  }

  const NullPartial := "Cannot read properties of null (reading 'partial')"
  const ParseFailurePrefix := "Failed to parse AI response as JSON: "

  /**
   * Lines 275-292: `JSON.parse(sanitized)`, and when that fails
   * `JSON.parse(repairJson(sanitized))`, which parses the text of the value the
   * repair returned (an object's text is "[object Object]").
   */
  function ParseReply(sanitized: string): (r: Result<Json, string>)
    ensures Parse(sanitized).Ok? ==> r == Parse(sanitized)
    ensures r.Err? ==> Parse(sanitized).Err? && exists m :: r.error == ParseFailurePrefix + m
    ensures var t := ToJsString(RepairJson(sanitized));
      Parse(sanitized).Err? && t.Err? ==> r == Err(ParseFailurePrefix + t.error)
    ensures var t := ToJsString(RepairJson(sanitized));
      Parse(sanitized).Err? && t.Ok? && Parse(t.value).Ok? ==> r == Parse(t.value)
    ensures var t := ToJsString(RepairJson(sanitized));
      Parse(sanitized).Err? && t.Ok? && Parse(t.value).Err? ==> r == Err(ParseFailurePrefix + Parse(t.value).error)
  {
    match Parse(sanitized)
    case Ok(v) => Ok(v)
    case Err(_) =>
      match ToJsString(RepairJson(sanitized))
      case Err(m) => Err(ParseFailurePrefix + m)
      case Ok(t) =>
        match Parse(t)
        case Ok(v) => Ok(v)
        case Err(m) => Err(ParseFailurePrefix + m)
  }

  /** The outcome of the analysis, as the handler reads it. */
  datatype Outcome =
    | Fallback(error: string, fallback: AnalysisRecord)
    | PartialResult(rawResponse: string, partialData: Json)
    | Analysed(data: AnalysisRecord, rawResponse: string)

  /** `err.message || String(err)` for an `Error`: an empty message shows as "Error". */
  function ErrorText(message: string): (r: string)
    ensures r != []
    ensures message != [] ==> r == message
  {
    if message != [] then message else "Error"
  }

  const AiNotInitialised := "Vertex AI not initialized"

  /**
   * Lines 270-316 for the text found: sanitize, parse, and then the partial
   * result, the coerced record, or (when a step throws) the fallback record.
   * Reading `parsed.partial` throws when the text was the JSON `null`.
   */
  function Interpret(text: string): (r: Outcome)
    ensures ParseReply(Sanitize(text)).Err? ==> r == Fallback(ParseReply(Sanitize(text)).error, ErrorFallback)
    ensures ParseReply(Sanitize(text)) == Ok(JNull) ==> r == Fallback(NullPartial, ErrorFallback)
    ensures ParseReply(Sanitize(text)).Ok? && !ParseReply(Sanitize(text)).value.JNull? ==>
              var parsed := ParseReply(Sanitize(text)).value;
              if Truthy(Get(Some(parsed), "partial")) then r == PartialResult(text, parsed)
              else r == Analysed(Coerce(parsed), text)
    ensures r.Fallback? ==> r.error != [] && r.fallback == ErrorFallback
    ensures r.Analysed? ==> r.rawResponse == text && WellFormed(r.data)
    ensures r.PartialResult? ==> r.rawResponse == text && Truthy(Get(Some(r.partialData), "partial"))
  {
    match ParseReply(Sanitize(text))
    case Err(m) => Fallback(m, ErrorFallback)
    case Ok(parsed) =>
      if parsed.JNull? then Fallback(NullPartial, ErrorFallback)
      else if Truthy(Get(Some(parsed), "partial")) then PartialResult(text, parsed)
      else Analysed(Coerce(parsed), text)
  }

  /** `analyzeTranscriptWithVertexAI(transcript)`; `aiReady` says whether the client was initialised. */
  function AnalyzeTranscript(transcript: string, aiReady: bool, generate: Generator): (r: Outcome)
    ensures !aiReady ==> r == Fallback(AiNotInitialised, InitFallback)
    ensures aiReady && generate([SafeTranscript(transcript)]).GenerationFailed? ==>
              r == Fallback(ErrorText(generate([SafeTranscript(transcript)]).message), ErrorFallback)
    ensures aiReady && generate([SafeTranscript(transcript)]).Generated? ==>
              var result := generate([SafeTranscript(transcript)]).result;
              (ProbeText(result).Err? ==> r == Fallback(ProbeText(result).error, ErrorFallback)) &&
              (ProbeText(result).Ok? ==> r == Interpret(ProbeText(result).value))
    ensures r.Fallback? ==> r.error != []
    ensures r.Fallback? && aiReady ==> r.fallback == ErrorFallback
    ensures r.Analysed? ==>
              aiReady && generate([SafeTranscript(transcript)]).Generated? &&
              ProbeText(generate([SafeTranscript(transcript)]).result) == Ok(r.rawResponse)
  {
    if !aiReady then Fallback(AiNotInitialised, InitFallback)
    else
      match generate([SafeTranscript(transcript)])
      case GenerationFailed(m) => Fallback(ErrorText(m), ErrorFallback)
      case Generated(result) =>
        match ProbeText(result)
        case Err(m) => Fallback(m, ErrorFallback)
        case Ok(text) => Interpret(text)
  }

  // ---------------------------------------------------------------------------
  // Consequences
  // ---------------------------------------------------------------------------

  /** A text starting with `o` starts no value. */
  lemma {:induction false} ValueAtO(t: string)
    requires t != [] && t[0] == 'o'
    ensures ParseValue(t) == Stuck(t)
  {
  }

  lemma {:induction false} ArrayAtO(t: string)
    requires t != [] && t[0] == 'o'
    ensures ParseArray(t) == Stuck(t)
  {
    assert SkipJsonSpace(t) == t;
    ValueAtO(t);
    assert ParseElement(t) == Stuck(t);
    assert ParseItems(t) == Stuck(t);
  }

  lemma {:induction false} LeadingO(s: string)
    requires |s| > 1 && s[0] == '[' && s[1] == 'o'
    ensures Parse(s).Err?
    ensures Parse(s) == Err(Unexpected(s, s[1..]))
  {
    assert SkipJsonSpace(s) == s;
    ArrayAtO(s[1..]);
    assert ParseValue(s) == Stuck(s[1..]);
  }

  /** V8's message for the text "[object Object]": "Unexpected token o in JSON at position 1". */
  const ObjectTextError := TokenPrefix + "o" + PositionInfix + "1"

  lemma {:induction false} UnexpectedSecond(s: string)
    requires |s| >= 2 && s[1] == 'o'
    ensures Unexpected(s, s[1..]) == ObjectTextError
  {
    assert NatToString(1) == "1";
    assert [s[1]] == "o";
  }

  /**
   * The text of an object, "[object Object]", is never JSON: `JSON.parse`
   * stops at its second character, as at that of any text starting "[o".
   */
  lemma {:induction false} ObjectTextFails(s: string)
    requires |s| >= 2 && s[0] == '[' && s[1] == 'o'
    ensures Parse(s) == Err(ObjectTextError)
  {
    LeadingO(s);
    UnexpectedSecond(s);
  }

  /**
   * Line 287 loses every object the repair recovers: when the strict parse
   * fails and `repairJson` returns an object (which includes its own partial
   * record), the analysis fails with the message of parsing "[object Object]".
   */
  lemma {:induction false} RepairedObjectIsLost(sanitized: string)
    requires Parse(sanitized).Err?
    requires RepairJson(sanitized).JObj? && !HasKey(RepairJson(sanitized).members, ToStringKey)
    ensures ParseReply(sanitized) == Err(ParseFailurePrefix + ObjectTextError)
  {
    var t := ObjectText;
    assert t[0] == '[' && t[1] == 'o';
    TextLost(sanitized, t);
  }

  lemma {:induction false} TextLost(sanitized: string, t: string)
    requires Parse(sanitized).Err? && ToJsString(RepairJson(sanitized)) == Ok(t)
    requires |t| >= 2 && t[0] == '[' && t[1] == 'o'
    ensures ParseReply(sanitized) == Err(ParseFailurePrefix + ObjectTextError)
  {
    ObjectTextFails(t);
  }

  /** Hence a reply whose only problem is a trailing comma is not analysed, but answered with the fallback record. */
  lemma {:induction false} RepairedObjectFallsBack(transcript: string, generate: Generator)
    requires generate([SafeTranscript(transcript)]).Generated?
    requires var result := generate([SafeTranscript(transcript)]).result;
             ProbeText(result).Ok? && var s := Sanitize(ProbeText(result).value);
             Parse(s).Err? && RepairJson(s).JObj? && !HasKey(RepairJson(s).members, ToStringKey)
    ensures AnalyzeTranscript(transcript, true, generate) ==
              Fallback(ParseFailurePrefix + ObjectTextError, ErrorFallback)
  {
    var result := generate([SafeTranscript(transcript)]).result;
    RepairedObjectIsLost(Sanitize(ProbeText(result).value));
  }

  /** A response whose first candidate part is JSON of a record with no `partial` field is analysed as that record. */
  lemma {:induction false} AnalysedWhenStrictParseWorks(transcript: string, generate: Generator, text: string, data: Json)
    requires generate([SafeTranscript(transcript)]).Generated?
    requires ProbeText(generate([SafeTranscript(transcript)]).result) == Ok(text)
    requires Parse(Sanitize(text)) == Ok(data) && data.JObj? && !HasKey(data.members, "partial")
    ensures AnalyzeTranscript(transcript, true, generate) == Analysed(Coerce(data), text)
  {
    assert Get(Some(data), "partial") == None;
  }
}
