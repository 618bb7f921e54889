# AI-response recovery pipeline of the craft-business backend

This project models `backend/src/controllers/aiController.js`. That file turns unreliable AI output into a usable analysis:

- a voice recording is transcribed by trying four audio encodings in turn;
- the transcript is sent to a generative model;
- the model's free-form reply is cleaned up;
- the reply is parsed as JSON, with a three-level repair when parsing fails;
- the parsed value is coerced into a fixed analysis record;
- the outcome is mapped onto a fixed reply table.

The file also holds two handlers that write a WhatsApp message with the model, with template fallbacks.

The model is written in the source's own form:

- `transcribeAudio` is a loop that remembers the last error. It is a method with a `while` loop, proved equal to a specification function.
- The sanitiser, the repair and the coercion are string and record functions. Each global regular-expression replacement is written out as a left-to-right scan.
- `JSON.parse`, `String(value)`, truthiness, `||`, `?.` and `parseInt` are modelled by hand on a small JSON value type (`Json.dfy`, `JsText.dfy`).
- The speech service and the generative model are oracles, that is, functions given as parameters:
  - the recogniser maps an audio and an encoding to a thrown message or a list of results;
  - the generator maps the values interpolated into the prompt to a result object or a thrown message.
- The internal session endpoint is an oracle from the session id's text to a response body or a rejection.
- Whether each client was created is a boolean input.

Modules:

- `Wrappers`: `Option` and `Result`.
- `JsText`: JavaScript white space, `trim`, ASCII case folding, `indexOf`, `parseInt` and digit strings.
- `Json`: the JSON value type, property lookup, truthiness, `||`, `JSON.parse` and `String()`.
- `Transcriber`: `transcribeAudio`.
- `Sanitizer`: `sanitizeRawText`.
- `Repair`: `repairJson`.
- `Analysis`: `ensureValidAnalysisFormat`, `safeTranscript`, the response probe and `analyzeTranscriptWithVertexAI`.
- `Handlers`: `analyzeBusinessAudio` and the two WhatsApp handlers.

Behaviour of the code that a reader might not expect, modelled as written:

- Line 124: the class `[:s-]*` after a leading phrase holds `:`, the letter `s` and `-`. With the `i` flag it also matches `S`. It does not match white space.
- Line 150: `:s*'` matches a colon, any number of letters `s`, then a quote. So `{name: 'Bowl'}` keeps its single quotes, because of the space: `Repair.SpacedValueKept` shows that the value rewrite never fires on `: '`. `:ss'x'` becomes `:"x"` (`Repair.LettersSSwallowed`).
- Line 287: `JSON.parse` is applied to the value `repairJson` returns, not to a text. A repaired object turns into the text `[object Object]`, which does not parse. Whenever the strict parse fails and repair yields an object, the analysis ends in the fallback record with confidence 80 (`Analysis.RepairedObjectFallsBack`).
- Line 385: an empty upload buffer is still truthy, so only a missing file or buffer gives the "No audio provided" reply.
- `sanitizeRawText` is not idempotent: a trailing backtick that is followed by white space survives the first pass, and the second pass removes it (`Sanitizer.SanitizeNotIdempotent`). It is a fixed point on trimmed text that starts with `{`, contains no fence and does not end with a backtick.
- `generateWhatsAppFromSession` trims the model's text and returns it even when the trimmed text is empty.

## Model

| member | source | states |
|---|---|---|
| Transcriber.Transcribe | backend/src/controllers/aiController.js:40-106 | an error is thrown exactly when there is no speech client, and it is "Speech client not initialized"; a failed transcription always carries the "Speech recognition failed. Last error: " prefix |
| Transcriber.FirstTranscripts | backend/src/controllers/aiController.js:82-84 | a list of texts exactly when every result has an alternative, one per result, each the first alternative's transcript ("" when it has none); otherwise the TypeError for reading `transcript` of undefined |
| Transcriber.FirstHeard | backend/src/controllers/aiController.js:86-90 | the index of the first usable attempt, with no usable attempt before it; none when no attempt is usable |
| Transcriber.LastFailureIsLast | backend/src/controllers/aiController.js:92-96 | the message of the last attempt that threw; none exactly when no attempt threw |
| Transcriber.TranscribeAudio | backend/src/controllers/aiController.js:40-106 | the loop's result and the encodings it called the service with equal `Transcribe` and `Tried` |
| Transcriber.FirstHeardIs | backend/src/controllers/aiController.js:86-90 | an attempt that is usable with none usable before it is the one chosen |
| Transcriber.NoneHeard | backend/src/controllers/aiController.js:98-105 | with no usable attempt, none is chosen |
| Transcriber.TranscribedAtFirstUsable | backend/src/controllers/aiController.js:53-91 | the first usable encoding's text is returned, untrimmed, and no later encoding is called |
| Transcriber.TranscribedOnlyFromUsable | backend/src/controllers/aiController.js:86-89 | a returned text comes from the first usable encoding, and exactly the encodings up to it were called |
| Transcriber.NotTranscribedWhenNothingUsable | backend/src/controllers/aiController.js:92-105 | failure happens iff no encoding is usable; then all four were called; with no throw the error ends in "Unknown" |
| Transcriber.NotTranscribedNamesLastError | backend/src/controllers/aiController.js:95-104 | the error names the message of the last attempt that threw, or "Unknown" when it is empty |
| Transcriber.AllThrow | backend/src/controllers/aiController.js:92-104 | when every call throws, the error names the WAV attempt's message |
| Transcriber.NoSpeechClient | backend/src/controllers/aiController.js:42-44 | without a speech client the function throws before calling the service |
| Sanitizer.TagLength | backend/src/controllers/aiController.js:117 | 0 exactly when none of json, js, text, txt matches in any case; otherwise the length of the first of them, in that order, that matches |
| Sanitizer.TagHasNoBacktick | backend/src/controllers/aiController.js:117 | a matched tag contains no backtick |
| Sanitizer.FenceContent | backend/src/controllers/aiController.js:117-120 | a capture iff the text holds two non-overlapping fences; it runs from after the first fence, its tag and the white space after them, up to the white space in front of the next fence, and it is a trimmed slice without a fence |
| Sanitizer.StripLeadPhrase | backend/src/controllers/aiController.js:123-126 | unchanged when no phrase matches after the leading white space; otherwise the proper suffix that starts after the first phrase, in the alternation's order, and the whole run of `:`, `s`, `S`, `-` that follows it |
| Sanitizer.StripBackticks | backend/src/controllers/aiController.js:129 | only a run of backticks at each end is removed: the result is a slice whose cut-off parts are all backticks, and it neither starts nor ends with one |
| Sanitizer.FromFirstBrace | backend/src/controllers/aiController.js:132-133 | unchanged without a `{`; otherwise the suffix that starts at the first `{`, with no `{` before it |
| Sanitizer.Intermediate | backend/src/controllers/aiController.js:116-130 | the working string just before the cut at the first brace, after the fence, phrase and backtick steps, is a slice of the input |
| Sanitizer.SanitizeShape | backend/src/controllers/aiController.js:111-136 | "" gives "{}"; otherwise a trimmed slice no longer than the input, starting with `{` when the intermediate text holds one |
| Sanitizer.SanitizeFixedPoint | backend/src/controllers/aiController.js:117-135 | trimmed text starting with `{`, without a fence and not ending with a backtick is unchanged |
| Sanitizer.NoPhraseAtBrace | backend/src/controllers/aiController.js:124 | no leading phrase is removed from text that starts with `{` |
| Sanitizer.SanitizeIdempotentOnCleanOutput | backend/src/controllers/aiController.js:111-136 | a second pass changes nothing when the first output starts with `{`, has no fence and no trailing backtick |
| Sanitizer.SanitizeNotIdempotent | backend/src/controllers/aiController.js:129-135 | "{a\` " sanitises to "{a\`", which sanitises to "{a" |
| Sanitizer.FencedReply | backend/src/controllers/aiController.js:117-120 | a reply fenced with a json tag sanitises to its content |
| Repair.KeyAt | backend/src/controllers/aiController.js:149 | a key match is optional quote, word characters, optional quote, colon |
| Repair.KeyAtComplete | backend/src/controllers/aiController.js:149 | whenever that pattern matches at the front of a text, it is the match `KeyAt` reports |
| Repair.ValueAt | backend/src/controllers/aiController.js:150 | a value match is a colon, letters `s`, a quote, text without a quote and a quote |
| Repair.ValueAtComplete | backend/src/controllers/aiController.js:150 | whenever that pattern matches at the front of a text, it is the match `ValueAt` reports |
| Repair.Balanced | backend/src/controllers/aiController.js:156-158 | exactly open−close `}` are appended when there are more `{` than `}`; otherwise the text is unchanged |
| Repair.RepairJson | backend/src/controllers/aiController.js:141-173 | the first of the three attempts that parses wins; when all fail, the partial record with the third attempt's error and the original text |
| Repair.DropTrailingCommasKeeps | backend/src/controllers/aiController.js:148 | the trailing-comma rewrite removes only commas and white space |
| Repair.QuoteKeysKeeps | backend/src/controllers/aiController.js:149 | the key rewrite adds and removes only quotes |
| Repair.RequoteValuesKeeps | backend/src/controllers/aiController.js:150 | the value rewrite adds and removes only quotes and letters `s` |
| Repair.CleanedKeepsBraces | backend/src/controllers/aiController.js:148-150 | the level-2 rewrites keep the number of `{` and of `}` |
| Repair.BalancedCounts | backend/src/controllers/aiController.js:156-158 | after level 3 there are at least as many `}` as `{`, and exactly as many when it appended |
| Repair.ThirdAttemptText | backend/src/controllers/aiController.js:148-158 | the number of braces appended is computed from the brace counts of the original text, strings included |
| Repair.SpacedValueKept | backend/src/controllers/aiController.js:150 | a colon followed by a space never starts a value rewrite |
| Repair.LettersSSwallowed | backend/src/controllers/aiController.js:150 | `:ss'w'` becomes `:"w"` |
| Repair.NoColonCopied | backend/src/controllers/aiController.js:149 | a text without a colon has no key, and the key rewrite copies it |
| Repair.BareKeyQuoted | backend/src/controllers/aiController.js:149 | `{a:1}` becomes `{"a":1}` |
| Repair.SingleQuotedValueRequoted | backend/src/controllers/aiController.js:150 | `:'x'}` becomes `:"x"}` |
| Analysis.CoerceConfidence | backend/src/controllers/aiController.js:363-365 | a number is kept; a string with a parseInt prefix gives that integer; anything else gives 85 |
| Analysis.CoerceSolution | backend/src/controllers/aiController.js:353-362 | each of `id` and `reason` is the model's value when truthy and the default otherwise, so both fields of the result are truthy |
| Analysis.Coerce | backend/src/controllers/aiController.js:347-369 | each of the seven fields is kept under its rule (string, array, truthy, confidence) or set to its default |
| Analysis.CoerceRecordJson | backend/src/controllers/aiController.js:347-369 | coercing the JSON form of a well-formed record gives back that record |
| Analysis.CoerceIdempotent | backend/src/controllers/aiController.js:347-369 | coercing an already coerced record changes nothing |
| Analysis.SafeTranscript | backend/src/controllers/aiController.js:204 | length min(len, 1500), no `"`, every `"` of the kept prefix replaced by `'` |
| Analysis.SafeTranscriptOfPrefix | backend/src/controllers/aiController.js:204 | only the first 1500 characters of the transcript matter |
| Analysis.ProbeText | backend/src/controllers/aiController.js:250-268 | the texts of the three places in order, the first truthy one winning, then the response itself when it is a string, else "Invalid response format from Vertex AI"; a chosen value that is not a string gives the TypeError of `responseText.substring` |
| Analysis.TextOf | backend/src/controllers/aiController.js:268 | a value passes as text exactly when it is a string; any other value gives "responseText.substring is not a function" |
| Analysis.EmptyTextIsEmptyResponse | backend/src/controllers/aiController.js:250-262 | an empty text can only come from a response that is itself the empty string |
| Analysis.ParseReply | backend/src/controllers/aiController.js:276-292 | a strict parse wins; otherwise the text of the repaired value is parsed and its value or error taken; a repaired value without a text, or a failed re-parse, gives the "Failed to parse AI response as JSON: " prefix and that error |
| Analysis.ErrorText | backend/src/controllers/aiController.js:324 | the error text is the message, or a non-empty replacement when the message is empty |
| Analysis.Interpret | backend/src/controllers/aiController.js:270-316 | a parse error, or the JSON `null` (reading `partial` throws), gives the confidence-80 fallback; a parsed value with a truthy `partial` is the partial result; any other is analysed as its coercion, with the text as raw response |
| Analysis.AnalyzeTranscript | backend/src/controllers/aiController.js:178-344 | no client gives the initialisation fallback; a failed generation gives the confidence-80 fallback with the message or "Error"; a probe error gives that fallback with the probe's error; a probed text goes to `Interpret`; an analysis always comes from the probed reply |
| Analysis.ObjectTextFails | backend/src/controllers/aiController.js:287 | a text starting with `[o` fails with "Unexpected token o in JSON at position 1" |
| Analysis.RepairedObjectIsLost | backend/src/controllers/aiController.js:284-292 | after a failed strict parse, a repaired object always fails the re-parse |
| Analysis.RepairedObjectFallsBack | backend/src/controllers/aiController.js:284-292 | such a reply ends in the error fallback record |
| Analysis.AnalysedWhenStrictParseWorks | backend/src/controllers/aiController.js:276-316 | a reply that parses strictly to an object without `partial` is analysed as its coercion |
| Handlers.AnalyzeBusinessAudio | backend/src/controllers/aiController.js:382-498 | 500 iff an upload meets no speech client; 200 replies carry an analysis; no upload gives the exact "No audio file uploaded" reply with confidence 50; an upload is answered as `HeardReply` of its transcription, so a failed transcription gives 60 and its error and a partial reply the record and error of `TranscribedReply`; success iff there is a transcript; a full success carries the coerced analysis |
| Handlers.HeardReply | backend/src/controllers/aiController.js:413-497 | 500 with the thrown message as details iff transcription throws; a failed transcription gives 200, no success, the confidence-60 record and its error or "Failed to transcribe audio"; a transcript goes on to analysis |
| Handlers.TranscribedReply | backend/src/controllers/aiController.js:436-487 | every analysis outcome answers 200 with success and the transcript; it is partial iff the analysis did not succeed; the fallback record and its error, the confidence-70 record, or the analysed data |
| Handlers.AudioWithoutModel | backend/src/controllers/aiController.js:443-454 | without the model a transcribed upload gets the initialisation fallback as a partial success |
| Handlers.AudioNotHeard | backend/src/controllers/aiController.js:415-433 | when every encoding throws, the reply names the last thrown message |
| Handlers.AudioAnalysed | backend/src/controllers/aiController.js:476-486 | a strictly parsable reply yields a full success with the coerced record |
| Handlers.AudioRepairedFallsBack | backend/src/controllers/aiController.js:443-454 | a reply that needs repair yields a partial success with the confidence-80 record |
| Handlers.Render | backend/src/controllers/aiController.js:611 | the substitutions of a template convert in order, and the first that throws ends it |
| Handlers.RenderStopsAt | backend/src/controllers/aiController.js:611 | a template stops at its first substitution that throws, with that error |
| Handlers.FailedText | backend/src/controllers/aiController.js:576 | `error.message` when it is not empty, else "Failed to generate message" |
| Handlers.MessageText | backend/src/controllers/aiController.js:552-559 | the first truthy of the two places — the first part's text, then `response.text` — and none exactly when both are falsy |
| Handlers.MessageCatch | backend/src/controllers/aiController.js:566-578 | the catch answers 200 with a partial success, the error text, and the template filled with the business type and focus, or "craft business" and "handmade products"; a value whose conversion throws leaves the request unanswered |
| Handlers.CatchParts | backend/src/controllers/aiController.js:570 | the two values the catch template receives: a truthy string as given, a falsy value as its lowercase default; strings and falsy values always convert |
| Handlers.MessageCatchDefaults | backend/src/controllers/aiController.js:566-578 | without a business type or focus the fallback names "craft business" and "handmade products" |
| Handlers.MessageAnswer | backend/src/controllers/aiController.js:540-578 | a failed generation goes to the catch with its message; a reply without text goes to the catch with "Invalid response format from Vertex AI"; otherwise a full success with the model's text and the defaulted business type |
| Handlers.GenerateWhatsAppMessage | backend/src/controllers/aiController.js:500-579 | no model gives the fixed greeting; an undestructurable body leaves the request unanswered; 400 iff a destructurable body has a falsy transcript; otherwise the prompt is built from the defaulted values and answered by `MessageAnswer`; every 200 has a truthy message |
| Handlers.SessionOf | backend/src/controllers/aiController.js:377 | the body's truthy `session` field, else the body itself; a null body throws |
| Handlers.FeatureList | backend/src/controllers/aiController.js:611 | only an array can be sliced and joined; a string or other value throws the matching TypeError |
| Handlers.JoinTextItems | backend/src/controllers/aiController.js:611 | joining an array of texts from an index on equals joining those texts with the separator |
| Handlers.FeatureTexts | backend/src/controllers/aiController.js:611 | an array of texts shows its first `n` texts joined with ", " |
| Handlers.TwoFeatures | backend/src/controllers/aiController.js:611 | the first two features are joined with ", " and the rest dropped |
| Handlers.SessionCatch | backend/src/controllers/aiController.js:669-681 | the catch answers 200 with a partial success, the fixed fallback text and the error message or "Failed to generate message" |
| Handlers.Facts | backend/src/controllers/aiController.js:603-608 | each fact is the first truthy value of its chain: `businessName`, `businessType`, "Craft Business"; `detectedFocus`, "Handmade products"; the product `name`, "our products"; `uniqueFeatures`, an empty list; `pricingRange`, "Competitive pricing" |
| Handlers.SessionAnswer | backend/src/controllers/aiController.js:644-680 | a full success exactly when the model answers with a string text, and then it carries that text trimmed, the session id and the business type; a failed generation, no text, or a text that is not a string gives the catch reply with the generator's message, "Invalid response format from Vertex AI" or "message.trim is not a function" |
| Handlers.SessionReply | backend/src/controllers/aiController.js:603-680 | without the model, the filled-in template with two features and "Vertex AI not initialized"; with it, `SessionAnswer` over the facts with three features; a substitution that throws gives the catch reply with its error |
| Handlers.StringFeaturesCaught | backend/src/controllers/aiController.js:607-628 | features stored as a string make the template throw "features.slice(...).join is not a function", with or without the model, and the catch answers |
| Handlers.GenerateWhatsAppFromSession | backend/src/controllers/aiController.js:582-682 | always answers; a body that cannot be destructured, an id without a text or a lookup that rejects gives the catch reply with that error; 400 iff the id is falsy; 404 iff the looked-up session is falsy; a truthy session is answered by `SessionReply`; a full success carries trimmed text and the session id |
| Json.LastValue | backend/src/controllers/aiController.js:350-365 | a property is present iff some member has that key, and it is the last such member's value |
| Json.ToJsString | backend/src/controllers/aiController.js:287 | an object's text is "[object Object]", unless it has its own `toString`; a string is its own text |
| Json.ParseLiteral | backend/src/controllers/aiController.js:278-287 | a literal parses exactly when the text starts with the word, and otherwise stops at the first character that differs from it or at the end |
| Json.Unexpected | backend/src/controllers/aiController.js:278-287 | the parse error names the end of the input, a number, a string or the offending character, with its position |
| Json.TruncatedTrue | backend/src/controllers/aiController.js:278-287 | a prefix of `true` cut short is reported as the end of the input |
| Json.SecondNumber | backend/src/controllers/aiController.js:278-287 | a second number after a complete value, as in `1 2`, is reported as an unexpected number at its position |
| JsText.Trim | backend/src/controllers/aiController.js:86 | the result is trimmed and is the input with white space removed from both ends |
| JsText.ParseIntOfNumeral | backend/src/controllers/aiController.js:364-365 | parseInt reads back every integer numeral |

## Left out

- Numbers are exact decimals. Binary64 rounding, `Infinity`, `NaN` from arithmetic and `-0` are not modelled.
- Strings are sequences of Unicode scalar values, not UTF-16 code units. So `substring(0, 1500)` and lengths count characters, and a lone surrogate escape parses to U+FFFD.
- Error messages follow the wording of V8 before version 10.5 for `JSON.parse` and for TypeErrors ("Unexpected token o in JSON at position 1", "Unexpected end of JSON input", "Unexpected number", "Unexpected string", "x is not a function"). Later V8 versions and other engines word them differently.
- The prompt wording, generation temperatures and speech configuration (sample rate, phrase boost) are left out. The generator oracle receives only the values interpolated into the prompt.
- Logging, `console.time` and the Express `res.status().json()` plumbing are left out. A reply is a datatype of its status and body fields.
- Client construction and environment reads (lines 1-33) are left out. Whether each client exists is a boolean input.
- The base64 encoding of the audio (line 59) is left out. The recogniser receives the raw bytes.
- `rawResponse` of an error thrown by the model client (line 325) is not modelled; the fallback record and error are.
- `response.text` is treated as a property holding a value, never as a method.
- A recognition result whose `alternatives` is missing altogether, rather than empty, is not distinguished. Both throw a TypeError; only the empty case's message is modelled.
- `getSession`'s HTTP request and base URL (lines 371-378) are an oracle from the session id's text to a response body or a rejection.
- The frontend pages and `backend/server.js` are not part of this model.
