/**
 * `transcribeAudio`: the speech-recognition service is tried with one audio
 * encoding after another, in a fixed order, until one of them yields text.
 */
module Transcriber {
  import opened Wrappers
  import opened JsText

  datatype Encoding = WebmOpus | Mp3 | OggOpus | Wav

  /** The order in which the encodings are tried. */
  const Encodings: seq<Encoding> := [WebmOpus, Mp3, OggOpus, Wav]

  /** One `alternatives[k]` entry of a recognition result; its `transcript` may be missing. */
  datatype Alternative = Alternative(transcript: Option<string>)

  /**
   * What one `speechClient.recognize` call does: it throws (or rejects) with a
   * message, or answers with its `results`, each a list of alternatives; an
   * answer without a `results` field is the empty list.
   */
  datatype Recognition = Threw(message: string) | Answered(results: seq<seq<Alternative>>)

  /** The recognition service, for a given audio content and encoding. */
  type Recognizer = (seq<bv8>, Encoding) -> Recognition

  /** What one attempt amounts to: usable text, nothing usable, or an error caught by the loop. */
  datatype Attempt = Heard(text: string) | Silent | Failed(message: string)

  datatype Transcription = Transcribed(text: string) | NotTranscribed(error: string)

  /** The TypeError `result.alternatives[0].transcript` raises when a result has no alternative. */
  const NoAlternative := "Cannot read properties of undefined (reading 'transcript')"

  const NotInitialised := "Speech client not initialized"

  const FailurePrefix := "Speech recognition failed. Last error: "

  /** The transcript of the first alternative of one result, "" when it has none. */
  function FirstText(alternatives: seq<Alternative>): string
    requires alternatives != []
  {
    match alternatives[0].transcript case Some(t) => t case None => ""
  }

  /** `results.map(r => r.alternatives[0].transcript)`; a missing transcript stands as "" for the join that follows. */
  function FirstTranscripts(results: seq<seq<Alternative>>): (r: Result<seq<string>, string>)
    ensures r.Ok? <==> forall k :: 0 <= k < |results| ==> results[k] != []
    ensures r.Ok? ==> |r.value| == |results|
    ensures r.Ok? ==> forall k :: 0 <= k < |results| ==> r.value[k] == FirstText(results[k])
    ensures r.Err? ==> r.error == NoAlternative
  {
    if results == [] then Ok([])
    else if results[0] == [] then Err(NoAlternative)
    else
      var first := FirstText(results[0]);
      match FirstTranscripts(results[1..])
      case Ok(rest) => Ok([first] + rest)
      case Err(e) => Err(e)
  }

  /** `parts.join("\n")`. */
  function JoinLines(parts: seq<string>): string {
    if parts == [] then ""
    else if |parts| == 1 then parts[0]
    else parts[0] + "\n" + JoinLines(parts[1..])
  }

  /** The body of one iteration of the loop, for one answer of the service. */
  function AttemptOf(r: Recognition): Attempt {
    match r
    case Threw(m) => Failed(m)
    case Answered(results) =>
      if results == [] then Silent
      else
        match FirstTranscripts(results)
        case Err(m) => Failed(m)
        case Ok(parts) =>
          var text := JoinLines(parts);
          if Trim(text) != [] then Heard(text) else Silent
  }

  /** The attempts for every encoding, in order (the loop stops before it reaches the later ones). */
  function Attempts(audio: seq<bv8>, recognize: Recognizer): (xs: seq<Attempt>)
    ensures |xs| == |Encodings|
    ensures forall k :: 0 <= k < |Encodings| ==> xs[k] == AttemptOf(recognize(audio, Encodings[k]))
  {
    seq(|Encodings|, k requires 0 <= k < |Encodings| => AttemptOf(recognize(audio, Encodings[k])))
  }

  /** The position of the first usable attempt. */
  function FirstHeard(xs: seq<Attempt>): (r: Option<nat>)
    ensures r.Some? ==> r.value < |xs| && xs[r.value].Heard? && forall j :: 0 <= j < r.value ==> !xs[j].Heard?
    ensures r.None? ==> forall j :: 0 <= j < |xs| ==> !xs[j].Heard?
  {
    if xs == [] then None
    else if xs[0].Heard? then Some(0)
    else match FirstHeard(xs[1..]) case Some(k) => Some(k + 1) case None => None
  }

  /** The message of the last attempt among the first `n` that threw. */
  function LastFailure(xs: seq<Attempt>, n: nat): Option<string>
    requires n <= |xs|
  {
    if n == 0 then None
    else if xs[n - 1].Failed? then Some(xs[n - 1].message)
    else LastFailure(xs, n - 1)
  }

  /** `lastError?.message || "Unknown"` behind the fixed prefix. */
  function FailureMessage(last: Option<string>): string {
    FailurePrefix + (if last.Some? && last.value != "" then last.value else "Unknown")
  }

  /** What `transcribeAudio` returns; `Err` is the exception it throws when there is no speech client. */
  function Transcribe(audio: seq<bv8>, speechReady: bool, recognize: Recognizer): (r: Result<Transcription, string>)
    ensures r.Err? <==> !speechReady
    ensures r.Err? ==> r.error == NotInitialised
    ensures r.Ok? && r.value.NotTranscribed? ==> FailurePrefix <= r.value.error
  {
    if !speechReady then Err(NotInitialised)
    else
      var xs := Attempts(audio, recognize);
      match FirstHeard(xs)
      case Some(k) => Ok(Transcribed(xs[k].text))
      case None => Ok(NotTranscribed(FailureMessage(LastFailure(xs, |xs|))))
  }

  /** The encodings the service is called with, in call order. */
  function Tried(audio: seq<bv8>, speechReady: bool, recognize: Recognizer): seq<Encoding> {
    if !speechReady then []
    else
      match FirstHeard(Attempts(audio, recognize))
      case Some(k) => Encodings[..k + 1]
      case None => Encodings
  }

  /** The loop of `transcribeAudio`, which also reports the encodings it called the service with. */
  method TranscribeAudio(audio: seq<bv8>, speechReady: bool, recognize: Recognizer)
    returns (r: Result<Transcription, string>, tried: seq<Encoding>)
    ensures r == Transcribe(audio, speechReady, recognize)
    ensures tried == Tried(audio, speechReady, recognize)
  {
    tried := [];
    if !speechReady {
      return Err(NotInitialised), tried;
    }
    ghost var xs := Attempts(audio, recognize);
    var lastError: Option<string> := None;
    var k := 0;
    while k < |Encodings|
      invariant 0 <= k <= |Encodings|
      invariant tried == Encodings[..k]
      invariant forall j :: 0 <= j < k ==> !xs[j].Heard?
      invariant lastError == LastFailure(xs, k)
    {
      var answer := recognize(audio, Encodings[k]);
      tried := tried + [Encodings[k]];
      var attempt := AttemptOf(answer);
      assert attempt == xs[k];
      if attempt.Heard? {
        TranscribedAtFirstUsable(audio, recognize, k, attempt.text);
        return Ok(Transcribed(attempt.text)), tried;
      }
      if attempt.Failed? {
        lastError := Some(attempt.message);
      }
      k := k + 1;
    }
    NoneHeard(xs);
    NothingHeard(audio, recognize);
    r := Ok(NotTranscribed(FailureMessage(lastError)));
  }

  /** When no attempt is usable, the result names the last failure and every encoding was tried. */
  lemma {:induction false} NothingHeard(audio: seq<bv8>, recognize: Recognizer)
    requires FirstHeard(Attempts(audio, recognize)) == None
    ensures Transcribe(audio, true, recognize) ==
              Ok(NotTranscribed(FailureMessage(LastFailure(Attempts(audio, recognize), |Encodings|))))
    ensures Tried(audio, true, recognize) == Encodings
  {
  }

  /** There is a last failure exactly when some attempt failed, and it is that of the last failed attempt. */
  lemma {:induction false} LastFailureIsLast(xs: seq<Attempt>, n: nat)
    requires n <= |xs|
    ensures LastFailure(xs, n).Some? <==> exists k :: 0 <= k < n && xs[k].Failed?
    ensures LastFailure(xs, n).Some? ==> exists k :: 0 <= k < n && xs[k] == Failed(LastFailure(xs, n).value) &&
                                            forall j :: k < j < n ==> !xs[j].Failed?
  {
    if n > 0 && !xs[n - 1].Failed? {
      LastFailureIsLast(xs, n - 1);
    }
  }

  lemma {:induction false} FirstHeardIs(xs: seq<Attempt>, k: nat)
    requires k < |xs| && xs[k].Heard? && forall j :: 0 <= j < k ==> !xs[j].Heard?
    ensures FirstHeard(xs) == Some(k)
  {
  }

  lemma {:induction false} NoneHeard(xs: seq<Attempt>)
    requires forall j :: 0 <= j < |xs| ==> !xs[j].Heard?
    ensures FirstHeard(xs) == None
  {
  }

  /**
   * The text returned is that of the first encoding, in the fixed order, whose
   * answer is usable; it is the joined transcripts as they are, not trimmed,
   * and that encoding is the last one the service is called with.
   */
  lemma {:induction false} TranscribedAtFirstUsable(audio: seq<bv8>, recognize: Recognizer, k: nat, text: string)
    requires k < |Encodings|
    requires AttemptOf(recognize(audio, Encodings[k])) == Heard(text)
    requires forall j :: 0 <= j < k ==> !AttemptOf(recognize(audio, Encodings[j])).Heard?
    ensures Transcribe(audio, true, recognize) == Ok(Transcribed(text))
    ensures Tried(audio, true, recognize) == Encodings[..k + 1]
  {
    FirstHeardIs(Attempts(audio, recognize), k);
  }

  /** Conversely, a transcript always comes from such a first usable answer. */
  lemma {:induction false} TranscribedOnlyFromUsable(audio: seq<bv8>, recognize: Recognizer, text: string)
    requires Transcribe(audio, true, recognize) == Ok(Transcribed(text))
    ensures exists k :: 0 <= k < |Encodings| && AttemptOf(recognize(audio, Encodings[k])) == Heard(text) &&
              Tried(audio, true, recognize) == Encodings[..k + 1] &&
              forall j :: 0 <= j < k ==> !AttemptOf(recognize(audio, Encodings[j])).Heard?
  {
    var xs := Attempts(audio, recognize);
    var k := FirstHeard(xs).value;
    assert xs[k] == AttemptOf(recognize(audio, Encodings[k]));
  }

  /**
   * With a speech client, transcription fails exactly when no encoding gives
   * usable text; then every encoding has been tried and the error names the
   * message of the last attempt that threw, or "Unknown" when none did (or its
   * message was empty). Answers without usable text never count as errors.
   */
  lemma {:induction false} NotTranscribedWhenNothingUsable(audio: seq<bv8>, recognize: Recognizer)
    ensures Transcribe(audio, true, recognize).Ok?
    ensures Transcribe(audio, true, recognize).value.NotTranscribed? <==>
              forall k :: 0 <= k < |Encodings| ==> !AttemptOf(recognize(audio, Encodings[k])).Heard?
    ensures Transcribe(audio, true, recognize).value.NotTranscribed? ==> Tried(audio, true, recognize) == Encodings
    ensures Transcribe(audio, true, recognize).value.NotTranscribed? &&
            (forall k :: 0 <= k < |Encodings| ==> !AttemptOf(recognize(audio, Encodings[k])).Failed?) ==>
              Transcribe(audio, true, recognize).value.error == FailurePrefix + "Unknown"
  {
    var xs := Attempts(audio, recognize);
    if forall k :: 0 <= k < |Encodings| ==> !AttemptOf(recognize(audio, Encodings[k])).Heard? {
      NoneHeard(xs);
      LastFailureIsLast(xs, |xs|);
    } else {
      var k :| 0 <= k < |Encodings| && AttemptOf(recognize(audio, Encodings[k])).Heard?;
      assert xs[k].Heard?;
    }
  }

  /** The error text carries the message of the last attempt that threw. */
  lemma {:induction false} NotTranscribedNamesLastError(audio: seq<bv8>, recognize: Recognizer, k: nat, m: string)
    requires Transcribe(audio, true, recognize).Ok? && Transcribe(audio, true, recognize).value.NotTranscribed?
    requires k < |Encodings| && AttemptOf(recognize(audio, Encodings[k])) == Failed(m)
    requires forall j :: k < j < |Encodings| ==> !AttemptOf(recognize(audio, Encodings[j])).Failed?
    ensures Transcribe(audio, true, recognize).value.error == FailurePrefix + (if m != "" then m else "Unknown")
  {
    var xs := Attempts(audio, recognize);
    var last := LastFailure(xs, |xs|);
    assert xs[k].Failed?;
    LastFailureIsLast(xs, |xs|);
    var i :| 0 <= i < |xs| && xs[i] == Failed(last.value) && forall j :: i < j < |xs| ==> !xs[j].Failed?;
    assert i == k;
  }

  /** When every attempt throws, the error names the message thrown for the last encoding, WAV. */
  lemma {:induction false} AllThrow(audio: seq<bv8>, recognize: Recognizer)
    requires forall k :: 0 <= k < |Encodings| ==> recognize(audio, Encodings[k]).Threw?
    ensures Transcribe(audio, true, recognize) ==
              Ok(NotTranscribed(FailureMessage(Some(recognize(audio, Encodings[3]).message))))
  {
    var xs := Attempts(audio, recognize);
    assert forall k :: 0 <= k < |Encodings| ==> xs[k].Failed?;
    NoneHeard(xs);
    assert xs[|xs| - 1] == Failed(recognize(audio, Encodings[3]).message);
  }

  /** Without a speech client `transcribeAudio` throws before calling the service at all. */
  lemma {:induction false} NoSpeechClient(audio: seq<bv8>, recognize: Recognizer)
    ensures Transcribe(audio, false, recognize) == Err(NotInitialised)
    ensures Tried(audio, false, recognize) == []
  {
  }
}
