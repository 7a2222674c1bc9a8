/**
 * The speech-input adapter (src/hooks/useSpeechRecognition.ts): a two-state
 * machine, idle or listening, over the browser's recognizer. The recognizer
 * is abstract: its `start()` may throw (an input), its `stop()` is recorded
 * in a log, and the transcripts handed to the caller's callback are recorded
 * in another.
 */
module SpeechRecognition {
  import opened Wrappers
  import opened JsText

  const NotSupportedText: string := "Speech recognition is not supported in this browser."
  const PermissionText: string := "Could not start speech recognition. Please check permissions."
  const RecognitionErrorPrefix: string := "Speech recognition error: "

  /** The calls the adapter makes on the platform recognizer. */
  datatype EngineCall = Start | Stop

  /** The first alternatives' transcript of the last result, or None when `event.results[length - 1][0]` is undefined. */
  function LastTranscript(results: seq<seq<string>>): Option<string> {
    if |results| > 0 && |results[|results| - 1]| > 0 then Some(results[|results| - 1][0]) else None
  }

  /**
   * Only the newest result counts: results that came before it never change
   * what is read, and a newest result without alternatives reads as missing.
   */
  lemma LastResultDecides(earlier: seq<seq<string>>, alternatives: seq<string>)
    ensures LastTranscript(earlier + [alternatives]) == LastTranscript([alternatives])
    ensures alternatives == [] ==> LastTranscript(earlier + [alternatives]) == None
    ensures alternatives != [] ==> LastTranscript(earlier + [alternatives]) == Some(alternatives[0])
  {
  }

  class Recognizer {
    /** `isSupported`: the platform offers a recognizer constructor. */
    const supported: bool
    /** `recognitionRef.current !== null`. */
    var hasRecognizer: bool
    var isListening: bool
    /** `error`, `null` as None. */
    var error: Option<string>
    ghost var engineCalls: seq<EngineCall>
    /** Every call of `onTranscriptReady`, in order. */
    ghost var transcripts: seq<string>

    ghost predicate Valid()
      reads this
    {
      && hasRecognizer == supported
      && (isListening ==> hasRecognizer)
      && (!supported ==> error == Some(NotSupportedText))
    }

    /** Mounting the hook: detect support, and create the recognizer only when supported. */
    constructor (platformHasRecognizer: bool)
      ensures Valid()
      ensures supported == platformHasRecognizer && hasRecognizer == platformHasRecognizer
      ensures !isListening
      ensures error == if platformHasRecognizer then None else Some(NotSupportedText)
      ensures engineCalls == [] && transcripts == []
    {
      supported := platformHasRecognizer;
      hasRecognizer := platformHasRecognizer;
      isListening := false;
      error := if platformHasRecognizer then None else Some(NotSupportedText);
      engineCalls, transcripts := [], [];
    }

    /** `isSupported`: true exactly when the platform recognizer exists. */
    function IsSupported(): (r: bool)
      reads this
      requires Valid()
      ensures r <==> hasRecognizer
      ensures !r ==> error == Some(NotSupportedText)
    {
      supported
    }

    /** `startListening`; `startThrows` says whether the platform's `start()` throws. */
    method StartListening(startThrows: bool)
      requires Valid()
      modifies this
      ensures Valid()
      ensures hasRecognizer == old(hasRecognizer) && transcripts == old(transcripts)
      ensures !old(hasRecognizer) || old(isListening) ==>
        isListening == old(isListening) && error == old(error) && engineCalls == old(engineCalls)
      ensures old(hasRecognizer) && !old(isListening) ==>
        && engineCalls == old(engineCalls) + [Start]
        && isListening == !startThrows
        && error == if startThrows then Some(PermissionText) else None
    {
      if hasRecognizer && !isListening {
        engineCalls := engineCalls + [Start];
        if startThrows {
          error := Some(PermissionText);
        } else {
          isListening := true;
          error := None;
        }
      }
    }

    /** `stopListening`. */
    method StopListening()
      requires Valid()
      modifies this
      ensures Valid()
      ensures hasRecognizer == old(hasRecognizer) && error == old(error) && transcripts == old(transcripts)
      ensures !isListening
      ensures engineCalls == old(engineCalls) + (if old(isListening) then [Stop] else [])
    {
      if hasRecognizer && isListening {
        engineCalls := engineCalls + [Stop];
        isListening := false;
      }
    }

    /**
     * `recognition.onresult`: `results` holds, per result, the transcripts of
     * its alternatives. The trimmed transcript is delivered when non-empty, and
     * the adapter stops either way. A missing result or alternative throws
     * before anything changes.
     */
    method OnResult(results: seq<seq<string>>) returns (delivered: Option<string>)
      requires Valid() && hasRecognizer
      modifies this
      ensures Valid()
      ensures hasRecognizer == old(hasRecognizer) && error == old(error)
      ensures LastTranscript(results).None? ==>
        && delivered == None
        && isListening == old(isListening)
        && engineCalls == old(engineCalls) && transcripts == old(transcripts)
      ensures LastTranscript(results).Some? ==>
        && delivered == (var t := Trim(LastTranscript(results).value); if t != [] then Some(t) else None)
        && !isListening
        && engineCalls == old(engineCalls) + (if old(isListening) then [Stop] else [])
      ensures transcripts == old(transcripts) + (if delivered.Some? then [delivered.value] else [])
      ensures delivered.Some? ==> delivered.value != [] && IsTrimmed(delivered.value)
    {
      var last := LastTranscript(results);
      if last.None? {
        return None;
      }
      var transcript := Trim(last.value);
      delivered := None;
      if transcript != [] {
        transcripts := transcripts + [transcript];
        delivered := Some(transcript);
      }
      StopListening();
    }

    /** `recognition.onerror`: record the tagged error, then stop. */
    method OnError(code: string)
      requires Valid() && hasRecognizer
      modifies this
      ensures Valid()
      ensures hasRecognizer == old(hasRecognizer) && transcripts == old(transcripts)
      ensures error == Some(RecognitionErrorPrefix + code)
      ensures !isListening
      ensures engineCalls == old(engineCalls) + (if old(isListening) then [Stop] else [])
    {
      error := Some(RecognitionErrorPrefix + code);
      StopListening();
    }

    /** The effect's cleanup: stop the recognizer, listening or not (none exists when unsupported). */
    method Cleanup()
      requires Valid()
      modifies this
      ensures Valid()
      ensures hasRecognizer == old(hasRecognizer) && isListening == old(isListening)
      ensures error == old(error) && transcripts == old(transcripts)
      ensures engineCalls == old(engineCalls) + (if hasRecognizer then [Stop] else [])
    {
      if hasRecognizer {
        engineCalls := engineCalls + [Stop];
      }
    }
  }

  /** The two transcript examples: padding is removed, and a blank result delivers nothing. */
  lemma TranscriptExamples()
    ensures Trim("  hello  ") == "hello"
    ensures Trim("   ") == []
  {
    assert "  hello  " == "  " + "hello" + "  ";
    PaddedTrim("  ", "hello", "  ");
  }
}
