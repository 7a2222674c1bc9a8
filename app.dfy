/**
 * The conversation controller (src/App.tsx): the list of turns, the
 * in-flight flag and the text-to-speech toggle, with the browser's speech
 * synthesizer reduced to its `speaking` flag and a log of the calls made on
 * it. `handleSendMessage` is split at its `await` into `BeginSend` and
 * `CompleteSend` / `FailSend`; `SendMessage` runs the two halves back to back.
 */
module App {
  import opened Wrappers
  import opened Types
  import opened JsText
  import opened GeminiService
  import opened SpeechRecognition
  import ChatInput

  /** The controller's `context` state: initialised to "" and never set. */
  const Context: string := []

  const FailureText: string := "Sorry, something went wrong."

  function UserTurn(text: string): ChatMessage {
    ChatMessage(USER, text, None)
  }

  function ModelTurn(reply: AIResponse): ChatMessage {
    ChatMessage(MODEL, reply.text, reply.sources)
  }

  const FailureTurn: ChatMessage := ChatMessage(MODEL, FailureText, None)

  /**
   * `[...prev.slice(0, -1), x]`: every element but the last is kept and `x`
   * comes last; on an empty list this yields `[x]`.
   */
  function ReplaceLast(s: seq<ChatMessage>, x: ChatMessage): (r: seq<ChatMessage>)
    ensures |r| == if |s| == 0 then 1 else |s|
    ensures r[|r| - 1] == x
    ensures forall i :: 0 <= i < |r| - 1 ==> r[i] == s[i]
  {
    SliceDropLast(s);
    Slice(s, 0, -1) + [x]
  }

  /** Without an intervening clear, the reply takes the pending turn's place right after the user's turn. */
  lemma ReplaceAfterBegin(history: seq<ChatMessage>, user: ChatMessage, x: ChatMessage)
    ensures ReplaceLast(history + [user, Placeholder], x) == history + [user, x]
  {
  }

  /**
   * A second replacement overrides the first: the catch branch, reached when
   * `speak` throws after the model's turn was placed, leaves the same list as
   * replacing the pending turn by the failure turn directly.
   */
  lemma ReplaceLastTwice(s: seq<ChatMessage>, x: ChatMessage, y: ChatMessage)
    ensures ReplaceLast(ReplaceLast(s, x), y) == ReplaceLast(s, y)
  {
  }

  /** A reply arriving after the conversation was cleared becomes its only turn. */
  lemma ReplyAfterClear(x: ChatMessage)
    ensures ReplaceLast([], x) == [x]
  {
  }

  /** The service request of an accepted send ends with the user's new turn, unless its text is the sentinel itself. */
  lemma UserTurnReachesService(messages: seq<ChatMessage>, text: string, outcome: CallOutcome)
    requires text != PlaceholderText
    ensures var ex := SendMessageToAI(messages + [UserTurn(text)], Context, outcome);
      && ex.request.Some?
      && |ex.request.value.contents| > 0
      && ex.request.value.contents[|ex.request.value.contents| - 1] == Content("user", [Part(text)])
      && ex.request.value.systemInstruction == Preamble
  {
    var h := messages + [UserTurn(text)];
    KeptTurnsAppend(messages, [UserTurn(text)]);
    assert KeptTurns([UserTurn(text)]) == [UserTurn(text)];
    KeptTurnsEmpty(h);
    assert UserTurn(text) in h;
  }

  /** A user message of exactly "..." passes the controller's guard but is dropped from the request. */
  lemma SentinelUserMessage(outcome: CallOutcome)
    ensures !AllWhitespace(PlaceholderText)
    ensures SendMessageToAI([UserTurn(PlaceholderText)], Context, outcome)
      == Exchange(None, AIResponse(HistoryIssueText, None))
  {
    assert !IsWhitespace(PlaceholderText[0]);
    EmptyHistoryNotSent([UserTurn(PlaceholderText)], Context, outcome);
  }

  /** The calls made on the speech synthesizer. */
  datatype SynthCall = Cancel | Utter(text: string)

  class ChatApp {
    var messages: seq<ChatMessage>
    var isSending: bool
    var isTtsEnabled: bool
    /** The `isTtsEnabled` seen by the `speak` closure of the send in flight. */
    var ttsAtSend: bool
    /** `speechSynthesis.speaking`. */
    var speaking: bool
    ghost var synthCalls: seq<SynthCall>

    /** While a send is in flight, the list is empty (cleared) or ends with the pending turn. */
    ghost predicate Valid()
      reads this
    {
      isSending ==> messages == [] || messages[|messages| - 1] == Placeholder
    }

    constructor ()
      ensures Valid()
      ensures messages == [] && !isSending && isTtsEnabled
      ensures !speaking && synthCalls == []
    {
      messages, isSending, isTtsEnabled, ttsAtSend := [], false, true, true;
      speaking, synthCalls := false, [];
    }

    /** `stopSpeak`: cancel the current utterance, if any. */
    method StopSpeak()
      modifies this`speaking, this`synthCalls
      ensures !speaking
      ensures synthCalls == old(synthCalls) + (if old(speaking) then [Cancel] else [])
    {
      if speaking {
        synthCalls := synthCalls + [Cancel];
        speaking := false;
      }
    }

    /** The unmount effect: stop speaking. */
    method Unmount()
      modifies this`speaking, this`synthCalls
      ensures !speaking
      ensures synthCalls == old(synthCalls) + (if old(speaking) then [Cancel] else [])
    {
      StopSpeak();
    }

    /**
     * `speak(text)` as a closure that saw `enabled` for `isTtsEnabled`:
     * nothing when disabled or `text` is empty; otherwise cancel any current
     * utterance, then speak `text`.
     */
    method Speak(text: string, enabled: bool)
      modifies this`speaking, this`synthCalls
      ensures !enabled || text == [] ==> speaking == old(speaking) && synthCalls == old(synthCalls)
      ensures enabled && text != [] ==>
        speaking && synthCalls == old(synthCalls) + (if old(speaking) then [Cancel] else []) + [Utter(text)]
    {
      if !enabled || text == [] {
        return;
      }
      StopSpeak();
      synthCalls := synthCalls + [Utter(text)];
      speaking := true;
    }

    /** The platform finished the current utterance on its own. */
    method UtteranceEnded()
      modifies this`speaking
      ensures !speaking
    {
      speaking := false;
    }

    /**
     * `handleSendMessage` up to its `await`. Ignored while a send is in
     * flight or when `text` is blank; otherwise the user's turn (untrimmed)
     * and the pending turn are appended, and the history handed to the
     * service is the old list plus the user's turn.
     */
    method BeginSend(text: string) returns (accepted: bool, history: seq<ChatMessage>)
      requires Valid()
      modifies this`messages, this`isSending, this`ttsAtSend
      ensures Valid()
      ensures accepted == (!old(isSending) && !AllWhitespace(text))
      ensures !accepted ==>
        messages == old(messages) && isSending == old(isSending) && ttsAtSend == old(ttsAtSend) && history == []
      ensures accepted ==>
        && isSending
        && history == old(messages) + [UserTurn(text)]
        && messages == history + [Placeholder]
        && |messages| == |old(messages)| + 2
        && ttsAtSend == isTtsEnabled
    {
      if isSending || Trim(text) == [] {
        return false, [];
      }
      isSending := true;
      ttsAtSend := isTtsEnabled;
      var userMessage := UserTurn(text);
      history := messages + [userMessage];
      messages := messages + [userMessage, Placeholder];
      accepted := true;
    }

    /**
     * `handleSendMessage` after the service resolved with `reply`: the last
     * turn is replaced by the model's turn, the reply is spoken through the
     * closure of the send, and the in-flight flag is cleared.
     */
    method CompleteSend(reply: AIResponse)
      requires Valid() && isSending
      modifies this`messages, this`isSending, this`speaking, this`synthCalls
      ensures Valid()
      ensures old(messages) == [] || old(messages)[|old(messages)| - 1] == Placeholder
      ensures messages == ReplaceLast(old(messages), ModelTurn(reply))
      ensures !isSending
      ensures !ttsAtSend || reply.text == [] ==> speaking == old(speaking) && synthCalls == old(synthCalls)
      ensures ttsAtSend && reply.text != [] ==>
        speaking && synthCalls == old(synthCalls) + (if old(speaking) then [Cancel] else []) + [Utter(reply.text)]
    {
      messages := ReplaceLast(messages, ModelTurn(reply));
      Speak(reply.text, ttsAtSend);
      isSending := false;
    }

    /**
     * The catch branch of `handleSendMessage`: the last turn becomes the
     * fixed failure turn. The client never throws, so in the code this is
     * reached only when `speak` throws (see `ReplaceLastTwice`).
     */
    method FailSend()
      requires Valid() && isSending
      modifies this`messages, this`isSending
      ensures Valid()
      ensures old(messages) == [] || old(messages)[|old(messages)| - 1] == Placeholder
      ensures messages == ReplaceLast(old(messages), FailureTurn)
      ensures !isSending
    {
      messages := ReplaceLast(messages, FailureTurn);
      isSending := false;
    }

    /** `handleSendMessage` run to completion with nothing interleaved: the service is the pure client. */
    method SendMessage(text: string, outcome: CallOutcome) returns (accepted: bool)
      requires Valid()
      modifies this`messages, this`isSending, this`ttsAtSend, this`speaking, this`synthCalls
      ensures Valid()
      ensures accepted == (!old(isSending) && !AllWhitespace(text))
      ensures !accepted ==>
        && messages == old(messages) && isSending == old(isSending)
        && ttsAtSend == old(ttsAtSend) && speaking == old(speaking) && synthCalls == old(synthCalls)
      ensures accepted ==>
        && !isSending
        && messages == old(messages) + [UserTurn(text),
             ModelTurn(SendMessageToAI(old(messages) + [UserTurn(text)], Context, outcome).reply)]
      ensures accepted ==>
        var t := SendMessageToAI(old(messages) + [UserTurn(text)], Context, outcome).reply.text;
        && (!isTtsEnabled || t == [] ==> speaking == old(speaking) && synthCalls == old(synthCalls))
        && (isTtsEnabled && t != [] ==>
              speaking && synthCalls == old(synthCalls) + (if old(speaking) then [Cancel] else []) + [Utter(t)])
    {
      var history;
      accepted, history := BeginSend(text);
      if accepted {
        var exchange := SendMessageToAI(history, Context, outcome);
        ReplaceAfterBegin(history[..|history| - 1], UserTurn(text), ModelTurn(exchange.reply));
        assert history[..|history| - 1] + [UserTurn(text), Placeholder] == messages;
        CompleteSend(exchange.reply);
      }
    }

    /** `handleToggleTts`: flip the flag; turning it off cancels the current utterance. */
    method ToggleTts()
      modifies this`isTtsEnabled, this`speaking, this`synthCalls
      ensures isTtsEnabled == !old(isTtsEnabled)
      ensures isTtsEnabled ==> speaking == old(speaking) && synthCalls == old(synthCalls)
      ensures !isTtsEnabled ==> !speaking && synthCalls == old(synthCalls) + (if old(speaking) then [Cancel] else [])
    {
      var newValue := !isTtsEnabled;
      if !newValue {
        StopSpeak();
      }
      isTtsEnabled := newValue;
    }

    /** `handleClearChat`: empty the list and stop speaking; a send in flight is not cancelled. */
    method ClearChat()
      requires Valid()
      modifies this`messages, this`speaking, this`synthCalls
      ensures Valid()
      ensures messages == [] && !speaking
      ensures synthCalls == old(synthCalls) + (if old(speaking) then [Cancel] else [])
    {
      messages := [];
      StopSpeak();
    }
  }

  /** `toggleListening`: stop when listening, otherwise start. */
  method ToggleListening(rec: Recognizer, startThrows: bool)
    requires rec.Valid()
    modifies rec
    ensures rec.Valid()
    ensures rec.transcripts == old(rec.transcripts)
    ensures old(rec.isListening) ==> !rec.isListening && rec.engineCalls == old(rec.engineCalls) + [Stop]
    ensures !old(rec.isListening) && rec.hasRecognizer ==>
      rec.isListening == !startThrows && rec.engineCalls == old(rec.engineCalls) + [Start]
    ensures !rec.hasRecognizer ==> !rec.isListening && rec.engineCalls == old(rec.engineCalls)
    ensures rec.hasRecognizer == old(rec.hasRecognizer)
    ensures old(rec.isListening) ==> rec.error == old(rec.error)
    ensures !old(rec.isListening) && old(rec.hasRecognizer) ==>
      rec.error == if startThrows then Some(PermissionText) else None
    ensures !old(rec.hasRecognizer) ==> rec.error == old(rec.error)
  {
    if rec.isListening {
      rec.StopListening();
    } else {
      rec.StartListening(startThrows);
    }
  }

  /**
   * The input bar's mic button is shown exactly when the adapter has a
   * recognizer; when it is hidden, the adapter reports the not-supported error.
   */
  lemma MicFollowsSupport(rec: Recognizer)
    requires rec.Valid()
    ensures ChatInput.MicShown(rec.IsSupported()) <==> rec.hasRecognizer
    ensures !ChatInput.MicShown(rec.IsSupported()) ==> rec.error == Some(NotSupportedText)
  {
  }

  /** A reply that arrives after a clear is still applied, as the only turn. */
  method ClearDuringFlightScenario(reply: AIResponse) {
    var app := new ChatApp();
    var accepted, history := app.BeginSend("hi");
    assert accepted by { assert !IsWhitespace("hi"[0]); }
    app.ClearChat();
    app.CompleteSend(reply);
    assert app.messages == [ModelTurn(reply)];
    assert !app.isSending;
  }

  /** Turning speech off while a reply is awaited does not keep that reply from being spoken. */
  method ToggleOffDuringFlightScenario() {
    var app := new ChatApp();
    var accepted, history := app.BeginSend("hi");
    assert accepted by { assert !IsWhitespace("hi"[0]); }
    app.ToggleTts();
    assert !app.isTtsEnabled;
    app.CompleteSend(AIResponse("hello", None));
    assert app.synthCalls == [Utter("hello")];
  }

  /**
   * A reply whose text is `...` equals the pending turn, so the list can hold
   * two turns that look pending, and the earlier one stays on screen as a
   * loading indicator.
   */
  method DuplicatePlaceholderScenario() {
    var app := new ChatApp();
    var accepted, history := app.BeginSend("hi");
    assert accepted by { assert !IsWhitespace("hi"[0]); }
    app.CompleteSend(AIResponse(PlaceholderText, None));
    accepted, history := app.BeginSend("yo");
    assert accepted by { assert !IsWhitespace("yo"[0]); }
    assert |app.messages| == 4;
    assert app.messages[1] == Placeholder && app.messages[3] == Placeholder;
  }
}
