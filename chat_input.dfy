/**
 * The input bar (src/components/ChatInput.tsx): the typed text is trimmed
 * and gated before it reaches the controller, and the controls are enabled
 * from the bar's text and the flags the controller and the adapter pass in.
 */
module ChatInput {
  import opened Wrappers
  import opened JsText

  /** What `handleSend` hands to `onSendMessage`, if anything. */
  function Forwarded(text: string, isSending: bool): (r: Option<string>)
    ensures r.Some? <==> !AllWhitespace(text) && !isSending
    ensures r.Some? ==> r.value == Trim(text)
    ensures r.Some? ==> r.value != [] && IsTrimmed(r.value) && Trim(r.value) == r.value
  {
    TrimIdempotent(text);
    if Trim(text) != [] && !isSending then Some(Trim(text)) else None
  }

  /** The text input: `disabled={isSending || isListening}`. */
  predicate InputDisabled(isSending: bool, isListening: bool) {
    isSending || isListening
  }

  /** The send button: `disabled={!text.trim() || isSending}`, that is, disabled on blank text. */
  predicate SendDisabled(text: string, isSending: bool)
    ensures SendDisabled(text, isSending) <==> AllWhitespace(text) || isSending
  {
    Trim(text) == [] || isSending
  }

  /** The microphone button is rendered only when recognition is supported. */
  predicate MicShown(isRecognitionSupported: bool) {
    isRecognitionSupported
  }

  /** The microphone button: `disabled={isSending}`. */
  predicate MicDisabled(isSending: bool) {
    isSending
  }

  /** The send button is enabled exactly when clicking it forwards something. */
  lemma SendButtonMatchesHandler(text: string, isSending: bool)
    ensures !SendDisabled(text, isSending) <==> Forwarded(text, isSending).Some?
  {
  }

  /** While a reply is awaited nothing can be sent: input, mic and send button are all disabled. */
  lemma LockedWhileSending(text: string, isListening: bool)
    ensures InputDisabled(true, isListening) && MicDisabled(true) && SendDisabled(text, true)
    ensures Forwarded(text, true) == None
  {
  }

  /**
   * While the adapter listens and no send is in flight, the text input is
   * locked but the mic button stays enabled (to stop listening), and text
   * typed before listening began can still be sent with the send button.
   */
  lemma UsableWhileListening(text: string)
    requires !AllWhitespace(text)
    ensures InputDisabled(false, true)
    ensures !MicDisabled(false)
    ensures !SendDisabled(text, false) && Forwarded(text, false) == Some(Trim(text))
  {
  }

  /** A forwarded text passes the controller's own `!text.trim()` guard unchanged by trimming. */
  lemma ForwardedPassesGuard(text: string)
    requires Forwarded(text, false).Some?
    ensures var t := Forwarded(text, false).value; !AllWhitespace(t) && Trim(t) == t
  {
  }

  class InputBar {
    /** The controlled input's `text` state. */
    var text: string

    constructor ()
      ensures text == []
    {
      text := [];
    }

    /** `onChange`: the input's value becomes the text. */
    method Change(value: string)
      modifies this
      ensures text == value
    {
      text := value;
    }

    /** `handleSend`: forward the trimmed text when there is any and no send is in flight, then clear. */
    method HandleSend(isSending: bool) returns (forwarded: Option<string>)
      modifies this
      ensures forwarded == Forwarded(old(text), isSending)
      ensures text == if forwarded.Some? then [] else old(text)
    {
      var trimmed := Trim(text);
      if trimmed != [] && !isSending {
        forwarded := Some(trimmed);
        text := [];
      } else {
        forwarded := None;
      }
    }

    /** `handleKeyDown`: only the Enter key sends. */
    method HandleKeyDown(key: string, isSending: bool) returns (forwarded: Option<string>)
      modifies this
      ensures key != "Enter" ==> forwarded == None && text == old(text)
      ensures key == "Enter" ==> forwarded == Forwarded(old(text), isSending)
      ensures text == if forwarded.Some? then [] else old(text)
    {
      forwarded := None;
      if key == "Enter" {
        forwarded := HandleSend(isSending);
      }
    }
  }
}
