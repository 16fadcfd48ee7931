/** The chat text box of the control bar (frontend/components/livekit/chat/chat-input.tsx). */
module ChatInput {
  import opened JsStrings

  /** `message.trim().length > 0`. */
  function HasText(message: string): (r: bool)
    ensures r <==> exists i :: 0 <= i < |message| && !IsWhitespace(message[i])
  {
    TrimEmptyIff(message);
    |Trim(message)| > 0
  }

  /** `isDisabled`: the send button is disabled while the box is disabled or holds no text. */
  function SendDisabled(disabled: bool, message: string): (r: bool)
    ensures r <==> disabled || AllWhitespace(message)
  {
    disabled || !HasText(message)
  }

  /** The component's state, with the calls it made to its two callbacks. */
  class ChatInputState {
    var message: string
    /** Texts handed to `onSend`, oldest first. */
    var sent: seq<string>
    /** How many times the caller's `onSubmit` was invoked. */
    var submitCalls: nat

    constructor ()
      ensures message == [] && sent == [] && submitCalls == 0
    {
      message, sent, submitCalls := [], [], 0;
    }

    /** `onChange`: the box takes the typed text verbatim. */
    method Edit(text: string)
      modifies this
      ensures message == text && sent == old(sent) && submitCalls == old(submitCalls)
    {
      message := text;
    }

    /**
     * `handleSubmit`: always notifies `onSubmit`; sends the untrimmed text and clears
     * the box only when the text is not blank, and otherwise leaves the box as it was.
     */
    method Submit()
      modifies this
      ensures submitCalls == old(submitCalls) + 1
      ensures HasText(old(message)) ==> sent == old(sent) + [old(message)] && message == []
      ensures !HasText(old(message)) ==> sent == old(sent) && message == old(message)
    {
      submitCalls := submitCalls + 1;
      if HasText(message) {
        sent := sent + [message];
        message := [];
      }
    }
  }
}
