/** The message composer: the text field, sending on submit, and the typing
    signals it raises for the page. */
module MessageInput {
  import opened Common

  /** What the composer tells the page: a message to send, or a typing
      state. */
  datatype Signal = Send(text: string) | Typing(active: bool)

  class Composer {
    var text: string
    /** Whether the page passed a typing callback. */
    const hasOnTyping: bool
    /** Every signal raised so far, in order. */
    var signals: seq<Signal>

    constructor (withOnTyping: bool)
      ensures text == "" && signals == [] && hasOnTyping == withOnTyping
    {
      text := "";
      signals := [];
      hasOnTyping := withOnTyping;
    }

    /** The typing signal the callback receives, if there is one. */
    function TypingSignal(active: bool): (r: seq<Signal>)
      ensures hasOnTyping ==> r == [Typing(active)]
      ensures !hasOnTyping ==> r == []
    {
      if hasOnTyping then [Typing(active)] else []
    }

    /** Submit: text that is not all whitespace is sent as typed (untrimmed),
        the field is cleared, and typing stops; whitespace-only text sends
        nothing and stays in the field. */
    method Submit()
      modifies this`text, this`signals
      ensures !AllSpace(old(text)) ==> text == "" && signals == old(signals) + [Send(old(text))] + TypingSignal(false)
      ensures AllSpace(old(text)) ==> text == old(text) && signals == old(signals)
    {
      TrimEmptyIffAllSpace(text);
      if Trim(text) != "" {
        signals := signals + [Send(text)];
        text := "";
        signals := signals + TypingSignal(false);
      }
    }

    /** Every edit stores the new text and signals typing. */
    method Change(value: string)
      modifies this`text, this`signals
      ensures text == value && signals == old(signals) + TypingSignal(true)
    {
      text := value;
      signals := signals + TypingSignal(true);
    }

    /** Leaving the field signals that typing stopped. */
    method Blur()
      modifies this`signals
      ensures signals == old(signals) + TypingSignal(false)
    {
      signals := signals + TypingSignal(false);
    }
  }
}
