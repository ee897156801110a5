/** The chat panel (components/ChatPanel.tsx): its input box, the submit guard,
    the gating predicates and the typing indicator. Sending is the
    `onSendMessage` callback, modelled as the text a submit returns. */
module Chat {
  import opened Wrappers
  import opened JsStrings
  import opened Types

  /** The text input is disabled once the conversation has gone past the welcome
      message while no material has been added. */
  function InputDisabled(hasMaterials: bool, messages: seq<Message>): (disabled: bool)
    ensures disabled ==> |messages| >= 2
    ensures hasMaterials ==> !disabled
    ensures !hasMaterials && |messages| >= 2 ==> disabled
  {
    !hasMaterials && |messages| > 1
  }

  /** The send button is disabled when the input is blank or the input is gated. */
  function SubmitDisabled(input: string, hasMaterials: bool, messages: seq<Message>): (disabled: bool)
    ensures disabled <==> IsBlank(input) || InputDisabled(hasMaterials, messages)
  {
    TrimEmptyIffBlank(input);
    Trim(input) == "" || (!hasMaterials && |messages| > 1)
  }

  /** The "upload documents" warning is shown exactly when the input is gated. */
  function ShowUploadWarning(hasMaterials: bool, messages: seq<Message>): (shown: bool)
    ensures shown == InputDisabled(hasMaterials, messages)
  {
    !hasMaterials && |messages| > 1
  }

  /** The typing indicator is on when the last message is the user's. */
  function TypingIndicator(messages: seq<Message>): (typing: bool)
    ensures typing ==> messages != []
    ensures messages != [] ==> (typing <==> messages[|messages| - 1].role == User)
  {
    |messages| > 0 && messages[|messages| - 1].role == User
  }

  class ChatPanel {
    /** The text typed in the input box. */
    var input: string
    /** Whether the typing indicator is shown. */
    var isTyping: bool

    constructor ()
      ensures input == "" && !isTyping
    {
      input := "";
      isTyping := false;
    }

    /** The input's `onChange`. */
    method OnInputChange(value: string)
      modifies this
      ensures input == value && isTyping == old(isTyping)
    {
      input := value;
    }

    /** `handleSubmit`: blank input sends nothing and stays as it is; any other
        input is sent exactly as typed and the box is cleared. */
    method HandleSubmit() returns (sent: Option<string>)
      modifies this
      ensures sent.None? <==> IsBlank(old(input))
      ensures sent.None? ==> input == old(input)
      ensures sent.Some? ==> sent.value == old(input) && input == ""
      ensures isTyping == old(isTyping)
    {
      TrimEmptyIffBlank(input);
      if Trim(input) == "" {
        return None;
      }
      sent := Some(input);
      input := "";
    }

    /** The effect run whenever the messages change: it recomputes the indicator. */
    method OnMessagesChange(messages: seq<Message>)
      modifies this
      ensures isTyping == TypingIndicator(messages)
      ensures input == old(input)
    {
      if |messages| > 0 && messages[|messages| - 1].role == User {
        isTyping := true;
      } else {
        isTyping := false;
      }
    }
  }
}
