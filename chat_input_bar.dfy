/**
 * The chat input bar: a message box whose send action reports the trimmed
 * text when it is non-blank and then clears the box, a send key (Enter
 * without Shift), and a Send button disabled exactly when nothing would be sent.
 */
module ChatInputBar {
  import opened Results
  import opened Text

  /** What `handleSend` passes to `onSendMessage` for a message, or None when it passes nothing. */
  function SentText(message: string): (sent: Option<string>)
    ensures sent == None <==> IsBlank(message)
    ensures sent.Some? ==> sent.value == Trim(message)
    ensures sent.Some? ==> sent.value != "" && !IsWhitespace(sent.value[0]) && !IsWhitespace(sent.value[|sent.value| - 1])
  {
    var t := Trim(message);
    if t != "" then Some(t) else None
  }

  /** The Send button's `disabled` condition. */
  predicate SendDisabled(message: string)
  {
    Trim(message) == ""
  }

  /** The button is disabled exactly when sending would pass nothing. */
  lemma DisabledIffNothingSent(message: string)
    ensures SendDisabled(message) <==> SentText(message) == None
  {
  }

  /** Sending the sent text again would send it unchanged: what is sent is already trimmed. */
  lemma SentTextIsStable(message: string)
    requires SentText(message).Some?
    ensures SentText(SentText(message).value) == SentText(message)
  {
    TrimIdempotent(message);
  }

  /** The key that sends: Enter without Shift. */
  predicate IsSendKey(key: string, shiftKey: bool)
  {
    key == "Enter" && !shiftKey
  }

  class ChatInput {
    var message: string

    constructor()
      ensures message == ""
    {
      message := "";
    }

    method SetMessage(m: string)
      modifies this
      ensures message == m
    {
      message := m;
    }

    /** `handleSend`: report the trimmed text and clear the box, or leave the box as it is. */
    method HandleSend() returns (sent: Option<string>)
      modifies this
      ensures sent == SentText(old(message))
      ensures sent.Some? ==> message == ""
      ensures sent == None ==> message == old(message)
    {
      var t := Trim(message);
      if t != "" {
        sent := Some(t);
        message := "";
      } else {
        sent := None;
      }
    }

    /**
     * `handleKeyDown`: the send key suppresses the key's default action and
     * attempts a send; any other key, Shift+Enter included, is left alone.
     */
    method HandleKeyDown(key: string, shiftKey: bool) returns (sent: Option<string>, defaultPrevented: bool)
      modifies this
      ensures defaultPrevented <==> IsSendKey(key, shiftKey)
      ensures IsSendKey(key, shiftKey) ==> sent == SentText(old(message))
      ensures IsSendKey(key, shiftKey) && sent.Some? ==> message == ""
      ensures !(IsSendKey(key, shiftKey) && sent.Some?) ==> message == old(message)
      ensures !IsSendKey(key, shiftKey) ==> sent == None
    {
      if IsSendKey(key, shiftKey) {
        defaultPrevented := true;
        sent := HandleSend();
      } else {
        defaultPrevented := false;
        sent := None;
      }
    }
  }
}
