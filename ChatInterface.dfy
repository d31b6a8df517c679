/** The dashboard's chat card: it opens with the assistant's greeting; each send
    appends the user's message and shows a typing indicator, and a timer later
    appends a fixed assistant reply and hides the indicator. */
module ChatInterface {
  import opened Text
  import opened Lists

  datatype Sender = User | Ai

  /** A chat message. Its identifier comes from the clock and is opaque here. */
  datatype Message = Message(id: string, text: string, sender: Sender)

  /** The message the list starts with. */
  const Greeting := Message("1", "Hello! How can I assist you today?", Ai)

  /** The text of every reply the timer appends. */
  const ReplyText := "Thank you for your message. I'm processing your request and will respond shortly."

  predicate IsUser(m: Message) { m.sender == User }

  predicate IsAi(m: Message) { m.sender == Ai }

  /** A message as the list can hold it: a user message is never blank and an
      assistant message is the fixed reply. */
  predicate WellFormed(m: Message) {
    && (m.sender == User ==> !IsBlank(m.text))
    && (m.sender == Ai ==> m.text == ReplyText)
  }

  /** The invariant of the message list: the greeting comes first; after it,
      every user message is answered by one reply or still pending, no reply
      comes before the message it answers, and every message is well formed. */
  ghost predicate Conversation(ms: seq<Message>, pending: nat) {
    && |ms| >= 1 && ms[0] == Greeting
    && Count(ms[1..], IsUser) == Count(ms[1..], IsAi) + pending
    && NeverAhead(ms[1..], IsUser, IsAi)
    && All(ms[1..], WellFormed)
  }

  /** The invariant over indices: after the greeting, no user message is
      blank, every assistant message is the fixed reply, and no prefix holds
      more replies than user messages. */
  lemma ConversationMeaning(ms: seq<Message>, pending: nat)
    requires Conversation(ms, pending)
    ensures forall i :: 1 <= i < |ms| && ms[i].sender == User ==> !IsBlank(ms[i].text)
    ensures forall i :: 1 <= i < |ms| && ms[i].sender == Ai ==> ms[i].text == ReplyText
    ensures forall k :: 1 <= k <= |ms| ==> Count(ms[1..k], IsAi) <= Count(ms[1..k], IsUser)
  {
    var rest := ms[1..];
    AllAtEveryIndex(rest, WellFormed);
    NeverAheadInEveryPrefix(rest, IsUser, IsAi);
    assert forall i :: 1 <= i < |ms| ==> ms[i] == rest[i - 1];
    assert forall k :: 1 <= k <= |ms| ==> ms[1..k] == rest[..k - 1];
  }

  /** Appending `m` to a conversation keeps the greeting in front and extends
      the part after it by `m`. */
  lemma {:induction false} AppendAfterGreeting(ms: seq<Message>, pending: nat, m: Message)
    requires Conversation(ms, pending)
    ensures (ms + [m])[0] == Greeting && (ms + [m])[1..] == ms[1..] + [m]
    ensures Count((ms + [m])[1..], IsUser) == Count(ms[1..], IsUser) + (if IsUser(m) then 1 else 0)
    ensures Count((ms + [m])[1..], IsAi) == Count(ms[1..], IsAi) + (if IsAi(m) then 1 else 0)
    ensures All((ms + [m])[1..], WellFormed) <==> All(ms[1..], WellFormed) && WellFormed(m)
  {
    assert (ms + [m])[1..] == ms[1..] + [m];
    CountAppend(ms[1..], m, IsUser);
    CountAppend(ms[1..], m, IsAi);
    AllAppend(ms[1..], m, WellFormed);
  }

  /** Sending a visible draft keeps the conversation well formed, with one
      more reply pending. */
  lemma {:induction false} SendKeepsConversation(ms: seq<Message>, pending: nat, id: string, text: string)
    requires Conversation(ms, pending)
    requires !IsBlank(text)
    ensures Conversation(ms + [Message(id, text, User)], pending + 1)
  {
    var m := Message(id, text, User);
    AppendAfterGreeting(ms, pending, m);
    NeverAheadAppend(ms[1..], m, IsUser, IsAi);
  }

  /** A timer firing keeps the conversation well formed, with one reply fewer
      pending. */
  lemma {:induction false} DeliverKeepsConversation(ms: seq<Message>, pending: nat, id: string)
    requires Conversation(ms, pending)
    requires pending > 0
    ensures Conversation(ms + [Message(id, ReplyText, Ai)], pending - 1)
  {
    var m := Message(id, ReplyText, Ai);
    AppendAfterGreeting(ms, pending, m);
    NeverAheadAppend(ms[1..], m, IsUser, IsAi);
  }

  class ChatCard {
    var messages: seq<Message>
    /** The draft in the text field. */
    var message: string
    var isTyping: bool
    /** Timers started and not yet fired. */
    var pending: nat

    /** The list is a well-formed conversation, and the typing indicator shows
        only while a reply is pending. */
    ghost predicate Valid()
      reads this
    {
      Conversation(messages, pending) && (isTyping ==> pending > 0)
    }

    constructor ()
      ensures Valid()
      ensures messages == [Greeting] && message == "" && !isTyping && pending == 0
    {
      messages := [Greeting];
      message := "";
      isTyping := false;
      pending := 0;
    }

    /** The text field's change handler: the draft becomes `text`. */
    method SetMessage(text: string)
      requires Valid()
      modifies this
      ensures Valid()
      ensures message == text
      ensures messages == old(messages) && isTyping == old(isTyping) && pending == old(pending)
    {
      message := text;
    }

    /** The send button's rule: disabled while the assistant is typing or while
        the draft is blank, so an enabled button means a visible character to
        send. */
    function SendDisabled(): (disabled: bool)
      reads this
      ensures !disabled <==> !isTyping && exists i :: 0 <= i < |message| && !IsWhitespace(message[i])
    {
      IsBlank(message) || isTyping
    }

    /** `handleSend`, up to starting the timer: a blank draft changes nothing;
        otherwise the draft is appended as a user message with identifier `id`,
        the draft is cleared and the typing indicator is shown. */
    method HandleSend(id: string)
      requires Valid()
      modifies this
      ensures Valid()
      ensures IsBlank(old(message)) ==>
                messages == old(messages) && message == old(message)
                && isTyping == old(isTyping) && pending == old(pending)
      ensures !IsBlank(old(message)) ==>
                && messages == old(messages) + [Message(id, old(message), User)]
                && message == "" && isTyping && pending == old(pending) + 1
    {
      if IsBlank(message) {
        return;
      }
      SendKeepsConversation(messages, pending, id, message);
      messages := messages + [Message(id, message, User)];
      pending := pending + 1;
      message := "";
      isTyping := true;
    }

    /** A pending timer fires: the fixed reply is appended with identifier `id`
        and the typing indicator is hidden, even if other timers are pending. */
    method Deliver(id: string)
      requires Valid()
      requires pending > 0
      modifies this
      ensures Valid()
      ensures messages == old(messages) + [Message(id, ReplyText, Ai)]
      ensures !isTyping && pending == old(pending) - 1 && message == old(message)
    {
      DeliverKeepsConversation(messages, pending, id);
      messages := messages + [Message(id, ReplyText, Ai)];
      pending := pending - 1;
      isTyping := false;
    }

    /** `handleKeyPress`: Enter without Shift sends, whether or not the
        assistant is typing; every other key changes nothing. */
    method HandleKeyPress(key: string, shiftKey: bool, id: string)
      requires Valid()
      modifies this
      ensures Valid()
      ensures key == "Enter" && !shiftKey && !IsBlank(old(message)) ==>
                && messages == old(messages) + [Message(id, old(message), User)]
                && message == "" && isTyping && pending == old(pending) + 1
      ensures key != "Enter" || shiftKey || IsBlank(old(message)) ==>
                messages == old(messages) && message == old(message)
                && isTyping == old(isTyping) && pending == old(pending)
    {
      if key == "Enter" && !shiftKey {
        HandleSend(id);
      }
    }
  }
}
