/** The compact chat box: each send appends the user's message and clears the
    draft, and a timer later appends a fixed assistant reply. */
module ChatBox {
  import opened Text
  import opened Lists

  datatype Sender = User | Ai

  datatype Message = Message(text: string, sender: Sender)

  /** The text of every reply the timer appends. */
  const ReplyText := "I'm Atlas AI, your intelligent assistant. How can I help you today?"

  predicate IsUser(m: Message) { m.sender == User }

  predicate IsAi(m: Message) { m.sender == Ai }

  /** A message as the list can hold it: a user message is never blank and an
      assistant message is the fixed reply. */
  predicate WellFormed(m: Message) {
    && (m.sender == User ==> !IsBlank(m.text))
    && (m.sender == Ai ==> m.text == ReplyText)
  }

  /** The invariant of the message list: every user message is answered by one
      reply or still pending, no reply comes before the message it answers, and
      every message is well formed. */
  ghost predicate Conversation(ms: seq<Message>, pending: nat) {
    && Count(ms, IsUser) == Count(ms, IsAi) + pending
    && NeverAhead(ms, IsUser, IsAi)
    && All(ms, WellFormed)
  }

  /** The invariant over indices: no user message is blank, every assistant
      message is the fixed reply, and no prefix holds more replies than user
      messages. */
  lemma ConversationMeaning(ms: seq<Message>, pending: nat)
    requires Conversation(ms, pending)
    ensures forall i :: 0 <= i < |ms| && ms[i].sender == User ==> !IsBlank(ms[i].text)
    ensures forall i :: 0 <= i < |ms| && ms[i].sender == Ai ==> ms[i].text == ReplyText
    ensures forall k :: 0 <= k <= |ms| ==> Count(ms[..k], IsAi) <= Count(ms[..k], IsUser)
  {
    AllAtEveryIndex(ms, WellFormed);
    NeverAheadInEveryPrefix(ms, IsUser, IsAi);
  }

  /** Sending a visible draft keeps the conversation well formed, with one
      more reply pending. */
  lemma {:induction false} SendKeepsConversation(ms: seq<Message>, pending: nat, text: string)
    requires Conversation(ms, pending)
    requires !IsBlank(text)
    ensures Conversation(ms + [Message(text, User)], pending + 1)
  {
    var m := Message(text, User);
    CountAppend(ms, m, IsUser);
    CountAppend(ms, m, IsAi);
    NeverAheadAppend(ms, m, IsUser, IsAi);
    AllAppend(ms, m, WellFormed);
  }

  /** A timer firing keeps the conversation well formed, with one reply fewer
      pending. */
  lemma {:induction false} DeliverKeepsConversation(ms: seq<Message>, pending: nat)
    requires Conversation(ms, pending)
    requires pending > 0
    ensures Conversation(ms + [Message(ReplyText, Ai)], pending - 1)
  {
    var m := Message(ReplyText, Ai);
    CountAppend(ms, m, IsUser);
    CountAppend(ms, m, IsAi);
    NeverAheadAppend(ms, m, IsUser, IsAi);
    AllAppend(ms, m, WellFormed);
  }

  class ChatBoxView {
    var messages: seq<Message>
    /** The draft in the text field. */
    var input: string
    /** Timers started and not yet fired. */
    var pending: nat

    ghost predicate Valid()
      reads this
    {
      Conversation(messages, pending)
    }

    constructor ()
      ensures Valid()
      ensures messages == [] && input == "" && pending == 0
    {
      messages := [];
      input := "";
      pending := 0;
    }

    /** The text field's change handler: the draft becomes `text`. */
    method SetInput(text: string)
      requires Valid()
      modifies this
      ensures Valid()
      ensures input == text && messages == old(messages) && pending == old(pending)
    {
      input := text;
    }

    /** The send button's rule: disabled exactly while the draft is blank, so
        an enabled button means a visible character to send. */
    function SendDisabled(): (disabled: bool)
      reads this
      ensures !disabled <==> exists i :: 0 <= i < |input| && !IsWhitespace(input[i])
    {
      IsBlank(input)
    }

    /** `handleSend`, up to starting the timer: a blank draft changes nothing;
        otherwise the draft is appended as a user message and cleared. */
    method HandleSend()
      requires Valid()
      modifies this
      ensures Valid()
      ensures IsBlank(old(input)) ==>
                messages == old(messages) && input == old(input) && pending == old(pending)
      ensures !IsBlank(old(input)) ==>
                messages == old(messages) + [Message(old(input), User)]
                && input == "" && pending == old(pending) + 1
    {
      if IsBlank(input) {
        return;
      }
      SendKeepsConversation(messages, pending, input);
      messages := messages + [Message(input, User)];
      pending := pending + 1;
      input := "";
    }

    /** A pending timer fires: the fixed reply is appended. */
    method Deliver()
      requires Valid()
      requires pending > 0
      modifies this
      ensures Valid()
      ensures messages == old(messages) + [Message(ReplyText, Ai)]
      ensures pending == old(pending) - 1 && input == old(input)
    {
      DeliverKeepsConversation(messages, pending);
      messages := messages + [Message(ReplyText, Ai)];
      pending := pending - 1;
    }

    /** The key handler: Enter sends, with or without Shift; every other key
        changes nothing. */
    method HandleKeyPress(key: string, shiftKey: bool)
      requires Valid()
      modifies this
      ensures Valid()
      ensures key == "Enter" && !IsBlank(old(input)) ==>
                messages == old(messages) + [Message(old(input), User)]
                && input == "" && pending == old(pending) + 1
      ensures key != "Enter" || IsBlank(old(input)) ==>
                messages == old(messages) && input == old(input) && pending == old(pending)
    {
      if key == "Enter" {
        HandleSend();
      }
    }
  }
}
