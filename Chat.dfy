/** The chat screen that talks to the chat endpoint: a typed draft, a list of
    user, assistant and error messages, and a loading flag. Each send appends the
    user's message and starts one request; each completed request appends one
    message of its own, the assistant's answer or a fixed apology. */
module Chat {
  import opened Text
  import opened Lists

  datatype Kind = User | Ai | Error

  datatype Message = Message(kind: Kind, content: string)

  /** The text shown when a request fails. */
  const ErrorText := "Sorry, there was an error processing your request."

  /** How a request to the chat endpoint ends: with the endpoint's answer, or
      with a failure of any kind. */
  datatype Outcome = Replied(response: string) | Failed

  predicate IsUser(m: Message) { m.kind == User }

  /** A message that answers a request: the assistant's or an error. */
  predicate IsReply(m: Message) { m.kind != User }

  /** The message a completed request appends. */
  function ReplyFor(outcome: Outcome): (m: Message)
    ensures IsReply(m)
    ensures m.kind == Ai <==> outcome.Replied?
    ensures outcome.Replied? ==> m.content == outcome.response
    ensures outcome.Failed? ==> m == Message(Error, ErrorText)
  {
    match outcome
    case Replied(response) => Message(Ai, response)
    case Failed => Message(Error, ErrorText)
  }

  /** The contents of the user's messages, in order. */
  function UserContents(ms: seq<Message>): (r: seq<string>)
    ensures |r| == Count(ms, IsUser)
  {
    if ms == [] then []
    else UserContents(ms[..|ms| - 1]) + (if IsUser(ms[|ms| - 1]) then [ms[|ms| - 1].content] else [])
  }

  lemma UserContentsAppend(ms: seq<Message>, m: Message)
    ensures UserContents(ms + [m]) == UserContents(ms) + (if IsUser(m) then [m.content] else [])
  {
    assert (ms + [m])[..|ms|] == ms;
  }

  /** The text of the user message at index `i` is the entry of `UserContents`
      numbered by how many user messages precede it: the list holds the user
      texts in the order the messages appear. */
  lemma {:induction false} UserContentsInOrder(ms: seq<Message>)
    ensures forall i :: 0 <= i < |ms| && IsUser(ms[i]) ==>
              Count(ms[..i], IsUser) < |UserContents(ms)|
              && UserContents(ms)[Count(ms[..i], IsUser)] == ms[i].content
  {
    if ms != [] {
      var init := ms[..|ms| - 1];
      UserContentsInOrder(init);
      assert ms[..|ms| - 1] == init;
      assert forall i :: 0 <= i < |init| ==> ms[..i] == init[..i] && ms[i] == init[i];
    }
  }

  /** A message as the panel can hold it: a user message is never blank and an
      error message is always the fixed apology. */
  predicate WellFormed(m: Message) {
    && (m.kind == User ==> !IsBlank(m.content))
    && (m.kind == Error ==> m.content == ErrorText)
  }

  /** The invariant of the message list, given the number of pending requests
      and the texts sent so far: every request carries the text of one user
      message, in order; every user message is answered by one reply or still
      pending, and no reply comes before the message it answers; every message
      is well formed. */
  ghost predicate Conversation(ms: seq<Message>, pending: nat, requests: seq<string>) {
    && requests == UserContents(ms)
    && Count(ms, IsUser) == Count(ms, IsReply) + pending
    && NeverAhead(ms, IsUser, IsReply)
    && All(ms, WellFormed)
  }

  /** What `Conversation` says, index by index. */
  lemma ConversationMeaning(ms: seq<Message>, pending: nat, requests: seq<string>)
    requires Conversation(ms, pending, requests)
    ensures |requests| == Count(ms, IsUser)
    ensures forall i :: 0 <= i < |ms| && IsUser(ms[i]) ==>
              Count(ms[..i], IsUser) < |requests| && requests[Count(ms[..i], IsUser)] == ms[i].content
    ensures forall i :: 0 <= i < |ms| && ms[i].kind == User ==> !IsBlank(ms[i].content)
    ensures forall i :: 0 <= i < |ms| && ms[i].kind == Error ==> ms[i].content == ErrorText
    ensures forall k :: 0 <= k <= |ms| ==> Count(ms[..k], IsReply) <= Count(ms[..k], IsUser)
  {
    AllAtEveryIndex(ms, WellFormed);
    NeverAheadInEveryPrefix(ms, IsUser, IsReply);
    UserContentsInOrder(ms);
  }

  /** Sending a visible draft keeps the conversation well formed, with one
      more request pending. */
  lemma {:induction false} SendKeepsConversation(ms: seq<Message>, pending: nat, requests: seq<string>, text: string)
    requires Conversation(ms, pending, requests)
    requires !IsBlank(text)
    ensures Conversation(ms + [Message(User, text)], pending + 1, requests + [text])
  {
    var m := Message(User, text);
    CountAppend(ms, m, IsUser);
    CountAppend(ms, m, IsReply);
    NeverAheadAppend(ms, m, IsUser, IsReply);
    UserContentsAppend(ms, m);
    AllAppend(ms, m, WellFormed);
  }

  /** Completing a pending request keeps the conversation well formed, with
      one request fewer pending. */
  lemma {:induction false} DeliverKeepsConversation(ms: seq<Message>, pending: nat, requests: seq<string>, outcome: Outcome)
    requires Conversation(ms, pending, requests)
    requires pending > 0
    ensures Conversation(ms + [ReplyFor(outcome)], pending - 1, requests)
  {
    var m := ReplyFor(outcome);
    CountAppend(ms, m, IsUser);
    CountAppend(ms, m, IsReply);
    NeverAheadAppend(ms, m, IsUser, IsReply);
    UserContentsAppend(ms, m);
    AllAppend(ms, m, WellFormed);
  }

  class ChatPanel {
    var messages: seq<Message>
    /** The draft in the text field. */
    var input: string
    var isLoading: bool
    /** Requests sent and not yet completed. */
    var pending: nat
    /** The texts sent to the chat endpoint, oldest first. */
    var requests: seq<string>

    /** Every request carries the text of the user message it was sent for;
        every user message is answered by one reply or still pending, and no
        reply comes before the message it answers; the spinner shows only while
        a request is pending; a user message is never blank; an error message
        is always the fixed apology. */
    ghost predicate Valid()
      reads this
    {
      Conversation(messages, pending, requests) && (isLoading ==> pending > 0)
    }

    constructor ()
      ensures Valid()
      ensures messages == [] && input == "" && !isLoading && pending == 0 && requests == []
    {
      messages := [];
      input := "";
      isLoading := false;
      pending := 0;
      requests := [];
    }

    /** The text field's change handler: the draft becomes `text`. */
    method SetInput(text: string)
      requires Valid()
      modifies this
      ensures Valid()
      ensures input == text
      ensures messages == old(messages) && isLoading == old(isLoading)
      ensures pending == old(pending) && requests == old(requests)
    {
      input := text;
    }

    /** The send button's rule: disabled while loading or while the draft is
        blank, so an enabled button means a visible character to send. */
    function SendDisabled(): (disabled: bool)
      reads this
      ensures !disabled <==> !isLoading && exists i :: 0 <= i < |input| && !IsWhitespace(input[i])
    {
      IsBlank(input) || isLoading
    }

    /** `handleSend`: a blank draft changes nothing; otherwise the draft is
        appended as a user message, sent as a request, and cleared, and the
        spinner is shown. The loading flag does not stop a send. */
    method HandleSend()
      requires Valid()
      modifies this
      ensures Valid()
      ensures IsBlank(old(input)) ==>
                && messages == old(messages) && input == old(input) && isLoading == old(isLoading)
                && pending == old(pending) && requests == old(requests)
      ensures !IsBlank(old(input)) ==>
                && messages == old(messages) + [Message(User, old(input))]
                && input == "" && isLoading
                && pending == old(pending) + 1 && requests == old(requests) + [old(input)]
    {
      if IsBlank(input) {
        return;
      }
      var text := input;
      SendKeepsConversation(messages, pending, requests, text);
      messages, requests, pending := messages + [Message(User, text)], requests + [text], pending + 1;
      input, isLoading := "", true;
    }

    /** One pending request completes: its answer, or the apology when it
        failed, is appended, and the spinner is hidden even if other requests
        are still pending. */
    method Deliver(outcome: Outcome)
      requires Valid()
      requires pending > 0
      modifies this
      ensures Valid()
      ensures messages == old(messages) + [ReplyFor(outcome)]
      ensures !isLoading && pending == old(pending) - 1
      ensures input == old(input) && requests == old(requests)
    {
      DeliverKeepsConversation(messages, pending, requests, outcome);
      messages := messages + [ReplyFor(outcome)];
      pending := pending - 1;
      isLoading := false;
    }

    /** `handleKeyPress`: Enter without Shift sends, whether or not a request
        is pending; every other key changes nothing. */
    method HandleKeyPress(key: string, shiftKey: bool)
      requires Valid()
      modifies this
      ensures Valid()
      ensures key == "Enter" && !shiftKey && !IsBlank(old(input)) ==>
                && messages == old(messages) + [Message(User, old(input))]
                && input == "" && isLoading
                && pending == old(pending) + 1 && requests == old(requests) + [old(input)]
      ensures key != "Enter" || shiftKey || IsBlank(old(input)) ==>
                && messages == old(messages) && input == old(input) && isLoading == old(isLoading)
                && pending == old(pending) && requests == old(requests)
    {
      if key == "Enter" && !shiftKey {
        HandleSend();
      }
    }
  }

  /** Two drafts sent with Enter before the first answer arrives leave two
      requests pending; once the first completes the spinner is hidden while
      the second is still outstanding. */
  method EnterWhileLoading(first: string, second: string, outcome: Outcome) returns (c: ChatPanel)
    requires !IsBlank(first) && !IsBlank(second)
    ensures c.messages == [Message(User, first), Message(User, second), ReplyFor(outcome)]
    ensures c.requests == [first, second]
    ensures c.pending == 1 && !c.isLoading
  {
    c := SendFirst(first);
    c.SetInput(second);
    c.HandleKeyPress("Enter", false);
    c.Deliver(outcome);
  }

  /** A new panel after `first` is typed and sent with Enter. */
  method SendFirst(first: string) returns (c: ChatPanel)
    requires !IsBlank(first)
    ensures fresh(c) && c.Valid()
    ensures c.messages == [Message(User, first)] && c.requests == [first]
    ensures c.pending == 1 && c.isLoading
  {
    c := new ChatPanel();
    c.SetInput(first);
    c.HandleKeyPress("Enter", false);
  }
}
