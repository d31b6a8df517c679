# Atlas AI dashboard: settings form and chat panels

This project models the client-side state logic of the Atlas AI dashboard's
front end in Dafny, and proves what that logic guarantees.

- **The settings form** (`Settings.js`). It holds a record of model options:
  temperature, token limit, memory switch, API endpoint and memory retention.
  A validator gates saving: the token limit must lie in [100, 4000], the
  temperature in [0, 1], and the endpoint must start with `http`. The validator
  returns the message of the first rule broken. Saving is blocked on an error.
  Otherwise the record is sent once, and a snackbar reports the outcome.
- **Three chat panels** (`Chat.js`, `ChatInterface.tsx`, `ChatBox.tsx`). Each
  keeps a draft and an append-only message list. A send with a blank draft
  (empty once trimmed) changes nothing. Otherwise it appends the user's
  message, clears the draft and, where the panel has one, raises a busy flag.
  Each send later yields exactly one reply. That reply comes from the chat
  endpoint in `Chat.js` (an assistant answer, or a fixed apology on failure)
  and from a timer in the other two (a fixed text).

The model has one module per source file, plus two shared modules:

- `Text`: JavaScript's `trim` and `startsWith`.
- `Lists`: counting over message lists.

Each component's React state becomes a Dafny class whose fields are the state
variables. The handlers that change state become methods.

The settings form, `Settings.SettingsPanel`, adds one field the source keeps
implicitly: `posts`, the log of records sent to the settings endpoint, oldest
first. Saving is one step whose request outcome is a parameter.

Each of the three chat classes (`Chat.ChatPanel`, `ChatInterface.ChatCard`,
`ChatBox.ChatBoxView`) adds one field the source keeps implicitly: `pending`,
the number of requests or timers started whose reply has not arrived yet.
`Chat.ChatPanel` adds a second one, `requests`, the request bodies sent so far.
In these classes the asynchronous reply is a separate `Deliver` step. Its
outcome is a parameter, so every possible outcome is covered.

Every chat class keeps an invariant, `Valid()`, built on a `Conversation`
predicate over its message list:

- every user message is answered by exactly one reply or is still pending;
- in every prefix of the list, replies never outnumber user messages, so no
  reply comes before the message it answers;
- no user message is blank;
- every reply that is not a server answer is the component's fixed text;
- the busy flag is shown only while something is pending;
- in `Chat.js`, the request bodies sent are exactly the user messages' texts,
  in order;
- in `ChatInterface.tsx`, the greeting always stays first.

Each step appends exactly one message at the end of the list and leaves the
earlier messages as they were.

In `Chat.js` and `ChatInterface.tsx`, the Enter-key handler calls `handleSend`
without looking at the busy flag. Only the button is disabled while busy. So a
second message can be sent while a reply is still pending, and the first
reply then clears the flag while the second is outstanding. The model keeps
this behaviour, and `Chat.EnterWhileLoading` shows it. In `ChatBox.tsx`,
Shift+Enter also sends.

The endpoint's error message says it "must be a valid URL" (`Settings.js:68`),
but the code checks only that the text starts with `http` (`Settings.js:67`).
The model follows the code (`Settings.EndpointRuleIsPrefixOnly`).

## Model

| member | source | states |
|---|---|---|
| `Text.TrimCharacterisation` | frontend/src/components/Chat.js:29 | `trim` returns the piece of the input between its outer whitespace runs; the piece starts and ends with a visible character, and it is empty exactly when the input is all whitespace |
| `Text.Trim` | frontend/src/components/Chat.js:29 | `trim` never lengthens its input, and a non-empty result begins and ends with a visible character |
| `Text.IsBlank` | frontend/src/components/Chat.js:29 | the guard `!input.trim()` holds exactly when the draft has no visible character; the same guard is used at frontend/src/app/components/ChatInterface.tsx:47 and frontend/src/app/components/ChatBox.tsx:31, and by the three send-button rules |
| `Text.TrimIdempotent` | frontend/src/components/Chat.js:29 | a property of `trim` itself: trimming its own result changes nothing |
| `Text.StartsWith` | frontend/src/components/Settings.js:67 | `startsWith` holds exactly when the prefix equals the first characters of the string |
| `Settings.Validate` | frontend/src/components/Settings.js:60-71 | gives no message exactly when 100 ≤ maxTokens ≤ 4000, 0 ≤ temperature ≤ 1 and the endpoint starts with "http"; any message is one of the three fixed, non-empty texts |
| `Settings.ValidationPrecedence` | frontend/src/components/Settings.js:61-69 | a token-limit violation is reported whatever else is wrong; a temperature violation is reported before an endpoint violation |
| `Settings.BoundsAreInclusive` | frontend/src/components/Settings.js:61-64 | 100, 4000, 0 and 1 are accepted; 99, 4001, -0.1 and 1.1 are rejected with their range's message |
| `Settings.EndpointRuleIsPrefixOnly` | frontend/src/components/Settings.js:67-68 | any endpoint starting with "http" passes, even if it is not a URL; other schemes and the empty string fail |
| `Settings.DefaultsAreAcceptable` | frontend/src/components/Settings.js:19-25 | the initial settings record passes validation |
| `Settings.Put` | frontend/src/components/Settings.js:35 | the spread update stores the new value under the named field and keeps every other field |
| `Settings.FieldsDetermineRecord` | frontend/src/components/Settings.js:19-25 | two records whose fields all agree are equal, so `Put`'s contract fixes its result completely |
| `Settings.EventValue` | frontend/src/components/Settings.js:34 | a checkbox event yields its checked state; any other event yields its text |
| `Settings.SettingsPanel.constructor` | frontend/src/components/Settings.js:19-31 | the form starts with the default record, a closed empty "success" snackbar, and nothing sent |
| `Settings.SettingsPanel.HandleChange` | frontend/src/components/Settings.js:33-36 | only the named field changes, to the event's value; the snackbar and the requests are untouched |
| `Settings.SettingsPanel.HandleSliderChange` | frontend/src/components/Settings.js:38-40 | only the named field changes, to the slider's number |
| `Settings.SettingsPanel.HandleSave` | frontend/src/components/Settings.js:73-97 | an invalid record is not sent and its message is shown as an error; a valid record is sent exactly once, then "Settings saved successfully"/success or "Error saving settings"/error; the settings never change |
| `Settings.SettingsPanel.HandleCloseSnackbar` | frontend/src/components/Settings.js:99-101 | the snackbar closes and keeps its message and severity |
| `Settings.TooFewTokensAreNotSaved` | frontend/src/components/Settings.js:73-82 | setting the token limit to 50 and saving sends nothing and shows the token-limit error |
| `Chat.ReplyFor` | frontend/src/components/Chat.js:36-46 | a successful request yields an assistant message holding the response; a failed one yields an error message holding the fixed apology |
| `Chat.UserContents` | frontend/src/components/Chat.js:31-37 | lists the user messages' texts in order, one per user message |
| `Chat.UserContentsInOrder` | frontend/src/components/Chat.js:31-37 | the text of each user message is the entry numbered by how many user messages precede it, so the list holds the user texts in the order the messages appear |
| `Chat.ConversationMeaning` | frontend/src/components/Chat.js:29-46 | under the invariant, one request body was sent per user message and the j-th body is the text of the j-th user message, no user message is blank, every error message is the fixed apology, and no prefix of the list holds more replies than user messages |
| `Chat.SendKeepsConversation` | frontend/src/components/Chat.js:29-37 | appending a non-blank user message, with one more request pending and its text sent, keeps the conversation invariant |
| `Chat.DeliverKeepsConversation` | frontend/src/components/Chat.js:36-49 | appending the reply of a pending request, with one fewer pending, keeps the conversation invariant |
| `Chat.ChatPanel.constructor` | frontend/src/components/Chat.js:15-17 | the panel starts with no messages, an empty draft, not loading, nothing sent |
| `Chat.ChatPanel.SetInput` | frontend/src/components/Chat.js:123 | typing changes only the draft |
| `Chat.ChatPanel.SendDisabled` | frontend/src/components/Chat.js:131 | the send button is enabled exactly when not loading and the draft has a visible character |
| `Chat.ChatPanel.HandleSend` | frontend/src/components/Chat.js:28-34 | a blank draft changes nothing; otherwise exactly one user message with the draft's text is appended, the same text is sent, the draft is cleared and loading is set |
| `Chat.ChatPanel.Deliver` | frontend/src/components/Chat.js:36-49 | exactly one reply (answer or apology) is appended after the earlier messages, and loading is cleared |
| `Chat.ChatPanel.HandleKeyPress` | frontend/src/components/Chat.js:52-57 | Enter without Shift sends even while loading; any other key changes nothing |
| `Chat.EnterWhileLoading` | frontend/src/components/Chat.js:52-57 | two messages sent with Enter before the first reply leave two requests pending; the first reply clears loading while one is still pending |
| `ChatInterface.ConversationMeaning` | frontend/src/app/components/ChatInterface.tsx:46-70 | under the invariant, after the greeting no user message is blank, every assistant message is the fixed reply, and no prefix holds more replies than user messages |
| `ChatInterface.AppendAfterGreeting` | frontend/src/app/components/ChatInterface.tsx:56-68 | appending keeps the greeting first and extends the part after it by exactly the new message |
| `ChatInterface.SendKeepsConversation` | frontend/src/app/components/ChatInterface.tsx:47-58 | appending a non-blank user message, with one more reply pending, keeps the conversation invariant |
| `ChatInterface.DeliverKeepsConversation` | frontend/src/app/components/ChatInterface.tsx:61-70 | appending the fixed reply for a pending timer keeps the conversation invariant |
| `ChatInterface.ChatCard.constructor` | frontend/src/app/components/ChatInterface.tsx:27-36 | the card starts with exactly the assistant's greeting, an empty draft and no typing indicator |
| `ChatInterface.ChatCard.SetMessage` | frontend/src/app/components/ChatInterface.tsx:180 | typing changes only the draft |
| `ChatInterface.ChatCard.SendDisabled` | frontend/src/app/components/ChatInterface.tsx:192 | the send button is enabled exactly when the assistant is not typing and the draft has a visible character |
| `ChatInterface.ChatCard.HandleSend` | frontend/src/app/components/ChatInterface.tsx:46-58 | a blank draft changes nothing; otherwise exactly one user message with the draft's text is appended, the draft is cleared and the typing indicator is shown |
| `ChatInterface.ChatCard.Deliver` | frontend/src/app/components/ChatInterface.tsx:61-70 | exactly one assistant message with the fixed reply is appended, and the typing indicator is hidden |
| `ChatInterface.ChatCard.HandleKeyPress` | frontend/src/app/components/ChatInterface.tsx:73-78 | Enter without Shift sends even while typing; Shift+Enter and other keys change nothing |
| `ChatBox.ConversationMeaning` | frontend/src/app/components/ChatBox.tsx:30-50 | under the invariant, no user message is blank, every assistant message is the fixed reply, and no prefix holds more replies than user messages |
| `ChatBox.SendKeepsConversation` | frontend/src/app/components/ChatBox.tsx:30-40 | appending a non-blank user message, with one more reply pending, keeps the conversation invariant |
| `ChatBox.DeliverKeepsConversation` | frontend/src/app/components/ChatBox.tsx:43-50 | appending the fixed reply for a pending timer keeps the conversation invariant |
| `ChatBox.ChatBoxView.constructor` | frontend/src/app/components/ChatBox.tsx:27-28 | the box starts with no messages and an empty draft |
| `ChatBox.ChatBoxView.SetInput` | frontend/src/app/components/ChatBox.tsx:121 | typing changes only the draft |
| `ChatBox.ChatBoxView.SendDisabled` | frontend/src/app/components/ChatBox.tsx:128 | the send button is enabled exactly when the draft has a visible character |
| `ChatBox.ChatBoxView.HandleSend` | frontend/src/app/components/ChatBox.tsx:30-41 | a blank draft changes nothing; otherwise exactly one user message with the draft's text is appended and the draft is cleared |
| `ChatBox.ChatBoxView.Deliver` | frontend/src/app/components/ChatBox.tsx:43-50 | exactly one assistant message with the fixed greeting text is appended after the earlier messages |
| `ChatBox.ChatBoxView.HandleKeyPress` | frontend/src/app/components/ChatBox.tsx:122 | Enter sends, with or without Shift; other keys change nothing |

## Left out

- Loading the settings on mount (`Settings.js:42-58`) and the loading spinner are left out. They are a network request run from an effect hook, and that hook is never imported in the file. Neither is the spinner component (`Settings.js:110`; the imports are at lines 1-14), so the component as written cannot render. The settings model describes the handlers as they would behave once those imports are in place.
- `Settings.SettingsPanel.HandleSave` is one atomic step. Edits made or a snackbar closed while the request is in flight are not modelled.
- Numbers are Dafny reals. JavaScript's NaN, infinities and floating-point rounding are not modelled. The sliders' step sizes and ranges are not enforced on the stored values.
- `Settings.SettingsPanel.HandleChange` requires the event's value to fit the field's kind. Every handler in the form is bound to a control of the matching kind; storing a value of the wrong kind is not modelled.
- `Chat.ReplyFor`: the server's answer is taken to be a string. An answer without a `response` field is not modelled.
- Requests and timers are not ordered. `Deliver` does not say which pending request it completes, and latency is not modelled. Completions after the component unmounts are not modelled either.
- Each handler is taken to see the latest state. React's batching and stale closures are not modelled.
- Message identifiers in `ChatInterface.tsx` come from the clock. They are passed in as opaque strings, and no claim is made that they are unique. Timestamps are dropped.
- The whitespace set of `trim` is fixed to the current Unicode space separators and ECMAScript line terminators. Dafny strings are sequences of Unicode code points, while JavaScript strings are UTF-16 code units. `trim` agrees on every string both can hold, because all of its whitespace lies in the Basic Multilingual Plane. A lone surrogate cannot be represented.
- Scrolling into view, `preventDefault`, console logging, rendering, layout and theming are not modelled.
- The threaded reply store (reply insertion by parent id, expansion toggling) does not appear in the modelled components. It is not part of this model.
- The Python back end, its tests and the statistics animation are not part of this model.
