# my-ai-circle: chat page and chat API route, modelled in Dafny

The repository is a small Next.js chat client. The page shows a pulsing circle above a chat
box. The API route forwards a conversation to a hosted language model with a persona prompt.
This project models the two pieces of logic in those files.

- **The page's send cycle** (`pages/index.js`). The `Home` component keeps three pieces of
  state: `messages`, `input` and `isTyping`. `handleSend` ignores an input whose `trim()` is
  empty. Otherwise it appends the untrimmed input as a `'user'` message, clears the input,
  switches the typing indicator on and schedules a 1500 ms timer. When the timer fires, it
  appends a canned `'ai'` reply to the messages as they are at that moment and switches the
  indicator off.
  - `Page.Home` is a class with those three fields and a ghost count of scheduled timers.
    Its methods are `Edit` (the input's `onChange`), `HandleSend` and `ReplyArrives` (one
    timer firing).
  - Each method is tied to a pure step function on a `View` value: `Typed`, `Sent` or
    `Replied`. `Run` folds a sequence of events over those steps.
  - The lemmas about `Run` state what holds on every page the user and the timers can produce.
- **The API route** (`pages/api/chat.js`). It is modelled as pure functions:
  - `Handle`: the method guard;
  - `UserName`: the name the prompt addresses;
  - `Outgoing`: the list sent upstream;
  - `Settle`: the status and body for each way the provider call can end.

  The HTTP call is a parameter of `Handle`: a function from the outgoing list to an
  abstract `Upstream` outcome. That outcome is one of:
  - `Threw`: `fetch` rejected;
  - `Answered(ok, body)`: a response arrived with its `ok` flag. Its body is `None` when it
    is not JSON.
- **JavaScript semantics these depend on**:
  - `JsString`: `String.prototype.trim`, with the exact ECMAScript WhiteSpace and
    LineTerminator set, and string truthiness;
  - `JsonValue`: parsed JSON values, property reads and truthiness.

Two things about the code are worth stating up front:

- `handleSend` has no pending-reply guard. A send while `isTyping` is true is accepted
  and schedules a second reply. `Page.SendIgnoresTyping` and `Page.SecondSendWhileTyping`
  state this. Because each timer clears `isTyping` unconditionally, the first of two pending
  replies switches the indicator off while the second is still scheduled
  (`Page.ReplyClearsTypingWhileAnotherPending`). The consistency invariant therefore only
  says "typing implies a reply is scheduled", not the converse.
- The page never calls the API route: its reply is a fixed string. The two files are
  modelled side by side, and they share only the message type.

## Model

| member | source | states |
|---|---|---|
| `JsString.TrimStartSpec` | pages/index.js:9 | the start-trimmed string is a suffix of the input, everything dropped is whitespace, and it does not start with whitespace |
| `JsString.TrimEndSpec` | pages/index.js:9 | the end-trimmed string is a prefix of the input, everything dropped is whitespace, and it does not end with whitespace |
| `JsString.TrimIsSlice` | pages/index.js:9 | `Trim` (`input.trim()`) returns the contiguous slice of the input that starts after its leading whitespace |
| `JsString.TrimCutsOnlyWhitespace` | pages/index.js:9 | everything `trim()` removes on either side is whitespace, and a non-empty result neither starts nor ends with whitespace |
| `JsString.TrimEmptyIffBlank` | pages/index.js:9 | `input.trim()` is empty exactly when every character of the input is whitespace |
| `Page.SendAcceptedIffNotBlank` | pages/index.js:9-13 | `Sent` (`handleSend` as a step): a send is accepted exactly when the input has a non-whitespace character; a rejected send leaves the whole state unchanged and an accepted one changes it |
| `Page.SendIgnoresTyping` | pages/index.js:8-13 | acceptance depends on the input alone, not on `isTyping`, the messages or pending replies; every accepted send schedules one more reply |
| `Page.SecondSendWhileTyping` | pages/index.js:8-19 | `Run` of "type, send, type, send" from the initial page: two non-blank sends before any reply both append their user messages in order, leave the indicator on and schedule two replies |
| `Page.ReplyClearsTypingWhileAnotherPending` | pages/index.js:13-18 | with a reply already scheduled, an accepted send followed by one reply appends the user message then the canned reply, and leaves `isTyping` false although a reply is still scheduled |
| `Page.InitialConsistent` | pages/index.js:4-6 | the initial state (no messages, empty input, not typing, nothing scheduled) satisfies the page invariant |
| `Page.TypedKeepsConsistent` | pages/index.js:67 | `Typed` (the input's `onChange`) keeps the page invariant |
| `Page.SentKeepsConsistent` | pages/index.js:9-15 | a send keeps the invariant: user messages are never blank, asked = answered + scheduled, typing implies a scheduled reply |
| `Page.RepliedKeepsConsistent` | pages/index.js:15-18 | `Replied` (a timer callback running) keeps the invariant: it answers one scheduled send with the canned `'ai'` message |
| `Page.StepKeepsConsistent` | pages/index.js:8-19 | `Step`: every event (edit, send, timer) keeps the page invariant |
| `Page.RunKeepsConsistent` | pages/index.js:8-19 | `Run`: the invariant holds after any sequence of events from a consistent page |
| `Page.RunOnlyAppends` | pages/index.js:11-17 | over any sequence of events the old messages stay a prefix of the new ones, so none is removed or reordered, including those appended after the send whose reply fires; the list grows by exactly the user and `'ai'` messages added |
| `Page.Home.constructor` | pages/index.js:4-6 | the component starts with no messages, an empty input, the indicator off and no timers, and satisfies the invariant |
| `Page.Home.Edit` | pages/index.js:67 | the input takes the typed value; messages, indicator and timers are unchanged |
| `Page.Home.HandleSend` | pages/index.js:8-15 | a blank input changes nothing; otherwise messages become the old ones plus `{role:'user', content:input}` with the untrimmed input, the input is `''`, `isTyping` is true and one reply is scheduled; the invariant is kept |
| `Page.Home.ReplyArrives` | pages/index.js:15-18 | messages become the current ones plus the canned `'ai'` reply, the input is untouched, `isTyping` is false and one scheduled reply is used up; the invariant is kept |
| `ChatApi.FindUser` | pages/api/chat.js:12 | `find` returns nothing exactly when no message has role `'user'`, and otherwise the first message that has it |
| `ChatApi.FirstUserUnique` | pages/api/chat.js:12 | at most one index is the first user message |
| `ChatApi.UserNameChoice` | pages/api/chat.js:9-19 | `UserName`: the name is `'Даниил'` exactly when the first `'user'` message exists and has non-empty content, and `'друг'` otherwise, the empty list included |
| `ChatApi.SystemMessageNamesUser` | pages/api/chat.js:22-35 | the system prompt contains the chosen name, spliced in right after the persona's opening text |
| `ChatApi.Translate` | pages/api/chat.js:38-41 | `messages.map(...)` with `RoleFor`: the mapped list has the input's length, and each element keeps its content and gets `'assistant'` for `'ai'` and `'user'` for any other role |
| `ChatApi.OutgoingShape` | pages/api/chat.js:22-41 | `Outgoing`: the outgoing list is one longer than the input, element 0 is the system message, and element i+1 keeps the content of input i and is `'assistant'` exactly when input i was `'ai'` |
| `ChatApi.OutgoingRoles` | pages/api/chat.js:38-41 | element 0 has role `'system'` and every later element has role `'assistant'` or `'user'` |
| `ChatApi.TranslateInjective` | pages/api/chat.js:38-41 | on transcripts with only `'user'` and `'ai'` roles the mapping loses nothing: equal outgoing lists come from equal transcripts |
| `ChatApi.OnlyPostReachesProvider` | pages/api/chat.js:1-69 | `Handle`: status 405 exactly for a method other than `'POST'`, always with error `'Only POST allowed'` and without consulting the provider; a POST is answered with `Settle` of the provider's outcome on `Outgoing(Heso, messages)`, the list built with the route's persona |
| `ChatApi.SettleSucceedsIffOk` | pages/api/chat.js:58-65 | `Settle`: the status is 200 or 500, and 200 exactly for an ok response with a JSON body, which is returned unchanged |
| `ChatApi.SettleFailureBody` | pages/api/chat.js:58-69 | `Settle`, with `JsonValue.Property` for `data.message` and `JsonValue.Truthy` for the fallback to the fixed text (line 62): every 500 body is `{error}` with a truthy error: for a failed response with a JSON object body, its `message` when truthy, else the fixed failure text; the fixed failure text for an array, string, number or boolean body; the fixed unavailable text for a thrown call, a non-JSON body or a `null` body |

## Left out

- Rendering, styles and the animated circle (pages/index.js:22-94): presentation only.
  Only the input's `onChange` (line 67) is modelled, as `Page.Home.Edit`, because it is how
  `input` changes.
- Timing and React scheduling. The 1500 ms delay is an explicit step, `ReplyArrives`,
  enabled while a ghost count of scheduled timers is positive. Each event is assumed to see
  the state left by the previous one, as after React re-renders between discrete events.
  `handleSend` appends to the `messages` of the render it was created in
  (`setMessages([...messages, userMsg])`), so two cases where that value is stale are not
  modelled:
  - two sends within one render: the second overwrites the first user message;
  - a send handled after a reply's timer fired but before React re-rendered: its update is
    queued after the timer's `prev =>` update and overwrites it, so the `'ai'` reply is lost.

  `Page.RunOnlyAppends` and the invariant hold under the one-render-per-event assumption
  only.
- The request to the provider (pages/api/chat.js:44-58): the URL, headers, the API key
  from the environment, the model name and JSON serialisation. This is network I/O, replaced
  by the `Upstream` outcome. `response.ok` is a boolean; the status range behind it is not
  modelled.
- `console.error` logging (pages/api/chat.js:61, 67).
- Malformed requests. `req.body.messages` is taken to be a list of messages whose role
  and content are strings. A missing body or a non-array would throw outside the `try` block,
  and that is not modelled. Neither is content of another type, whose truthiness would
  differ from a string's.
- JSON details: numbers are reals, and object key order is not kept. Reading `message` from
  an array, string, number or boolean gives `undefined`, as for the standard prototypes.
  `JsonValue.Property` and `JsonValue.Truthy` are definitions of JavaScript's property read
  and truthiness, written case by case; they carry no contract of their own, and what they
  give at pages/api/chat.js:62 is stated by `ChatApi.SettleFailureBody`.
- The wording of the persona prompt is kept verbatim in `ChatApi.Heso`, as the text before
  and the text after the name. The functions that build the outgoing list take the persona
  as a parameter, and their lemmas hold for any persona text. Only `Handle` uses `Heso`.
- Strings are sequences of Unicode scalar values, whereas JavaScript strings are sequences
  of UTF-16 code units, so a lone surrogate cannot be represented. `trim`, truthiness and
  equality do not depend on the difference for the strings that can be represented.
- A conversation store, persistence, conversation ids, title truncation and clear-all:
  neither pages/index.js nor pages/api/chat.js has any of them, so none is modelled.
