# Local chat client: session state model

This project models the session logic of a single-page chat client for a
locally running Ollama server. The client keeps a list of conversations,
each with its own model and message history, and a current conversation.
It sends the user's prompt to the generation endpoint, appends the reply,
and asks the same endpoint for a short title after the first message of a
conversation.

All of that logic sits in the `setState` updates of the application
component (`src/App.tsx`), over the record shapes of `src/types.ts`. The
model separates it into layers:

- `Types` (types.dfy) holds the records `Message`, `Conversation`,
  `ChatState`, `Model` and `OllamaResponse`. A message's `Role` is a
  datatype with exactly three values: `User`, `Assistant` and `System`.
- `Config` (config.dfy) holds the default model, `"mistral"`.
- `Text` (text.dfy) does the title clean-up. It is JavaScript's `trim`
  followed by removing every `"` and `'`.
- `ChatStore` (store.dfy) holds each state update as a total function on
  `ChatState`: the mount effect, new chat, select, model change, title
  arrival, and the two halves of `handleSend`. Each HTTP request's result
  is passed in as a `FetchOutcome`. It is either a `Response(status, body)`
  or a `Rejected` value: an `Error` with its name and message, or a thrown
  value that is not an `Error`.
- `Events` (events.dfy) is a reducer. It applies user actions and request
  resolutions as discrete events, in the order they happen, and proves
  properties of whole event sequences.
- `Session` (session.dfy) is the component as an object, the class
  `ChatSession`. It holds the `state` cell, the abort controller reference
  and the requests still in flight. `handleSend` is split into `Send` (the
  synchronous part) and `Resolve` (the request settling later).

The model keeps these behaviours of the code:

- A successful reply goes to the conversation that is current when the
  reply arrives, not the one it was sent from (`ReplyFollowsSelection`).
- Selecting a conversation does not check that the id exists.
- Nothing compares request tokens. When an aborted earlier request settles,
  it still sets `isLoading` to false and stores "Request cancelled", even
  while a newer request is in flight. The newer request's success then
  leaves that error in place (`StaleAbortOverwritesNewerSend`), so a
  superseded request's resolution is not ignored. In the running UI this
  path may be hard to reach, because the application passes
  `disabled={state.isLoading}` to the input (src/App.tsx:247).
- Nothing keeps the current id pointing at an existing conversation.
- The mount effect tests the conversation list of the first render, which
  is always empty, and then replaces the list of the state it updates. Run
  twice, as development builds run effects, it leaves only the second
  conversation (`MountEffectTwice`).
- Both the emptiness checks and the lookups follow JavaScript: an id of
  `""` counts as no current conversation, and a lookup finds the first
  conversation with a given id. Updates apply to every conversation with
  that id, so a millisecond id collision makes two conversations share
  updates.

Ids and timestamps come from `Date.now()` in the source. Here they are
parameters of the events and methods.

## Model

| member | source | states |
|---|---|---|
| Text.IsWhitespace | src/App.tsx:89 | no contract of its own; characterised by `Text.Trim`: exactly the ECMAScript WhiteSpace and LineTerminator code points that `trim()` removes |
| Text.LeadingWhitespace | src/App.tsx:89 | the length of the longest leading run of whitespace (ECMAScript WhiteSpace and LineTerminator): everything before it is whitespace, the character at it is not |
| Text.TrailingStart | src/App.tsx:89 | where the longest trailing run of whitespace starts: everything from it on is whitespace, the character just before it is not |
| Text.Trim | src/App.tsx:89 | `trim()`: the result is the slice between a maximal whitespace prefix and a maximal whitespace suffix, and neither starts nor ends with whitespace |
| Text.TrimIdempotent | src/App.tsx:89 | trimming a trimmed text changes nothing |
| Text.RemoveQuotes | src/App.tsx:89 | `replace(/["']/g, '')`: the result has no quote characters, is no longer than the input, and equals the input when it had none |
| Text.RemoveQuotesDistributes | src/App.tsx:89 | quote removal distributes over concatenation, so it acts character by character and keeps order |
| Text.RemoveQuotesCounts | src/App.tsx:89 | every non-quote character survives exactly as often as it occurred; no quote survives |
| Text.SanitizeTitle | src/App.tsx:89 | the stored title contains neither `"` nor `'` and is no longer than the generated text |
| Text.SanitizeKeepsCleanTitle | src/App.tsx:89 | a generated title that is already trimmed and quote-free is stored unchanged |
| Text.SanitizeExposesInnerSpace | src/App.tsx:89 | because quotes are removed after trimming, `"\" Hi\""` is stored as `" Hi"`, with a leading space |
| Text.SanitizeNotIdempotent | src/App.tsx:89 | cleaning a stored title again can change it (`" Hi"` becomes `"Hi"`) |
| ChatStore.IndexOf | src/App.tsx:34 | the position found holds the id and no earlier position does; none is found iff the id is absent |
| ChatStore.IndexOfUnique | src/App.tsx:34 | any position that holds the id with no earlier occurrence is the one `find` returns |
| ChatStore.Find | src/App.tsx:34 | `find` returns a conversation of the list carrying the id, and returns nothing iff no conversation carries it |
| ChatStore.FindReturnsFirst | src/App.tsx:34 | the conversation `find` returns sits at a position with no earlier conversation carrying the id: it is the first match |
| ChatStore.CurrentConversation | src/App.tsx:33-35 | there is a current conversation iff the current id is truthy and some conversation carries it, and then it is one of the list with that id |
| ChatStore.CurrentIsFirst | src/App.tsx:33-35 | the current conversation is the first conversation of the list carrying the current id |
| ChatStore.Truthy | src/App.tsx:33 | no contract of its own; characterised by `CurrentConversation` and `ChangeModelFrame`: an id is truthy iff it is present and not `""` |
| ChatStore.IsOk | src/App.tsx:152 | no contract of its own; characterised by `ErrorMapping` and `FinishSendSuccess`: `response.ok`, a status from 200 to 299 |
| ChatStore.CreateNewConversation | src/App.tsx:17-26 | no contract of its own; characterised by `StartupFromEmpty`: titled "New Chat", on model "mistral", with no messages, its id and timestamps from the clock |
| ChatStore.Patched | src/App.tsx:66-72 | the `map` over the list patches exactly the conversations whose id equals the key, position by position, and keeps the id list, so every id's first match stays where it was |
| ChatStore.MountEffect | src/App.tsx:37-47 | no contract of its own; characterised by `MountEffectReplaces`, `MountEffectTwice` and `StartupFromEmpty` |
| ChatStore.NewChat | src/App.tsx:53-60 | no contract of its own; characterised by `NewChatAppendsAndSelects` and `Events.StepGrows` |
| ChatStore.SelectConversation | src/App.tsx:200 | no contract of its own; characterised by `SelectMovesOnlyCurrent` and `ReplyFollowsSelection` |
| ChatStore.ChangeModel | src/App.tsx:62-73 | no contract of its own; characterised by `ChangeModelFrame` |
| ChatStore.ApplyTitle | src/App.tsx:91-98 | no contract of its own; characterised by `ApplyTitleById` |
| ChatStore.TitleSettled | src/App.tsx:75-101 | no contract of its own; characterised by `ApplyTitleById` and `TitleFailureIgnored` |
| ChatStore.TitleRequested | src/App.tsx:134-137 | no contract of its own; characterised by `TitleRequestedOnFirstMessage` |
| ChatStore.BeginSend | src/App.tsx:104-132 | no contract of its own; characterised by `BeginSendWithoutCurrent`, `BeginSendAppendsUserMessage` and `OneExchange` |
| ChatStore.HttpErrorMessage | src/App.tsx:152-156 | no contract of its own; characterised by `ErrorMapping` and `NotFoundNamesModel` |
| ChatStore.Caught | src/App.tsx:139-181 | no contract of its own; characterised by `ErrorMapping` and `FinishSendFailure`: what reaches the `catch`, if anything |
| ChatStore.ErrorText | src/App.tsx:182-190 | no contract of its own; characterised by `ErrorMapping` and `FinishSendFailure` |
| ChatStore.FinishSend | src/App.tsx:139-191 | no contract of its own; characterised by `FinishSendSuccess`, `FinishSendFailure`, `OneExchange`, `ReplyFollowsSelection` and `StaleAbortOverwritesNewerSend` |
| ChatStore.StartupFromEmpty | src/App.tsx:17-47 | from the initial state, the mount effect yields exactly one conversation: current, titled "New Chat", with no messages, on model "mistral", not loading and with no error |
| ChatStore.MountEffectReplaces | src/App.tsx:37-47 | when the first render had no conversation, the mount effect replaces whatever list the updated state holds by the new conversation alone and makes it current, keeping `isLoading` and `error`; otherwise it changes nothing |
| ChatStore.MountEffectTwice | src/App.tsx:37-47 | the effect run twice leaves only the second conversation, current; the first is gone |
| ChatStore.NewChatAppendsAndSelects | src/App.tsx:53-60 | new chat appends the conversation at the end, keeps all earlier ones, and makes its id current; it is the current conversation when its id is fresh, and on an id collision the earlier conversation is found instead |
| ChatStore.SelectMovesOnlyCurrent | src/App.tsx:200 | selection changes only the current id; an id not in the list leaves no current conversation |
| ChatStore.ChangeModelFrame | src/App.tsx:62-73 | with no truthy current id nothing changes; otherwise only the `model` of the conversations carrying the current id changes, and the current conversation then has the new model |
| ChatStore.ApplyTitleById | src/App.tsx:91-98 | the cleaned title is set on exactly the conversations carrying the given id, whether current or not; nothing else changes; the stored title is quote-free |
| ChatStore.TitleFailureIgnored | src/App.tsx:75-101 | a title request that fails in any way (non-ok status or rejection) leaves the state unchanged |
| ChatStore.BeginSendWithoutCurrent | src/App.tsx:104-105 | a send with no current conversation changes nothing and requests no title |
| ChatStore.BeginSendAppendsUserMessage | src/App.tsx:112-132 | the user message is appended at the end of the current conversation and its `updatedAt` refreshed; `isLoading` becomes true and `error` null; conversations with other ids are untouched |
| ChatStore.TitleRequestedOnFirstMessage | src/App.tsx:134-137 | a title request is fired iff the current conversation had no messages; after the send it holds only the user message, and the next send requests no title |
| ChatStore.FinishSendSuccess | src/App.tsx:159-180 | on success the assistant message with the response text is appended to the conversations carrying the id current at resolution; `isLoading` becomes false; `error` is left as it is |
| ChatStore.FinishSendFailure | src/App.tsx:139-191 | on failure no message list and no current id changes; an `Error` stops loading and stores a non-empty text; a thrown non-`Error` changes nothing |
| ChatStore.ErrorMapping | src/App.tsx:153-190 | status 404 gives the "Model <model> not found" text, other non-ok statuses the "Failed to connect to Ollama" text, an `AbortError` "Request cancelled", another `Error` its message or "Failed to get response" when the message is empty |
| ChatStore.NotFoundNamesModel | src/App.tsx:154-155 | a 404 error text contains the model name and "not found", and no message is appended |
| ChatStore.OneExchange | src/App.tsx:119-180 | with no event in between, one successful send grows the current conversation by exactly the user message then the assistant message, and leaves `isLoading` false and `error` null |
| ChatStore.ReplyFollowsSelection | src/App.tsx:168-178 | switching conversations while a request is in flight puts the reply in the newly selected conversation; the sending conversation keeps only the user message |
| ChatStore.StaleAbortOverwritesNewerSend | src/App.tsx:183-189 | after two sends, the first request's `AbortError` sets `isLoading` false and stores "Request cancelled" while the second is in flight, and the second's success does not clear it |
| Events.Step | src/App.tsx:53-200 | no contract of its own; characterised by `Events.StepGrows`, `RunGrows`, `RunKeepsIds` and `ExchangesAppendTranscript`: each event applies its handler's update to the state current when it happens |
| Events.StepGrows | src/App.tsx:53-200 | no event removes or reorders a conversation, changes its id or creation time, or shortens a message list; only new chat adds a conversation, exactly one at the end |
| Events.RunGrows | src/App.tsx:53-200 | over any event sequence, every conversation keeps its position, id and creation time, and its old messages are a prefix of its new ones |
| Events.RunKeepsIds | src/App.tsx:62-200 | an event sequence without new chat keeps the conversation id list exactly |
| Events.ExchangesAppendTranscript | src/App.tsx:119-180 | N successful sends on one conversation, not interleaved with other events, append exactly 2N messages (user, then assistant, in send order) |
| Session.TitleModel | src/App.tsx:81 | the title request names the conversation's model when it is non-empty, and the default model `"mistral"` when it is empty |
| Session.ChatSession.constructor | src/App.tsx:29-31 | the session starts from the initial state, which is also the state the mount effect's closure sees, with no request and no controller |
| Session.ChatSession.Mount | src/App.tsx:37-47 | the state becomes the mount effect's result, tested against the first render's state (the initial state, fixed by the constructor) and applied to the current state; requests are untouched |
| Session.ChatSession.NewChat | src/App.tsx:53-60 | the state becomes new chat's result; requests are untouched |
| Session.ChatSession.Select | src/App.tsx:200 | the state becomes the selection's result; no in-flight request is cancelled |
| Session.ChatSession.ChangeModel | src/App.tsx:62-73 | the state becomes the model change's result; requests are untouched |
| Session.ChatSession.Send | src/App.tsx:104-151 | with a current conversation, every earlier request is aborted, a new live request carrying the conversation's model and the prompt is issued and owns the controller, a title job is added iff the conversation was empty, and the state gets the user message; without one nothing changes; at most the latest request is ever un-aborted |
| Session.ChatSession.Resolve | src/App.tsx:139-191 | any request settling, latest or not, applies the send resolution with the model captured at send time and marks the request settled; the controller is not cleared; a superseded (aborted) request changes no conversation and no current id, but stops loading and stores "Request cancelled" |
| Session.ChatSession.ResolveTitle | src/App.tsx:75-101 | a title job settling applies the cleaned title by conversation id on success and changes nothing on failure |

## Left out

- Rendering is not modelled. That covers JSX, markdown and syntax highlighting in `MessageBubble`, the sidebar and model selector views, the dropdown state and `scrollIntoView`.
- The HTTP layer is not modelled: `fetch`, JSON encoding and decoding, headers and the endpoint URL. Each request's result is a `FetchOutcome` parameter. A reply body with no `response` field cannot be expressed.
- The title prompt template and the `console.error` logging of title failures are not modelled.
- `AbortController` mechanics are reduced to an `aborted` flag on each request. Real asynchronous interleaving is replaced by events applied one at a time.
- `Date.now()` ids and timestamps are parameters. Id uniqueness is not assumed, because ids can collide within one millisecond.
- The model metadata list in `src/config.ts` is not modelled. It is display-only reference data.
- Events: the mount effect is not an event of the reducer. With an empty dependency list it runs when the component mounts, before any user action; `ChatStore.MountEffect` and `Session.ChatSession.Mount` model it.
- `createNewConversation` is modelled without its `model` parameter, because every call site uses the default.
- The `ChatInput` component is not part of this model; the application passes it `disabled={state.isLoading}` (src/App.tsx:247), but what it does with that is not modelled. The session therefore accepts a send at any time.
- Session.ChatSession.Resolve and Session.ChatSession.ResolveTitle require that a request settles at most once; Session.ChatSession.Resolve also requires that a request settles with an `AbortError` exactly when its controller was aborted before it settled. The browser guarantees these; the source does not check them.
