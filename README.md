# byom-chat conversation bookkeeping, in Dafny

This project models the logic at the centre of the byom-chat demo. Participants exchange messages in a
shared conversation. A user may also "bring their own model" (BYOM): register a personal LLM
provider and ask it about the current conversation.

The model covers:

- **Client conversation store** (`ChatStore`). A table from conversation id to that conversation's
  message list. Lookups of an unknown id read as empty. `addUserMessage` and `addAssistantMessage`
  set the named conversation to its old list followed by one new record.
- **Server message intake** (`MessageServer`). The `POST /message` handler: it rejects a body whose
  `conversationId`, `author` or `text` is missing or empty with 400 `missing fields`, creates the
  conversation on first use, appends a user-role record, broadcasts it to the conversation's room
  and answers `{ ok: true, id }`.
- **Summarizer** (`Summarizer`). The prompt built from the last 12 messages as `author: text` lines,
  and the choice of the summary from the completion response.
- **BYOM SDK** (`ByomSdk`). Base-URL resolution in `useBYOM`; the `invoke` payload, which sends the
  last 50 messages; the error message chosen by `registerProvider` and `invoke`; and how
  `handleInvoke` maps an outcome to the assistant message. It also has the widget's registration
  state (`registered`, `open`, the form fields).
- **Chat page** (`ChatApp`). The initial user and conversation ids, `getSnapshot`, and the records
  and socket events built by `handleSend`, `handleAssistantMessage` and `publishAssistant`.

`JsText` models the JavaScript operations this code relies on: `slice(-k)`, `slice(from, to)`,
`join` and `trim`. It also defines `split` on one character. The code never calls `split`; it is
there only to state that the summary's `join('\n')` can be undone. `ChatTypes` holds the message records.

Inputs from the environment are parameters:

- `now` stands for `Date.now()`.
- `newId` stands for `crypto.randomUUID()`.
- `randomHex` stands for `Math.random().toString(16)`.
- `stored` stands for what `localStorage.getItem` returns.
- Each SDK HTTP exchange is a `ByomSdk.Fetched` value: either the network error `fetch` rejects with, or the response.
- The summarizer's exchange is a `Summarizer.Completion` value: either a rejected `fetch` (its error is not kept), or the response.

The code has no
cap on history length, no ordering by `ts` and no de-duplication by `(author, ts)`. The model claims
none of these. `ChatStore.NoCap` proves that `n` adds grow a conversation by exactly `n`.

## Model

| member | source | states |
|---|---|---|
| `JsText.SliceFromEnd` | packages/byom-sdk/src/index.tsx:73 | `slice(-k)` for k > 0 gives the last min(k, n) elements, as a suffix of the input; k = 0 gives the whole input |
| `JsText.SliceFromEndIdempotent` | packages/byom-sdk/src/index.tsx:73 | truncating a second time to the same bound changes nothing |
| `JsText.SliceRange` | apps/byom-chat/src/pages/App.tsx:21 | `slice(from, to)` clamps to the length and copies the characters from `from` onwards |
| `JsText.Join` | summarizer.js:7 | `join` of no parts is empty and of one part is that part; its meaning in general is given by `JsText.JoinEnds`, `JsText.JoinSnoc` and `JsText.SplitJoin` |
| `JsText.JoinEnds` | summarizer.js:7 | a join starts with its first part and ends with its last part |
| `JsText.JoinSnoc` | summarizer.js:7 | `join` puts the separator between neighbours only: adding a last part adds one separator and that part, with nothing trailing |
| `JsText.SplitJoin` | summarizer.js:7 | splitting a join of separator-free pieces on the separator gives back exactly those pieces |
| `JsText.TrimStart` | summarizer.js:16 | removes exactly the leading white space; the result is a suffix starting with a non-white character or empty |
| `JsText.TrimEnd` | summarizer.js:16 | removes exactly the trailing white space; the result is a prefix ending with a non-white character or empty |
| `JsText.Trim` | summarizer.js:16 | the result is the part of the input between its leading and its trailing white space (both removed entirely); it starts and ends with non-white characters, and is empty iff the input is all white space |
| `JsText.TrimIdempotent` | summarizer.js:16 | trimming twice is trimming once |
| `ChatTypes.ProjectKeepsCoreFields` | apps/byom-chat/src/pages/App.tsx:98 | projection keeps author, role, text and ts; two records project alike iff those four agree; it undoes adding empty meta and flag |
| `ChatTypes.Project` | apps/byom-chat/src/pages/App.tsx:98 | the projection carries the record's author, role, text and ts; `ChatTypes.ProjectKeepsCoreFields` shows it keeps nothing else |
| `ChatStore.Lookup` | apps/byom-chat/src/store/chatStore.ts:8 | an id never stored reads as the empty list; a stored id reads as its stored list |
| `ChatStore.Appended` | apps/byom-chat/src/store/chatStore.ts:14 | the named conversation becomes its old list plus the new record at the end; every other id reads as before |
| `ChatStore.UserRecord` | apps/byom-chat/src/store/chatStore.ts:13 | the user record has role user, the given author and text, the clock value as ts, and no meta |
| `ChatStore.AssistantRecord` | apps/byom-chat/src/store/chatStore.ts:19 | the assistant record has role assistant and always has a meta whose modelId is the passed one, even when none is passed |
| `ChatStore.Store.constructor` | apps/byom-chat/src/store/chatStore.ts:5 | the store starts empty |
| `ChatStore.Store.GetMessages` | apps/byom-chat/src/store/chatStore.ts:7-9 | an unknown conversation gives the empty list; a known one gives its stored list |
| `ChatStore.Store.AddUserMessage` | apps/byom-chat/src/store/chatStore.ts:11-15 | the new table appends the user record to the named conversation and changes nothing else |
| `ChatStore.Store.AddAssistantMessage` | apps/byom-chat/src/store/chatStore.ts:17-21 | the new table appends the assistant record to the named conversation and changes nothing else |
| `ChatStore.OneAdd` | apps/byom-chat/src/store/chatStore.ts:11-21 | one add call is one step of a run of adds |
| `ChatStore.ApplyAllAppends` | apps/byom-chat/src/store/chatStore.ts:11-21 | after any run of adds, each conversation holds its old list followed by the records addressed to it, in call order |
| `ChatStore.NoCap` | apps/byom-chat/src/store/chatStore.ts:11-21 | n adds to one conversation grow it by exactly n, and the old list stays a prefix |
| `ChatStore.Untouched` | apps/byom-chat/src/store/chatStore.ts:11-21 | a conversation no add names is unchanged after the run |
| `MessageServer.Fields` | server.js:23 | a missing body has none of the three fields |
| `MessageServer.Complete` | server.js:24 | a body passes validation iff conversationId, author and text are all present and non-empty; a missing body never passes |
| `MessageServer.Intake` | server.js:22-31 | the request is rejected with 400 `missing fields`, leaving the table unchanged and broadcasting nothing, iff a field is missing or empty; otherwise an unknown conversation is created under its id, the user-role message is appended last after the prior ones, no other conversation changes, that message is broadcast to its room and the response carries its id |
| `MessageServer.IntakeKeepsKeys` | server.js:25-28 | every conversation stays stored under its own id |
| `MessageServer.AcceptedIdIsLast` | server.js:26-30 | on acceptance the conversation grew by one, and its last message is user-role with the id the response returns |
| `MessageServer.Server.constructor` | server.js:16 | the server starts with no conversations |
| `MessageServer.Server.PostMessage` | server.js:22-31 | the handler's new table, response and broadcast are those of `Intake` |
| `Summarizer.Line` | summarizer.js:7 | a line is the author, then `: `, then the text, and nothing else |
| `Summarizer.Lines` | summarizer.js:7 | one `author: text` line per message, in order |
| `Summarizer.Recent` | summarizer.js:7 | the summary uses the last min(12, n) messages, in their original order |
| `Summarizer.Body` | summarizer.js:7 | an empty conversation gives an empty body; otherwise the body starts with the first recent message's line and ends with the last message's line; `Summarizer.BodyLines` gives its full shape |
| `Summarizer.Prompt` | summarizer.js:8 | the prompt is the fixed instruction, then a blank line, then the body |
| `Summarizer.BodyLines` | summarizer.js:7 | when no recent author or text holds a line break, the body is exactly the min(12, n) lines `author: text`, separated by single breaks with none trailing |
| `Summarizer.OnlyRecentMatter` | summarizer.js:7-8 | messages older than the last 12 do not affect the prompt |
| `Summarizer.EmptyPrompt` | summarizer.js:8 | an empty conversation gives the instruction and the blank line only |
| `Summarizer.Choose` | summarizer.js:9-16 | a non-ok response gives the empty string; absent content gives the empty string; otherwise the trimmed content; a rejected fetch, or an unreadable or null body, makes the call reject |
| `ByomSdk.ErrorString` | packages/byom-sdk/src/index.tsx:165 | `String(e)` is `name: message`, or the name alone when the message is empty |
| `ByomSdk.NewError` | packages/byom-sdk/src/index.tsx:66 | `new Error(msg)` has name `Error` and message msg, so it prints as `Error: msg`, or `Error` when msg is empty |
| `ByomSdk.ResolveBaseUrl` | packages/byom-sdk/src/index.tsx:52-56 | a given override wins over the context's base URL, even when empty; with neither, or with an empty result, the hook throws |
| `ByomSdk.WidgetBaseUrl` | packages/byom-sdk/src/index.tsx:114 | the widget's own baseUrl wins, else the context's, else the empty string |
| `ByomSdk.WidgetResolvesLikeHook` | packages/byom-sdk/src/index.tsx:114-115 | the widget's `?? ''` fallback resolves exactly as the hook does without it |
| `ByomSdk.Report` | packages/byom-sdk/src/index.tsx:67 | `onError?.(err)` receives the error iff the context has an `onError` callback |
| `ByomSdk.RegisterProvider` | packages/byom-sdk/src/index.tsx:58-70 | a non-ok response fails with the response text, or with the status text when the text is empty, and reports that error to `onError`; if reading the response text rejects, that error propagates unreported; an ok response succeeds; a fetch rejection propagates unreported |
| `ByomSdk.Payload` | packages/byom-sdk/src/index.tsx:73 | the payload keeps userId, conversationId and prompt, and sends the last min(50, n) messages in order |
| `ByomSdk.PayloadIdempotent` | packages/byom-sdk/src/index.tsx:73 | a conversation within 50 messages is sent whole, so shaping twice is shaping once |
| `ByomSdk.InvokeErrorMessage` | packages/byom-sdk/src/index.tsx:81 | the message is the body's non-empty `error`, otherwise the status text |
| `ByomSdk.Invoke` | packages/byom-sdk/src/index.tsx:72-86 | succeeds with the body's reply and meta iff the response is ok and the body is truthy JSON; otherwise fails with the chosen message and reports it; a fetch rejection propagates unreported |
| `ByomSdk.Deliver` | packages/byom-sdk/src/index.tsx:163-165 | success forwards reply and meta; failure forwards `String(e)` as the text with no meta |
| `ByomSdk.HandleInvoke` | packages/byom-sdk/src/index.tsx:155-167 | the posted payload is the shaped user, conversation, prompt and snapshot; the delivered reply and the reported error are those of the invocation's outcome; a network failure shows `String(e)` and reports nothing |
| `ByomSdk.FailedInvokeText` | packages/byom-sdk/src/index.tsx:164-165 | a non-ok response shows `Error: <message>`, or `Error` alone, as the assistant's text |
| `ByomSdk.Widget.constructor` | packages/byom-sdk/src/index.tsx:116-122 | the widget starts unregistered, closed, on the OpenAI provider, with empty fields |
| `ByomSdk.Widget.RegisterRequest` | packages/byom-sdk/src/index.tsx:143-147 | registration sends the user id, the chosen provider and all four form fields |
| `ByomSdk.Widget.OpenDialog` | packages/byom-sdk/src/index.tsx:174 | opens the dialog and changes nothing else |
| `ByomSdk.Widget.CloseDialog` | packages/byom-sdk/src/index.tsx:224 | closes the dialog and changes nothing else |
| `ByomSdk.Widget.HandleRegister` | packages/byom-sdk/src/index.tsx:141-153 | on success the widget is registered and the dialog closed; on failure its state is unchanged; the form fields are never changed |
| `ChatApp.InitialUserId` | apps/byom-chat/src/pages/App.tsx:18-23 | a non-empty stored id is used as is; otherwise `user-` followed by up to four characters of the random hex string from index 2 |
| `ChatApp.InitialConvId` | apps/byom-chat/src/pages/App.tsx:24-26 | a non-empty stored id is used as is; otherwise `demo`; never empty |
| `ChatApp.Snapshot` | apps/byom-chat/src/pages/App.tsx:95-98 | at most 50 messages, the last ones of the conversation in order, each reduced to author, role, text and ts |
| `ChatApp.SnapshotSentWhole` | apps/byom-chat/src/pages/App.tsx:95-98 | the snapshot is within the SDK's limit, so `invoke` sends it unchanged |
| `ChatApp.SnapshotAfterAdd` | apps/byom-chat/src/pages/App.tsx:95-98 | a message appended to the conversation appears, projected, as the snapshot's last entry; a full snapshot drops its oldest entry |
| `ChatApp.SendRecord` | apps/byom-chat/src/pages/App.tsx:58 | the sent record has the user id as author, role user, the text and the clock value |
| `ChatApp.EphemeralReply` | apps/byom-chat/src/pages/App.tsx:71-78 | the reply record has author and role assistant, the reply's text and meta, and `ephemeral: true` |
| `ChatApp.Published` | apps/byom-chat/src/pages/App.tsx:84 | the published copy has `ephemeral: false` and every other field equal |
| `ChatApp.PublishEvent` | apps/byom-chat/src/pages/App.tsx:86-92 | the broadcast names author `assistant` and carries the message's text, ts and meta |
| `ChatApp.PublishedReplyAgrees` | apps/byom-chat/src/pages/App.tsx:82-93 | publishing an ephemeral reply keeps its ts, text and meta in both the stored copy and the event, and is idempotent |
| `ChatApp.App.constructor` | apps/byom-chat/src/pages/App.tsx:18-26 | the page starts with the initial ids, not joined, without a socket |
| `ChatApp.App.HandleJoin` | apps/byom-chat/src/pages/App.tsx:39-54 | after joining the page has a socket and has emitted `join` with its conversation and user |
| `ChatApp.App.HandleSend` | apps/byom-chat/src/pages/App.tsx:56-66 | hands the user record to `addMessage` and, when a socket exists, emits the same text and ts |
| `ChatApp.App.HandleAssistantMessage` | apps/byom-chat/src/pages/App.tsx:68-80 | hands the ephemeral reply record to `addMessage` and emits nothing |
| `ChatApp.App.PublishAssistant` | apps/byom-chat/src/pages/App.tsx:82-93 | hands the non-ephemeral copy to `addMessage` and, when a socket exists, broadcasts it |
| `ChatApp.App.GetSnapshot` | apps/byom-chat/src/pages/App.tsx:95-98 | the snapshot of the page's conversation in the store; empty for a conversation never stored |

## Left out

- `addMessage`, `setMessages` and `useMessages`: the chat page imports them from the store, but the store file defines only `getMessages`, `addUserMessage` and `addAssistantMessage`. The page's handlers are therefore modelled up to the record they hand to `addMessage` (logged in `added`), not its effect on the store. Whether publishing replaces the ephemeral entry is not modelled.
- Socket relays: the server's `join` handler, `handleJoin`'s `history`/`message`/`assistant` listeners, and the relays of the standalone servers. They pass values through socket.io. Emits are modelled only as logged output values.
- Static-file serving and dist-directory resolution in `apps/byom-chat/server.ts` and `apps/byom-chat/server/server.js`: filesystem and HTTP plumbing.
- The HTTP calls: `fetch` in the SDK and the summarizer, and the OpenAI provider adapter. Their results are parameters. The summarizer's request body (model name from `SUM_MODEL`, one user message holding the prompt) is not modelled.
- The widget's registration check on mount (`useEffect` with its `cancelled` flag): async effect lifecycle.
- All rendering, including which button the widget shows, and the form inputs' setters (`setProvider`, `setApiKey`, ...), which only copy typed values into the fields.
- Writing the user and conversation ids back to `localStorage` (App.tsx:30-35), and the `console.error` in `handleRegister`.
- The `onError` callback is not run. The model records only the error it would receive (`reported`).
- `MessageServer.Server.PostMessage`: `get`, `push` then `set` mutate a shared conversation object. The model updates a conversation value in the table instead. The stored result is the same, but object identity is not modelled.
- Request and response bodies are typed: the handler's fields are optional strings, the chat body's `error` an optional string, and its `reply` always present. Other JSON values, whose truthiness depends on their type, are not modelled.
- Timestamps are unbounded integers. JavaScript's floating-point numbers are not modelled.
- `JsText.Trim` treats as white space the characters listed in `JsText.IsWhite`: the ECMAScript WhiteSpace and LineTerminator characters, with the Unicode space separators written out.
