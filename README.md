# Business Analysis School support portal, front-end core in Dafny

This project models the decision logic and the state machines of the React
front end of the Business Analysis School student support portal. These are:

- the WebSocket provider that binds a session id to a socket;
- the chat page, with its keyword classifier, transcript, escalation prompt
  and stored escalation records;
- the escalation contact form;
- the administrator's escalation table: status labels and colours, the
  "Open" count, the local status update and the button rules;
- the landing page's image carousel and its FAQ buttons;
- the response classification shared by the five HTTP verbs of the API
  client.

There is one module per source file. Each module takes the shape of its
source:

- React state that handlers update becomes a `class` whose methods are the
  handlers.
- Pure decision code becomes functions and lemmas.

`Text` models the parts of JavaScript's string API that the pages use.
`Wrappers` holds `Option` and `Result`.

The model follows the code in these ways:

- **Socket URL.** The socket URL is `wss://` + the configured link whatever
  the page's protocol, because both arms of the protocol choice say `wss`.
- **Effect cleanup.** The cleanup closes the old socket only when it is
  OPEN, and it never detaches the socket's handlers. A socket that was
  still connecting when the session id changed can therefore still open,
  register the old session id and, on its acknowledgement, become `ws`
  again (`SocketContext.SupersededSocketStillActs`).
- **No socket traffic in the chat page.** The chat page never reads the
  socket context. Its replies come from the local classifier, so there is
  no reducer of socket events into the transcript.
- **Status case.** The admin page's badge count is case-sensitive and
  counts only `"open"`, while its label and colour ignore case
  (`Admin.CapitalisedOpenIsNotCounted`). The page lists what the backend
  returns, never the chat page's browser-storage list, so whether a
  row can carry `"Open"` depends on the backend. (The chat page stores its
  own records with `"Open"`, but these never reach the admin page.)
- **No socket is opened.** Nothing in these pages calls `setSessionId`, so
  the provider's session id stays empty and its effect never creates a
  socket. The `SocketContext` scenarios show what would happen if a caller
  set one.
- **Message cleared while mounted.** The provider builds a new
  `resetMessage` on every render. The landing and admin pages run their
  `[resetMessage]` effect again each time it changes, and React first runs
  the previous cleanup, which clears `message`. So while either page is
  mounted, an event stored by `onmessage` is cleared one render later, and
  not only when the page is left (`IndexPage.AcceptedEventIsClearedWhileMounted`,
  `Admin.AcceptedEventIsClearedWhileMounted`).
- **Stale rows after an update.** `updateEscalationStatus` changes only
  the selected escalation, while the table rows, their quick-close buttons
  and the "Open" count read the fetched list. With the server call not
  made, a refetch brings back the same list. After "Mark as Closed" the
  dialog's close button is therefore disabled while the row's quick-close
  button is still shown (`Admin.CloseFromDialog`).
- **Toast text.** `replace("_", " ")` replaces only the first underscore.
- **Emptiness test.** The API client tests the untrimmed body for
  emptiness, but tests the trimmed body for a leading `{` or `[`. A body of
  only whitespace is therefore an "Expected JSON" error, not `{}`.

Nondeterminism and I/O are parameters:

- `crypto.randomUUID` results are id arguments.
- `Math.random()` is the `draw: real` argument.
- `JSON.parse` is a partial function `parse`.
- Each `setTimeout` callback is a step method. `Chat.ChatView.HandleSendMessage`
  runs the steps in order.
- The carousel's `setInterval` callback is `IndexPage.Landing.Tick`.

## Model

| member | source | states |
|---|---|---|
| SocketContext.SocketUrl | src/context/socketContext.tsx:45-46 | the URL is `wss://` followed by the socket link, for every page protocol |
| SocketContext.Accepts | src/context/socketContext.tsx:62 | an event is stored exactly when it does not combine an absent `isTyping` with `reply` equal to `""`; an absent reply or any `isTyping` value is enough |
| SocketContext.BindsSocket | src/context/socketContext.tsx:58 | an event binds the socket exactly when its type is "session-ack" and its session id is absent or non-empty |
| SocketContext.AckIsStored | src/context/socketContext.tsx:58-64 | a session acknowledgement is always stored in `message`, and binds the socket exactly when its session id is non-empty |
| SocketContext.Socket.constructor | src/context/socketContext.tsx:46 | a new socket is CONNECTING, has sent nothing, and keeps its URL and the session id its handlers captured |
| SocketContext.Socket.Opened | src/context/socketContext.tsx:48 | the handshake finishing moves CONNECTING to OPEN and sends nothing |
| SocketContext.Socket.Dropped | src/context/socketContext.tsx:67 | the transport going away leaves the socket CLOSED and sends nothing |
| SocketContext.Socket.Send | src/context/socketContext.tsx:52 | a frame is queued exactly when the socket is OPEN; the ready state is unchanged |
| SocketContext.Socket.Close | src/context/socketContext.tsx:76 | CONNECTING or OPEN becomes CLOSING; otherwise nothing changes |
| SocketContext.WebSocketProvider.constructor | src/context/socketContext.tsx:35-37 | `ws` and `message` start null and `sessionId` starts empty; no cleanup is registered |
| SocketContext.WebSocketProvider.Cleanup | src/context/socketContext.tsx:73-79 | the effect's socket is closed only when it is OPEN, `ws` becomes null, and `sessionId` and `message` are kept; with no registered cleanup nothing changes |
| SocketContext.WebSocketProvider.SetSessionId | src/context/socketContext.tsx:41-80 | the same id changes nothing; a new empty id runs the old cleanup and opens nothing; a new non-empty id clears `message` and exposes a fresh CONNECTING socket for that id as `ws` before any acknowledgement |
| SocketContext.WebSocketProvider.HandleOpen | src/context/socketContext.tsx:48-53 | opening sends exactly one `session-id` frame with the captured session id, which is the current id for the mounted effect's socket |
| SocketContext.WebSocketProvider.HandleMessage | src/context/socketContext.tsx:55-65 | `ws` becomes the receiving socket exactly for an acknowledgement with a non-empty session id; `message` is overwritten by exactly the accepted events (a single slot); `sessionId` is kept |
| SocketContext.WebSocketProvider.ResetMessage | src/context/socketContext.tsx:82-84 | `message` becomes null; `ws` and `sessionId` are unchanged |
| SocketContext.WebSocketProvider.SetMessage | src/context/socketContext.tsx:88 | `message` takes the given value; `ws` and `sessionId` are unchanged |
| EscalationForm.With | src/components/EscalationForm.tsx:30 | the edited field takes the new value and the other two keep theirs |
| EscalationForm.Form.constructor | src/components/EscalationForm.tsx:14-18 | name, email and message all start empty |
| EscalationForm.Form.HandleChange | src/components/EscalationForm.tsx:27-31 | the form record becomes the old record with just that field replaced |
| EscalationForm.Form.HandleSubmit | src/components/EscalationForm.tsx:20-25 | `onSubmit` is called exactly when name and email are both non-empty, and it receives the current record; otherwise nothing is called |
| EscalationForm.Form.Cancel | src/components/EscalationForm.tsx:78 | the cancel button calls `onCancel` and never `onSubmit`, and leaves the form unchanged |
| Chat.GenerateResponse | src/pages/Chat.tsx:60-97 | the reply is one of the four topic replies or the fallback; programs and application replies never escalate, the fallback always does, and payment and career replies escalate exactly when the draw exceeds 0.7 and 0.8 |
| Chat.FirstMatch | src/pages/Chat.tsx:61-96 | the index of the first keyword group mentioned: that group is mentioned and no earlier group is |
| Chat.GenerateResponseIsFirstMatch | src/pages/Chat.tsx:60-96 | the if-chain equals the table-driven classifier: the reply and escalation rule of the first group that the lower-cased message mentions, in the order programs, payment, career, application, then the fallback |
| Chat.EscalationByTopic | src/pages/Chat.tsx:64-96 | programs and application replies never escalate, the fallback always does, payment and career escalate exactly when the draw exceeds 0.7 and 0.8, and the reply never depends on the draw |
| Chat.GenerateResponseIgnoresCase | src/pages/Chat.tsx:61 | a message and its lower-case form get the same response |
| Chat.ProgramCostGetsProgramsReply | src/pages/Chat.tsx:64-69 | "program cost" gets the programs reply, without escalation: the first match wins |
| Chat.MessageText | src/pages/Chat.tsx:100-101 | nothing is sent exactly when the explicit message is absent or empty and the input is all whitespace; an explicit message is used untrimmed, otherwise the trimmed input |
| Chat.EscalationStore.constructor | src/pages/Chat.tsx:144 | the store holds the list read from browser storage |
| Chat.ChatView.constructor | src/pages/Chat.tsx:20-23 | the transcript and input start empty, the form is hidden, and the session id is fixed for the view |
| Chat.ChatView.SetInput | src/pages/Chat.tsx:247 | the input takes the typed value; the transcript and the form flag are unchanged |
| Chat.ChatView.Mount | src/pages/Chat.tsx:33-53 | the transcript becomes exactly the greeting, followed by one user entry when a non-empty initial message is passed on |
| Chat.ChatView.SendMessage | src/pages/Chat.tsx:99-111 | without text nothing changes; otherwise exactly one user entry with that text is appended after the unchanged transcript, and the input is cleared |
| Chat.ChatView.ReplyStep | src/pages/Chat.tsx:114-125 | exactly one assistant entry with the generated reply and its escalation flag is appended |
| Chat.ChatView.EscalationPromptStep | src/pages/Chat.tsx:127-137 | exactly one prompt entry is appended and the form is shown |
| Chat.ChatView.HandleSendMessage | src/pages/Chat.tsx:99-140 | a send appends the user entry and one reply, then the prompt exactly when the reply escalates; the form flag is raised only by an escalating reply |
| Chat.ChatView.HandleEscalationSubmit | src/pages/Chat.tsx:142-166 | storage grows by exactly one record, with status "Open", the view's session id and the transcript before the confirmation; the form is hidden and exactly one confirmation entry is appended |
| Chat.ChatView.CancelEscalation | src/pages/Chat.tsx:237 | the form is hidden and nothing is appended |
| Chat.ChatView.HandleFormOutcome | src/pages/Chat.tsx:233-237 | the form's outcome, while the form is shown, drives the view: no call changes nothing, cancelling hides the form and stores nothing, and a submit stores exactly the submitted record (whose name and email are non-empty, as `EscalationForm.Form.HandleSubmit` guarantees; `Chat.SubmitThroughForm` composes the two) |
| Admin.Escalations | src/pages/Admin.tsx:79 | any missing link in the response gives the empty list; otherwise the returned results |
| Admin.TotalItems | src/pages/Admin.tsx:213 | a present total is shown as sent (an absent one as 0), and any missing link in the response gives 0 |
| Admin.StatusColor | src/pages/Admin.tsx:132-143 | lower-cased "open" is destructive, "closed" is secondary, and every other status, "in_progress" included, is default |
| Admin.StatusDisplay | src/pages/Admin.tsx:145-156 | the three known statuses, in any case, get "Open", "In Progress" and "Closed"; any other string is shown unchanged |
| Admin.StatusDisplayIdempotent | src/pages/Admin.tsx:145-156 | displaying a label again gives the same label |
| Admin.StatusColorOfDisplay | src/pages/Admin.tsx:132-156 | a label has the badge colour of the status it labels |
| Admin.OpenCount | src/pages/Admin.tsx:210 | at most the list length; 0 exactly when no status is "open", the full length exactly when every status is |
| Admin.OpenCountAppend | src/pages/Admin.tsx:210 | the count of a concatenation is the sum of the counts |
| Admin.CapitalisedOpenIsNotCounted | src/pages/Admin.tsx:210 | a status "Open" is labelled "Open" and coloured destructive, but is not counted |
| Admin.UnderscoreBecomesSpace | src/pages/Admin.tsx:114 | replacing the first underscore of "in_progress" gives "in progress" |
| Admin.ToastDescriptions | src/pages/Admin.tsx:114 | the toast reads "Escalation marked as " followed by "open", "in progress" or "closed" |
| Admin.ToastDescription | src/pages/Admin.tsx:114 | the toast starts with "Escalation marked as " and has the status's length, since the replacement keeps the length |
| Admin.SessionIdCell | src/pages/Admin.tsx:252 | the cell is the first 8 characters of the id (all of a shorter one) followed by "..." |
| Admin.InProgressDisabled | src/pages/Admin.tsx:372 | the dialog's "Mark as In Progress" button is disabled only for a selection shown as "In Progress" with the default badge |
| Admin.CloseDisabled | src/pages/Admin.tsx:384 | the dialog's "Mark as Closed" button is disabled only for a selection shown as "Closed" with the secondary badge |
| Admin.QuickCloseShown | src/pages/Admin.tsx:394 | a row's quick-close button is shown exactly when its own escalation's closed button would be enabled; a hidden one belongs to a row labelled "Closed" |
| Admin.UpdatedStatusButtons | src/pages/Admin.tsx:372-384 | after an update, the dialog's "Mark as In Progress" is disabled exactly for in_progress, "Mark as Closed" exactly for closed, and the label is the new status's |
| Admin.AdminView.constructor | src/pages/Admin.tsx:62-79 | the table rows are the fetched escalations (empty for missing data) and nothing is selected |
| Admin.AdminView.Select | src/pages/Admin.tsx:269 | a row's view button selects that row's escalation |
| Admin.AdminView.UpdateEscalationStatus | src/pages/Admin.tsx:104-122 | the selection takes the new status, all else kept, only when it exists and has this id, and is otherwise unchanged; the table rows are immutable, so they stay as fetched; the toast text is returned |
| Admin.AdminView.ResetMessageCleanup | src/pages/Admin.tsx:82-86 | the effect's cleanup, run on leaving and after every provider render, clears the socket's `message` and keeps `ws`, `sessionId` and the socket the provider's own cleanup will close |
| Admin.AcceptedEventIsClearedWhileMounted | src/pages/Admin.tsx:82-86 | while the page is mounted, a message the provider accepts on an open socket is gone again after the provider's next render; only the binding of `ws` remains, and the socket the provider's own cleanup will close is kept |
| IndexPage.NextIndex | src/pages/Index.tsx:61-63 | the result is in range, and is the next slide, wrapping from the last to the first |
| IndexPage.PrevIndex | src/pages/Index.tsx:65-69 | the result is in range, and is the previous slide, wrapping from the first to the last |
| IndexPage.StepsUndoEachOther | src/pages/Index.tsx:62-67 | back after forward, and forward after back, return to the same slide |
| IndexPage.AdvanceWithoutWrap | src/pages/Index.tsx:53-56 | below the last slide, k steps add k |
| IndexPage.AdvanceCompose | src/pages/Index.tsx:53-56 | a steps followed by b steps is a + b steps |
| IndexPage.FullCycle | src/pages/Index.tsx:53-56 | n steps from any slide return to it |
| IndexPage.VisibleSlides | src/pages/Index.tsx:79-80 | exactly one slide, the current one, is visible |
| IndexPage.Landing.constructor | src/pages/Index.tsx:28 | the carousel starts at slide 0 |
| IndexPage.Landing.NextImage | src/pages/Index.tsx:61-63 | the index takes one forward step and stays in range |
| IndexPage.Landing.PrevImage | src/pages/Index.tsx:65-69 | the index takes one backward step and stays in range |
| IndexPage.Landing.Tick | src/pages/Index.tsx:53-56 | the interval tick is the same step as the right arrow |
| IndexPage.Landing.SelectIndicator | src/pages/Index.tsx:115 | an indicator dot sets the index to its own position |
| IndexPage.Landing.ResetMessageCleanup | src/pages/Index.tsx:31-36 | the effect's cleanup, run on leaving and after every provider render, clears the socket's `message` and keeps `ws`, `sessionId` and the socket the provider's own cleanup will close |
| IndexPage.AcceptedEventIsClearedWhileMounted | src/pages/Index.tsx:31-36 | while the page is mounted, a message the provider accepts on an open socket is gone again after the provider's next render; only the binding of `ws` remains, and the socket the provider's own cleanup will close is kept |
| IndexPage.FaqTopicsReachTheirGroups | src/pages/Index.tsx:38-43 | each FAQ text lands in its own keyword group (programs, payment, career, application, in that order) and gets that group's response |
| ApiClient.BuildRequest | src/lib/api/apiClient.ts:51-60 | the URL is the base URL followed by the path, the headers and mode are fixed, and a body (the serialised data) is sent exactly by POST, PUT and PATCH with truthy data |
| ApiClient.LooksLikeJson | src/lib/api/apiClient.ts:31-34 | the trimmed body is non-empty and its first character is `{` or `[`; so a body of only whitespace never looks like JSON |
| ApiClient.Classify | src/lib/api/apiClient.ts:16-48 | not ok is an HTTP error; an exactly empty body is `{}`; a body whose trimmed text opens with `{` or `[` is parsed, and a parse failure is "Invalid JSON"; any other body is "Expected JSON"; JSON errors quote the first 200 characters |
| ApiClient.SnippetIsBoundedPrefix | src/lib/api/apiClient.ts:40-46 | a quoted snippet has at most 200 characters and is a prefix of the body |
| ApiClient.WhitespaceBodyIsNotJson | src/lib/api/apiClient.ts:26-47 | a non-empty body of only whitespace is an "Expected JSON" error, not `{}` |
| ApiClient.LeadingWhitespaceIsParsed | src/lib/api/apiClient.ts:31-41 | whitespace before the opening bracket does not keep the body from the parser |
| ApiClient.NotOkIgnoresBody | src/lib/api/apiClient.ts:16-21 | a response that is not ok is an HTTP error with its status, whatever the body |
| ApiClient.ErrorMessage | src/lib/api/apiClient.ts:17-19 | an HTTP error's message is, position by position, "HTTP error! status: ", the status in decimal, ", message: " and the body text; a JSON error's message is its prefix, then exactly the snippet, then "..." |
| ApiClient.ErrorMessageDeterminesError | src/lib/api/apiClient.ts:17-47 | equal messages come from equal errors: the message tells an HTTP error from a JSON error and gives back the status and text, or the snippet |
| ApiClient.HttpMessageDeterminesError | src/lib/api/apiClient.ts:17-19 | two HTTP errors with the same message have the same status and the same text, since the status's digits end at the first ',' |
| Text.IntToStringInjective | src/lib/api/apiClient.ts:18 | different statuses render differently |
| Text.Trim | src/pages/Chat.tsx:100 | the result is empty exactly for an all-whitespace string; otherwise it starts and ends with visible characters, sits where the leading whitespace ends, and only whitespace follows it |
| Text.StartsWith | src/lib/api/apiClient.ts:32-33 | `s` starts with `p` exactly when `p` fits and matches `s` character by character |
| Text.TrimSkipsLeadingWhitespace | src/lib/api/apiClient.ts:32 | trimming skips the whitespace before the first visible character |
| Text.Lower | src/pages/Chat.tsx:61 | same length, every character mapped by the ASCII case mapping |
| Text.Contains | src/pages/Chat.tsx:64 | a pattern that occurs is no longer than the string, and the empty pattern occurs in every string |
| Text.SearchFromCorrect | src/pages/Chat.tsx:64 | the left-to-right scan finds the pattern exactly when it occurs at some position from the start index |
| Text.Take | src/lib/api/apiClient.ts:40 | the first n characters, or all of a shorter string |
| Text.ReplaceFirst | src/pages/Admin.tsx:114 | the result keeps the length; a string without the character is unchanged; only the character's first position takes the replacement |
| Text.ReplaceFirstAt | src/pages/Admin.tsx:114 | when the prefix has no occurrence, exactly that occurrence is replaced |
| Text.NatToString | src/lib/api/apiClient.ts:19 | a non-negative status renders as a non-empty string of decimal digits that denotes it, with no leading zero |
| Text.IntToString | src/lib/api/apiClient.ts:19 | a status renders with a '-' exactly when negative, followed by the digits of its magnitude |

## Left out

- **Rendering.** JSX rendering, styling, icons, navigation and toasts'
  display are left out. Only the toast's description text is modelled.
  The same holds for the scroll-to-bottom effect and the chat header's
  `sessionId.slice(0, 8)` badge, which is the same first-8 cut as
  `Admin.SessionIdCell`.
- **Network.** `fetch`, the network and the real WebSocket transport are
  left out. The transport appears only as the `Socket` class's ready-state
  changes, which a caller triggers.
- **Socket parse errors.** `JSON.parse` in `onmessage` can throw; events
  here arrive already parsed. The `onclose` handler does nothing: its
  only statement is commented out.
- **JSON field values.** Inbound socket fields are modelled as optional
  strings and booleans. A non-boolean `isTyping`, whose JavaScript
  truthiness would decide the filter, is not modelled.
- **Serialisation.** `JSON.stringify`, `localStorage` serialisation and the
  `timestamp` field of stored escalations are left out. The stored list is
  a sequence.
- **Time.** `Date`, `new Date().toISOString()`, `toLocaleString` and the
  timers' delays are left out. The timer callbacks are steps run in order.
- **React Query.** Fetching, caching, retries, invalidation, and the loading
  and error screens of the admin page are left out. So is the
  session-history query.
- **Unreachable catch.** The `catch` branch of `updateEscalationStatus` is
  left out: nothing in its `try` block can throw while the API call is
  commented out.
- **Callers of the API client.** `src/lib/api/service.ts` and
  `src/lib/types.ts` are not part of this model. They only wrap the client
  with fixed paths and declare record shapes.
- **Browser form validation.** The name and email inputs are `required`,
  and the email input has `type="email"`. A browser stops the submit event
  for an empty field or a malformed address, and strips surrounding
  whitespace from the email value, before `handleSubmit` runs. That built-in
  validation is not modelled: `EscalationForm.Form.HandleSubmit` states the
  handler's own guard only.
- **Refetch.** The refetch that follows `invalidateQueries` is not modelled.
  `Admin.AdminView` keeps the rows as first fetched, since the status
  change is never sent to the server.
- **Reply texts.** The exact assistant texts are kept in `Chat.ScriptText`.
  The transcript refers to them by name (`Chat.Script`). In the source file
  as stored, four texts have their non-ASCII characters double-encoded: the greeting's wave emoji and bullets (src/pages/Chat.tsx:38-43)
  and the bullets of the programs, payment and career replies
  (src/pages/Chat.tsx:66, 73, 80). `Chat.ScriptText` uses the intended
  characters.
- Text.Lower: models `toLowerCase` on ASCII letters only; other letters with
  a lower-case form are kept unchanged.
- Text.Take: counts Unicode scalar values, where `substring` and `slice`
  count UTF-16 code units, so snippets and cells differ for text with
  characters outside the Basic Multilingual Plane.
- **Carousel wrap.** `IndexPage.NextIndex` and `IndexPage.PrevIndex` use
  unbounded integers. JavaScript numbers lose no precision for indices this
  small.
