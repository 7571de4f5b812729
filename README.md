# The AI Engineer Challenge chat, modelled in Dafny

This project models the logic behind a streaming chat application. The
application has a Next.js frontend and a FastAPI backend. The model covers
five parts:

- **`Performance`** (`performance.dfy`): the three utilities of the frontend's
  performance library.
  - The metrics log has a component-wise mean and a clear operation.
  - The request deduplicator keeps a table of pending requests keyed by string.
    A call under a live key shares the existing promise. The entry is removed
    when the call settles.
  - `throttle` is a leading+trailing throttle with one replaceable deferred call.

  Each is a class whose methods update its fields.
- **`Chat`** (`chat.dfy`): the `useChat` hook as a `ChatController` class. It
  covers:
  - the send guard and the user message;
  - the deduplication key and the request body;
  - the placeholder that is appended only for an ok response with a body;
  - the read loop that patches the streamed text into the last message;
  - the single error message on any failure, and `isLoading` reset in `finally`;
  - the screen-reader announcement;
  - the metrics sample of a successful send.

  The network is an oracle (`Reply`): whether `fetch` rejects, the `ok` flag,
  whether there is a body, and the text chunks the reader yields, possibly
  followed by a failed read.
- **`Virtualization`** (`window.dfy`): the window arithmetic of the virtualized
  message list. It covers the visible range, the slice, the pixel offset, the
  spacer height and the more-than-50 threshold.
- **`Api`** (`api.dfy`): the backend's `sanitize_text`, the pydantic validators of
  `ChatMessage` and `ChatRequest` as total functions returning `Valid(value)` or
  `Invalid(errors)`, and the message list built for the completion call.
- **`MessageInput`** (`input.dfy`): when the textarea and the send button are
  disabled, which keys send, and which help text is shown.

Three shared modules support them:

- `Text` (`text.dfy`) defines the whitespace trimming of both tiers, JavaScript `trim` and Python `strip`, over the six ASCII whitespace characters that both remove.
- `Wrappers` (`wrappers.dfy`) holds `Option`.
- `Exchange` (`exchange.dfy`) connects the tiers. It reads the frontend's posted body as the backend's `ChatRequest` and states what the backend does with what the frontend sends.

Consequences the model makes precise:

- The button's loading gate does not apply to the Enter key. A second message typed while a request is in flight is sent (`MessageInput.EnterWhileLoadingScenario`).
- Sanitizing is not idempotent, because stripping comes before the deletion (`Api.SanitizeNotIdempotent`).
- A content value made only of `<>` passes the non-blank check and is stored as the empty string (`Api.DangerousOnlyAcceptedAsEmpty`).
- A reply that streams no text leaves an empty `ai` message in the log. From then on the backend rejects every request built from that log (`Exchange.EmptyPlaceholderPoisonsLog`).
- Once the log holds more than 50 messages, every request built from it is rejected (`Exchange.LongHistoryRejected`).
- The frontend's key check is weaker than the backend's, which also requires the `sk-` prefix (`Exchange.FrontendKeyGuardIsWeaker`).
- With no overscan, an item cut by the bottom edge of the viewport is not rendered (`Virtualization.NoOverscanMissesPartialItem`).

Two details of the code that the model follows:

- A response with a non-ok status throws before any placeholder is appended (`frontend/app/hooks/useChat.ts:102-104`), so that exchange has only the error message (`Chat.FailedStatusScenario`).
- The role of the frontend's reply messages is `"ai"`. It becomes `"assistant"` only in the list the backend sends to the completion API (`Api.BuildMessages`).

## Model

| member | source | states |
|---|---|---|
| Text.LeadingWhitespaceSpec | api/app.py:31 | the counted leading run is all whitespace and stops at the first non-whitespace character |
| Text.TrailingWhitespaceSpec | api/app.py:31 | the counted trailing run is all whitespace and stops at the last non-whitespace character |
| Text.TrimStartSpec | api/app.py:31 | trimming the start removes a whitespace prefix and only that: the rest is a suffix that is empty or starts with a non-whitespace character |
| Text.TrimEndSpec | api/app.py:31 | trimming the end removes a whitespace suffix and only that: the rest is a prefix that is empty or ends with a non-whitespace character |
| Text.StripSpec | api/app.py:31 | the stripped text is no longer than the input and, when not empty, starts and ends with a non-whitespace character |
| Text.BlankIffAllWhitespace | api/app.py:47 | a value strips to the empty string exactly when every character of it is whitespace |
| Text.StripKeepsPrefix | api/app.py:89-91 | stripping keeps a prefix that starts and ends with non-whitespace characters |
| Performance.ReduceIsFieldSums | frontend/app/lib/performance.ts:43-53 | the `reduce` fold adds to its seed, field by field, the sum of that field over all samples |
| Performance.Average | frontend/app/lib/performance.ts:33-62 | an empty log averages to all zeros; otherwise each field is the field's sum over the samples divided by their number |
| Performance.AverageRenderTimeBounded | frontend/app/lib/performance.ts:55-61 | the mean render time lies between the least and the greatest sample |
| Performance.AverageOfOne | frontend/app/lib/performance.ts:55-61 | a log of one sample averages to that sample |
| Performance.PerformanceMonitor.constructor | frontend/app/lib/performance.ts:11-12 | a new monitor has an empty log and a start time of 0 |
| Performance.PerformanceMonitor.StartRenderTimer | frontend/app/lib/performance.ts:14-16 | the start time becomes the clock reading; the log is unchanged |
| Performance.PerformanceMonitor.RecordMetrics | frontend/app/lib/performance.ts:23-31 | exactly one sample is appended, with missing fields filled with 0, and earlier samples and the start time are unchanged |
| Performance.PerformanceMonitor.GetAverageMetrics | frontend/app/lib/performance.ts:33-62 | reads the log without changing it; all zeros for an empty log, otherwise each field times the sample count is the field's sum |
| Performance.PerformanceMonitor.ClearMetrics | frontend/app/lib/performance.ts:64-66 | the log becomes empty |
| Performance.AverageAfterClear | frontend/app/lib/performance.ts:33-66 | after one recorded sample two averages agree and equal the sample; after clearing the average is all zeros |
| Performance.RequestDeduplicator.constructor | frontend/app/lib/performance.ts:73 | a new table is empty and consistent |
| Performance.RequestDeduplicator.Deduplicate | frontend/app/lib/performance.ts:79-84 | a live key returns its pending promise and invokes nothing; otherwise the request runs exactly once and the key is registered; other keys are untouched; one entry per key |
| Performance.RequestDeduplicator.Settle | frontend/app/lib/performance.ts:86-91 | on success and failure alike exactly this key's entry is removed |
| Performance.RequestDeduplicator.Clear | frontend/app/lib/performance.ts:94-96 | the table becomes empty |
| Performance.SameKeySharesOneCall | frontend/app/lib/performance.ts:79-81 | two overlapping calls under one key get the same promise and run the request once |
| Performance.DistinctKeysCallTwice | frontend/app/lib/performance.ts:83-91 | calls under distinct keys run separately, and after a settle the same key runs again |
| Performance.Throttle.constructor | frontend/app/lib/performance.ts:106-107 | no timer, `lastExecTime` 0, no executions |
| Performance.Throttle.Call | frontend/app/lib/performance.ts:109-121 | runs immediately, setting `lastExecTime` to now, exactly when more than `delay` has passed (strict), without cancelling a scheduled call; otherwise replaces the scheduled call with one carrying the latest arguments, due at `lastExecTime + delay` |
| Performance.Throttle.Tick | frontend/app/lib/performance.ts:117-120 | a due scheduled call runs with its arguments and sets `lastExecTime` to the firing time; otherwise nothing changes |
| Performance.BurstCollapses | frontend/app/lib/performance.ts:110-120 | four calls within one interval give one immediate run and one deferred run carrying the last call's arguments |
| Performance.FirstCallAtZeroIsDeferred | frontend/app/lib/performance.ts:107-112 | with a clock starting at 0 the first call is deferred, not run |
| Chat.AnnounceIdempotent | frontend/app/hooks/useChat.ts:28-35 | re-running the effect on the same log changes nothing |
| Chat.UpdateLastMessage | frontend/app/hooks/useChat.ts:38-52 | an empty list is returned unchanged; otherwise the length is kept, earlier messages are untouched, and the last keeps its id, role and timestamp with the updated content |
| Chat.ApiKeySuffix | frontend/app/hooks/useChat.ts:85 | the last eight characters of the key, or the whole key when shorter |
| Chat.RequestKeyDistinguishesInput | frontend/app/hooks/useChat.ts:83-85 | for one model and key, two sends share a deduplication key exactly when their texts are equal |
| Chat.StreamedSnoc | frontend/app/hooks/useChat.ts:123-124 | one more chunk appends its text at the end of the accumulated response |
| Chat.StreamedPrefix | frontend/app/hooks/useChat.ts:119-128 | each patched text extends every earlier one as a prefix |
| Chat.RequestOutcome | frontend/app/hooks/useChat.ts:102-128 | the request function completes without throwing exactly when the response is ok, has a body and its reader ends with `done` |
| Chat.PlaceholderOnlyForOkBody | frontend/app/hooks/useChat.ts:102-117 | the placeholder is appended exactly for the sender's own call with an ok response and a body, and then holds the whole streamed text; otherwise only the error message can be appended |
| Chat.FailureAppendsOneError | frontend/app/hooks/useChat.ts:139-148 | on failure exactly one error message ends the exchange, after the placeholder (if any), which keeps what had streamed |
| Chat.SuccessAppendsNoError | frontend/app/hooks/useChat.ts:119-138 | a successful own call appends only the placeholder with the streamed text; a successful shared call appends nothing |
| Chat.ChatController.constructor | frontend/app/hooks/useChat.ts:12-21 | an empty log and input, loading off, the initial settings, no announcement, no requests |
| Chat.ChatController.SetInputMessage | frontend/app/hooks/useChat.ts:13 | the input becomes the given text; the log, loading flag, settings, announcement and posted requests are unchanged |
| Chat.ChatController.SetSettings | frontend/app/hooks/useChat.ts:15-19 | the settings become the given ones; the log, loading flag, input, announcement and posted requests are unchanged |
| Chat.ChatController.Append | frontend/app/hooks/useChat.ts:77 | the message is appended and the announcement follows the new log; nothing else changes |
| Chat.ChatController.Patch | frontend/app/hooks/useChat.ts:127 | the last message's content is replaced and the announcement follows; nothing else changes |
| Chat.ChatController.BeginSend | frontend/app/hooks/useChat.ts:65-79 | nothing changes unless the trimmed input and key are both non-empty, with no look at `isLoading`; otherwise the timer starts, one user message with the input is appended, the input is cleared and loading is on |
| Chat.ChatController.RunRequest | frontend/app/hooks/useChat.ts:88-117 | the body is posted once; nothing is appended for a rejected fetch, a non-ok status or no body; otherwise the placeholder is appended and streamed into |
| Chat.ChatController.StreamBody | frontend/app/hooks/useChat.ts:119-128 | after the loop the last message holds the concatenation of all chunks, earlier messages are untouched, and the result is false exactly when the final read rejects |
| Chat.ChatController.AwaitRequest | frontend/app/hooks/useChat.ts:83-129 | a live key shares the pending outcome and posts nothing; otherwise the request runs once under this key; the pending table is as before afterwards |
| Chat.ChatController.RecordSuccess | frontend/app/hooks/useChat.ts:131-138 | exactly one sample is recorded, timed from the start reading |
| Chat.ChatController.FinishSend | frontend/app/hooks/useChat.ts:81-151 | appends the exchange's messages, posts at most once, records a sample exactly on success, leaves the render start time alone, and always ends with loading off |
| Chat.ChatController.Conclude | frontend/app/hooks/useChat.ts:131-151 | one sample on success or one error message on failure, then loading off; the render start time is unchanged |
| Chat.ChatController.HandleSendMessage | frontend/app/hooks/useChat.ts:64-152 | a blank input or key changes nothing, the render timer included; otherwise the timer starts at the send's clock reading, the user message and the exchange are appended, the body carries the log from before the send, the key is `input-model-last8(key)`, the input is cleared, loading ends off and the last non-empty message is announced |
| Chat.StreamedSendScenario | frontend/app/hooks/useChat.ts:64-152 | one send with streamed text from a fresh state gives the user message and one AI message holding the whole text, loading off, and "AI responded: " announced |
| Chat.FailedStatusScenario | frontend/app/hooks/useChat.ts:102-104 | a non-ok status gives the user message and exactly one error message, no placeholder, and loading off |
| Chat.HelloStreams | frontend/app/hooks/useChat.ts:123-124 | the chunks "He" and "llo" accumulate to "Hello" |
| Virtualization.CeilDiv | frontend/app/components/VirtualizedMessageList.tsx:25 | `ceil(a / b)` is the least multiple count covering `a` |
| Virtualization.VisibleStart | frontend/app/components/VirtualizedMessageList.tsx:23 | `floor(scrollTop / itemHeight)` is the item whose box holds the top of the viewport |
| Virtualization.ComputeWindow | frontend/app/components/VirtualizedMessageList.tsx:23-37 | the end never passes the list's length and the offset is `startIndex * itemHeight` |
| Virtualization.Slice | frontend/app/components/VirtualizedMessageList.tsx:32 | `slice(start, end)` has the clamped length and holds the elements from `start` on |
| Virtualization.WindowBounds | frontend/app/components/VirtualizedMessageList.tsx:23-28 | the window starts at most `overscan` items before the first visible item and ends within the list and within `ceil(H/h) + overscan` items after it |
| Virtualization.VisibleInOrder | frontend/app/components/VirtualizedMessageList.tsx:31-34 | the rendered items are the messages from `startIndex` to `visibleEnd` in order, and none when the range is empty |
| Virtualization.WindowCountBound | frontend/app/components/VirtualizedMessageList.tsx:24-34 | at most `ceil(H/h) + 2 * overscan` items are rendered |
| Virtualization.ScrolledPastEndIsEmpty | frontend/app/components/VirtualizedMessageList.tsx:31-34 | scrolled more than `overscan` items past the end, nothing is rendered |
| Virtualization.WindowInsideSpacer | frontend/app/components/VirtualizedMessageList.tsx:126-132 | the positioned block starts at the offset and ends within the spacer of height `N * itemHeight` |
| Virtualization.ViewportCovered | frontend/app/components/VirtualizedMessageList.tsx:23-28 | with at least one item of overscan every message meeting the viewport is rendered |
| Virtualization.NoOverscanMissesPartialItem | frontend/app/components/VirtualizedMessageList.tsx:24-27 | without overscan an item cut by the bottom edge is left out |
| Virtualization.RenderChoice | frontend/app/components/VirtualizedMessageList.tsx:90-108 | windowing is used exactly above 50 messages, the empty state exactly for none, all messages in order otherwise, and the typing indicator follows whenever loading |
| Virtualization.DefaultsExample | frontend/app/components/VirtualizedMessageList.tsx:14-37 | with the defaults, 200 messages scrolled 1200 in 600 pixels render items 5 to 19 at offset 600 in a 24000-pixel spacer |
| Api.Take | api/app.py:32 | `s[:n]` has length `min(|s|, n)` and is a prefix of `s` |
| Api.RemoveDangerousClean | api/app.py:31 | no `<`, `>`, `"` or `'` is left and the text never grows |
| Api.RemoveDangerousConcat | api/app.py:31 | the deletion distributes over concatenation |
| Api.RemoveDangerousKeepsSafe | api/app.py:31 | text without those characters is left as it is |
| Api.SanitizeSpec | api/app.py:26-32 | empty input gives empty output; the output has none of the four characters, at most 10000 characters, and is the start of the stripped input with them deleted: all of it when short enough, otherwise exactly its first 10000 characters |
| Api.SanitizeNotIdempotent | api/app.py:31 | sanitizing `"<  a"` gives `"  a"`, which sanitizes again to `"a"` |
| Api.RoleAcceptedIff | api/app.py:39-43 | a role is accepted exactly when it is "user" or "ai", and unchanged |
| Api.TextFieldIff | api/app.py:45-49 | a content, developer or user message is rejected exactly when all whitespace (empty included), with that field's error; otherwise returned sanitized |
| Api.DangerousOnlyAcceptedAsEmpty | api/app.py:45-49 | `"<>"` is accepted as the empty string |
| Api.ModelAcceptedIff | api/app.py:72-77 | the model is accepted exactly when absent or one of the three names; absent means "gpt-4.1-mini" |
| Api.ApiKeyIff | api/app.py:85-91 | a blank key is refused first with the empty-key error; otherwise a raw key without the "sk-" prefix is refused with the prefix error; the accepted key is the stripped one and still starts with "sk-" |
| Api.LeadingBlankKeyRejected | api/app.py:89 | `" sk-1"` is refused for its prefix although its stripped form would pass |
| Api.EntriesValue | api/app.py:56 | accepted history entries keep their number, order and roles, with sanitized contents |
| Api.EntriesAcceptedIff | api/app.py:56 | the history's entries are accepted exactly when each entry is |
| Api.EntriesRejectionReported | api/app.py:56 | rejected entries report at least one error |
| Api.HistoryBounded | api/app.py:79-83 | more than 50 entries are never accepted; an accepted history has at most 50 entries |
| Api.RequestAcceptedIff | api/app.py:53-91 | a request is accepted exactly when every field is, and then holds each field's validated value; a rejection reports at least one error |
| Api.BuildMessages | api/app.py:101-113 | the list has `|history| + 2` entries, the system message first, the history in order with "ai" renamed "assistant", the user message last, and no other system entry for validated roles |
| MessageInput.DisabledIff | frontend/app/components/MessageInput.tsx:17 | the button is disabled exactly when the input or the key is all whitespace or a request is in flight |
| MessageInput.TextareaDisabledIff | frontend/app/components/MessageInput.tsx:18 | there is a key exactly when some character of it is not whitespace; the textarea is disabled exactly when there is none, and then the button is too |
| MessageInput.KeyPressSendsIff | frontend/app/components/MessageInput.tsx:20-25 | exactly Enter without Shift sends; Shift+Enter and other keys do not |
| MessageInput.SubmitAlwaysSends | frontend/app/components/MessageInput.tsx:30-36 | the form's submit always sends |
| MessageInput.EnterBypassesLoadingGate | frontend/app/components/MessageInput.tsx:20-25 | with a request in flight the button is disabled yet Enter sends and the chat's guard passes |
| MessageInput.HelpTextIff | frontend/app/components/MessageInput.tsx:89-96 | the alert is shown exactly when there is no key, the keyboard hint otherwise |
| MessageInput.EnterWhileLoadingScenario | frontend/app/components/MessageInput.tsx:20-25 | a second message typed while loading is sent by Enter although the button is disabled, so two user messages are in the log |
| Exchange.ToApiHistory | frontend/app/hooks/useChat.ts:96 | the posted history keeps every message's role name and content, in order |
| Exchange.FrontendRolesAccepted | api/app.py:39-43 | every role the frontend sends is accepted by the backend |
| Exchange.InitialSettingsAccepted | frontend/app/hooks/useChat.ts:15-19 | the initial model and system prompt pass their validators |
| Exchange.LongHistoryRejected | api/app.py:79-83 | a send from a log of more than 50 messages is rejected |
| Exchange.BlankEntryRejected | api/app.py:45-49 | a send from a log holding an all-whitespace message is rejected |
| Exchange.EmptyPlaceholderPoisonsLog | frontend/app/hooks/useChat.ts:109-117 | once an empty placeholder is in the log every later send is rejected |
| Exchange.FrontendKeyGuardIsWeaker | frontend/app/hooks/useChat.ts:65 | the key "abc" passes the frontend's guard but the backend refuses it for its prefix |

## Left out

- `fetch`, the response body reader, the OpenAI client, `StreamingResponse`, CORS and the server are outside the model. The response is the `Reply` oracle and the backend's stream is not modelled.
- `TextDecoder.decode` is a foreign call. Each chunk is given as the text decoding makes of it, so nothing is claimed about characters split across chunks.
- `Date.now()`, `new Date()` and `performance.now()` are parameters: `Times` for a send and `now` for the utilities. Message timestamps are the clock reading, not a `Date`.
- Message ids are the decimal clock reading. Their uniqueness is not claimed, because user and error ids can collide.
- Concurrency is not modelled. A send runs to completion in `HandleSendMessage`, and the outcome of a shared pending call is the parameter `sharedOk`. `BeginSend` and `FinishSend` are separate steps, so a second send can start between them. The read loop runs inside `FinishSend` without interruption, so the case where a later send appends its user message while a stream is still running is not represented; in the code, `updateLastMessage` (`frontend/app/hooks/useChat.ts:41-48`, `127`) then overwrites that later message with the streamed text.
- The deduplicator's promises are opaque ids, and their resolution is the `sharedOk` parameter of the sender.
- The throttle's delay is a natural number. `setTimeout` is `Throttle.Tick`, which fires a due call at any later clock reading, not exactly when due.
- Text.IsWhitespace: only space, tab, line feed, carriage return, vertical tab and form feed are modelled, and one set serves both tiers. Python's `strip` also removes U+001C to U+001F and U+0085, and JavaScript's `trim` also removes U+FEFF (and both remove further Unicode spaces). So an input or key such as U+001C alone passes the frontend's non-blank guard and fails the backend's; the `Exchange` lemmas do not cover that difference.
- Lengths are counted in Unicode scalar values, not UTF-16 code units, for the 8-character key suffix and the input length.
- Api.ValidateModel: an explicit `null` model is not modelled. The model's input has only "absent" (which gets the default) and a string.
- Api.ValidateRequest: the errors are collected in field order, as pydantic reports them. Their messages and locations beyond the history index are not modelled.
- The backend's `chat` handler is modelled up to the message list. The `try`/`except` that turns exceptions into status 500 is not modelled.
- `recordMetrics` is modelled for partial records whose given fields are numbers. A field explicitly set to `undefined` is not modelled.
- The averages use `real`, not floating point.
- `itemHeight` is assumed positive, and `scrollTop` and `containerHeight` are natural numbers. Fractional scroll positions are not modelled.
- The resize listener, the `scrollTop` and `containerHeight` state, and the auto-scroll effect are not modelled. So are the other rendering and styling files, `ChatContext.tsx` and the settings form.
- `PerformanceMonitor.tsx` is a polling display, and its thresholds are not part of this model.
- React memoization, focus handling, `preventDefault` and `console.error` are not modelled.
