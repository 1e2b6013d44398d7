# AI assessment app: handler and form controller in Dafny

This project models the two pieces of decision logic in the AI assessment web app.

- **The `/api/assess` serverless handler** (`assess.dfy`, module `Assess`). It is modelled as one total function, `Classify`. The function takes the HTTP method, the parsed body, the environment, the outcome of the chat-completion call, the outcome of the database insert and the current time. It returns the single response the handler sends.
  - The first-match chain of early returns in the try block is `TryBlock`.
  - The catch block's error mapping is `Catch`.
  - The two hosted services appear only as outcome values.
- **The React form controller** (`app.dfy`, module `App`). It has four state cells: `userInput`, `isLoading`, `assessmentResult` and `error`.
  - The class `FormController` is the component. Its event handlers update the fields one setter at a time, just as the setters do.
  - The submit handler is split at its `await` into `HandleSubmit` and `CompleteSubmit`.
  - Each handler is proved to reach the state given by a pure transition function on `FormState`: `Submitted`, `Finished` or `Cleared`. The properties are proved about those functions.
  - Predicates give the rules for enabling the controls and rendering the panels.
- **The JavaScript string built-ins** these decisions rest on (`jstext.dfy`, module `JsText`):
  - `trim`, which strips ECMAScript WhiteSpace and LineTerminator characters from both ends;
  - `split` on a one-character separator, with its inverse `join`.
- **The two sides together** (`endtoend.dfy`, module `EndToEnd`). For every response the handler can give to a POST of the form's text, the form ends an attempt with loading released and exactly one of result and error set.

Modelling choices:

- `process.env` becomes a `Config` record of optional strings. The `!value` test is `Truthy`: the value is set and not empty.
- The timestamp is the input `now`.
- A request body of `null` makes the destructuring at `assess.js:38` throw a TypeError inside the try block. The model follows it into the catch block, so it gets a generic 500. A body with no `text` is refused with 400.
- An error thrown by the database client (`InsertThrew`) goes through the same catch mapping as a rejected completion. An error value returned by the insert is ignored, as the source does.

Controls and panels:

- The textarea is disabled while loading (`App.jsx:75`), so `HandleInputChange` requires loading to be off.
- The Clear button is rendered only for non-empty input while not loading (`App.jsx:95`), so `HandleClear` requires `ClearOffered`.
- `handleSubmit` itself has no guard, so `HandleSubmit` has no precondition.
- The loading panel renders on its own condition (`App.jsx:128`). The error, result and loading panels still never overlap. The proof is in three steps:
  - `AtMostOnePanel` shows this under `Invariant`;
  - `InitialIdle` establishes `Invariant`, and `EventsKeepInvariant` preserves it;
  - `ReachablePanelsExclusive` shows it for every state that `Run` reaches from the initial state over any sequence of events.

## Model

| member | source | states |
|---|---|---|
| JsText.Trim | ai-assessment-app/api/assess.js:41 | `trim` yields the slice of `s` that starts where the forward scan stops, with only trimmable characters cut off at either end. It is empty exactly when every character is trimmable, and a non-empty result starts and ends with a kept character |
| JsText.IsBlank | ai-assessment-app/frontend/src/App.jsx:14 | the test `!s.trim()` holds exactly when every character of `s` is trimmable |
| JsText.StartFrom | ai-assessment-app/api/assess.js:41 | the scan stops at the first non-trimmable character at or after `i`, and everything it skipped is trimmable |
| JsText.EndFrom | ai-assessment-app/api/assess.js:41 | the backward scan stops just after the last non-trimmable character above `lo`, and everything it skipped is trimmable |
| JsText.Split | ai-assessment-app/frontend/src/App.jsx:120 | `split('\n')` always yields at least one part, and no part contains the separator |
| JsText.JoinSplit | ai-assessment-app/frontend/src/App.jsx:120 | the paragraph split is lossless: joining the parts with the separator gives back the text |
| JsText.SplitCount | ai-assessment-app/frontend/src/App.jsx:120 | the number of paragraphs is the number of newlines plus one |
| JsText.SplitJoin | ai-assessment-app/frontend/src/App.jsx:120 | the other direction: joining separator-free parts and splitting again gives back the parts |
| JsText.SplitNoSeparator | ai-assessment-app/frontend/src/App.jsx:120 | text without a newline is rendered as one paragraph holding all of it |
| JsText.SplitPrefix | ai-assessment-app/frontend/src/App.jsx:120 | a separator-free prefix joins onto the first part of the split |
| Assess.TryBlock | ai-assessment-app/api/assess.js:36-141 | the try block returns only 200, 400 or 500; it returns 200 only with non-empty completion content, stamped with `now`; every other response it returns is an error body with a non-empty message and no `message` detail |
| Assess.Catch | ai-assessment-app/api/assess.js:143-169 | the catch mapping is a priority table. Status 401 gives the authentication message (as a 500). Otherwise 429 gives 429 with the rate-limit message. Otherwise ENOTFOUND or ECONNREFUSED gives 503 with the unavailable message. Anything else gives the generic 500 message, with `message` echoing the error exactly in development |
| Assess.IsInvalidText | ai-assessment-app/api/assess.js:41 | the input check rejects `text` exactly when it is missing or falsy, not a string, or made only of trimmable characters |
| Assess.Classify | ai-assessment-app/api/assess.js:15-171 | the status is one of 200, 400, 405, 429, 500 and 503. OPTIONS gives 200 with an empty body, whatever the other inputs, and it is the only request with an empty body. Any other method but POST gives 405. Any other 200 carries the non-empty completion content and `now`. The error body's `error` is never empty, and `message` appears only on a 500 in development |
| Assess.InvalidTextRejected | ai-assessment-app/api/assess.js:38-45 | missing, non-string, empty or whitespace-only text gives 400 "Invalid input" whatever the configuration, upstream outcomes, clock or text length |
| Assess.LengthBoundary | ai-assessment-app/api/assess.js:47-52 | non-blank text is refused as too long exactly when it has more than 10000 characters, so length 10000 passes |
| Assess.ConfigurationOrder | ai-assessment-app/api/assess.js:54-67 | after input validation, a missing completion key gives the server-configuration 500 even when the database settings are missing too; otherwise a missing database URL or key gives the database-configuration 500; neither depends on the upstream outcomes |
| Assess.InsertErrorIgnored | ai-assessment-app/api/assess.js:115-141 | with non-empty completion content C, the response is 200 with assessment C whether the insert succeeded or returned an error |
| Assess.EmptyCompletionIsGenericError | ai-assessment-app/api/assess.js:101-105 | missing or empty completion content gives the generic 500, with "No response received from OpenAI" as `message` only in development |
| Assess.UpstreamErrorMapped | ai-assessment-app/api/assess.js:143-169 | a rejected completion call on a valid, configured request is answered by the catch mapping alone |
| Assess.PostSucceedsIff | ai-assessment-app/api/assess.js:36-141 | a POST gets 200 exactly when its text is valid, the configuration is complete, the completion has content and the insert did not throw |
| App.RequestFor | ai-assessment-app/frontend/src/App.jsx:14-32 | a submit sends a request exactly when the input is not blank, and the request carries the input unchanged |
| App.Submitted | ai-assessment-app/frontend/src/App.jsx:10-22 | blank input only sets "Please enter some text to assess" and leaves loading, result and input as they were; otherwise error and result are cleared and loading starts |
| App.RejectionMessage | ai-assessment-app/frontend/src/App.jsx:36-38 | a response without `ok` is turned into an error whose message is the response's `error` if present and non-empty, and exactly "Failed to get assessment" otherwise |
| App.CaughtMessage | ai-assessment-app/frontend/src/App.jsx:41-42 | the displayed message is the rejection's message for a non-ok response. For a thrown error it is the error's message, and exactly "An error occurred. Please try again." when that message is empty. It is never empty |
| App.Finished | ai-assessment-app/frontend/src/App.jsx:24-46 | when the request settles, loading is released on every path. Success stores the assessment and leaves the error alone. Failure stores a non-empty error and leaves the result alone |
| App.Cleared | ai-assessment-app/frontend/src/App.jsx:49-53 | Clear empties input, result and error and leaves loading unchanged |
| App.Paragraphs | ai-assessment-app/frontend/src/App.jsx:116-123 | when the result panel shows, the rendered paragraphs joined by newlines are the result, with one more paragraph than newlines and no newline inside any; otherwise none are rendered |
| App.ControlsGuarded | ai-assessment-app/frontend/src/App.jsx:75-95 | while loading, submit, edit and Clear are all unavailable. Pressing an enabled submit button always sends the input and starts loading |
| Assess.IsDevelopment | ai-assessment-app/api/assess.js:168 | development mode means `NODE_ENV` is exactly "development" |
| App.SubmitEnabled | ai-assessment-app/frontend/src/App.jsx:83 | the submit button is enabled exactly when not loading and the input is not blank |
| App.InputEnabled | ai-assessment-app/frontend/src/App.jsx:75 | the textarea accepts edits exactly when not loading |
| App.ClearOffered | ai-assessment-app/frontend/src/App.jsx:95 | the Clear button is rendered exactly when the input is non-empty and not loading |
| App.ShowsError | ai-assessment-app/frontend/src/App.jsx:108 | the error panel renders exactly when `error` is non-empty |
| App.ShowsResult | ai-assessment-app/frontend/src/App.jsx:116 | the result panel renders exactly when the result is non-empty and `error` is empty |
| App.ShowsLoading | ai-assessment-app/frontend/src/App.jsx:128 | the loading panel renders exactly when loading |
| App.InitialIdle | ai-assessment-app/frontend/src/App.jsx:5-8 | the initial state satisfies the invariant and renders no panel |
| App.EventsKeepInvariant | ai-assessment-app/frontend/src/App.jsx:10-95 | each event keeps the invariant "while loading, neither result nor error is held and the sent input is not blank": a submit in any state, an edit while the textarea is enabled, a completion, and Clear while its button is rendered |
| App.RunKeepsInvariant | ai-assessment-app/frontend/src/App.jsx:10-95 | any sequence of events, with disabled or hidden controls doing nothing, keeps the invariant |
| App.ReachablePanelsExclusive | ai-assessment-app/frontend/src/App.jsx:107-136 | in every state reachable from the initial one, at most one panel renders and the error panel wins over the result panel |
| App.AtMostOnePanel | ai-assessment-app/frontend/src/App.jsx:107-136 | under the invariant, at most one of the error, result and loading panels renders, and the error panel takes priority over the result |
| App.BlankSubmitHidesStaleResult | ai-assessment-app/frontend/src/App.jsx:14-17 | a blank submit sends nothing and sets only the error, so an earlier result is hidden behind the error panel |
| App.AttemptSettles | ai-assessment-app/frontend/src/App.jsx:19-46 | after a whole attempt, loading is false and exactly one of result and error is non-empty, unless the response was `ok` with an empty or absent assessment |
| App.FailedAttemptShowsServerError | ai-assessment-app/frontend/src/App.jsx:36-42 | a non-ok response with an `error` field shows that message in the error panel and no result |
| App.FormController.constructor | ai-assessment-app/frontend/src/App.jsx:5-8 | the four cells start empty and not loading |
| App.FormController.HandleInputChange | ai-assessment-app/frontend/src/App.jsx:68-76 | an edit, possible only while the textarea is enabled, replaces the input and nothing else, and keeps the invariant |
| App.FormController.HandleSubmit | ai-assessment-app/frontend/src/App.jsx:10-22 | the synchronous part of a submit, in any state, reaches `Submitted` of the old state and returns the request `RequestFor` gives, and keeps the invariant |
| App.FormController.CompleteSubmit | ai-assessment-app/frontend/src/App.jsx:24-46 | the setter sequence after the await, with its try/catch/finally, reaches `Finished` of the old state, and keeps the invariant |
| App.FormController.HandleClear | ai-assessment-app/frontend/src/App.jsx:49-53 | the three setters, run only while the Clear button is rendered, reach `Cleared` of the old state and keep the invariant |
| EndToEnd.Delivered | ai-assessment-app/frontend/src/App.jsx:26-38 | a body-less response (OPTIONS only) fails to parse. `ok` is a 2xx status. An error body fills exactly the `error` field, and an assessment body fills exactly the `assessment` field |
| EndToEnd.BlankAgreement | ai-assessment-app/frontend/src/App.jsx:14 | the form sends exactly the texts that pass the handler's blank check |
| EndToEnd.AttemptAgainstHandler | ai-assessment-app/frontend/src/App.jsx:24-46 | for every configuration and upstream outcome, an attempt with non-blank input ends with loading released and exactly one of result and error set. On a 200 the result is the handler's assessment; otherwise the error is the handler's `error` |

## Left out

- CORS headers (`assess.js:17-23`): they are set to the same constants before every branch, so they are not part of the response value.
- Constructing the completion and database clients and calling them (`assess.js:70-98`, `110-125`): these are foreign library calls. Their outcomes are the inputs `CompletionOutcome` and `InsertOutcome`. The prompt text, the model name, `temperature` and `max_tokens` have no effect on the decisions.
- All console logging: it is observability only.
- The timestamp (`assess.js:140`) is the opaque input `now`. The clock is not modelled.
- Assess.Classify: lengths are counted in Unicode scalar values, not in the UTF-16 code units of JavaScript's `length`. A text with characters outside the Basic Multilingual Plane can therefore pass the 10000-character bound in the model but fail it in JavaScript.
- Assess.Classify: a completion result whose `choices` is itself missing, which makes the optional chain at `assess.js:101` throw a TypeError, is not modelled. Only a missing first choice, message or content is.
- Assess.Catch: a thrown value that is not an Error object, and an error whose `message` is undefined, are not modelled. The thrown error's message is always a string.
- Assess.Classify: a thrown value whose `status` is not a number, or whose `code` is not a string, is not modelled.
- The JSON encoding of responses and the `fetch`/`response.json()` machinery: `EndToEnd.Delivered` maps each response body to the parsed fields the form reads, and nothing more.
- App.Finished: an `ok` response without an `assessment` stores the empty string, where the source stores `undefined`. Both are falsy in every place the state is read.
- App.RejectionMessage: a JSON `error` field that is not a string is not modelled.
- Async scheduling, and a response that arrives after the component is torn down: the model has a start event and a completion event, and nothing else runs between them.
- JSX markup, CSS and spinner elements: these are presentation. Only the conditions that decide which panels and controls render are modelled.
