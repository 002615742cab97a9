# PHP-to-Node.js converter front end: store, request lifecycle and view rules

The application is a thin web client. The user pastes PHP code, a remote service converts it to
Node.js, and the user can browse a paginated, filterable history of past conversions. Nothing
here parses or translates code. What this project models and proves is the client's state
machine:

- `Api` (`src/services/api.ts`): the response shapes, and the classification of a failed HTTP
  call into exactly one display message (`handleApiError`). A call is represented by its outcome,
  a `Reply`: either the response data, or an abstract axios error
  `{hasResponse, responseMessage, hasRequest}`.
- `ConversionSlice` (`src/store/conversionSlice.ts`): the `conversion` slice. It holds the
  current conversion (`phpCode`, `nodeCode`, `isLoading`, `error`) and the history page (`items`,
  `total`, `page`, `limit`, `totalPages`, `isLoading`, `error`). `Reduce` is the reducer, with one
  case per plain action and per thunk lifecycle event. `ConversionStore` is the store object. Its
  methods update its two sub-states in place, and each is proved against `Reduce`. Each async
  thunk is a pending event, then a fulfilled or rejected completion that arrives later, in any
  order with other events. A run is a trace of events, folded by `ApplyAll`.
- `ConversionLaws`: properties of the slice. They cover each case's frame, idempotence, the
  outcome of a thunk's pending and completion pair, and last-resolved-wins over arbitrary traces
  (completions carry no request identity). They also show that the two sub-states are independent
  under any interleaving. They give invariants that hold in every state reached by events whose
  rejection messages are non-empty (and, for the page invariant, whose server pages are well
  formed).
- `ThemeSlice` (`src/store/themeSlice.ts`): the light/dark mode, with its toggle and setter.
- `JsString`: `String.prototype.trim`. It removes the ECMAScript WhiteSpace and LineTerminator
  characters, which are listed explicitly.
- `ConversionForm` (`src/components/ConversionForm.tsx`): user intents mapped to the store
  commands they dispatch, the button enable rules, and the copy-confirmation state.
- `HistoryList` (`src/components/HistoryList.tsx`): the query builder, the mapping between the
  table's 0-based page and the API's 1-based page, the refetch effect, the local filter state and
  the table-body selection.

Where the code behaves differently from what its names suggest, the model follows the code:

- `setPhpCode` alone does not clear the error. The form's typing handler does, by dispatching
  `clearError`, but only when the error is truthy. That also clears the history error.
  `TypingClearsError` proves that typing hides the error in any state whose errors are null or
  non-empty. `ApplyAllKeepsErrorsShown` proves that every state reached from the initial one by
  events whose rejection messages are non-empty is such a state; `CompletionsWellFormed` proves
  that every rejection the thunks emit has a non-empty message; `TypingClearsErrorWhenReachable`
  combines the two.
- The history search text is not trimmed. A search of spaces only is sent.
- Changing the search text or a date refetches at the store's current page. It does not reset
  to page 1.
- A table page change or a rows-per-page change fetches once from its handler. When the response
  moves the store's page or limit, the fetch effect then requests the same page a second time
  (`PageChangeFetchesTwice`, `RowsPerPageFetchesTwice`).

## Model

| member | source | states |
|---|---|---|
| `Api.HandleApiError` | src/services/api.ts:48-62 | The message is never empty. It is either one of the three fixed messages or, with a response present, the response's non-empty message |
| `Api.ServerMessageShown` | src/services/api.ts:51-53 | With a response whose body message is truthy, that message is shown verbatim |
| `Api.ServerMessageDefaulted` | src/services/api.ts:54 | With a response whose message is missing or empty, the fixed default "An error occurred while processing your request" is used |
| `Api.ConnectivityMessages` | src/services/api.ts:55-61 | Without a response, the message is "No response from server…" when a request was sent and "Failed to make request…" otherwise, whatever the body message |
| `Api.ResponseTakesPrecedence` | src/services/api.ts:51-57 | Precedence: once a response exists, the request flag does not affect the message |
| `Api.Settle` | src/services/api.ts:69-104 | Each API call yields the response data exactly when it was delivered, and otherwise fails with exactly the normalised, non-empty message |
| `ConversionSlice.Reduce` | src/store/conversionSlice.ts:76-128 | The reducer: conversion actions never change the history, history events never change the current conversion, and `clearError` empties both errors |
| `ConversionSlice.Started` | src/store/conversionSlice.ts:48-73 | One event per command, in order: a plain action (`setPhpCode`, `resetConversion` or `clearError`) is applied as it is, `convertPhpToNode` applies `convertPhpToNode.pending` and `getConversionHistory` applies `getConversionHistory.pending` at once; no completion is applied synchronously |
| `ConversionSlice.ConvertCompletion` | src/store/conversionSlice.ts:48-58 | The convert thunk completes as fulfilled with the delivered record iff the call succeeded, else as rejected with the `handleApiError` message |
| `ConversionSlice.HistoryCompletion` | src/store/conversionSlice.ts:63-73 | The same for the history thunk, with the delivered page |
| `ConversionSlice.ConversionStore.constructor` | src/store/conversionSlice.ts:26-42 | Initial state: empty code, not loading, no errors, no items, page 1, limit 10, totals 0 |
| `ConversionSlice.ConversionStore.SetPhpCode` | src/store/conversionSlice.ts:81-83 | Only `phpCode` changes; the error and the history are kept |
| `ConversionSlice.ConversionStore.ResetConversion` | src/store/conversionSlice.ts:85-87 | The current conversion becomes the initial one; the history is kept |
| `ConversionSlice.ConversionStore.ClearError` | src/store/conversionSlice.ts:89-92 | Both errors become null; every other field is kept |
| `ConversionSlice.ConversionStore.ConvertPending` | src/store/conversionSlice.ts:97-100 | Loading, error cleared, input and output kept, history untouched |
| `ConversionSlice.ConversionStore.ConvertFulfilled` | src/store/conversionSlice.ts:101-104 | Not loading, and the output is the record's converted code; the error is not touched |
| `ConversionSlice.ConversionStore.ConvertRejected` | src/store/conversionSlice.ts:105-108 | Not loading, the error is the message, and the previous output stays |
| `ConversionSlice.ConversionStore.HistoryPending` | src/store/conversionSlice.ts:111-114 | History loading, history error cleared, page data and current conversion kept |
| `ConversionSlice.ConversionStore.HistoryFulfilled` | src/store/conversionSlice.ts:115-122 | The five page fields together equal the response; not loading; the error is kept |
| `ConversionSlice.ConversionStore.HistoryRejected` | src/store/conversionSlice.ts:123-126 | Not loading, the error is the message, and the stale items and pagination stay |
| `ConversionSlice.ConversionStore.Dispatch` | src/store/conversionSlice.ts:76-128 | Every action applied to the store object gives exactly the reducer's next state |
| `ConversionLaws.SetPhpCodeOnlyInput` | src/store/conversionSlice.ts:81-83 | `setPhpCode` changes the input and nothing else; a visible error stays visible |
| `ConversionLaws.ResetRestoresInitial` | src/store/conversionSlice.ts:85-87 | From any state, reset yields the initial current conversion and keeps the history. It is idempotent |
| `ConversionLaws.ClearErrorOnlyErrors` | src/store/conversionSlice.ts:89-92 | `clearError` changes only the two error fields and is idempotent |
| `ConversionLaws.ConvertPendingKeepsCode` | src/store/conversionSlice.ts:97-100 | Pending sets loading and clears the error while keeping input and output |
| `ConversionLaws.HistoryRejectedKeepsPage` | src/store/conversionSlice.ts:123-126 | A rejected fetch keeps all five page fields, shows the message and stops loading |
| `ConversionLaws.ApplyAllAppend` | src/store/conversionSlice.ts:76-128 | Running a trace in two parts is running it whole |
| `ConversionLaws.ConvertSucceeds` | src/store/conversionSlice.ts:97-104 | Pending then fulfilled: not loading, no error, output is the converted code, input and history kept |
| `ConversionLaws.ConvertFails` | src/store/conversionSlice.ts:97-108 | Pending then rejected: not loading, error is the message, and the earlier output stays |
| `ConversionLaws.ConvertThunkOutcome` | src/store/conversionSlice.ts:48-58 | A convert run ends not loading. On delivery the output is the converted code with no error. On failure the output is unchanged and the error is the normalised message |
| `ConversionLaws.HistorySucceeds` | src/store/conversionSlice.ts:111-122 | Pending then fulfilled: page data equals the response, not loading, no error, current conversion kept |
| `ConversionLaws.NodeCodeFrame` | src/store/conversionSlice.ts:97-108 | Only a fulfilled conversion or a reset can change the output |
| `ConversionLaws.LastConversionWins` | src/store/conversionSlice.ts:101-104 | Whatever precedes it, the output is the code of the last fulfilled conversion applied, unless a reset follows |
| `ConversionLaws.PageDataFrame` | src/store/conversionSlice.ts:111-126 | Only a fulfilled fetch can change the page data |
| `ConversionLaws.LastHistoryWins` | src/store/conversionSlice.ts:115-122 | The page shown is the response of the last fulfilled fetch applied, even if a later fetch failed or is still in flight |
| `ConversionLaws.OverlappingConversionsClobber` | src/store/conversionSlice.ts:97-104 | Conversions A then B, with B resolving first: the final output is A's (last resolved, not last issued, wins) |
| `ConversionLaws.FirstCompletionClearsLoading` | src/store/conversionSlice.ts:101-102 | With two conversions in flight, the first completion already clears the loading flag |
| `ConversionLaws.HistoryRelevant` | src/store/conversionSlice.ts:89-126 | The events kept for the history are exactly the events that are not conversion-only, taken from the trace |
| `ConversionLaws.ConversionRelevant` | src/store/conversionSlice.ts:81-108 | The events kept for the current conversion are exactly the events that are not history events, taken from the trace |
| `ConversionLaws.HistoryRelevantKeepsOrder` | src/store/conversionSlice.ts:89-126 | The history filter keeps or drops each event on its own and distributes over concatenation, so it keeps the trace's order and repeats |
| `ConversionLaws.ConversionRelevantKeepsOrder` | src/store/conversionSlice.ts:81-108 | The same for the conversion filter |
| `ConversionLaws.ReduceSeparates` | src/store/conversionSlice.ts:76-128 | After one event, each sub-state depends only on that sub-state before it |
| `ConversionLaws.HistoryIgnoresConversion` | src/store/conversionSlice.ts:81-108 | Under any interleaving, the history ends as if no conversion event had happened |
| `ConversionLaws.ConversionIgnoresHistory` | src/store/conversionSlice.ts:111-126 | Under any interleaving, the current conversion ends as if no history event had happened |
| `ConversionLaws.InitialInvariant` | src/store/conversionSlice.ts:26-42 | The initial state has no errors and a well-formed page (page 1, limit 10, no items) |
| `ConversionLaws.ReducePreservesInvariant` | src/store/conversionSlice.ts:76-128 | Every event with a non-empty rejection message and a well-formed page keeps errors non-empty-or-null and the page well formed |
| `ConversionLaws.ApplyAllPreservesInvariant` | src/store/conversionSlice.ts:76-128 | The same holds over every trace of such events |
| `ConversionLaws.CompletionsWellFormed` | src/store/conversionSlice.ts:48-73 | Every completion the thunks emit has a non-empty rejection message. A delivered history page is well formed iff the server's page is |
| `ConversionLaws.ApplyAllKeepsErrorsShown` | src/store/conversionSlice.ts:76-128 | From a state whose two errors are null or non-empty, every trace whose rejection messages are non-empty keeps both errors null or non-empty, whatever pages the server sent |
| `ThemeSlice.Toggled` | src/store/themeSlice.ts:18-20 | Toggling always changes the mode: light to dark and dark to light |
| `ThemeSlice.ToggleTwiceIsIdentity` | src/store/themeSlice.ts:18-20 | Toggling twice gives back the original mode |
| `ThemeSlice.ThemeStore.constructor` | src/store/themeSlice.ts:9-11 | The initial mode is light |
| `ThemeSlice.ThemeStore.ToggleTheme` | src/store/themeSlice.ts:18-20 | The mode becomes the toggled old mode |
| `ThemeSlice.ThemeStore.SetTheme` | src/store/themeSlice.ts:21-23 | The mode becomes the given one, so setting it twice is the same as once |
| `JsString.TrimStart` | src/components/ConversionForm.tsx:61 | Leading-whitespace removal yields a suffix that starts with a non-space, and only whitespace was removed |
| `JsString.TrimEnd` | src/components/ConversionForm.tsx:61 | Trailing-whitespace removal yields a prefix that ends with a non-space, and only whitespace was removed |
| `JsString.TrimEmptyIffBlank` | src/components/ConversionForm.tsx:61 | `trim()` is empty exactly when every character is whitespace |
| `JsString.Trim` | src/components/ConversionForm.tsx:61 | `trim()` is a contiguous part of the input; everything removed before and after it is whitespace, and a non-empty result starts and ends with a non-space |
| `ConversionForm.OnPhpCodeChange` | src/components/ConversionForm.tsx:48-57 | Typing always dispatches `setPhpCode(value)`, then `clearError` exactly when the error is truthy |
| `ConversionForm.OnConvert` | src/components/ConversionForm.tsx:60-64 | Nothing is dispatched iff the input is blank; otherwise exactly `convertPhpToNode(phpCode)` |
| `ConversionForm.OnReset` | src/components/ConversionForm.tsx:67-69 | Reset dispatches exactly one `resetConversion` |
| `ConversionForm.OnCloseErrorAlert` | src/components/ConversionForm.tsx:107 | Closing the alert dispatches exactly one `clearError` |
| `ConversionForm.ConvertDisabled` | src/components/ConversionForm.tsx:138 | Convert is disabled iff loading or the input is blank |
| `ConversionForm.ResetDisabled` | src/components/ConversionForm.tsx:155 | Reset is disabled exactly while loading, and then Convert is disabled too |
| `ConversionForm.CopyDisabled` | src/components/ConversionForm.tsx:181 | Copy is disabled exactly while the output is empty, in particular in the initial state |
| `ConversionForm.ErrorAlertShown` | src/components/ConversionForm.tsx:103 | The alert is shown only when an error is set; when the error is null or non-empty, exactly when it is set |
| `ConversionForm.TypingClearsError` | src/components/ConversionForm.tsx:48-57 | From a state whose error is null or non-empty, typing stores the input and clears the error. The history error is cleared too iff a conversion error was set |
| `ConversionForm.TypingClearsErrorWhenReachable` | src/components/ConversionForm.tsx:48-57 | In every state reached from the initial one by events whose rejection messages are non-empty (as every thunk rejection is), typing stores the input and leaves no error |
| `ConversionForm.BlankInputDoesNothing` | src/components/ConversionForm.tsx:60-64 | A blank input issues no request and leaves the store unchanged |
| `ConversionForm.ConvertButtonMatchesHandler` | src/components/ConversionForm.tsx:138 | An enabled Convert button requests the conversion. A button disabled only by a blank input would do nothing |
| `ConversionForm.ConvertClickStartsLoading` | src/components/ConversionForm.tsx:60-64 | An enabled click immediately marks the conversion as loading and clears its error |
| `ConversionForm.ResetFromForm` | src/components/ConversionForm.tsx:67-69 | Reset from the form restores the initial current conversion and keeps the history |
| `ConversionForm.CloseAlertHidesErrors` | src/components/ConversionForm.tsx:103-111 | After closing the alert, neither the conversion error nor the history error is shown |
| `ConversionForm.ButtonsFollowLifecycle` | src/components/ConversionForm.tsx:133-185 | While a conversion is in flight, Convert and Reset are disabled (`disabled={isLoading…}`). Once it settles, Reset is enabled, Convert is enabled iff the input is not blank, and Copy is disabled iff there is no output |
| `ConversionForm.CopyFeedback.constructor` | src/components/ConversionForm.tsx:32 | No confirmation is shown initially |
| `ConversionForm.CopyFeedback.HandleCopyToClipboard` | src/components/ConversionForm.tsx:72-83 | With empty output nothing changes. Otherwise the confirmation reports whether the clipboard write succeeded |
| `ConversionForm.CopyFeedback.Dismiss` | src/components/ConversionForm.tsx:35-117 | Closing the alert (its `onClose` at line 117), or the timer firing (lines 35-45), removes the confirmation |
| `HistoryList.OptionalSearch` | src/components/HistoryList.tsx:56 | The search is sent iff it is non-empty, and then unchanged |
| `HistoryList.BuildParams` | src/components/HistoryList.tsx:53-59 | A query always carries page and limit, and each filter iff it is set. Reading the filters back from the query gives them exactly |
| `HistoryList.WhitespaceSearchIsSent` | src/components/HistoryList.tsx:56 | No trimming: every non-empty search, blank ones (spaces, tabs, no-break spaces) included, is sent as is |
| `HistoryList.OnChangePage` | src/components/HistoryList.tsx:65-78 | A table page change to n requests the API page the table shows as n, with the same limit and filters |
| `HistoryList.TablePage` | src/components/HistoryList.tsx:295 | The table's 0-based page is one less than the store's 1-based page, and not negative for a valid page |
| `HistoryList.PageMappingsInverse` | src/components/HistoryList.tsx:295 | The 0-based to 1-based page mapping and the table's `page - 1` invert each other, in both directions |
| `HistoryList.OnChangeRowsPerPage` | src/components/HistoryList.tsx:81-95 | A page-size change requests page 1 with the new limit and unchanged filters |
| `HistoryList.EffectFetch` | src/components/HistoryList.tsx:52-62 | The effect fetches iff it is mounting or a dependency changed, and then fetches the store's page and limit with the current filters |
| `HistoryList.MountFetch` | src/components/HistoryList.tsx:52-62 | On the first mount, with the store in its initial state, page 1 of 10 items is requested with no filters |
| `HistoryList.RemountFetch` | src/components/HistoryList.tsx:46-62 | On a later mount the store keeps its page and limit while the filters start empty, so the mount fetch requests the store's page and limit with no filters |
| `HistoryList.FilterChangeKeepsPage` | src/components/HistoryList.tsx:52-62 | A filter change refetches at the store's current page, not page 1 |
| `HistoryList.PageChangeFetchesTwice` | src/components/HistoryList.tsx:52-78 | Once the page requested by a page change arrives, the effect requests that same page again |
| `HistoryList.RowsPerPageFetchesTwice` | src/components/HistoryList.tsx:52-95 | Once the first page of a new page size arrives, the effect requests it again |
| `HistoryList.Body` | src/components/HistoryList.tsx:228-283 | Loading shows five placeholder rows. Otherwise non-empty items show the rows, and no items show the empty message; exactly one applies |
| `HistoryList.ShowPagination` | src/components/HistoryList.tsx:289 | Pagination is shown exactly when there are items: never beside the empty message, and once loading ends exactly beside the rows |
| `HistoryList.ErrorAlertShown` | src/components/HistoryList.tsx:140 | The history alert is shown only when an error is set; when the error is null or non-empty, exactly when it is set |
| `HistoryList.ClearDatesVisible` | src/components/HistoryList.tsx:207 | Clear Dates is shown exactly when a date is set, that is, when clearing the dates would change the filters and the query would carry a date |
| `HistoryList.ShortId` | src/components/HistoryList.tsx:250 | The id cell shows at most the first eight characters of the id, followed by "..." |
| `HistoryList.EmptyResultShowsEmptyState` | src/components/HistoryList.tsx:228-289 | A fetch in flight shows placeholders. A successful empty fetch shows the empty message and no pagination |
| `HistoryList.FailedFetchKeepsRows` | src/components/HistoryList.tsx:228-289 | A failed fetch keeps the previous rows and pagination on screen beside the error alert |
| `HistoryList.HistoryListState.constructor` | src/components/HistoryList.tsx:46-49 | Initially no search, no dates and no selected record |
| `HistoryList.HistoryListState.SetSearch` | src/components/HistoryList.tsx:98-103 | Only the search text changes |
| `HistoryList.HistoryListState.SetDateFrom` | src/components/HistoryList.tsx:170 | Only the from-date changes |
| `HistoryList.HistoryListState.SetDateTo` | src/components/HistoryList.tsx:190 | Only the to-date changes |
| `HistoryList.HistoryListState.ClearDates` | src/components/HistoryList.tsx:122-125 | Both dates become unset, the search stays, and the Clear Dates button is hidden |
| `HistoryList.HistoryListState.ViewDetails` | src/components/HistoryList.tsx:112-114 | The details dialog shows the chosen record; the filters are kept |
| `HistoryList.HistoryListState.CloseDetails` | src/components/HistoryList.tsx:117-119 | The dialog closes; the filters are kept |

## Left out

- HTTP transport: the axios instance, base URL, headers and 15-second timeout, and the verbs and
  paths of the three calls. A call appears only as its outcome (`Reply`), supplied as a parameter.
- `Api.HandleApiError`: a response body that is `null`, or a `message` that is not a string, is
  not modelled. The body message is an optional string. (With a `null` body, the source would
  throw a `TypeError` while reading `message`.)
- Redux Toolkit, Immer and `createAsyncThunk` scheduling, and promise ordering. Thunks appear only
  as their pending and completion events, and a trace may interleave them arbitrarily.
- Theme persistence in `localStorage`, the `setTheme(storedTheme)` call on mount, and the
  `dark-mode` body class in `src/layouts/MainLayout.tsx`. These are browser I/O.
- The clipboard write and the 3-second timer. Their outcomes are a parameter and the `Dismiss`
  event.
- Date objects, `toISOString` and `toLocaleString`. Dates are opaque optional strings, and the
  effect compares them by value. React compares `Date` objects by identity, so picking the same
  date again would also refetch, and the model does not capture that.
- `parseInt` of the rows-per-page value. The new limit is an integer parameter; the widget only
  offers 5, 10 and 25.
- HistoryList.ShortId: ids are sequences of Unicode code points, while `slice(0, 8)` counts UTF-16
  code units. For an id with a character outside the Basic Multilingual Plane the model keeps eight
  code points where the source keeps eight code units, possibly splitting a surrogate pair.
  For ids made of ASCII characters the two agree.
- Rendering: MUI layout, the Monaco editor (`src/components/CodeEditor.tsx`), the status chip
  colour, the details dialog's contents, the navigation bar, footer, SEO and pages.
- Telling overlapping requests apart. Completions carry no request identity, so a stale response
  is applied like a fresh one; the model proves last-resolved-wins instead (`LastConversionWins`,
  `OverlappingConversionsClobber`).
