# Admin dashboard of the Yakshagana ticket-booking app, modelled in Dafny

The `AdminPanel` React component lets an administrator review bookings that a
backend REST API holds. It has two lists: the bookings awaiting approval and all
bookings. The administrator can approve or reject a pending booking and mark a
confirmed ticket as used at the venue. The component can also search the loaded
list client-side.

This project models the component's logic:

- `text.dfy` (module `Text`): the JavaScript string operations it relies on.
  - `toLowerCase` and `toUpperCase`, restricted to ASCII letters.
  - `trim`, with the exact ECMAScript whitespace and line-terminator set.
  - `includes`.
- `booking.dfy` (module `Bookings`): the booking record, and JavaScript truthiness of its optional fields.
- `search.dfy` (module `Search`): `filterBookings`. It is proved:
  - to be an order-preserving sub-list of its input;
  - to be characterised exactly, with multiplicities;
  - to be idempotent;
  - to ignore the query's case and surrounding whitespace;
  - to narrow as the query grows.
- `status.dfy` (module `StatusDisplay`): `getStatusColor` and `getStatusText`.
- `cards.dfy` (module `Cards`): what a card shows in the pending view and in the "all" view, driven by status and fields. This covers the mark-used action, the used banner and the used-at row.
- `panel.dfy` (module `Panel`): the component's state machine.
  - Each state transition is a pure function on a `PanelState` value, with its properties in its contract.
  - The class `AdminPanel` holds the component's state hooks as fields.
  - Its methods set them in the order the source calls the setters, and are proved to produce exactly those functions' results.
  - The outcome of each request is an input: `FetchResponse` or `ActionResponse`.
  - So are the answer to the confirmation dialog and the outcome of the refetch an action triggers.
- `wrappers.dfy` (module `Wrappers`): `Option`.

## Model

| member | source | states |
|---|---|---|
| Text.ToLower | src/AdminPanel.jsx:145-151 | lower-casing keeps the length and lower-cases each ASCII letter in place |
| Text.ToUpper | src/AdminPanel.jsx:139 | upper-casing keeps the length and upper-cases each ASCII letter in place |
| Text.TrimStart | src/AdminPanel.jsx:144-145 | the result is a suffix of the input; everything dropped is whitespace; the result does not start with whitespace |
| Text.TrimEnd | src/AdminPanel.jsx:144-145 | the result is a prefix of the input; everything dropped is whitespace; the result does not end with whitespace |
| Text.Trim | src/AdminPanel.jsx:144-145 | the result is a contiguous slice of the input; only whitespace lies outside it; it neither starts nor ends with whitespace |
| Text.ToLowerIdempotent | src/AdminPanel.jsx:145 | lower-casing twice equals lower-casing once |
| Text.TrimEmptyIffAllWhitespace | src/AdminPanel.jsx:144 | a string trims to empty exactly when all its characters are whitespace |
| Text.TrimIdempotent | src/AdminPanel.jsx:145 | trimming twice equals trimming once |
| Text.LowerTrimStartCommute | src/AdminPanel.jsx:145 | lower-casing commutes with trimStart |
| Text.LowerTrimEndCommute | src/AdminPanel.jsx:145 | lower-casing commutes with trimEnd |
| Text.LowerTrimCommute | src/AdminPanel.jsx:144-145 | lower-casing commutes with trim, so the blank test on the raw query and the trimmed lower-cased query agree |
| Text.ContainsAt | src/AdminPanel.jsx:147-151 | `includes` holds exactly when the query is a prefix of some suffix of the text |
| Text.ContainsBounds | src/AdminPanel.jsx:147-151 | a contained string is no longer than its container; the empty string is contained in every string |
| Text.ContainsTransitive | src/AdminPanel.jsx:147-151 | containment is transitive |
| Text.PrefixContains | src/AdminPanel.jsx:147-151 | whatever a prefix of a string contains, the string contains |
| Text.ContainsLower | src/AdminPanel.jsx:147-151 | an occurrence survives lower-casing both sides |
| Text.ContainsChar | src/AdminPanel.jsx:188 | a one-character string occurs exactly when that character does |
| Search.NormalizeQuery | src/AdminPanel.jsx:144-145 | the normalised query is the lower-cased trimmed text; it is empty exactly when the raw query is blank; it has no upper-case letter |
| Search.Filter | src/AdminPanel.jsx:146-152 | the result is no longer than the input; a booking is in it exactly when it is in the input and passes the test |
| Search.FilterBookings | src/AdminPanel.jsx:143-153 | a blank query returns the list unchanged; otherwise a booking is shown exactly when one of these contains the normalised query: its lower-cased name, booking ID or e-mail, its raw phone, or its lower-cased ticket ID when present |
| Search.FilterIsSubsequence | src/AdminPanel.jsx:146-152 | the filter result is an order-preserving sub-list of its input |
| Search.SubsequenceLength | src/AdminPanel.jsx:146-152 | an order-preserving sub-list is never longer than its source |
| Search.FilterCounts | src/AdminPanel.jsx:146-152 | each matching booking is kept exactly as often as it occurs in the input; a non-matching one never appears |
| Search.FilterAppend | src/AdminPanel.jsx:146-152 | filtering a concatenation concatenates the filtered parts |
| Search.FilterKeepsMatching | src/AdminPanel.jsx:146-152 | a list whose bookings all match is returned unchanged |
| Search.SubsequenceReflexive | src/AdminPanel.jsx:144 | a list is an order-preserving sub-list of itself, which is what a blank query returns |
| Search.FilterBookingsOrderAndCounts | src/AdminPanel.jsx:143-153 | for any query, blank or not, the search result keeps the list's order; each booking it shows appears exactly as often as in the list, and a non-matching one never appears |
| Search.FilterBookingsIdempotent | src/AdminPanel.jsx:143-153 | filtering the search result again with the same query gives the same result |
| Search.QueryCaseInsensitive | src/AdminPanel.jsx:145 | a lower-cased query gives the same result as the original query |
| Search.QuerySurroundingWhitespace | src/AdminPanel.jsx:144-145 | a trimmed query gives the same result as the original query |
| Search.CopiedFieldTextIsFound | src/AdminPanel.jsx:145-151 | text copied from a booking's name, ID, e-mail or present ticket ID finds it in any case; text copied from its phone finds it when that text has no upper-case letter |
| Search.MatchesNarrow | src/AdminPanel.jsx:147-151 | a booking matching a query matches every part of that query |
| Search.FilterNarrow | src/AdminPanel.jsx:146-152 | filtering by a wider query and then a narrower one equals filtering by the narrower one alone |
| Search.NarrowingQuery | src/AdminPanel.jsx:143-153 | the results for a longer query are the results for a shorter query that it contains, filtered again |
| StatusDisplay.ParseStatus | src/AdminPanel.jsx:121-141 | a recognised status text is the name of the status returned; an unrecognised text names no status |
| StatusDisplay.StatusColor | src/AdminPanel.jsx:121-130 | the colour is always one of the five fixed colours; it is grey `#6c757d` exactly for `cancelled` and for any unrecognised status |
| StatusDisplay.StatusText | src/AdminPanel.jsx:132-141 | an unrecognised status is shown as its own text upper-cased; a known status gets its entry of the caption table, which differs from its upper-cased text |
| StatusDisplay.ParseStatusName | src/AdminPanel.jsx:121-141 | recognising a status's name gives that status back |
| StatusDisplay.KnownStatusTable | src/AdminPanel.jsx:121-138 | each of the five known statuses gets its fixed colour and caption: confirmed green `#28a745`, pending amber `#ffc107`, rejected red `#dc3545`, cancelled grey `#6c757d`, used teal `#17a2b8` |
| StatusDisplay.ColorIdentifiesStatus | src/AdminPanel.jsx:121-130 | two statuses with the same non-grey colour are the same known status |
| StatusDisplay.KnownLabelsDistinct | src/AdminPanel.jsx:132-138 | the five known statuses have five distinct captions |
| StatusDisplay.FallbackLabel | src/AdminPanel.jsx:139 | the fallback caption has the status's length and no lower-case ASCII letter |
| StatusDisplay.LabelDoesNotIdentifyStatus | src/AdminPanel.jsx:132-141 | some unrecognised status text gets the same caption as a known status |
| Cards.RenderPendingCard | src/AdminPanel.jsx:206-228 | a pending card's caption is always the pending one and its colour follows the status; approve and reject act on this booking and are disabled while loading |
| Cards.RenderAllCard | src/AdminPanel.jsx:243-275 | an "all"-view card behaves as follows: (1) mark-used shows only for `confirmed`, with a green CONFIRMED badge; (2) the used banner shows only for `used`, never together with mark-used, and exactly when the badge is teal and the card is faded; (3) the used-at row needs `used` and a present `usedAt`; (4) the ticket-ID row needs a present ticket ID |
| Cards.RenderAllCards | src/AdminPanel.jsx:242-277 | one card per shown booking, in order |
| Cards.MarkUsedTargetsConfirmed | src/AdminPanel.jsx:264-270 | every mark-used button in the list acts on a confirmed booking's own ID and is disabled while loading |
| Panel.ActionPath | src/AdminPanel.jsx:78 | an action's endpoint is the action's prefix followed by the booking ID |
| Panel.ActionPathInjective | src/AdminPanel.jsx:78-110 | distinct (action, booking ID) pairs use distinct endpoints |
| Panel.ErrorText | src/AdminPanel.jsx:43 | a non-empty server error text is preferred; otherwise the fallback is used; the text is never empty when the fallback is not |
| Panel.ErrorMessage | src/AdminPanel.jsx:44 | every error message is the error prefix followed by the error text, and is displayed in the error style |
| Panel.SuccessMessage | src/AdminPanel.jsx:79 | a success message is displayed in the error style exactly when the server's text contains the cross mark |
| Panel.StartRequest | src/AdminPanel.jsx:36-37 | starting a request switches loading on and clears the message; nothing else changes |
| Panel.FinishFetch | src/AdminPanel.jsx:39-51 | a settled fetch always ends with loading off; the view and query are untouched |
| Panel.AfterFetch | src/AdminPanel.jsx:35-71 | a successful fetch replaces exactly its own list and leaves the other list, the token and the route alone. A failed fetch keeps both lists and sets the error message with its fallback. Only a 401 or 403 removes the token and routes to the login page. Loading always ends off |
| Panel.ActionSettled | src/AdminPanel.jsx:73-119 | when a handler's `finally` has run, loading is off and both lists, the token and the route are unchanged; a failure shows the action's error message |
| Panel.AfterAction | src/AdminPanel.jsx:73-119 | a declined confirmation changes nothing. A failed action keeps both lists, the token and the route, and shows the action's error message. After a successful action, a successful refetch replaces exactly the refreshed list: pending for approve and reject, all for mark-used. It leaves the message empty and keeps the token and the route. A failed refetch keeps the lists and shows the fetch error; only on 401 or 403 does it drop the token and route to the login page |
| Panel.AfterViewEffect | src/AdminPanel.jsx:22-33 | without a token only the route changes, to the login page; with one, the current view's list is fetched |
| Panel.AfterSelectView | src/AdminPanel.jsx:166-169 | selecting the current view changes nothing; selecting the other view switches to it and runs the effect |
| Panel.AfterFetchIdempotent | src/AdminPanel.jsx:35-71 | receiving the same fetch outcome twice equals receiving it once |
| Panel.FailureKeepsShownBookings | src/AdminPanel.jsx:41-48 | a failed fetch or failed action leaves the bookings on screen unchanged |
| Panel.TokenRemovedOnlyByAuthFailure | src/AdminPanel.jsx:45-48 | after an action the token is gone only if the action succeeded and its refetch failed with 401 or 403 |
| Panel.SuccessMessageLost | src/AdminPanel.jsx:79-80 | as written, a successful action's message is cleared by the refetch it starts, and a successful refetch leaves it cleared |
| Panel.AfterActionIntended | src/AdminPanel.jsx:79-80 | the corrected handler keeps the success message through a successful refresh |
| Panel.IntendedActionShowsSuccess | src/AdminPanel.jsx:73-119 | the corrected handler shows the success message, styled by its text, and otherwise agrees with the handler as written |
| Panel.AdminPanel.FilteredPendingBookings | src/AdminPanel.jsx:143-155 | the whole pending list for a blank query; otherwise exactly the pending bookings matching the normalised query. It keeps the list's order and each booking's multiplicity, and it is the list on screen in the pending view |
| Panel.AdminPanel.FilteredAllBookings | src/AdminPanel.jsx:143-156 | the whole "all" list for a blank query; otherwise exactly the loaded bookings matching the normalised query. It keeps the list's order and each booking's multiplicity, and it is the list on screen in the "all" view |
| Panel.AdminPanel.constructor | src/AdminPanel.jsx:9-15 | the hooks start empty, not loading, in the pending view, with the stored token's presence |
| Panel.AdminPanel.BeginRequest | src/AdminPanel.jsx:36-37 | the new state is `StartRequest` of the old |
| Panel.AdminPanel.ReceiveBookings | src/AdminPanel.jsx:39-51 | the new state is `FinishFetch` of the old |
| Panel.AdminPanel.FetchBookings | src/AdminPanel.jsx:35-71 | it sends a GET to the list's path; the new state is `AfterFetch` of the old |
| Panel.AdminPanel.FetchPendingBookings | src/AdminPanel.jsx:35-52 | it sends `GET /bookings/pending`; the new state is `AfterFetch` for the pending list |
| Panel.AdminPanel.FetchAllBookings | src/AdminPanel.jsx:54-71 | it sends `GET /bookings`; the new state is `AfterFetch` for the all list |
| Panel.AdminPanel.Act | src/AdminPanel.jsx:73-119 | it sends nothing when the dialog is declined. Otherwise it sends the action's POST, followed by the refreshed list's GET after a success. The new state is `AfterAction` of the old |
| Panel.AdminPanel.HandleApprove | src/AdminPanel.jsx:73-87 | it sends `POST /bookings/approve/<id>` only when confirmed, then `GET /bookings/pending` after a success; the new state is `AfterAction` for approve |
| Panel.AdminPanel.HandleReject | src/AdminPanel.jsx:89-103 | it sends `POST /bookings/reject/<id>` only when confirmed, then `GET /bookings/pending` after a success; the new state is `AfterAction` for reject |
| Panel.AdminPanel.HandleMarkAsUsed | src/AdminPanel.jsx:105-119 | it sends `POST /bookings/mark-used/<id>` only when confirmed, then `GET /bookings` after a success; the new state is `AfterAction` for mark-used |
| Panel.AdminPanel.ViewEffect | src/AdminPanel.jsx:22-33 | it sends the current view's GET only when a token is stored; the new state is `AfterViewEffect` of the old |
| Panel.AdminPanel.SelectView | src/AdminPanel.jsx:166-169 | re-selecting the current view sends nothing; switching to the other view sends that view's GET when a token is stored and nothing otherwise; the new state is `AfterSelectView` of the old |
| Panel.AdminPanel.Logout | src/AdminPanel.jsx:172 | the token is removed and the route is the home page; nothing else changes |
| Panel.AdminPanel.SetSearchQuery | src/AdminPanel.jsx:182-183 | only the search text changes |

## Findings

| source | as written | input that shows it | evidently intended | confidence | as-written member | corrected member |
|---|---|---|---|---|---|---|
| src/AdminPanel.jsx:79-80 | A successful action sets `✅ <message>` (lines 79, 95, 111) and then calls the refetch without awaiting it. The refetch runs `setMessage('')` (lines 37, 56) before its first `await`, so the success message is cleared at once, and a successful refetch leaves it cleared. The same happens at lines 95-96 and 111-112. | confirmed approve answered `{ message: "Booking approved" }`, then a successful `GET /bookings/pending`: the final message is `""` | the `✅` message set at line 79 (and at lines 95 and 111) stays on screen after the list has been refreshed successfully | high, not executed | Panel.SuccessMessageLost | Panel.AfterActionIntended |

## Left out

- HTTP is not modelled (axios, the base URL from the environment, the bearer header). Each request's outcome is an input parameter. Each request the component sends is returned by its method and its path relative to the base URL. The action handlers return their POST and the refetch's GET together.
- `localStorage` is reduced to whether a token is stored. The token's value and the `Authorization` header it produces are not modelled.
- `navigate` is recorded as the last route. `window.confirm` is a boolean input. `console.error` is not modelled, since it has no effect on the state.
- The asynchronous interleaving is not modelled.
  - A fetch is one step from start to settlement.
  - An action is one step that also covers the refetch it triggers, with the refetch's outcome as an input.
  - Between the handler's `finally` and the refetch's settlement, loading is off while a request is in flight. The model shows only `ActionSettled`, the state at that point.
  - Overlapping requests and the stale-response race are not modelled.
- Text.ToLower and Text.ToUpper: only ASCII letters change case. JavaScript's full Unicode case mapping is not modelled, so the model never folds non-ASCII letters.
- Date and time formatting with `toLocaleDateString`/`toLocaleString` is not modelled, because it depends on the locale. The used-at row carries the raw timestamp it would format.
- The JSX layout is not modelled. Not modelled either:
  - the `styles` object;
  - the loading spinner, the empty-state texts and the "Found N result(s)" line;
  - the pending/all counters on the view buttons.

  Only the data-driven card gates are modelled.
- Fields are assumed to be strings when the filter and the status badge read them. A booking whose name, booking ID, e-mail, phone or `status` is missing would make the source throw (`status.toUpperCase()` at line 139 among them); the model cannot express that.
- The relation between `totalPrice`, `pricePerTicket` and `numberOfTickets` is not modelled, because the component never checks it.
