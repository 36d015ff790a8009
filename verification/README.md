# Smart Recipe Generator front end, modelled in Dafny

This project models the React front end of the Smart Recipe Generator. The
user fills in a preferences form and a backend generates a recipe. Generated
recipes are kept per user. The page shows the current recipe, can delete it
or mail it, and lists the history. The history can be searched and filtered
by meal type, cuisine, complexity and cooking time.

Each component whose `useState` variables change becomes a Dafny `class`.
Its fields are those state variables, and its handlers are `modifies this`
methods. Props that a component never changes are `const` fields. Decisions
that do not depend on state become pure functions, and lemmas state what
the components promise. Every backend answer is a parameter of the handler
that awaits it: a datatype of the possible outcomes (success with the data,
an HTTP error carrying the response text, no response). A handler returns
what it sends to the backend or whether it calls a callback (the payload,
the id, which filter callback is called and with what value), so these
appear in the contracts too.

The modules:

- `Js` (js.dfy): the JavaScript string behaviour the components rely on.
  - `trim()` and the `\s` class share one whitespace set.
  - `a || b` on strings.
  - `split`/`join` on a one-character separator, and a first-occurrence
    search that the executable email check uses.
- `History` (history.dfy): the join in App.jsx.
  - Each recipe row is joined with its generation request into a history entry.
  - A form field of the request that is missing or empty becomes a
    'No ... data' sentinel.
  - The history entry shown for the recipe on display is looked up by content.
- `App` (app.dfy): App.jsx's state and handlers: load, generate, delete,
  load from history, and the search/filter callbacks.
- `HistoryPanel` (history_panel.dfy): RecipeHistory.jsx.
  - Search, filter and clear.
  - The normalisation and validation of filter results.
  - The ingredient and content previews, and what the panel renders.
- `Login` (login.dfy): LoginModal.jsx, including the email pattern
  `^[^\s@]+@[^\s@]+\.[^\s@]+$`. It is written once as a language and once as
  an executable check, and the two are proved equal.
- `Review` (review.dfy): ReviewModal.jsx: the star rating, the caption,
  submission and the reset after success.
- `ReviewEmail` (review_email.dfy): ReviewEmailModal.jsx: the mail payload,
  with the 'Anonymous' default for the reviewer's name.
- `Display` (display.dfy): RecipeDisplay.jsx: which view is shown, the delete
  guard and mailing the recipe.
- `Preferences` (preferences.dfy): RecipeForm.jsx: the option lists, the
  defaults, field updates, clearing and submission.

Conventions:

- A `null` or `undefined` string from the backend is the empty string `""`.
  For truthiness and `||` they behave exactly like `""`; where `===` or a
  method call on them would differ, "## Left out" says so.
- A missing id is `0`, which is falsy too.
- A timestamp is kept as the backend's text.

## Model

| member | source | states |
|---|---|---|
| Js.Trim | src/components/LoginModal.jsx:11 | `trim()` leaves no whitespace at either end, is no longer than its input, and is empty exactly when the input is all whitespace (what `!s.trim()` tests) |
| Js.TrimSlice | src/components/LoginModal.jsx:18 | the trimmed text is the middle slice of the input, starting after the leading whitespace, and only whitespace is cut away on either side |
| Js.TrimIdempotent | src/components/LoginModal.jsx:18 | trimming an already trimmed text changes nothing, so a trimmed payload field is never blank when the guard passed |
| Js.TrimNoSpace | src/components/LoginModal.jsx:18 | a text without whitespace is its own trim |
| Js.OrElse | src/App.jsx:48-52 | `s \|\| fallback` on strings is exactly `s` when `s` is non-empty and exactly the fallback when `s` is empty, so it is non-empty whenever the fallback is |
| Js.IndexOf | src/components/LoginModal.jsx:17 | the first position of the character (the '@' the email pattern splits on), or the length exactly when it does not occur |
| Js.Split | src/components/RecipeHistory.jsx:226 | `split` on one character always yields at least one piece |
| Js.SplitJoin | src/components/RecipeHistory.jsx:226-227 | joining the pieces of `split` with the separator gives back the text, no piece contains the separator, and there is one piece more than there are separators |
| History.FirstMatch | src/App.jsx:41 | `requests.find` by id: the position of the first request with the recipe's `requestId`, none before it matching, or the length when none matches |
| History.FindRequest | src/App.jsx:41 | no request is found exactly when none has the recipe's `requestId`; a found request has that id and is one of the requests |
| History.FormOf | src/App.jsx:48-54 | no field of a history form is ever empty: each is the request's own value whenever that is non-empty, and a missing request gives the five sentinels |
| History.ToEntry | src/App.jsx:40-55 | a history entry keeps its recipe's id, content and creation time |
| History.OrphanEntryForm | src/App.jsx:47-53 | a recipe whose request is not found gets all five 'No ... data' sentinels |
| History.MatchedEntryForm | src/App.jsx:41-53 | with a request found, each form field is that request's value when non-empty and its own sentinel otherwise, field by field |
| History.Join | src/App.jsx:40-56 | the join has exactly one entry per recipe |
| History.JoinPointwise | src/App.jsx:40-56 | the join has one entry per recipe, at the same position, with that recipe's id and content: nothing is dropped, added or reordered |
| History.JoinAppend | src/App.jsx:40 | the join of two concatenated batches is the concatenation of their joins |
| History.JoinCons | src/App.jsx:40 | the first recipe's entry comes first, followed by the join of the rest |
| History.JoinKeepsIdsDistinct | src/App.jsx:40-56 | distinct recipe ids give distinct history ids |
| History.JoinWithoutRequests | src/App.jsx:40-56 | with no requests every entry carries the sentinel form and none is lost |
| History.FirstWithContent | src/App.jsx:264 | `history.find` by content: the first position whose content matches, or the length when none does |
| History.IdForContent | src/App.jsx:264 | the id passed to the display is absent exactly when no entry has the recipe's content, and otherwise is the id of an entry with that content |
| History.DisplayedEntryId | src/App.jsx:264 | the id found for an entry's content is that entry's own id unless an earlier entry has the same content, in which case it is the first such entry's id |
| App.GenerateFailure | src/App.jsx:76-91 | a failed generate leaves a non-empty error: the response's message or 'Failed to generate recipe', the HTTP error's message, or the connection message when the error carries none or there was no response |
| App.AppState.constructor | src/App.jsx:9-14 | not loading, no error, no recipe, empty history and empty cached lists, so the history is the join of the (empty) cached lists |
| App.AppState.LoadUserData | src/App.jsx:21-63 | on success the cached recipes and requests are replaced and the history becomes their join, with the error left alone; on failure only the error becomes 'Failed to load recipe history'; the history stays the join of the cached lists |
| App.AppState.GenerateRecipe | src/App.jsx:66-93 | the loading flag ends false; a reload happens exactly on `status === 'success'`, after which the display shows the content and the history is the reload's join, or the load error is set; otherwise the display is cleared, the history is untouched and the error is the failure text |
| App.AppState.LoadRecipeFromHistory | src/App.jsx:95-97 | the display shows the entry's content and nothing else changes |
| App.AppState.DeleteRecipe | src/App.jsx:99-108 | the DELETE request names the given recipe id; a reload happens exactly when the delete succeeded, with the same effects as a load; a failed delete sets 'Failed to delete recipe'; the recipe on display is never changed and the history stays the join of the cached lists |
| App.AppState.CurrentRecipeId | src/App.jsx:264 | no id exactly when no history entry shows the current recipe; otherwise the id of an entry that shows it |
| App.CurrentIdIsListed | src/App.jsx:263-264 | while the history is the join of the cached lists, the id the display hands to `deleteRecipe` is the id of a recipe the backend listed, whose content is the recipe on display |
| App.AppState.JoinedResults | src/App.jsx:110-141 | a search or filter callback returns one joined entry per backend row, in order, keeping id and content and joined against the cached requests, or `[]` on any failure |
| App.LoadThenLocate | src/App.jsx:95-97 | choosing history entry `k` whose content no earlier entry shares makes the display's id that entry's own id |
| HistoryPanel.EntryValid | src/components/RecipeHistory.jsx:93 | `null` fails the validity test, and a history entry passes it exactly when its id is non-zero and its content non-empty |
| HistoryPanel.ValidOnly | src/components/RecipeHistory.jsx:92-94 | the filtered list is never longer than its input |
| HistoryPanel.ValidOnlyKeeps | src/components/RecipeHistory.jsx:92-94 | the filter keeps exactly the valid entries (truthy, non-zero id, non-empty content, a form) and keeps an all-valid list whole |
| HistoryPanel.ValidOnlyAppend | src/components/RecipeHistory.jsx:92-94 | filtering a concatenation concatenates the filtered parts, so the kept entries stay in their original order |
| HistoryPanel.ValidOnlyCons | src/components/RecipeHistory.jsx:92-94 | a valid first element is kept in front of the filtered rest, an invalid one is dropped |
| HistoryPanel.FilterKey | src/components/RecipeHistory.jsx:106 | the key is the filter type, then '-', then the value, or 'undefined' when no value is given |
| HistoryPanel.Normalise | src/components/RecipeHistory.jsx:80-89 | `null`, `undefined` and an empty array become the full list; a single object becomes the one-element list of it; a non-empty array is kept; the list is non-empty whenever the full list is; every element comes from the full list or from the answer |
| HistoryPanel.Settle | src/components/RecipeHistory.jsx:92-101 | with no valid entry the full list is shown; otherwise the filtered list `ValidOnly(results)` itself, so the valid entries in their order, with duplicates kept |
| HistoryPanel.FilterOutcome | src/components/RecipeHistory.jsx:46-115 | a single object answer is shown alone when valid, else the full list; an array answer shows its valid entries in order, or the full list when it has none; a type that dispatches nothing shows the valid entries of the full list, or the full list; the key is 'all' exactly when a dispatched callback threw, and `type-value` otherwise |
| HistoryPanel.SearchOutcome | src/components/RecipeHistory.jsx:23-44 | the key is 'all' or 'search'; it is 'all' exactly when the text is blank or the callback threw, and then the full list is shown; under 'search' only elements of the callback's array are shown |
| HistoryPanel.FilterResultShape | src/components/RecipeHistory.jsx:79-106 | a filter that did not throw shows the valid entries of the normalised answer when there are any, and the full list exactly when there are none, under the key `type-value` |
| HistoryPanel.SingleFilterAnswerShown | src/components/RecipeHistory.jsx:83-85 | a callback that answers with one valid non-array value shows that value alone under `type-value` |
| HistoryPanel.EmptyFilterFallsBack | src/components/RecipeHistory.jsx:80-89 | an empty, `null` or `undefined` answer shows the same list as the 'all' filter |
| HistoryPanel.ValidFilterAnswerShown | src/components/RecipeHistory.jsx:92-106 | a non-empty answer of valid entries from a backend filter is shown exactly, with the key `type-value` |
| HistoryPanel.AllButtonKey | src/components/RecipeHistory.jsx:165-166 | the 'All' button sets the key 'all-undefined', which is not the 'all' the button is highlighted for |
| HistoryPanel.FilterErrorReverts | src/components/RecipeHistory.jsx:108-114 | a callback that throws restores the full list and the 'all' key |
| HistoryPanel.BlankSearchIsClear | src/components/RecipeHistory.jsx:40-43 | a blank search shows the full list under 'all', the same list and key as clearing the filters (which also empties the search box) |
| HistoryPanel.EmptySearchIsExplicit | src/components/RecipeHistory.jsx:27-33 | a non-blank search that finds nothing shows an empty list under 'search', which differs from the full list whenever there is history |
| HistoryPanel.NonEmptySearchShown | src/components/RecipeHistory.jsx:26-29 | a non-blank search answered with a non-empty array shows that array, unvalidated, under 'search' |
| HistoryPanel.SearchErrorReverts | src/components/RecipeHistory.jsx:34-38 | a search callback that throws restores the full list and the 'all' key |
| HistoryPanel.JoinedRowsShown | src/components/RecipeHistory.jsx:50-104 | a backend filter answered with App.jsx's joined rows shows exactly those entries when every row has an id and content |
| HistoryPanel.IngredientPreview | src/components/RecipeHistory.jsx:226-227 | the ingredient preview shows every comma-separated piece when there are at most two commas, and otherwise the first three pieces followed by "..." |
| HistoryPanel.ContentPreview | src/components/RecipeHistory.jsx:246 | the content preview is a prefix of the content of at most 100 characters followed by "...": the whole content when it is short, exactly 103 characters otherwise |
| HistoryPanel.CallbackFor | src/components/RecipeHistory.jsx:51-76 | a callback is chosen exactly for the four backend filter types, each type its own callback |
| HistoryPanel.RecipeHistory.constructor | src/components/RecipeHistory.jsx:14-16 | the panel starts with the full list, the 'all' key and an empty search box |
| HistoryPanel.RecipeHistory.ReceiveRecipes | src/components/RecipeHistory.jsx:18-21 | a new recipe list replaces the shown list; the key and the search text stay |
| HistoryPanel.RecipeHistory.SetSearchTerm | src/components/RecipeHistory.jsx:151 | typing changes only the search text |
| HistoryPanel.RecipeHistory.HandleSearch | src/components/RecipeHistory.jsx:23-44 | the callback receives the untrimmed text exactly when it is not blank, and the shown list and key are those of the search outcome |
| HistoryPanel.RecipeHistory.HandleFilter | src/components/RecipeHistory.jsx:46-115 | a callback is called exactly for the four backend filter types, namely the one for that type, with the given value; the shown list and key are those of the filter outcome; the full list and the search text are untouched |
| HistoryPanel.RecipeHistory.ClearFilters | src/components/RecipeHistory.jsx:117-121 | the full list, the 'all' key and an empty search box |
| HistoryPanel.RecipeHistory.View | src/components/RecipeHistory.jsx:124-135 | the "no recipes yet" notice exactly when the full list is empty; otherwise the shown list, with the "no results" notice exactly when it is empty |
| Login.IsEmail | src/components/LoginModal.jsx:17-18 | the executable reading of the pattern; `EmailCheckIsRegex` proves it equal to the pattern's language |
| Login.EmailCheckSound | src/components/LoginModal.jsx:17-18 | every text the executable check accepts matches the pattern |
| Login.EmailCheckComplete | src/components/LoginModal.jsx:17-18 | every text the pattern matches is accepted by the executable check |
| Login.EmailCheckIsRegex | src/components/LoginModal.jsx:17-18 | the check accepts exactly the texts the pattern matches |
| Login.CheckEmail | src/components/LoginModal.jsx:11-21 | accepted exactly when the text is not blank and its trim matches the pattern, handing on the trimmed text; rejected with the 'enter your email' message when blank and the 'valid email' message otherwise |
| Login.NotAnEmailRejected | src/components/LoginModal.jsx:17-20 | "not-an-email" is rejected as malformed |
| Login.LoginModal.constructor | src/components/LoginModal.jsx:5-7 | empty email, not submitting, no error |
| Login.LoginModal.SetEmail | src/components/LoginModal.jsx:61 | typing changes only the email |
| Login.LoginModal.HandleSubmit | src/components/LoginModal.jsx:9-37 | a rejected email sets its message and calls nothing; an accepted one passes the trimmed email to the login callback, ends not submitting, and sets 'Login failed' exactly when that step throws |
| Login.LoginModal.SubmitDisabled | src/components/LoginModal.jsx:78 | the button is disabled exactly while submitting or while the email is blank, so an enabled button never leads to the missing-email error |
| Review.ReviewRequest | src/components/ReviewModal.jsx:13-27 | the guard stops exactly a blank text or a missing star; past it, an empty date field throws before anything is sent; otherwise the payload has the recipe id, the trimmed (non-blank) text, the rating and the (non-empty) date |
| Review.Stars | src/components/ReviewModal.jsx:88-99 | five stars, star `i` filled exactly when `i <= rating` |
| Review.FilledStars | src/components/ReviewModal.jsx:88-99 | for a rating from 0 to 5 exactly that many stars are filled, and they are the leading ones |
| Review.RatingCaption | src/components/ReviewModal.jsx:103-105 | no caption for 0 stars, "1 star out of 5" for one, and "n stars out of 5" for n from 2 to 5 |
| Review.ReviewModal.constructor | src/components/ReviewModal.jsx:5-9 | empty text, rating 0, today's date, not submitting, no error |
| Review.ReviewModal.SetReviewText | src/components/ReviewModal.jsx:117 | typing changes only the text |
| Review.ReviewModal.HandleStarClick | src/components/ReviewModal.jsx:57-59 | clicking star `n` makes the rating `n` and changes nothing else |
| Review.ReviewModal.RatingView | src/components/ReviewModal.jsx:88-107 | with the rating in 0..5, exactly `rating` of the five stars are filled and the caption shows exactly when one is |
| Review.ReviewModal.HandleSubmit | src/components/ReviewModal.jsx:11-55 | sends the payload exactly when the review request posts one; an incomplete review sets the 'provide both' error; an empty date shows 'Network error' and keeps the fields; the callbacks run exactly on acceptance, which resets text, rating and date; a refusal shows the response text or 'Failed to submit review', a network failure 'Network error'; submitting ends false past the guard |
| Review.ReviewModal.SubmitDisabled | src/components/ReviewModal.jsx:160 | the button is disabled exactly while submitting or when the guard would send nothing |
| ReviewEmail.ReviewEmailFor | src/components/ReviewEmailModal.jsx:23-29 | the payload has the trimmed address, the review's text and rating and the title; the reviewer name is the trimmed name, or 'Anonymous' when that is blank, so it is never blank |
| ReviewEmail.ReviewEmailModal.constructor | src/components/ReviewEmailModal.jsx:5-9 | empty fields, not submitting, no messages |
| ReviewEmail.ReviewEmailModal.SetFields | src/components/ReviewEmailModal.jsx:111-126 | typing changes only the address and the name |
| ReviewEmail.ReviewEmailModal.HandleSubmit | src/components/ReviewEmailModal.jsx:11-59 | a blank address sets its error and sends nothing; otherwise submitting ends false; without a review nothing is sent and the network message is shown, which a rendered dialog (line 59) never reaches: rendered with an address, it always sends; with a review the payload is sent and acceptance shows the success text, a refusal the response text or 'Failed to send review', a network failure the network message |
| ReviewEmail.ReviewEmailModal.AfterSuccess | src/components/ReviewEmailModal.jsx:41-46 | the delayed step calls `onClose`, then clears the address, the name and the success text |
| ReviewEmail.ReviewEmailModal.SubmitDisabled | src/components/ReviewEmailModal.jsx:157 | the button is disabled exactly while submitting or while the address is blank |
| Display.SelectView | src/components/RecipeDisplay.jsx:69-128 | loading wins, then a non-empty error, then the placeholder for an empty recipe, else the recipe, with a delete button exactly when the id is truthy |
| Display.DisplayExamples | src/components/__tests__/RecipeDisplay.test.jsx:8-19 | a given recipe is shown and a missing one gives the placeholder |
| Display.RecipeDisplay.constructor | src/components/RecipeDisplay.jsx:6-10 | dialog closed, empty address, not sending, no message |
| Display.RecipeDisplay.Render | src/components/RecipeDisplay.jsx:69-128 | the recipe view exactly when nothing loads, there is no error and a recipe is given, showing that recipe, with the delete button exactly when the id is truthy |
| Display.RecipeDisplay.HandleDelete | src/components/RecipeDisplay.jsx:31-37 | the delete callback receives the current id exactly when the id is truthy, a callback is given and the user confirms |
| Display.RecipeDisplay.OpenEmailModal | src/components/RecipeDisplay.jsx:116 | the mail button opens the dialog and changes nothing else |
| Display.RecipeDisplay.CloseEmailModal | src/components/RecipeDisplay.jsx:158 | Cancel closes the dialog and changes nothing else |
| Display.RecipeDisplay.SetEmail | src/components/RecipeDisplay.jsx:146 | typing changes only the address |
| Display.RecipeDisplay.SendEmail | src/components/RecipeDisplay.jsx:39-67 | a blank address sets the 'enter an email' message and sends nothing; otherwise the trimmed address, the recipe and the fixed title are sent, sending ends false, and a delivery shows the success text and empties the address while a failure shows the failure text |
| Display.RecipeDisplay.AfterSent | src/components/RecipeDisplay.jsx:57-60 | the delayed step closes the dialog and clears the message |
| Preferences.Set | src/components/RecipeForm.jsx:18 | the named field takes the new value and every other field keeps its own |
| Preferences.SetLaws | src/components/RecipeForm.jsx:18 | writing a field's own value back changes nothing, and the later of two writes to a field wins |
| Preferences.FormConstants | src/components/RecipeForm.jsx:4-33 | the lists have 4, 10, 3 and 3 distinct options; the initial and the cleared form show listed options and differ only in the ingredients |
| Preferences.ChangeKeepsSelectable | src/components/RecipeForm.jsx:55-97 | choosing listed options or typing ingredients keeps every select on one of its options |
| Preferences.RecipeForm.constructor | src/components/RecipeForm.jsx:10-16 | the form starts at the defaults |
| Preferences.RecipeForm.HandleChange | src/components/RecipeForm.jsx:18 | the form becomes the update of the named field, the others unchanged |
| Preferences.RecipeForm.HandleSubmit | src/components/RecipeForm.jsx:20-23 | the submit callback receives the form as it stands, except that nothing is submitted while loading (the submit button is disabled, line 102) or with empty ingredients (the input is required, line 50) |
| Preferences.RecipeForm.ClearForm | src/components/RecipeForm.jsx:25-33 | while loading the disabled button does nothing (line 112); otherwise the ingredients are emptied and the selects return to their defaults |
| Preferences.SubmitScenario | src/components/__tests__/RecipeForm.test.jsx:37-49 | an untouched form submits the defaults, and after choosing BREAKFAST the form submits that meal type with every other field kept; a loading form submits nothing |

## Left out

- Network and configuration. axios/fetch calls, URLs, `config.js` and the
  `X-USER-ID` header are not modelled. Each call's outcome is a parameter,
  and so is every request body the front end receives back.
- Concurrency. The two fetches of a reload (`Promise.all`) are one answer
  that succeeds or fails as a whole. Interleavings of overlapping handlers
  are not modelled: each handler runs to completion.
- Timers. The 1-second login delay is not modelled. The 2-second
  `setTimeout` callbacks are separate methods (`AfterSent`, `AfterSuccess`)
  that the environment calls later.
- Dates and locale. `toLocaleString` and `toISOString` are not modelled:
  creation times and review dates stay as the backend's or the field's text.
  Today's date is a parameter.
- Rendering. JSX and CSS are reduced to the view selection, the button
  guards and the notices listed above.
- Dialogs and browser features. `alert` is not modelled. `confirm` is a
  boolean input. Clipboard copy, file download and `console` logging are
  not modelled either.
- Other components. BackendTest.jsx and LoggedMeals.jsx, the session and
  login gating around the page, logged meals and title derivation are not
  part of this model. The `isOpen` guards of LoginModal and ReviewModal are
  not modelled; ReviewEmailModal's is `Rendered`.
- Form payload. The form object `generateRecipe` posts is not modelled.
  Preferences.RecipeForm.HandleSubmit returns what it hands on.
- Button labels. The labels of the form's buttons while loading are not
  modelled; their disabled state is part of
  `Preferences.RecipeForm.HandleSubmit` and `ClearForm`.
- Browser submission. Browser-side validation of `type="email"` inputs is
  not modelled.
- App.AppState.JoinedResults: this one member stands for `searchRecipes` and
  the four `filterRecipesBy...` callbacks. They differ only in the URL they
  call.
- History.Join: the six copies of the join in App.jsx (lines 40-56,
  119-135, 147-161, 173-187, 199-213 and 225-239) are this one function.
- Text encoding. JavaScript strings are UTF-16, while Dafny strings are
  sequences of Unicode scalar values. `substring(0, 100)` in
  `HistoryPanel.ContentPreview` counts characters here, and UTF-16 code
  units in the browser. The two differ only for text outside the Basic
  Multilingual Plane.
- Value types. A `null` or missing string is `""` and a missing id is `0`.
  Values of other types, such as a numeric `content`, are not modelled.
- History.IdForContent: an entry whose content is `null` never equals `''`
  under `===` in App.jsx line 264, but here its content is `""` and matches an
  empty recipe. This only happens while no recipe is shown, when the display
  renders the placeholder and never uses the id.
- HistoryPanel.ContentPreview: `.substring` on a `null` content throws while
  the panel renders; here the content is `""` and its preview is "...".
- Review.ReviewRequest: a non-empty date field is taken to convert. A date
  input holds either `""` or a complete date, so only years outside the range
  of `toISOString` are not modelled. The ISO text itself is not produced: the
  payload carries the field's text.
- Display buttons. The copy, download and mail buttons of the display
  appear whenever a recipe is shown.
- Display.SelectView: the delete button's visibility does not check that an
  `onDelete` callback is given, as in the source. Display.RecipeDisplay.HandleDelete
  does check it.
- Review.ReviewModal.HandleSubmit: reports whether `onReviewSubmitted` is
  called, not its argument, the saved review that the backend returns.
- Review.ReviewModal.HandleSubmit: an answer that is `ok` but whose body is
  not valid JSON behaves like a network failure in the source. It is covered
  by the `NetworkFailure` answer.
- Review.ReviewModal.HandleStarClick: the only callers are the five star
  buttons, so the star is required to be from 1 to 5.
- HistoryPanel.RecipeHistory.View: the `safeFilteredRecipes` fallback for a
  non-array is not modelled. Every handler in the model stores an array.
