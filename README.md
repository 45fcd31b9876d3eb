# Mines predictor: access and signal state machine

A Dafny model of the logic behind the two screens of the Mines predictor
client, and of the URL builder of its postback guide:

- **Signal generator** (`signal.dfy`, module `Signal`). It runs a
  Fisher–Yates shuffle of the cell indices 0..24, labels the 25-cell grid
  from a prefix of the shuffled list, and draws a confidence score. The
  demo and the 1-trap predictor mark 5 cells `star` and the rest `empty`.
  The 3- and 5-trap predictor marks k cells `mine` and the rest `star`.
  `Math.random()` is replaced by integer draws passed in by the caller.
  The shuffle draws are `draws[i]` in [0, i]. The confidence draw is an
  offset in [0, 29].
- **Login screen** (`login.dfy`, module `Login`). The `DemoView` class is
  the demo grid, gated by a counter persisted under `demo_prediction_count`.
  The `LoginScreen` class handles:
  - classifying the `verifyUser` reply, with the per-id ledger of
    not-registered attempts;
  - the deposit and re-deposit flags;
  - the demo gate;
  - the registration-link request;
  - choosing the screen by priority (demo, deposit, re-deposit, login form).
- **Predictor screen** (`predictor.dfy`, module `Predictor`). The
  `PredictorScreen` class handles:
  - the trap selection, which is locked while a signal is shown;
  - the quota-gated signal request and its rollback on refusal;
  - the refresh button;
  - the limit-reached view, derived from `predictionsLeft <= 0 && !isLoading`.
- **Postback guide** (`postback.dfy`, module `Postback`). It builds
  `baseUrl?key=value&...` and the three fixed parameter lists of the guide.
- `storage.dfy` (module `Storage`) models localStorage as a `Store` class
  over `map<string, int>`. `common.dfy` (module `Common`) holds `Option`, the
  localisation keys the handlers choose between, and the affiliate-link reply.

Each asynchronous handler is split at its `await`. The first method runs up
to the remote call and records what the handler's closure captured:
- the id being verified;
- the selected trap count;
- for the demo, the count that the timer will store.

A second method applies the remote outcome, which is passed in as a
datatype. The 600 ms `setTimeout` callbacks are separate `CompleteSignal`
steps.

Each screen class (`DemoView`, `LoginScreen`, `PredictorScreen`) has an
invariant `Valid()` that every method keeps:
- a shown grid is always a well-formed signal;
- a hidden grid is always 25 empty cells;
- the confidence is present exactly while a signal is shown, and lies in [70, 99];
- `isLoading` holds exactly while a verification (`LoginScreen`), a
  prediction consumption or its timer (`PredictorScreen`), or the demo timer
  (`DemoView`) is outstanding; the affiliate-link requests are not tracked
  by it;
- every id the attempts ledger owns holds a number, except ids named like
  an `Object.prototype` member, which hold a non-numeric string;
- the two deposit flags are never both set;
- a prediction is being consumed only while `predictionsLeft > 0`, so the
  decrement never goes below zero.

`Predictor.LastPredictionScenario` spells out a consequence of the
limit-reached rule. When the last prediction is used, the limit-reached view
replaces the screen as soon as the timer fires. The last generated grid is
therefore never displayed.

The model follows the code as written:
- The refresh handlers reset the grid unconditionally. Only the button is
  disabled when no signal is shown.
- Every unsuccessful verification clears the player-id input, including the
  deposit and re-deposit replies.
- The screen flags are not mutually exclusive: `isDemoMode` and
  `needsDeposit` can both be true. The demo button stays on screen while a
  verification is outstanding (`SubmitId` ensures `DemoButtonShown()`), so
  the demo can be opened before the reply arrives, and the reply can then
  set `needsDeposit`. `SelectScreen` resolves this by priority.
- The demo counter written by `DemoView.CompleteSignal` is the view's own
  counter plus one. That counter is read from storage at mount and raised
  by each signal completed in this view. The store is not re-read, so the
  stored count increases only if nothing else wrote the key in between.

## Model

| member | source | states |
|---|---|---|
| `Signal.Range` | components/LoginScreen.tsx:185 | defined as the list 0, 1, ..., n-1 of `Array.from({ length }, (_, i) => i)` |
| `Signal.SwapAt` | components/LoginScreen.tsx:189 | defined as the list with the entries at i and j exchanged |
| `Signal.ShuffleDown` | components/LoginScreen.tsx:187-190 | defined as the swaps of the shuffle loop for i, i-1, ..., 1, each with `draws[i]`; the result has the input's length |
| `Signal.FisherYates` | components/LoginScreen.tsx:187-190 | defined as `ShuffleDown` from the last index, the whole loop as a function; the result has the input's length |
| `Signal.ShuffleIndices` | components/PredictorScreen.tsx:316-322 | the in-place swap loop over `allIndices` yields `FisherYates(Range(n), draws)`, a permutation of 0..n-1: same multiset, no repeated entry, all entries in [0, n) |
| `Signal.FisherYatesPermutesRange` | components/LoginScreen.tsx:185-190 | the shuffled index list is a permutation of [0..n) for every sequence of draws with `draws[i]` in [0, i] |
| `Signal.ShuffleDownPreserves` | components/LoginScreen.tsx:187-190 | each remaining loop step swaps two entries, so multiset, distinctness and value range are kept |
| `Signal.StarIndicesDistinct` | components/LoginScreen.tsx:191 | the 5 selected indices are pairwise distinct cells in [0, 25) |
| `Signal.LabelCounts` | components/LoginScreen.tsx:192 | labelling n cells from k distinct indices in [0, n) gives exactly k hit cells and n - k miss cells |
| `Signal.ShuffledPrefix` | components/LoginScreen.tsx:191 | defined as the first k entries of `FisherYates(Range(25), draws)`, as the `slice(0, 5)` here and `slice(0, numberOfMines)` at PredictorScreen.tsx:342 |
| `Signal.Label` | components/LoginScreen.tsx:192 | defined as the n cells where a cell whose index is among the selected ones gets the hit label and every other cell the miss label (also PredictorScreen.tsx:326-329 and 344-347) |
| `Signal.StarGridCounts` | components/LoginScreen.tsx:182-192 | the demo grid has 25 cells: exactly 5 `star`, 20 `empty`, 0 `mine` |
| `Signal.MineGridCounts` | components/PredictorScreen.tsx:331-347 | a k-trap grid has exactly k `mine`, 25 - k `star`, 0 `empty` |
| `Signal.PredictorGridCounts` | components/PredictorScreen.tsx:314-347 | for 1 trap the grid has 5 stars, 20 empty and no mine; for 3 or 5 traps it has that many mines and stars everywhere else |
| `Signal.EmptyGrid` | components/PredictorScreen.tsx:272 | `Array(25).fill('empty')`, the grid before any signal and after a refresh: 25 cells, all `empty` (also LoginScreen.tsx:157 and 207) |
| `Signal.StarGrid` | components/LoginScreen.tsx:182-192 | defined as the first 5 indices of `FisherYates(Range(25), draws)` labelled `star`, every other cell `empty` (the demo grid, and the 1-trap branch at PredictorScreen.tsx:314-330) |
| `Signal.MineGrid` | components/PredictorScreen.tsx:331-347 | defined as the first k shuffled indices labelled `mine`, every other cell `star` |
| `Signal.PredictorGrid` | components/PredictorScreen.tsx:314-347 | defined as `StarGrid(draws)` when one trap is selected, otherwise `MineGrid(traps, draws)` |
| `Signal.EmptyGridCounts` | components/PredictorScreen.tsx:272 | the initial and refreshed grid has 25 `empty` cells and no star or mine |
| `Signal.Confidence` | components/PredictorScreen.tsx:310 | the confidence is an integer in [70, 99] |
| `Signal.ConfidenceCoversRange` | components/PredictorScreen.tsx:310 | every integer in [70, 99] is the confidence for some draw |
| `Storage.Store.Set` | components/LoginScreen.tsx:202 | writing a key replaces its value and leaves every other key as it was |
| `Storage.Store.Get` | components/LoginScreen.tsx:166-168 | `getItem` then `parseInt`: a value exactly when the key is stored, and then the stored count (also read at LoginScreen.tsx:456-457) |
| `Login.DemoView.constructor` | components/LoginScreen.tsx:157-170 | a mounted demo view shows 25 empty cells with no signal, no loading and no prompt, and holds the stored counter (0 when nothing is stored) |
| `Login.DemoView.GetSignal` | components/LoginScreen.tsx:172-192 | a no-op while a signal is active or loading; with the counter at 2 or more it only raises the login prompt and generates no grid; otherwise loading starts with a 5-star grid and the incremented count scheduled; the counter and store are unchanged |
| `Login.DemoView.CompleteSignal` | components/LoginScreen.tsx:194-203 | the scheduled grid is shown, the signal is active, loading ends, the counter rises by exactly 1 and the new value is stored under `demo_prediction_count` |
| `Login.DemoView.Refresh` | components/LoginScreen.tsx:206-209 | the grid becomes 25 empty cells and the signal inactive; the counter, loading state and prompt are unchanged |
| `Login.DemoView.TrapClick` | components/LoginScreen.tsx:211-213 | a demo trap button only raises the login prompt |
| `Login.DemoView.DismissLoginPrompt` | components/LoginScreen.tsx:315 | closing the prompt hides it |
| `Login.AttemptsOf` | components/LoginScreen.tsx:401 | defined as the owned value when the id is in the ledger, otherwise a non-numeric value when the id names an `Object.prototype` member, otherwise 0 |
| `Login.Plus1` | components/LoginScreen.tsx:402 | defined as: a number rises by 1; a non-numeric value (the string `+ 1` makes of an inherited member) stays non-numeric |
| `Login.BumpAttempts` | components/LoginScreen.tsx:401-403 | the id's value becomes its previous value plus 1 (a number rises by one, a non-numeric value stays non-numeric); every other id keeps its value; the key set gains only the id; the ledger's shape is kept |
| `Login.BumpTimesCounts` | components/LoginScreen.tsx:400-403 | n not-registered replies for one id raise a numeric count by exactly n, leave a non-numeric value non-numeric, and leave all other ids' values unchanged |
| `Login.EscalatesOnThirdReply` | components/LoginScreen.tsx:400-409 | for a fresh id whose name is not inherited from `Object.prototype`, the n-th not-registered reply shows the exhausted message exactly when n >= 3 |
| `Login.InheritedIdNeverEscalates` | components/LoginScreen.tsx:400-409 | for an id named like an `Object.prototype` member, no number of not-registered replies ever shows the exhausted message |
| `Login.OwnAttemptsOf` | components/LoginScreen.tsx:401 | the corrected own-key lookup, defined as the owned count when the id is in the ledger and 0 otherwise, whatever the id's name |
| `Login.OwnBumpTimes` | components/LoginScreen.tsx:400-403 | with a ledger that reads only owned ids, n replies raise the id's count by exactly n and leave every other id's count unchanged |
| `Login.OwnLedgerEscalatesOnThirdReply` | components/LoginScreen.tsx:400-409 | with a ledger that reads only owned ids, every fresh id, whatever its name, reaches the exhausted count exactly on the third reply |
| `Login.DemoExhausted` | components/LoginScreen.tsx:459 | defined as a count of 2 or more, the gate shared with the demo's signal request at LoginScreen.tsx:175 |
| `Login.SelectScreen` | components/LoginScreen.tsx:505-515 | demo beats deposit, deposit beats re-deposit, re-deposit beats the login form; each screen is chosen exactly under its condition |
| `Login.LoginScreen.CurrentScreen` | components/LoginScreen.tsx:505-515 | defined as `SelectScreen` of the screen's demo, deposit and re-deposit flags |
| `Login.StoredDemoCount` | components/LoginScreen.tsx:457 | defined as the stored count when one is stored, otherwise 0 |
| `Login.GrantsAccess` | components/LoginScreen.tsx:392 | defined as: the reply succeeded and carries a `predictionsLeft` |
| `Login.NotRegisteredMessage` | components/LoginScreen.tsx:405-409 | defined as the exhausted key when the new value is a number of 3 or more, otherwise the not-registered key |
| `Login.LoginScreen.DemoButtonShown` | components/LoginScreen.tsx:483 | defined as: neither demo mode nor either deposit flag is set |
| `Login.LoginScreen.ContinueEnabled` | components/LoginScreen.tsx:555 | defined as: the login form is the selected screen, no verification is loading and the id is non-empty |
| `Common.TextOr` | components/LoginScreen.tsx:414 | a non-empty server message is shown as is, an empty or missing one falls back to the localised key |
| `Login.LoginScreen.constructor` | components/LoginScreen.tsx:368-378 | the screen starts with an empty id, no error, no flags, an empty attempt ledger and the demo closed |
| `Login.LoginScreen.EditPlayerId` | components/LoginScreen.tsx:547 | typing replaces the player id |
| `Login.LoginScreen.SubmitId` | components/LoginScreen.tsx:382-391 | loading starts, the error and both deposit flags are cleared, the current id is the one sent for verification, and the demo button stays on screen |
| `Login.LoginScreen.ReceiveVerification` | components/LoginScreen.tsx:391-424 | the session is emitted exactly when the reply succeeds with a count; every other outcome, including an exception, clears the id; at most one deposit flag is set, each only for its own status; a not-registered reply raises that id's count by 1 and chooses the exhausted message exactly when the new count is at least 3; other replies show the no-count, server or unexpected-error message; loading always ends; an id named like an `Object.prototype` member always gets the plain not-registered message |
| `Login.LoginScreen.DemoClick` | components/LoginScreen.tsx:454-465 | with a stored count of 2 or more the demo stays closed and the demo-limit error is shown; otherwise the demo opens and the error is cleared |
| `Login.LoginScreen.ExitDemo` | components/LoginScreen.tsx:467-469 | the demo closes |
| `Login.LoginScreen.BackFromDeposit` | components/LoginScreen.tsx:451 | the deposit screen is left |
| `Login.LoginScreen.BackFromReDeposit` | components/LoginScreen.tsx:452 | the re-deposit screen is left |
| `Login.LoginScreen.Register` | components/LoginScreen.tsx:427-429 | the registration button becomes busy and the error is cleared |
| `Login.LoginScreen.ReceiveRegisterLink` | components/LoginScreen.tsx:430-448 | applied only while a registration request is outstanding (every register button is disabled while `isRegistering`, lines 78, 126 and 576); a granted link is navigated to and the button stays busy; a refusal shows the server message or the link-unavailable key, an exception the unexpected-error key, and the button is enabled again |
| `Login.ThreeRepliesScenario` | components/LoginScreen.tsx:400-409 | three not-registered replies for one id show the plain message twice and the exhausted message on the third; for an id named like an `Object.prototype` member, such as `constructor`, all three show the plain message |
| `Login.DemoLimitScenario` | components/LoginScreen.tsx:454-462 | after two completed demo signals, opening the demo again is refused with the demo-limit message |
| `Predictor.PredictorScreen.constructor` | components/PredictorScreen.tsx:263-275 | the screen starts with the user's quota, one trap, an empty grid, no signal, no loading and no confidence |
| `Predictor.PredictorScreen.SelectTraps` | components/PredictorScreen.tsx:166-167 | the trap count changes only while no signal is shown |
| `Predictor.PredictorScreen.GetSignal` | components/PredictorScreen.tsx:292-299 | a request is made exactly when no signal is shown, a prediction is left and nothing is loading; it carries the player's id, starts loading and captures the current trap count; otherwise nothing changes |
| `Predictor.PredictorScreen.ReceiveConsumption` | components/PredictorScreen.tsx:299-362 | a refusal or exception raises its alert, ends loading and leaves the quota unchanged with no grid; a consumed prediction lowers the quota by exactly 1, never below 0, and schedules the grid for the captured trap count with a confidence in [70, 99] |
| `Predictor.PredictorScreen.CompleteSignal` | components/PredictorScreen.tsx:351-356 | the scheduled grid and confidence are shown, the signal is active and loading ends; the limit-reached view now shows exactly when no prediction is left |
| `Predictor.PredictorScreen.Refresh` | components/PredictorScreen.tsx:366-370 | the grid becomes 25 empty cells, the signal inactive and the confidence null; the quota and trap selection are unchanged |
| `Predictor.DepositRedirect` | components/PredictorScreen.tsx:372-389 | a granted link is navigated to; a refusal alerts the server message or the link-unavailable key; an exception alerts the unexpected-error key |
| `Predictor.LimitReached` | components/PredictorScreen.tsx:398 | defined as `predictionsLeft <= 0 && !isLoading` |
| `Predictor.PredictorScreen.ShowsLimitReached` | components/PredictorScreen.tsx:398 | defined as `LimitReached` of the screen's quota and loading flag |
| `Predictor.LastPredictionScenario` | components/PredictorScreen.tsx:398-400 | with one prediction left, consuming it keeps the predictor on screen while loading and shows the limit-reached view once the timer fires |
| `Postback.RenderParam` | components/PostbackGuide.tsx:54 | defined as `key=value` |
| `Postback.RenderAll` | components/PostbackGuide.tsx:54 | `params.map(...)`: one rendered pair per parameter, in order |
| `Postback.Join` | components/PostbackGuide.tsx:54 | defined as `Array.prototype.join` with a one-character separator: "" for no parts, the part itself for one, otherwise the first part, the separator and the join of the rest |
| `Postback.Query` | components/PostbackGuide.tsx:54 | defined as the rendered pairs joined with `&` |
| `Postback.BuildUrl` | components/PostbackGuide.tsx:54 | the URL is the base URL, then `?`, then the query; an empty parameter list yields `baseUrl + "?"` |
| `Postback.BuildUrlRoundTrip` | components/PostbackGuide.tsx:54 | reading a built URL back gives the base URL and the parameters in their given order, when the base has no `?`, keys hold no `&` or `=` and values no `&` |
| `Postback.SplitJoin` | components/PostbackGuide.tsx:54 | splitting a `&`-joined list of `&`-free pairs gives back the pairs |
| `Postback.JoinSeparatorCount` | components/PostbackGuide.tsx:54 | joining m separator-free parts puts exactly m - 1 separators in the result |
| `Postback.QuerySeparatorCount` | components/PostbackGuide.tsx:54 | a query of m `&`-free pairs has exactly m - 1 `&` |
| `Postback.PostbackBase` | components/PostbackGuide.tsx:126 | defined as `domain + "/api/postback"` (also lines 136 and 147) |
| `Postback.RegistrationParams` | components/PostbackGuide.tsx:127-130 | defined as `event_type=registration`, then `user_id={user_id}` |
| `Postback.FirstDepositParams` | components/PostbackGuide.tsx:137-141 | defined as `event_type=first_deposit`, then `user_id={user_id}`, then `amount={amount}` |
| `Postback.RecurringDepositParams` | components/PostbackGuide.tsx:148-152 | defined as `event_type=recurring_deposit`, then `user_id={user_id}`, then `amount={amount}` |
| `Postback.GuideCards` | components/PostbackGuide.tsx:123-153 | defined as the three cards in display order, each with the postback base and its parameter list |
| `Postback.GuideCardsShape` | components/PostbackGuide.tsx:123-153 | every card's base URL is `domain + "/api/postback"`; every list starts with `event_type` followed by `user_id={user_id}`; the event types are registration, first_deposit and recurring_deposit |
| `Postback.RegistrationUrl` | components/PostbackGuide.tsx:123-131 | the registration card shows `domain/api/postback?event_type=registration&user_id={user_id}` |
| `Postback.FirstDepositUrl` | components/PostbackGuide.tsx:133-142 | the first-deposit card shows `domain/api/postback?event_type=first_deposit&user_id={user_id}&amount={amount}` |
| `Postback.RecurringDepositUrl` | components/PostbackGuide.tsx:144-153 | the recurring-deposit card shows `domain/api/postback?event_type=recurring_deposit&user_id={user_id}&amount={amount}` |

## Left out

- Rendering is not modelled: JSX, styles, icons, animations, the version
  label, and components/OnboardingModal.tsx, which has no logic.
- The remote calls `verifyUser`, `usePrediction` and
  `fetch('/api/get-affiliate-link')` are not modelled. Their outcomes are
  method parameters. `services/authService` is not part of this model.
- Navigation through `window.top.location` / `window.location` is an output
  (`navigateTo`, `NavigateTo`), not an effect.
- `alert` is an output message. `console.error` is dropped.
- `Math.random()` becomes integer draws. The model says nothing about their
  distribution or fairness.
- Time is not modelled. Each 600 ms `setTimeout` becomes an explicit
  `CompleteSignal` step, and when it runs is up to the caller.
- localStorage is a map from keys to integers. Values that `parseInt` turns
  into `NaN`, such as a corrupted counter, are not modelled.
- Profile-picture storage (components/PredictorScreen.tsx:278-289) is I/O
  without logic.
- Localisation `t(...)` is represented by `MessageKey` values. The `desc`
  texts of the postback parameters are localised display strings and are
  left out of `Postback.Param`.
- `window.location.origin` is the `domain` parameter of the postback functions.
- The sidebar, guide modal, admin authentication modal and test-postback
  view of the predictor screen are left out. So is the view switch between
  them. These are collaborators that are not part of this model.
- `navigator.clipboard` in `CopyableUrl` is left out.
- The demo view is remounted each time the demo opens. The model creates a
  fresh `DemoView` instead. It does not model a timer that fires after the
  view was closed: in that case the source still writes the store but no
  longer updates the unmounted view.
- Login.LoginScreen.SubmitId: requires `ContinueEnabled()`. The Continue
  button is the handler's only caller and is disabled while loading or when
  the id is empty, so overlapping verifications are not modelled.
- `demoUsedExceeded` (components/LoginScreen.tsx:378) is declared but never
  read or set by the source, so there is nothing to model.

## Findings

| source | as written | input that shows it | evidently intended | confidence | as-written member | corrected member |
|---|---|---|---|---|---|---|
| components/LoginScreen.tsx:401-405 | the attempts ledger is a plain object, so the lookup `loginAttempts[id]`, defaulting to 0, also finds members inherited from `Object.prototype`; `+ 1` then yields a string, and a string that reads as NaN is never `>= 3` | the id `constructor` rejected as not registered three times: all three replies show the plain not-registered message | every id escalates on its third not-registered reply (an own-key lookup, e.g. `Object.hasOwn` or a `Map`) | high; not executed | `Login.InheritedIdNeverEscalates`, `Login.ThreeRepliesScenario` | `Login.OwnLedgerEscalatesOnThirdReply` |

The screen class keeps the ledger as written (`Login.AttemptsOf`,
`Login.BumpAttempts`), so its contracts describe the program as it runs.
The own-key ledger (`Login.OwnAttemptsOf`, `Login.OwnBumpTimes`) states the
intended behaviour beside it.
