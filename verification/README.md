# QuotesCompose navigation-and-load state, in Dafny

The app loads a bundled JSON list of quotes in the background. It shows the
list, and a tap on an item shows that quote in detail. All of its state lives
in the `DataManager` singleton: the loaded quotes `data`, the selected quote
`curQuote` (nullable), the `isDataLoaded` flag and the current page `curPage`
(`LISTING` or `DETAIL`). The `App()` composable reads that state to decide
what to show.

This project models that state as an immutable record and each operation as
a pure function:

- `quotes.dfy` (module `Quotes`): the `Quote` record (`text`, `author`).
- `data_manager.dfy` (module `DataManager`): the two-valued `Page` enum
  (declared beside `App()` in the source, used first by the singleton), the
  state, its initial value,
  `switchPages` as `SwitchPages`, and the state effect of `loadAssetsFromFile`.
  That effect has two steps, `AssignData` then `RaiseLoaded`, and the file read
  and parse are abstracted into a `Result` parameter.
- `app.dfy` (module `App`): `App()`'s screen selection as `Screen`, and the
  list's click callback as `OnListClick`. The list hands the same callback to
  every item (Screen/QuoteList.kt:12-14). This file also holds the events that
  drive the state (a tap on a shown item, a `switchPages` call while the detail
  page is up, the background load), runs of those events from the initial
  state, and the invariant every reachable state keeps.
- `wrappers.dfy` (module `Wrappers`): `Option` for Kotlin's nullable
  references and `Result` for steps that may throw.

`switchPages` is kept as the source writes it: a single toggle whose argument
is used only on the way from the list to the detail page. It is not split into
separate "activate" and "back" operations. Nothing in the model clears the
selection on the way back, and neither does the code.

## Model

| member | source | states |
|---|---|---|
| DataManager.Opposite | app/src/main/java/com/exa/android/quoteapp/MainActivity.kt:56-59 | The page a toggle lands on always differs from the page it started from |
| DataManager.PagesTwoValued | app/src/main/java/com/exa/android/quoteapp/MainActivity.kt:56-59 | `Pages` has exactly two values, so the `LISTING`/else dispatch covers every case, and the opposite of the opposite page is the page itself |
| DataManager.SwitchPages | app/src/main/java/com/exa/android/quoteapp/DataManager.kt:28-35 | The page always flips. From the list page the argument (null included) becomes the selection. From the detail page the argument is ignored and the selection is kept. The quotes and the loaded flag never change |
| DataManager.SwitchTwiceFromListing | app/src/main/java/com/exa/android/quoteapp/DataManager.kt:28-35 | Two toggles from the list page return to the list page with the first argument selected and nothing else changed |
| DataManager.SwitchAllParity | app/src/main/java/com/exa/android/quoteapp/DataManager.kt:29-34 | A run of toggles ends on the starting page exactly when it has even length. It never changes the quotes or the loaded flag |
| DataManager.SwitchAllSelection | app/src/main/java/com/exa/android/quoteapp/DataManager.kt:29-34 | After a run of toggles started on the list page, the selection is the argument of the last list-to-detail toggle (the last even position). Every other argument is ignored |
| DataManager.AssignData | app/src/main/java/com/exa/android/quoteapp/DataManager.kt:24 | The parsed array becomes `data`, while the loaded flag, page and selection are still as they were |
| DataManager.RaiseLoaded | app/src/main/java/com/exa/android/quoteapp/DataManager.kt:25 | The loaded flag is raised, and the quotes, page and selection are untouched |
| DataManager.LoadAssetsFromFile | app/src/main/java/com/exa/android/quoteapp/DataManager.kt:16-26 | A load that throws changes nothing. A load that succeeds leaves `data` equal to the parsed array with the flag raised. The page and selection are never touched |
| DataManager.LoadLastWins | app/src/main/java/com/exa/android/quoteapp/DataManager.kt:24-25 | A second successful load replaces the first outright, with no merge |
| DataManager.SwitchCommutesWithLoad | app/src/main/java/com/exa/android/quoteapp/DataManager.kt:16-35 | Loading and toggling touch disjoint fields, so their order does not matter |
| App.Screen | app/src/main/java/com/exa/android/quoteapp/MainActivity.kt:38-48 | Nothing is shown while not loaded, whatever the page or selection. Once loaded, the list page lists exactly `data`. The detail page shows the selected quote, or nothing when the selection is null |
| App.OnListClick | app/src/main/java/com/exa/android/quoteapp/MainActivity.kt:41-43 | While the list is shown in the current state, forwarding the clicked (non-null) quote takes the list-to-detail branch and shows that quote's detail |
| App.Step | app/src/main/java/com/exa/android/quoteapp/MainActivity.kt:40-45 | An event happens exactly when it is enabled. A tap shows the tapped quote in detail. A `switchPages` call from the detail page returns to the list and keeps the selection. Taps and such calls keep the quotes and the loaded flag. A load keeps the page and selection: it changes nothing if the asset fails, and otherwise installs the asset's quotes and raises the flag |
| App.InitialConsistent | app/src/main/java/com/exa/android/quoteapp/DataManager.kt:9-13 | The initial state (no quotes, no selection, not loaded, list page) shows nothing and satisfies the invariant |
| App.StepPreservesConsistent | app/src/main/java/com/exa/android/quoteapp/DataManager.kt:28-35 | Each user-interface-driven toggle and each load keeps the invariant: unloaded means empty, loaded means the asset's quotes, and the detail page means loaded with a selected quote from the list |
| App.RunPreservesConsistent | app/src/main/java/com/exa/android/quoteapp/DataManager.kt:16-35 | Every run of events keeps the invariant |
| App.ReachableDetailHasQuote | app/src/main/java/com/exa/android/quoteapp/MainActivity.kt:40-45 | In every reachable state, the detail page carries a non-null selection taken from the loaded list. The screen is blank exactly while the quotes are not loaded |
| App.FailedLoadStaysBlank | app/src/main/java/com/exa/android/quoteapp/MainActivity.kt:39 | If the asset cannot be loaded, every state the model reaches stays unloaded, on the list page, and shows nothing |
| App.ReachableDetailFromAsset | app/src/main/java/com/exa/android/quoteapp/MainActivity.kt:41-45 | Every reachable detail screen shows a quote of the successfully loaded asset |
| App.EveryQuoteReachable | app/src/main/java/com/exa/android/quoteapp/MainActivity.kt:41-45 | Conversely, any quote of a loaded asset can be shown in detail by loading and then tapping it |
| App.ReenterDetail | app/src/main/java/com/exa/android/quoteapp/DataManager.kt:28-35 | Tapping a quote, leaving the detail page and tapping it again ends where a single tap does: that quote in detail |
| App.NullSwitchBlanksLoadedApp | app/src/main/java/com/exa/android/quoteapp/MainActivity.kt:44-45 | Outside the user interface's discipline, `switchPages(null)` from the list page leaves the loaded app on the detail page showing nothing |
| App.LoadPublishesDataBeforeFlag | app/src/main/java/com/exa/android/quoteapp/DataManager.kt:24-25 | Between the assignment and the flag, nothing is shown. After the flag, the list page lists exactly the new quotes |
| App.TwoQuoteExample | app/src/main/java/com/exa/android/quoteapp/MainActivity.kt:40-45 | Loading two quotes and tapping the second shows the detail of the quote by author "Y" |

## Left out

- The asset read and the JSON parse (DataManager.kt:17-24) are file I/O plus a foreign library. They are the `parsed` parameter of `LoadAssetsFromFile`: either some array of quotes, or a `LoadError` before anything is assigned.
- Running the load on a background dispatcher and observing the state from the UI thread (MainActivity.kt:27-29) is concurrency and framework reactivity. The model interleaves the whole load as one event among the user's events. `LoadPublishesDataBeforeFlag` covers the one intermediate state the UI could observe.
- A load that throws runs inside a coroutine with no exception handler (MainActivity.kt:27-29). In the source the exception reaches the worker thread's uncaught-exception handler, and on Android that ends the process. The model records only the failed load's effect on the state, which is none. The blank, unloaded state it then keeps (`App.FailedLoadStaysBlank`) is an abstraction of that outcome, not something the app shows.
- App.Enabled: assumes each event is delivered after the screen has caught up with the state, so a tap is only possible on an item of the list the current state shows, and a `Leave` only while the current page is the detail page. In the source, the item callback is bound when the screen is composed (MainActivity.kt:41-43), and the screen catches up on the next frame. Two taps delivered before that update both call `switchPages`, and the second takes the else branch (DataManager.kt:32-34): it returns to the list with the first quote still selected. Two calls from the detail screen delivered before that update do the opposite: the first returns to the list, and the second starts from the list, takes the list-to-detail branch (DataManager.kt:29-31) and records its own argument. If that argument is null, the loaded app ends on the detail page showing nothing (`App.NullSwitchBlanksLoadedApp`). The model does not admit these runs. The following rely on this assumption: the invariant lemmas `App.StepPreservesConsistent`, `App.RunPreservesConsistent`, `App.ReachableDetailHasQuote` and `App.ReachableDetailFromAsset`; `App.OnListClick`'s requirement that the list be shown; `App.ReenterDetail`; and `App.Step`'s "a tap shows the tapped quote". `DataManager.SwitchTwiceFromListing` and `DataManager.SwitchAllSelection` state what undelayed toggles do.
- Compose rendering (Screen/QuoteListItem.kt, Screen/QuoteListScreen.kt, Screen/QuoteList.kt) is layout, colour and typography. A list screen is modelled as the sequence of quotes it lists, and a tap on any of its items as the same callback.
- The activity lifecycle, edge-to-edge setup and preview (MainActivity.kt:23-35, 50-54) have no state logic.
- `QuoteDetail` and the `Quote` class are not part of this model. `Quote` is a plain `text`/`author` record. The only way off the detail page is a `switchPages` call made while the detail page is up (the `Leave` event), with its argument unconstrained.
