# Crypto watchlist state, modelled in Dafny

This project models the watchlist layer of a React Native cryptocurrency
watchlist app. Users keep named watchlists of coins, browse market data for
the coins of the selected watchlist, and edit a watchlist's name and coin
list. The model covers:

- **The Redux slices.** `watchlists` holds the watchlists and the selected id.
  `tempWatchlists` is a staging area for coins picked on another screen.
  `coins` caches market data, driven by the three lifecycle actions of one
  asynchronous fetch.
- **The list logic of three screens:**
  - *main*: which coins are shown, what a tap selects, what stays selected
    after a delete;
  - *edit watchlist*: a local editable copy of the coins, with merge, toggle,
    reorder, Done and "Add coins";
  - *add coins*: a case-insensitive search over a fixed catalogue, and a
    toggled list of picked ids.

Modules and files:

| file | module | models |
|---|---|---|
| `seqs.dfy` | `Seqs` | `Array.prototype.filter` on sequences, and the facts about it the rest relies on |
| `types.dfy` | `Types` | the `ICoin` and `IWatchlist` records |
| `watchlists_slice.dfy` | `WatchlistsSlice` | the `watchlists` reducers: pure functions on the list, and a class holding the slice state |
| `temp_watchlists_slice.dfy` | `TempWatchlistsSlice` | the staging slice, as a class |
| `coins_slice.dfy` | `CoinsSlice` | the market-data cache: a reducer over fetch events, and a class |
| `edit_watchlist_screen.dfy` | `EditWatchlistScreen` | the edit screen's row list and its handlers, as a class |
| `main_screen.dfy` | `MainScreen` | the main screen's derived list, selection and delete fallback |
| `add_coins_screen.dfy` | `AddCoinsScreen` | the add-coins search and toggle |

State that Immer's reducers and React's `useState` update in place is modelled
as classes whose methods reassign `seq` fields. Each such method states its
new state through a pure function. The properties are proved as lemmas about
that function.

Behaviours of the code a reader might not expect, which the model keeps:

- The `pending` case runs in every status, so a second request can start
  while one is in flight. `CoinsSlice.OverlappingFetchesLeaveStaleError` shows
  that a late failure followed by a success leaves `succeeded` together with
  the old error.
- `selectWatchlist` stores any id, whether or not a watchlist has it.
- The main screen shows the selected watchlist's coins in market-list order,
  not in watchlist order. Ids the market list lacks are dropped.
- `addCoinsToWatchlist` skips only coins already in the watchlist. Duplicates
  inside one payload are both appended (`WatchlistsSlice.PayloadDuplicatesKept`).
- The reducers never write a watchlist's `icon` or `coinCount`, so the model's
  `Watchlist` has only `id`, `name` and `coins`.
- On the add-coins screen, toggling a picked id off and on again moves it to
  the end of the list (`AddCoinsScreen.DoubleToggleReorders`).
- The edit screen reads `state.tempWatchlists.tempWatchlist`. The staging
  slice's field is called `selectedCoins`, so as written that read is always
  undefined and the focus merge never fires. The model's
  `EditScreen.OnFocus` takes the staged list as a parameter. Its contract
  covers both a non-empty list (merge and clear) and an empty one (no change).

## Model

| member | source | states |
|---|---|---|
| WatchlistsSlice.FindWatchlist | app/redux/slices/watchlistsSlice.ts:21 | the index of the first watchlist with the id, or none exactly when no watchlist has it |
| WatchlistsSlice.NewCoins | app/redux/slices/watchlistsSlice.ts:23-24 | a coin is kept iff it is in the payload and its id is not already held; payload order and multiplicities are kept |
| WatchlistsSlice.AddCoins | app/redux/slices/watchlistsSlice.ts:17-27 | only the first watchlist with the id changes, to its old coins followed by the new ones; every other entry is unchanged; an unknown id changes nothing |
| WatchlistsSlice.WithoutCoin | app/redux/slices/watchlistsSlice.ts:34 | no coin with the id remains; every other coin is kept with its multiplicity and in order; a missing id changes nothing |
| WatchlistsSlice.RemoveCoin | app/redux/slices/watchlistsSlice.ts:28-36 | only the first watchlist with the id loses that coin; every other entry is unchanged; an unknown id changes nothing |
| WatchlistsSlice.NewCoinsAfterMerge | app/redux/slices/watchlistsSlice.ts:23-25 | after a merge, the same payload contributes no new coins |
| WatchlistsSlice.AddCoinsIdempotent | app/redux/slices/watchlistsSlice.ts:17-27 | adding the same payload twice is the same as adding it once |
| WatchlistsSlice.NewCoinsKeepUniqueIds | app/redux/slices/watchlistsSlice.ts:23-25 | held coins plus new coins have unique ids when each list had unique ids |
| WatchlistsSlice.AddCoinsKeepsUniqueIds | app/redux/slices/watchlistsSlice.ts:17-27 | adding a payload with unique ids keeps every watchlist's coin ids unique |
| WatchlistsSlice.PayloadDuplicatesKept | app/redux/slices/watchlistsSlice.ts:23-25 | a payload holding the same coin twice adds it twice, which breaks id uniqueness |
| WatchlistsSlice.RemoveCoinIdempotent | app/redux/slices/watchlistsSlice.ts:28-36 | removing the same coin twice is the same as removing it once |
| WatchlistsSlice.WatchlistsState.constructor | app/redux/slices/watchlistsSlice.ts:5-8 | no watchlists and no selection |
| WatchlistsSlice.WatchlistsState.CreateWatchlist | app/redux/slices/watchlistsSlice.ts:14-16 | a new empty watchlist is appended at the end; the selection is unchanged |
| WatchlistsSlice.WatchlistsState.AddCoinsToWatchlist | app/redux/slices/watchlistsSlice.ts:17-27 | the list becomes `AddCoins` of the old list; the selection is unchanged |
| WatchlistsSlice.WatchlistsState.RemoveCoinFromWatchlist | app/redux/slices/watchlistsSlice.ts:28-36 | the list becomes `RemoveCoin` of the old list; the selection is unchanged |
| WatchlistsSlice.WatchlistsState.SelectWatchlist | app/redux/slices/watchlistsSlice.ts:37-39 | the given id is selected without checking it; the list is unchanged |
| TempWatchlistsSlice.TempWatchlistState.constructor | app/redux/slices/tempWatchlistsSlice.ts:4-7 | the default unicorn icon and no staged coins |
| TempWatchlistsSlice.TempWatchlistState.SetSelectedCoins | app/redux/slices/tempWatchlistsSlice.ts:13-15 | the staged coins are replaced wholesale; the icon is kept |
| TempWatchlistsSlice.TempWatchlistState.ClearTempWatchlist | app/redux/slices/tempWatchlistsSlice.ts:17-20 | back to the initial state: both fields are reset |
| TempWatchlistsSlice.StageThenClear | app/redux/slices/tempWatchlistsSlice.ts:13-20 | staging any coins and then clearing returns to the initial state |
| CoinsSlice.Reduce | app/redux/slices/coinsSlice.ts:29-40 | pending: loading, error cleared, items kept. Fulfilled: succeeded, items replaced, error kept. Rejected: failed, message recorded, items kept. Never idle afterwards |
| CoinsSlice.Replay | app/redux/slices/coinsSlice.ts:29-40 | after at least one event the status is never idle again |
| CoinsSlice.ReplayItemsAreLastPayload | app/redux/slices/coinsSlice.ts:33-40 | the cached coins are those of the latest fulfilled fetch, or the starting coins if none was fulfilled |
| CoinsSlice.PendingThenFulfilled | app/redux/slices/coinsSlice.ts:29-36 | after any history, a pending then a fulfilled leaves exactly the payload, succeeded, no error |
| CoinsSlice.OverlappingFetchesLeaveStaleError | app/redux/slices/coinsSlice.ts:29-40 | two overlapping requests, the first failing late, end as succeeded with the first request's error still set |
| CoinsSlice.CoinsState.constructor | app/redux/slices/coinsSlice.ts:17-21 | no coins, idle, no error |
| CoinsSlice.CoinsState.OnPending | app/redux/slices/coinsSlice.ts:29-32 | the state becomes `Reduce` of the old state with a pending event |
| CoinsSlice.CoinsState.OnFulfilled | app/redux/slices/coinsSlice.ts:33-36 | the state becomes `Reduce` of the old state with the payload |
| CoinsSlice.CoinsState.OnRejected | app/redux/slices/coinsSlice.ts:37-40 | the state becomes `Reduce` of the old state with the message |
| EditWatchlistScreen.LocalCoinsOf | app/edit-watchlist-screen.tsx:46-52 | one selected row per coin, in order, numbered by position |
| EditWatchlistScreen.ToggleSelection | app/edit-watchlist-screen.tsx:56-60 | exactly the rows with the id flip their flag; coins and order numbers are untouched |
| EditWatchlistScreen.ToggleSelectionTwice | app/edit-watchlist-screen.tsx:56-60 | toggling the same id twice restores the rows |
| EditWatchlistScreen.MergeStaged | app/edit-watchlist-screen.tsx:67-76 | the old rows stay as a prefix; after them come the staged coins not yet present, selected and numbered on from the old length |
| EditWatchlistScreen.MergeStagedIdempotent | app/edit-watchlist-screen.tsx:66-79 | merging the same staged list again changes nothing |
| EditWatchlistScreen.MergeStagedKeepsUniqueIds | app/edit-watchlist-screen.tsx:67-76 | the merge keeps row coin ids unique when the rows and the staged list each had unique ids |
| EditWatchlistScreen.FinalCoins | app/edit-watchlist-screen.tsx:88 | a coin is kept iff some selected row holds it |
| EditWatchlistScreen.FinalCoinsWhenSelectedBy | app/edit-watchlist-screen.tsx:88 | when the flags follow a predicate, the result is the row coins filtered by it, in row order |
| EditWatchlistScreen.FinalCoinsOfLoaded | app/edit-watchlist-screen.tsx:43-98 | loading a watchlist and pressing Done without changes gives back its coins |
| EditWatchlistScreen.DeselectThenDoneRemovesCoin | app/edit-watchlist-screen.tsx:56-98 | loading, deselecting one id and pressing Done removes exactly that coin, as `removeCoinFromWatchlist` would |
| EditWatchlistScreen.SplitJoin | app/edit-watchlist-screen.tsx:105-106 | the comma-joined id list splits back into the ids when there is at least one id and none contains a comma |
| EditWatchlistScreen.EditScreen.constructor | app/edit-watchlist-screen.tsx:39-40 | an empty name and no rows |
| EditWatchlistScreen.EditScreen.LoadWatchlist | app/edit-watchlist-screen.tsx:43-54 | a found watchlist sets the name and the rows; a missing one changes nothing |
| EditWatchlistScreen.EditScreen.SetName | app/edit-watchlist-screen.tsx:175 | only the name changes |
| EditWatchlistScreen.EditScreen.ToggleCoinSelection | app/edit-watchlist-screen.tsx:56-60 | the rows become `ToggleSelection` of the old rows; the name is unchanged |
| EditWatchlistScreen.EditScreen.OnFocus | app/edit-watchlist-screen.tsx:64-82 | a non-empty staged list is merged into the rows and the staging slice is cleared; an empty one changes nothing |
| EditWatchlistScreen.EditScreen.ReorderCoins | app/edit-watchlist-screen.tsx:183 | the rows become the reordered list as handed over |
| EditWatchlistScreen.EditScreen.DonePress | app/edit-watchlist-screen.tsx:84-98 | no update iff the name is blank or the watchlist is missing; otherwise the watchlist's id, the name as typed, and the selected rows' coins |
| EditWatchlistScreen.EditScreen.AddCoinsPress | app/edit-watchlist-screen.tsx:104-107 | when there is at least one row and no id contains a comma, the parameter splits back into every row's id, selected or not, in row order; no rows gives the empty string |
| MainScreen.DisplayedCoins | app/index.tsx:19-23 | nothing without a selection; otherwise a market coin is shown iff the watchlist holds its id, with its market multiplicity and in market order |
| MainScreen.DisplayedCoinsFollowMarketOrder | app/index.tsx:21-22 | watchlist order does not matter: `[c, b, a]` against market `[a, c]` shows `[a, c]` |
| MainScreen.WatchlistForTap | app/index.tsx:25-28 | the first watchlist with the id, or none exactly when no watchlist has it |
| MainScreen.SelectionAfterDelete | app/index.tsx:40-47 | as written: deleting the selected watchlist selects the pre-delete first entry if there were several, else nothing; any other selection stays |
| MainScreen.DeleteFallbackCanSelectDeleted | app/index.tsx:44-46 | deleting the selected first of two watchlists leaves that deleted watchlist selected |
| MainScreen.FirstSurvivor | app/index.tsx:44-46 | corrected lookup: the index of a watchlist that is not the deleted one, with every earlier entry being the deleted one; none iff every entry is the deleted one |
| MainScreen.SelectionAfterDeleteFixed | app/index.tsx:44-46 | corrected: the fallback is the first listed watchlist that is not the deleted one (every earlier entry is the deleted one), and is none iff nothing remains; any other selection stays |
| MainScreen.FixedFallbackAgreesWhenFirstSurvives | app/index.tsx:44-46 | when the first of several watchlists survives the delete, both fallbacks agree |
| AddCoinsScreen.FilteredCoins | app/add-coins-screen.tsx:31-35 | a coin is kept iff its lowered symbol or name contains the lowered text, with its multiplicity and in catalogue order; an empty text keeps all |
| AddCoinsScreen.SearchIgnoresCase | app/add-coins-screen.tsx:31-35 | the result does not depend on the case of the search text |
| AddCoinsScreen.SearchBitInCatalogue | app/add-coins-screen.tsx:18-35 | searching the catalogue for "bit" finds Bitcoin and Bitcoin Cash, in that order |
| AddCoinsScreen.WithoutId | app/add-coins-screen.tsx:39 | every occurrence of the id is dropped; the other ids are kept with their multiplicity and in order |
| AddCoinsScreen.ToggleCoin | app/add-coins-screen.tsx:37-41 | the id's membership flips (a present id loses every occurrence); other ids keep their multiplicity and order; an absent id is appended at the end |
| AddCoinsScreen.ToggleCoinKeepsNoDuplicates | app/add-coins-screen.tsx:37-41 | a duplicate-free list stays duplicate-free |
| AddCoinsScreen.ToggleAbsentTwice | app/add-coins-screen.tsx:38-40 | toggling an absent id twice gives the list back |
| AddCoinsScreen.TogglePresentTwice | app/add-coins-screen.tsx:38-40 | toggling a present id twice moves it to the end |
| AddCoinsScreen.DoubleToggleReorders | app/add-coins-screen.tsx:38-40 | `["btc", "eth"]` toggled at "btc" twice becomes `["eth", "btc"]` |

## Left out

- The `getCoinsMarkets` thunk body and the CoinGecko service are network I/O. The model starts at the three actions they dispatch. The rejection message is whatever string `rejectWithValue` carries.
- `updateWatchlist` and `deleteWatchlist` are imported by the screens (app/edit-watchlist-screen.tsx:17, app/index.tsx:7), but app/redux/slices/watchlistsSlice.ts:43-44 does not export them. Both imports are undefined at run time, so calling either action creator throws a `TypeError`. Neither has a reducer to model.
- MainScreen.SelectionAfterDelete: models the delete handler as if `deleteWatchlist` existed. As written, the handler throws at app/index.tsx:41 and never reaches the fallback at lines 44-46.
- EditWatchlistScreen.EditScreen.DonePress: models the Done handler as if `updateWatchlist` existed, and stops at the payload it builds (`UpdateRequest`). As written, the handler throws at app/edit-watchlist-screen.tsx:91, so the update is never dispatched and `router.back()` at line 97 never runs.
- Navigation (`router.back`, `router.push`) is left out. The add-coins URL is modelled only as its query value. app/add-coins-screen.tsx never reads that `existingCoinIds` parameter, so nothing in the app consumes it. `EditWatchlistScreen.Split` stands for no reader in the app, and `SplitJoin` is a well-formedness check on the string the edit screen builds.
- The modal's visibility, the edit-order toggle, styling, scaling and rendering are UI-only state with no list logic.
- The new-watchlist screen is left out: its create dispatch is commented out in the source.
- The add-coins Done handler is left out: it does nothing with the picked ids, so they never reach the staging slice.
- React's scheduling is not modelled: which render an effect sees, when focus effects fire, and whether a selection snapshot goes stale. Each handler is a call on the state it reads.
- `ICoin`'s numeric market fields (price, caps, supplies, ROI) are floating point and no logic reads them. The model keeps only `id`, `symbol`, `name`, `image` and `lastUpdated`.
- EditWatchlistScreen.EditScreen.ReorderCoins: the drag list hands over the whole new row list. The model does not claim that list is a permutation of the old one, because the source does not check it.
- AddCoinsScreen.ToLower: lowers ASCII letters only; other letters are left as they are. The catalogue and ticker symbols are ASCII, and Unicode case tables are out of scope.
- EditWatchlistScreen.Join: its own contract only covers the single-part case. The round trip lives in `SplitJoin`, against the independent `Split`.
- EditWatchlistScreen.EditScreen.AddCoinsPress: says nothing about the string when some coin id contains a comma. The join still produces a string, but it no longer splits back into the ids, and the model states no other characterisation of it.

## Findings

| source | as written | input that shows it | evidently intended | confidence | as-written member | corrected member |
|---|---|---|---|---|---|---|
| app/index.tsx:44-46 | when the selected watchlist is deleted, the fallback is `watchlists[0]` of the list as it was before the delete, whenever it held more than one | assuming `deleteWatchlist` existed (as written, line 41 throws first): watchlists `[A, B]` with `A` selected; delete `A`: `A` stays selected | select the first watchlist that remains, or nothing when none remains | high, not executed | MainScreen.DeleteFallbackCanSelectDeleted | MainScreen.SelectionAfterDeleteFixed |
