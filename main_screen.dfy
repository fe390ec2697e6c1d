/**
 * The list logic of the main screen (app/index.tsx): which coins are shown for
 * the selected watchlist, which watchlist a tap selects, and what stays selected
 * after a delete.
 */
module MainScreen {
  import opened Types
  import Seqs
  import WatchlistsSlice

  /**
   * `displayedCoins`: nothing without a selection; otherwise the market coins
   * whose id the watchlist holds, in market order.
   */
  function DisplayedCoins(selected: Option<Watchlist>, allCoins: seq<Coin>): (r: seq<Coin>)
    ensures selected.None? ==> r == []
    ensures |r| <= |allCoins|
    ensures Seqs.IsSubsequence(r, allCoins)
    ensures selected.Some? ==> forall c :: c in r <==> c in allCoins && HasId(selected.value.coins, c.id)
    ensures selected.Some? ==> forall c :: multiset(r)[c] == if HasId(selected.value.coins, c.id) then multiset(allCoins)[c] else 0
  {
    match selected
    case None => []
    case Some(w) =>
      Seqs.FilterIsSubsequence(allCoins, (c: Coin) => HasId(w.coins, c.id));
      Seqs.Filter(allCoins, (c: Coin) => HasId(w.coins, c.id))
  }

  /**
   * Watchlist ids the market list does not have are dropped, and the order is
   * the market list's, not the watchlist's: with the watchlist holding `[c, b, a]`
   * and the market holding `[a, c]`, the screen shows `[a, c]`.
   */
  lemma DisplayedCoinsFollowMarketOrder(a: Coin, b: Coin, c: Coin)
    requires a.id != b.id && b.id != c.id && a.id != c.id
    ensures DisplayedCoins(Some(Watchlist("w", "W", [c, b, a])), [a, c]) == [a, c]
  {
    var held := [c, b, a];
    assert a in held && c in held;
    Seqs.FilterKeepsAll([a, c], (d: Coin) => HasId(held, d.id));
  }

  /** The first watchlist with the id, or nothing. */
  function WatchlistForTap(watchlists: seq<Watchlist>, watchlistId: string): (r: Option<Watchlist>)
    ensures r.Some? ==> exists k :: WatchlistsSlice.IsFirstMatch(watchlists, k, watchlistId) && r.value == watchlists[k]
    ensures r.None? <==> forall w :: w in watchlists ==> w.id != watchlistId
  {
    match WatchlistsSlice.FindWatchlist(watchlists, watchlistId)
    case None => None
    case Some(k) => Some(watchlists[k])
  }

  /**
   * The selection after `handleDeleteWatchlist(deletedId)`, as written: when the
   * deleted watchlist was the selected one, the first entry of the list as it was
   * BEFORE the delete if it held more than one watchlist, else nothing; any other
   * selection stays.
   */
  function SelectionAfterDelete(watchlists: seq<Watchlist>, selected: Option<Watchlist>, deletedId: string): (r: Option<Watchlist>)
    ensures selected.None? || selected.value.id != deletedId ==> r == selected
    ensures selected.Some? && selected.value.id == deletedId ==>
      (r.Some? <==> |watchlists| > 1) && (r.Some? ==> r.value == watchlists[0])
  {
    if selected.Some? && selected.value.id == deletedId then
      if |watchlists| > 1 then Some(watchlists[0]) else None
    else selected
  }

  /** The fallback can select the very watchlist that was deleted, when it came first. */
  lemma DeleteFallbackCanSelectDeleted(first: Watchlist, second: Watchlist)
    requires first.id != second.id
    ensures SelectionAfterDelete([first, second], Some(first), first.id) == Some(first)
  {
  }

  /** The index of the first watchlist that is not the deleted one, if any. */
  function FirstSurvivor(watchlists: seq<Watchlist>, deletedId: string): (r: Option<nat>)
    ensures r.Some? ==> r.value < |watchlists| && watchlists[r.value].id != deletedId
    ensures r.Some? ==> forall j :: 0 <= j < r.value ==> watchlists[j].id == deletedId
    ensures r.None? <==> forall w :: w in watchlists ==> w.id == deletedId
    decreases |watchlists|
  {
    if watchlists == [] then None
    else if watchlists[0].id != deletedId then Some(0)
    else
      match FirstSurvivor(watchlists[1..], deletedId)
      case None =>
        assert watchlists == [watchlists[0]] + watchlists[1..];
        None
      case Some(k) =>
        assert watchlists[0] in watchlists;
        Some(k + 1)
  }

  /**
   * The fallback as intended: when the selected watchlist is deleted, the first
   * watchlist that remains, or nothing when none remains.
   */
  function SelectionAfterDeleteFixed(watchlists: seq<Watchlist>, selected: Option<Watchlist>, deletedId: string): (r: Option<Watchlist>)
    ensures selected.None? || selected.value.id != deletedId ==> r == selected
    ensures selected.Some? && selected.value.id == deletedId ==>
      (r.None? <==> forall w :: w in watchlists ==> w.id == deletedId) &&
      (r.Some? ==> r.value in watchlists && r.value.id != deletedId)
    ensures selected.Some? && selected.value.id == deletedId && r.Some? ==>
      exists k :: 0 <= k < |watchlists| && watchlists[k] == r.value && (forall j :: 0 <= j < k ==> watchlists[j].id == deletedId)
  {
    if selected.Some? && selected.value.id == deletedId then
      match FirstSurvivor(watchlists, deletedId)
      case None => None
      case Some(k) => Some(watchlists[k])
    else selected
  }

  /** Whenever the deleted watchlist is not the first of several, the two fallbacks agree. */
  lemma {:induction false} FixedFallbackAgreesWhenFirstSurvives(watchlists: seq<Watchlist>, selected: Option<Watchlist>, deletedId: string)
    requires |watchlists| > 1 && watchlists[0].id != deletedId
    ensures SelectionAfterDeleteFixed(watchlists, selected, deletedId) == SelectionAfterDelete(watchlists, selected, deletedId)
  {
  }
}
