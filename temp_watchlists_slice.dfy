/**
 * The staging slice (app/redux/slices/tempWatchlistsSlice.ts): the coins picked
 * while composing a watchlist, and the icon chosen for it.
 */
module TempWatchlistsSlice {
  import opened Types

  /** The default icon, U+1F984 (unicorn face). */
  const DefaultIcon: string := "\U{1F984}"

  class TempWatchlistState {
    var icon: string
    var selectedCoins: seq<Coin>

    /** The state `initialState` describes: default icon, nothing staged. */
    ghost predicate IsInitial()
      reads this
    {
      icon == DefaultIcon && selectedCoins == []
    }

    /** `initialState` */
    constructor ()
      ensures IsInitial()
    {
      icon := DefaultIcon;
      selectedCoins := [];
    }

    /** `setSelectedCoins(coins)`: the staged list becomes the payload verbatim; the icon stays. */
    method SetSelectedCoins(coins: seq<Coin>)
      modifies this
      ensures selectedCoins == coins
      ensures icon == old(icon)
    {
      selectedCoins := coins;
    }

    /**
     * `clearTempWatchlist()`: whatever the prior state, the result is the initial
     * state, so clearing is idempotent and any set-then-clear ends where it started.
     */
    method ClearTempWatchlist()
      modifies this
      ensures IsInitial()
    {
      icon := DefaultIcon;
      selectedCoins := [];
    }
  }

  /** A whole staging cycle: whatever was staged, clearing leaves the initial state behind. */
  method StageThenClear(staging: TempWatchlistState, coins: seq<Coin>)
    modifies staging
    ensures staging.IsInitial()
  {
    staging.SetSelectedCoins(coins);
    staging.ClearTempWatchlist();
  }
}
