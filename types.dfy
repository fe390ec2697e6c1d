/**
 * The records the watchlist layer passes around (app/types/types.ts).
 */
module Types {

  datatype Option<T> = None | Some(value: T)

  /**
   * The market snapshot fields of a coin that no logic looks at. The numeric
   * market fields (prices, caps, supplies, ROI) are floats and stay out of the model.
   */
  datatype MarketData = MarketData(image: string, lastUpdated: string)

  /** `ICoin`: identified by `id`; `symbol` and `name` are what the search looks at. */
  datatype Coin = Coin(id: string, symbol: string, name: string, market: MarketData)

  /**
   * A watchlist as the reducers build it: `{id, name, coins}`. The `icon` and
   * `coinCount` fields that the interface declares are never written by any reducer.
   */
  datatype Watchlist = Watchlist(id: string, name: string, coins: seq<Coin>)

  /** The id of each coin, in order. */
  function Ids(coins: seq<Coin>): (r: seq<string>)
    ensures |r| == |coins|
    ensures forall i :: 0 <= i < |coins| ==> r[i] == coins[i].id
  {
    seq(|coins|, i requires 0 <= i < |coins| => coins[i].id)
  }

  /** Some coin in `coins` has identifier `id` (the id-set and id-list lookups the screens do). */
  predicate HasId(coins: seq<Coin>, id: string)
  {
    exists c | c in coins :: c.id == id
  }

  /** No two coins share an identifier. */
  ghost predicate UniqueIds(coins: seq<Coin>)
  {
    forall i, j :: 0 <= i < j < |coins| ==> coins[i].id != coins[j].id
  }
}
