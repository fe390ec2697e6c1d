/**
 * The watchlists slice (app/redux/slices/watchlistsSlice.ts): the collection of
 * watchlists and the selected identifier, changed in place by four reducers.
 */
module WatchlistsSlice {
  import opened Types
  import Seqs

  /** `k` is the index of the first watchlist whose id is `id`. */
  ghost predicate IsFirstMatch(items: seq<Watchlist>, k: int, id: string)
  {
    0 <= k < |items| && items[k].id == id && forall j :: 0 <= j < k ==> items[j].id != id
  }

  /** The lookup the reducers start with: the first watchlist with the id, as an index. */
  function FindWatchlist(items: seq<Watchlist>, id: string): (r: Option<nat>)
    ensures r.Some? ==> IsFirstMatch(items, r.value, id)
    ensures r.None? <==> forall j :: 0 <= j < |items| ==> items[j].id != id
    decreases |items|
  {
    if items == [] then None
    else if items[0].id == id then Some(0)
    else match FindWatchlist(items[1..], id)
      case None => None
      case Some(k) => Some(k + 1)
  }

  /** The payload coins whose id the watchlist does not hold yet (`addCoinsToWatchlist`'s `newCoins`). */
  function NewCoins(existing: seq<Coin>, incoming: seq<Coin>): (r: seq<Coin>)
    ensures forall c :: c in r <==> c in incoming && !HasId(existing, c.id)
    ensures forall c :: multiset(r)[c] == if HasId(existing, c.id) then 0 else multiset(incoming)[c]
    ensures Seqs.IsSubsequence(r, incoming)
  {
    Seqs.FilterIsSubsequence(incoming, (c: Coin) => !HasId(existing, c.id));
    Seqs.Filter(incoming, (c: Coin) => !HasId(existing, c.id))
  }

  /** The coins other than those with `coinId`, in order. */
  function WithoutCoin(coins: seq<Coin>, coinId: string): (r: seq<Coin>)
    ensures !HasId(r, coinId)
    ensures forall c :: c in r <==> c in coins && c.id != coinId
    ensures forall c: Coin :: c.id != coinId ==> multiset(r)[c] == multiset(coins)[c]
    ensures Seqs.IsSubsequence(r, coins)
    ensures !HasId(coins, coinId) ==> r == coins
  {
    Seqs.FilterIsSubsequence(coins, (c: Coin) => c.id != coinId);
    if !HasId(coins, coinId) then
      Seqs.FilterKeepsAll(coins, (c: Coin) => c.id != coinId);
      Seqs.Filter(coins, (c: Coin) => c.id != coinId)
    else
      Seqs.Filter(coins, (c: Coin) => c.id != coinId)
  }

  /** The items after `addCoinsToWatchlist({watchlistId, coins})`. */
  function AddCoins(items: seq<Watchlist>, watchlistId: string, coins: seq<Coin>): (r: seq<Watchlist>)
    ensures |r| == |items|
    ensures forall k :: IsFirstMatch(items, k, watchlistId) ==>
      r[k] == items[k].(coins := items[k].coins + NewCoins(items[k].coins, coins))
    ensures forall j :: 0 <= j < |items| && !IsFirstMatch(items, j, watchlistId) ==> r[j] == items[j]
    ensures (forall j :: 0 <= j < |items| ==> items[j].id != watchlistId) ==> r == items
  {
    match FindWatchlist(items, watchlistId)
    case None => items
    case Some(k) =>
      var w := items[k];
      items[k := w.(coins := w.coins + NewCoins(w.coins, coins))]
  }

  /** The items after `removeCoinFromWatchlist({watchlistId, coinId})`. */
  function RemoveCoin(items: seq<Watchlist>, watchlistId: string, coinId: string): (r: seq<Watchlist>)
    ensures |r| == |items|
    ensures forall k :: IsFirstMatch(items, k, watchlistId) ==>
      r[k] == items[k].(coins := WithoutCoin(items[k].coins, coinId))
    ensures forall j :: 0 <= j < |items| && !IsFirstMatch(items, j, watchlistId) ==> r[j] == items[j]
    ensures (forall j :: 0 <= j < |items| ==> items[j].id != watchlistId) ==> r == items
  {
    match FindWatchlist(items, watchlistId)
    case None => items
    case Some(k) =>
      var w := items[k];
      items[k := w.(coins := WithoutCoin(w.coins, coinId))]
  }

  /** Merging the same payload a second time adds nothing. */
  lemma NewCoinsAfterMerge(existing: seq<Coin>, incoming: seq<Coin>)
    ensures NewCoins(existing + NewCoins(existing, incoming), incoming) == []
  {
    var merged := existing + NewCoins(existing, incoming);
    forall c | c in incoming
      ensures HasId(merged, c.id)
    {
      if HasId(existing, c.id) {
        var d :| d in existing && d.id == c.id;
        assert d in merged;
      } else {
        assert c in merged;
      }
    }
  }

  /** `addCoinsToWatchlist` applied twice with the same payload is applied once. */
  lemma AddCoinsIdempotent(items: seq<Watchlist>, watchlistId: string, coins: seq<Coin>)
    ensures AddCoins(AddCoins(items, watchlistId, coins), watchlistId, coins) == AddCoins(items, watchlistId, coins)
  {
    var once := AddCoins(items, watchlistId, coins);
    match FindWatchlist(items, watchlistId)
    case None =>
    case Some(k) =>
      assert IsFirstMatch(once, k, watchlistId);
      NewCoinsAfterMerge(items[k].coins, coins);
      assert once[k].coins + NewCoins(once[k].coins, coins) == once[k].coins;
      forall j | 0 <= j < |once| && !IsFirstMatch(once, j, watchlistId)
        ensures !IsFirstMatch(items, j, watchlistId)
      {
        assert j != k;
      }
  }

  /** A payload without duplicates added to a watchlist without duplicates leaves no duplicates. */
  lemma NewCoinsKeepUniqueIds(existing: seq<Coin>, incoming: seq<Coin>)
    requires UniqueIds(existing) && UniqueIds(incoming)
    ensures UniqueIds(existing + NewCoins(existing, incoming))
  {
    var added := NewCoins(existing, incoming);
    FilterKeepsUniqueIds(incoming, (c: Coin) => !HasId(existing, c.id));
    var merged := existing + added;
    forall i, j | 0 <= i < j < |merged|
      ensures merged[i].id != merged[j].id
    {
      if j >= |existing| {
        assert merged[j] in added;
        if i < |existing| {
          assert merged[i] in existing;
        }
      }
    }
  }

  /** Filtering a list of coins with unique ids leaves their ids unique. */
  lemma {:induction false} FilterKeepsUniqueIds(s: seq<Coin>, p: Coin -> bool)
    requires UniqueIds(s)
    ensures UniqueIds(Seqs.Filter(s, p))
    decreases |s|
  {
    if s != [] {
      UniqueIdsSplit(s[0], s[1..]);
      FilterKeepsUniqueIds(s[1..], p);
      if p(s[0]) {
        var rest := Seqs.Filter(s[1..], p);
        forall c | c in rest
          ensures c.id != s[0].id
        {
          assert c in s[1..];
        }
        UniqueIdsSplit(s[0], rest);
      }
    }
  }

  /** A coin list with a head has unique ids iff its tail does and no tail coin shares the head's id. */
  lemma UniqueIdsSplit(c: Coin, t: seq<Coin>)
    ensures UniqueIds([c] + t) <==> UniqueIds(t) && !HasId(t, c.id)
  {
    var s := [c] + t;
    if UniqueIds(s) {
      forall i, j | 0 <= i < j < |t|
        ensures t[i].id != t[j].id
      {
        assert s[i + 1] == t[i] && s[j + 1] == t[j];
      }
      forall d | d in t
        ensures d.id != c.id
      {
        var k :| 0 <= k < |t| && t[k] == d;
        assert s[0] == c && s[k + 1] == d;
      }
    }
    if UniqueIds(t) && !HasId(t, c.id) {
      forall i, j | 0 <= i < j < |s|
        ensures s[i].id != s[j].id
      {
        assert s[j] == t[j - 1];
        if i > 0 {
          assert s[i] == t[i - 1];
        }
      }
    }
  }

  /** Duplicates inside the payload itself are not filtered out. */
  lemma PayloadDuplicatesKept(c: Coin)
    ensures NewCoins([], [c, c]) == [c, c]
    ensures !UniqueIds(AddCoins([Watchlist("w", "W", [])], "w", [c, c])[0].coins)
  {
    Seqs.FilterKeepsAll([c, c], (d: Coin) => !HasId([], d.id));
    var w := Watchlist("w", "W", []);
    assert IsFirstMatch([w], 0, "w");
    var after := AddCoins([w], "w", [c, c])[0].coins;
    assert after == [] + NewCoins([], [c, c]) == [c, c];
    assert after[0].id == after[1].id;
  }

  /**
   * After `addCoinsToWatchlist`, every watchlist still has unique coin ids,
   * provided they all did and the payload itself has none twice.
   */
  lemma AddCoinsKeepsUniqueIds(items: seq<Watchlist>, watchlistId: string, coins: seq<Coin>)
    requires forall w :: w in items ==> UniqueIds(w.coins)
    requires UniqueIds(coins)
    ensures forall w :: w in AddCoins(items, watchlistId, coins) ==> UniqueIds(w.coins)
  {
    var r := AddCoins(items, watchlistId, coins);
    forall w | w in r
      ensures UniqueIds(w.coins)
    {
      var j :| 0 <= j < |r| && r[j] == w;
      assert items[j] in items;
      if IsFirstMatch(items, j, watchlistId) {
        NewCoinsKeepUniqueIds(items[j].coins, coins);
      }
    }
  }

  /** Removing a coin twice is removing it once. */
  lemma RemoveCoinIdempotent(items: seq<Watchlist>, watchlistId: string, coinId: string)
    ensures RemoveCoin(RemoveCoin(items, watchlistId, coinId), watchlistId, coinId) == RemoveCoin(items, watchlistId, coinId)
  {
    var once := RemoveCoin(items, watchlistId, coinId);
    match FindWatchlist(items, watchlistId)
    case None =>
    case Some(k) =>
      assert IsFirstMatch(once, k, watchlistId);
      forall j | 0 <= j < |once| && !IsFirstMatch(once, j, watchlistId)
        ensures !IsFirstMatch(items, j, watchlistId)
      {
        assert j != k;
      }
  }

  /** The watchlists slice state. */
  class WatchlistsState {
    var items: seq<Watchlist>
    var selectedWatchlistId: Option<string>

    /** `initialState`: no watchlists, nothing selected. */
    constructor ()
      ensures items == [] && selectedWatchlistId == None
    {
      items := [];
      selectedWatchlistId := None;
    }

    /** `createWatchlist({id, name})`: appends an empty watchlist; no uniqueness or name check. */
    method CreateWatchlist(id: string, name: string)
      modifies this
      ensures items == old(items) + [Watchlist(id, name, [])]
      ensures selectedWatchlistId == old(selectedWatchlistId)
    {
      items := items + [Watchlist(id, name, [])];
    }

    /** `addCoinsToWatchlist({watchlistId, coins})` */
    method AddCoinsToWatchlist(watchlistId: string, coins: seq<Coin>)
      modifies this
      ensures items == AddCoins(old(items), watchlistId, coins)
      ensures selectedWatchlistId == old(selectedWatchlistId)
    {
      var found := FindWatchlist(items, watchlistId);
      if found.Some? {
        var watchlist := items[found.value];
        var newCoins := NewCoins(watchlist.coins, coins);
        items := items[found.value := watchlist.(coins := watchlist.coins + newCoins)];
      }
    }

    /** `removeCoinFromWatchlist({watchlistId, coinId})` */
    method RemoveCoinFromWatchlist(watchlistId: string, coinId: string)
      modifies this
      ensures items == RemoveCoin(old(items), watchlistId, coinId)
      ensures selectedWatchlistId == old(selectedWatchlistId)
    {
      var found := FindWatchlist(items, watchlistId);
      if found.Some? {
        var watchlist := items[found.value];
        items := items[found.value := watchlist.(coins := WithoutCoin(watchlist.coins, coinId))];
      }
    }

    /** `selectWatchlist(id)`: sets the selection unconditionally, even to an id no watchlist has. */
    method SelectWatchlist(id: string)
      modifies this
      ensures selectedWatchlistId == Some(id)
      ensures items == old(items)
    {
      selectedWatchlistId := Some(id);
    }
  }
}
