/**
 * The list logic of the edit screen (app/edit-watchlist-screen.tsx): a local,
 * editable copy of a watchlist's coins, each with a selected flag, that is merged
 * with the staged coins, toggled, reordered and finally turned back into a coin list.
 */
module EditWatchlistScreen {
  import opened Types
  import Seqs
  import WatchlistsSlice
  import TempWatchlistsSlice

  /** `LocalCoin`: one row of the editable list. */
  datatype LocalCoin = LocalCoin(data: Coin, selected: bool, order: int)

  /** The payload the Done button hands to `updateWatchlist`. */
  datatype UpdateRequest = UpdateRequest(watchlistId: string, newName: string, newCoins: seq<Coin>)

  /** The coin of each row, in row order. */
  function Data(local: seq<LocalCoin>): (r: seq<Coin>)
    ensures |r| == |local|
    ensures forall i :: 0 <= i < |local| ==> r[i] == local[i].data
  {
    seq(|local|, i requires 0 <= i < |local| => local[i].data)
  }

  /** The rows a loaded watchlist starts with: every coin selected and numbered by its position. */
  function LocalCoinsOf(coins: seq<Coin>): (r: seq<LocalCoin>)
    ensures |r| == |coins| && Data(r) == coins
    ensures forall i :: 0 <= i < |r| ==> r[i].selected && r[i].order == i
  {
    seq(|coins|, i requires 0 <= i < |coins| => LocalCoin(coins[i], true, i))
  }

  /** Flips the selected flag on the rows whose coin has the id. */
  function ToggleSelection(local: seq<LocalCoin>, coinId: string): (r: seq<LocalCoin>)
    ensures |r| == |local| && Data(r) == Data(local)
    ensures forall i :: 0 <= i < |local| ==>
      r[i].order == local[i].order &&
      r[i].selected == (if local[i].data.id == coinId then !local[i].selected else local[i].selected)
  {
    seq(|local|, i requires 0 <= i < |local| =>
      if local[i].data.id == coinId then local[i].(selected := !local[i].selected) else local[i])
  }

  /**
   * The focus-effect merge: the staged coins whose id no row has yet become new
   * selected rows after the existing ones, numbered on from `|prev|`.
   */
  function MergeStaged(prev: seq<LocalCoin>, staged: seq<Coin>): (r: seq<LocalCoin>)
    ensures |r| >= |prev| && r[..|prev|] == prev
    ensures Data(r) == Data(prev) + WatchlistsSlice.NewCoins(Data(prev), staged)
    ensures forall i :: |prev| <= i < |r| ==> r[i].selected && r[i].order == i
  {
    var added := WatchlistsSlice.NewCoins(Data(prev), staged);
    var rows := seq(|added|, i requires 0 <= i < |added| => LocalCoin(added[i], true, |prev| + i));
    assert Data(rows) == added;
    DataAppend(prev, rows);
    prev + rows
  }

  function IsSelected(item: LocalCoin): bool
  {
    item.selected
  }

  /** The coins of the selected rows, in row order: what Done saves. */
  function FinalCoins(local: seq<LocalCoin>): (r: seq<Coin>)
    ensures |r| <= |local|
    ensures forall c :: c in r <==> exists i :: 0 <= i < |local| && local[i].selected && local[i].data == c
  {
    var kept := Seqs.Filter(local, IsSelected);
    forall c | c in Data(kept)
      ensures exists i :: 0 <= i < |local| && local[i].selected && local[i].data == c
    {
      var k :| 0 <= k < |kept| && kept[k].data == c;
      assert kept[k] in local;
    }
    forall i | 0 <= i < |local| && local[i].selected
      ensures local[i].data in Data(kept)
    {
      assert local[i] in kept;
    }
    Data(kept)
  }

  /** The name is empty once surrounding whitespace is trimmed. */
  predicate IsBlank(s: string)
  {
    forall i | 0 <= i < |s| :: IsWhitespace(s[i])
  }

  /**
   * The characters `trim` strips: tab, vertical tab, form feed, space, no-break
   * space, byte order mark, the other space separators, and the line terminators.
   */
  predicate IsWhitespace(c: char)
  {
    c == '\t' || c == '\U{B}' || c == '\U{C}' || c == ' ' || c == '\U{A0}' || c == '\U{FEFF}'
    || c == '\U{1680}' || ('\U{2000}' <= c <= '\U{200A}') || c == '\U{202F}' || c == '\U{205F}'
    || c == '\U{3000}' || c == '\n' || c == '\r' || c == '\U{2028}' || c == '\U{2029}'
  }

  /** The parts concatenated with one separator between neighbours. */
  function Join(parts: seq<string>, sep: char): (r: string)
    ensures |parts| == 1 ==> r == parts[0]
    decreases |parts|
  {
    if |parts| == 0 then ""
    else if |parts| == 1 then parts[0]
    else parts[0] + [sep] + Join(parts[1..], sep)
  }

  /** The first position of `c` in `s`. */
  function IndexOf(s: string, c: char): (i: nat)
    requires c in s
    ensures i < |s| && s[i] == c && c !in s[..i]
    decreases |s|
  {
    if s[0] == c then 0
    else
      assert c in s[1..] by { var k :| 0 <= k < |s| && s[k] == c; assert s[1..][k - 1] == c; }
      var j := IndexOf(s[1..], c);
      assert s[..j + 1] == [s[0]] + s[1..][..j];
      j + 1
  }

  /** The pieces between separators: the reader of a joined id list. */
  function Split(s: string, sep: char): (r: seq<string>)
    ensures |r| >= 1
    decreases |s|
  {
    if sep in s then
      var i := IndexOf(s, sep);
      [s[..i]] + Split(s[i + 1..], sep)
    else [s]
  }

  lemma SplitAfterSeparator(head: string, sep: char, tail: string)
    requires sep !in head
    ensures Split(head + [sep] + tail, sep) == [head] + Split(tail, sep)
  {
    var s := head + [sep] + tail;
    assert s[|head|] == sep;
    var i := IndexOf(s, sep);
    assert s[..i] == head;
    assert s[i + 1..] == tail;
  }

  /**
   * The comma-joined id list can be read back, provided there is at least one id
   * and none of them contains the separator.
   */
  lemma {:induction false} SplitJoin(parts: seq<string>, sep: char)
    requires |parts| >= 1
    requires forall p :: p in parts ==> sep !in p
    ensures Split(Join(parts, sep), sep) == parts
    decreases |parts|
  {
    if |parts| == 1 {
      assert parts[0] in parts;
    } else {
      assert parts[0] in parts;
      assert forall p :: p in parts[1..] ==> p in parts;
      SplitJoin(parts[1..], sep);
      SplitAfterSeparator(parts[0], sep, Join(parts[1..], sep));
      assert parts == [parts[0]] + parts[1..];
    }
  }

  /** When a row is selected exactly when its coin passes `p`, Done keeps the row coins that pass `p`. */
  lemma {:induction false} FinalCoinsWhenSelectedBy(local: seq<LocalCoin>, p: Coin -> bool)
    requires forall i :: 0 <= i < |local| ==> local[i].selected == p(local[i].data)
    ensures FinalCoins(local) == Seqs.Filter(Data(local), p)
    decreases |local|
  {
    if local != [] {
      var data := Data(local);
      FinalCoinsWhenSelectedBy(local[1..], p);
      FinalCoinsUnfold(local);
      assert data[1..] == Data(local[1..]);
      Seqs.FilterUnfold(data, p);
    }
  }

  /** One step of `FinalCoins` from the front of the list. */
  lemma FinalCoinsUnfold(local: seq<LocalCoin>)
    requires local != []
    ensures FinalCoins(local) == (if local[0].selected then [local[0].data] else []) + FinalCoins(local[1..])
  {
    var kept := Seqs.Filter(local, IsSelected);
    var keptTail := Seqs.Filter(local[1..], IsSelected);
    Seqs.FilterUnfold(local, IsSelected);
    if local[0].selected {
      assert kept == [local[0]] + keptTail;
      DataAppend([local[0]], keptTail);
      assert Data([local[0]]) == [local[0].data];
    } else {
      assert kept == keptTail;
    }
  }

  lemma DataAppend(a: seq<LocalCoin>, b: seq<LocalCoin>)
    ensures Data(a + b) == Data(a) + Data(b)
  {
  }

  /** Opening a watchlist and pressing Done without changes gives back its coins. */
  lemma FinalCoinsOfLoaded(coins: seq<Coin>)
    ensures FinalCoins(LocalCoinsOf(coins)) == coins
  {
    FinalCoinsWhenSelectedBy(LocalCoinsOf(coins), (c: Coin) => true);
    Seqs.FilterKeepsAll(coins, (c: Coin) => true);
  }

  /** Opening a watchlist, deselecting one coin and pressing Done removes exactly that coin. */
  lemma DeselectThenDoneRemovesCoin(coins: seq<Coin>, coinId: string)
    ensures FinalCoins(ToggleSelection(LocalCoinsOf(coins), coinId)) == WatchlistsSlice.WithoutCoin(coins, coinId)
  {
    FinalCoinsWhenSelectedBy(ToggleSelection(LocalCoinsOf(coins), coinId), (c: Coin) => c.id != coinId);
  }

  /** Toggling the same id twice restores the list. */
  lemma ToggleSelectionTwice(local: seq<LocalCoin>, coinId: string)
    ensures ToggleSelection(ToggleSelection(local, coinId), coinId) == local
  {
    var twice := ToggleSelection(ToggleSelection(local, coinId), coinId);
    forall i | 0 <= i < |local|
      ensures twice[i] == local[i]
    {
      assert Data(twice)[i] == Data(local)[i];
    }
  }

  /** Merging the same staged list again changes nothing. */
  lemma MergeStagedIdempotent(prev: seq<LocalCoin>, staged: seq<Coin>)
    ensures MergeStaged(MergeStaged(prev, staged), staged) == MergeStaged(prev, staged)
  {
    var once := MergeStaged(prev, staged);
    WatchlistsSlice.NewCoinsAfterMerge(Data(prev), staged);
    assert WatchlistsSlice.NewCoins(Data(once), staged) == [];
  }

  /** Merging keeps the rows' coin ids unique when the rows and the staged list each were. */
  lemma MergeStagedKeepsUniqueIds(prev: seq<LocalCoin>, staged: seq<Coin>)
    requires UniqueIds(Data(prev)) && UniqueIds(staged)
    ensures UniqueIds(Data(MergeStaged(prev, staged)))
  {
    WatchlistsSlice.NewCoinsKeepUniqueIds(Data(prev), staged);
  }

  /** The edit screen's state: the name field, the rows, and the staging slice it clears. */
  class EditScreen {
    var name: string
    var localCoins: seq<LocalCoin>
    const staging: TempWatchlistsSlice.TempWatchlistState

    constructor (staging: TempWatchlistsSlice.TempWatchlistState)
      ensures name == "" && localCoins == [] && this.staging == staging
    {
      name := "";
      localCoins := [];
      this.staging := staging;
    }

    /** The effect on `watchlist`: when it was found, copy its name and its coins as selected rows. */
    method LoadWatchlist(watchlist: Option<Watchlist>)
      modifies this
      ensures watchlist.Some? ==> name == watchlist.value.name && localCoins == LocalCoinsOf(watchlist.value.coins)
      ensures watchlist.None? ==> name == old(name) && localCoins == old(localCoins)
    {
      if watchlist.Some? {
        name := watchlist.value.name;
        localCoins := LocalCoinsOf(watchlist.value.coins);
      }
    }

    /** The name field's `onChangeText`. */
    method SetName(newName: string)
      modifies this
      ensures name == newName && localCoins == old(localCoins)
    {
      name := newName;
    }

    method ToggleCoinSelection(coinId: string)
      modifies this
      ensures localCoins == ToggleSelection(old(localCoins), coinId) && name == old(name)
    {
      localCoins := ToggleSelection(localCoins, coinId);
    }

    /**
     * The focus effect: a non-empty staged list is merged into the rows and the
     * staging slice is cleared; an empty one changes nothing.
     */
    method OnFocus(staged: seq<Coin>)
      modifies this, staging
      ensures |staged| > 0 ==> localCoins == MergeStaged(old(localCoins), staged) && staging.IsInitial()
      ensures |staged| == 0 ==> localCoins == old(localCoins) && unchanged(staging)
      ensures name == old(name)
    {
      if |staged| > 0 {
        localCoins := MergeStaged(localCoins, staged);
        staging.ClearTempWatchlist();
      }
    }

    /** The list's `onDragEnd`: the rows are replaced by the reordered ones as handed over. */
    method ReorderCoins(reordered: seq<LocalCoin>)
      modifies this
      ensures localCoins == reordered && name == old(name)
    {
      localCoins := reordered;
    }

    /**
     * The Done button: nothing when the name is blank or the watchlist was not
     * found, otherwise an update carrying the selected rows' coins in row order.
     */
    method DonePress(watchlist: Option<Watchlist>) returns (update: Option<UpdateRequest>)
      ensures update.None? <==> IsBlank(name) || watchlist.None?
      ensures update.Some? ==>
        update.value.watchlistId == watchlist.value.id && update.value.newName == name &&
        update.value.newCoins == FinalCoins(localCoins)
    {
      if IsBlank(name) || watchlist.None? {
        return None;
      }
      var finalCoins := FinalCoins(localCoins);
      update := Some(UpdateRequest(watchlist.value.id, name, finalCoins));
    }

    /** The Add Coins button: the ids of every row, selected or not, joined with commas. */
    method AddCoinsPress() returns (existingCoinIds: string)
      ensures |localCoins| > 0 && (forall c :: c in localCoins ==> ',' !in c.data.id) ==>
        Split(existingCoinIds, ',') == Ids(Data(localCoins))
      ensures |localCoins| == 0 ==> existingCoinIds == ""
    {
      existingCoinIds := Join(Ids(Data(localCoins)), ',');
      if |localCoins| > 0 && (forall c :: c in localCoins ==> ',' !in c.data.id) {
        var ids := Ids(Data(localCoins));
        forall p | p in ids
          ensures ',' !in p
        {
          var k :| 0 <= k < |ids| && ids[k] == p;
          assert localCoins[k] in localCoins;
        }
        SplitJoin(ids, ',');
      }
    }
  }
}
