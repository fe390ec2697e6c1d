/**
 * The list logic of the add-coins screen (app/add-coins-screen.tsx): a
 * case-insensitive search over a fixed coin catalogue and a toggled list of
 * picked coin ids.
 */
module AddCoinsScreen {
  import Seqs

  /** The screen's own `Coin` shape: an id, a ticker symbol and a display name. */
  datatype Coin = Coin(id: string, symbol: string, name: string)

  /** The fixed catalogue the screen searches. */
  const Catalogue: seq<Coin> := [
    Coin("btc", "BTC", "Bitcoin"),
    Coin("eth", "ETH", "Ethereum"),
    Coin("usdt", "USDT", "Tether"),
    Coin("xrp", "XRP", "XRP"),
    Coin("bch", "BCH", "Bitcoin Cash")
  ]

  /** Lower-casing of one character, for ASCII letters. */
  function LowerChar(c: char): (r: char)
    ensures 'A' <= c <= 'Z' ==> r as int == c as int + 32
    ensures !('A' <= c <= 'Z') ==> r == c
    ensures !('A' <= r <= 'Z')
  {
    if 'A' <= c <= 'Z' then (c as int + 32) as char else c
  }

  /** The text lower-cased character by character. */
  function ToLower(s: string): (r: string)
    ensures |r| == |s|
    ensures forall i :: 0 <= i < |s| ==> r[i] == LowerChar(s[i])
  {
    seq(|s|, i requires 0 <= i < |s| => LowerChar(s[i]))
  }

  /** `part` occurs in `s` starting at position `i`. */
  predicate OccursAt(s: string, part: string, i: nat)
  {
    i + |part| <= |s| && s[i..i + |part|] == part
  }

  /** Substring containment: `part` occurs in `s` at some position. */
  predicate Includes(s: string, part: string)
  {
    exists i: nat | i <= |s| :: OccursAt(s, part, i)
  }

  /** A text that lacks the first character of `part` does not include `part`. */
  lemma NotIncludedWithoutFirstChar(s: string, part: string)
    requires part != [] && part[0] !in s
    ensures !Includes(s, part)
  {
  }

  /** The search condition: the lowered text occurs in the lowered symbol or the lowered name. */
  predicate Matches(coin: Coin, searchText: string)
  {
    Includes(ToLower(coin.symbol), ToLower(searchText)) || Includes(ToLower(coin.name), ToLower(searchText))
  }

  /** The catalogue entries the search text selects, in catalogue order. */
  function FilteredCoins(coins: seq<Coin>, searchText: string): (r: seq<Coin>)
    ensures forall c :: c in r <==> c in coins && Matches(c, searchText)
    ensures forall c :: multiset(r)[c] == if Matches(c, searchText) then multiset(coins)[c] else 0
    ensures Seqs.IsSubsequence(r, coins)
    ensures searchText == "" ==> r == coins
  {
    Seqs.FilterIsSubsequence(coins, (c: Coin) => Matches(c, searchText));
    if searchText == "" then
      forall c | c in coins
        ensures Matches(c, searchText)
      {
        var s := ToLower(c.symbol);
        assert ToLower(searchText) == [];
        assert OccursAt(s, ToLower(searchText), 0);
        assert Includes(s, ToLower(searchText));
      }
      Seqs.FilterKeepsAll(coins, (c: Coin) => Matches(c, searchText));
      Seqs.Filter(coins, (c: Coin) => Matches(c, searchText))
    else
      Seqs.Filter(coins, (c: Coin) => Matches(c, searchText))
  }

  /** Lowering twice is lowering once. */
  lemma ToLowerIdempotent(s: string)
    ensures ToLower(ToLower(s)) == ToLower(s)
  {
  }

  /** The search ignores the case of the search text. */
  lemma SearchIgnoresCase(coins: seq<Coin>, searchText: string)
    ensures FilteredCoins(coins, searchText) == FilteredCoins(coins, ToLower(searchText))
  {
    ToLowerIdempotent(searchText);
    Seqs.FilterCongruent(coins, (c: Coin) => Matches(c, searchText), (c: Coin) => Matches(c, ToLower(searchText)));
  }

  /** Which catalogue entries match "bit". */
  lemma CatalogueMatchesBit()
    ensures Matches(Catalogue[0], "bit") && Matches(Catalogue[4], "bit")
    ensures !Matches(Catalogue[1], "bit") && !Matches(Catalogue[2], "bit") && !Matches(Catalogue[3], "bit")
  {
    var q := ToLower("bit");
    assert q == "bit";
    assert ToLower("BTC") == "btc" && ToLower("BCH") == "bch";
    assert ToLower("Bitcoin")[0..3] == q;
    assert OccursAt(ToLower("Bitcoin"), q, 0);
    assert ToLower("Bitcoin Cash")[0..3] == q;
    assert OccursAt(ToLower("Bitcoin Cash"), q, 0);
    assert ToLower("ETH") == "eth" && ToLower("Ethereum") == "ethereum";
    assert ToLower("USDT") == "usdt" && ToLower("Tether") == "tether";
    assert ToLower("XRP") == "xrp";
    NotIncludedWithoutFirstChar("eth", q);
    NotIncludedWithoutFirstChar("ethereum", q);
    NotIncludedWithoutFirstChar("usdt", q);
    NotIncludedWithoutFirstChar("tether", q);
    NotIncludedWithoutFirstChar("xrp", q);
  }

  /** Searching the catalogue for "bit" finds Bitcoin and Bitcoin Cash, in catalogue order. */
  lemma SearchBitInCatalogue()
    ensures FilteredCoins(Catalogue, "bit") == [Catalogue[0], Catalogue[4]]
  {
    CatalogueMatchesBit();
    FilterKeepsFirstAndLast(Catalogue, (c: Coin) => Matches(c, "bit"));
  }

  /** Filtering five coins of which only the first and the last pass. */
  lemma FilterKeepsFirstAndLast(cs: seq<Coin>, p: Coin -> bool)
    requires |cs| == 5 && p(cs[0]) && !p(cs[1]) && !p(cs[2]) && !p(cs[3]) && p(cs[4])
    ensures Seqs.Filter(cs, p) == [cs[0], cs[4]]
  {
    assert cs[4..][1..] == [];
    Seqs.FilterUnfold(cs[4..], p);
    assert cs[3..][1..] == cs[4..];
    Seqs.FilterUnfold(cs[3..], p);
    assert cs[2..][1..] == cs[3..];
    Seqs.FilterUnfold(cs[2..], p);
    assert cs[1..][1..] == cs[2..];
    Seqs.FilterUnfold(cs[1..], p);
    Seqs.FilterUnfold(cs, p);
  }

  /** The picked ids with every occurrence of `coinId` dropped. */
  function WithoutId(ids: seq<string>, coinId: string): (r: seq<string>)
    ensures forall x :: x in r <==> x in ids && x != coinId
    ensures forall x :: multiset(r)[x] == if x != coinId then multiset(ids)[x] else 0
    ensures Seqs.IsSubsequence(r, ids)
  {
    Seqs.FilterIsSubsequence(ids, (x: string) => x != coinId);
    Seqs.Filter(ids, (x: string) => x != coinId)
  }

  /** Picking or unpicking a coin: drop every occurrence when present, else append at the end. */
  function ToggleCoin(selected: seq<string>, coinId: string): (r: seq<string>)
    ensures coinId in r <==> coinId !in selected
    ensures forall x :: x != coinId ==> (x in r <==> x in selected)
    ensures forall x :: x != coinId ==> multiset(r)[x] == multiset(selected)[x]
    ensures coinId in selected ==> multiset(r)[coinId] == 0
    ensures coinId in selected ==> Seqs.IsSubsequence(r, selected)
    ensures coinId !in selected ==> r == selected + [coinId]
  {
    if coinId in selected then WithoutId(selected, coinId) else selected + [coinId]
  }

  /** A duplicate-free id list stays duplicate-free. */
  lemma ToggleCoinKeepsNoDuplicates(selected: seq<string>, coinId: string)
    requires Seqs.NoDuplicates(selected)
    ensures Seqs.NoDuplicates(ToggleCoin(selected, coinId))
  {
    if coinId in selected {
      Seqs.FilterKeepsNoDuplicates(selected, (x: string) => x != coinId);
    } else {
      var r := selected + [coinId];
      forall i, j | 0 <= i < j < |r|
        ensures r[i] != r[j]
      {
        if j == |selected| {
          assert r[i] in selected;
        }
      }
    }
  }

  /** Toggling an absent id twice gives the list back. */
  lemma ToggleAbsentTwice(selected: seq<string>, coinId: string)
    requires coinId !in selected
    ensures ToggleCoin(ToggleCoin(selected, coinId), coinId) == selected
  {
    Seqs.FilterAppend(selected, [coinId], (x: string) => x != coinId);
    Seqs.FilterKeepsAll(selected, (x: string) => x != coinId);
  }

  /** Toggling a present id twice moves it to the end. */
  lemma TogglePresentTwice(selected: seq<string>, coinId: string)
    requires coinId in selected
    ensures ToggleCoin(ToggleCoin(selected, coinId), coinId) == WithoutId(selected, coinId) + [coinId]
  {
  }

  /** So a double toggle does not always restore the original order. */
  lemma DoubleToggleReorders()
    ensures ToggleCoin(ToggleCoin(["btc", "eth"], "btc"), "btc") == ["eth", "btc"]
  {
    var p := (x: string) => x != "btc";
    Seqs.FilterUnfold(["btc", "eth"], p);
    assert ["btc", "eth"][1..] == ["eth"];
    Seqs.FilterUnfold(["eth"], p);
    assert ["eth"][1..] == [];
  }
}
