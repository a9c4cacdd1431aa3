/** The favourites panel: a list of favourite symbols toggled by the user, a
    signal filter, and the order-preserving views derived from them (the
    favourite stocks, the filtered favourites, up to five suggestions) and
    the two empty-state messages. */
module Favorites {
  import opened Draws

  datatype Option<T> = None | Some(value: T)

  datatype Signal = Buy | Sell | Wait
  datatype StockType = Stock | Etf | Sovereign

  /** A stock card's data. `lastUpdate` (a `Date`) is kept as a timestamp. */
  datatype StockData = StockData(
    symbol: string,
    name: string,
    price: real,
    change: real,
    changePercent: real,
    signal: Signal,
    signalStrength: real,
    timeFrame: string,
    reasoning: string,
    targetPrice: real,
    stopLoss: real,
    volume: string,
    lastUpdate: int,
    stockType: StockType,
    sector: string,
    marketCap: string,
    holdingPeriod: Option<string>)

  /** The filter buttons: all signals, or one. */
  datatype Filter = All | Only(signal: Signal)

  const InitialFavorites: seq<string> := ["AAPL", "NVDA"]

  /** Suggestions are offered while there are fewer favourites than this,
      and at most `MaxSuggestions` of them. */
  const SuggestBelow: nat := 3
  const MaxSuggestions: nat := 5

  /** `a` is `b` with some elements left out, order kept. */
  predicate IsSubsequence<T(==)>(a: seq<T>, b: seq<T>)
    decreases |b|
  {
    if a == [] then true
    else if b == [] then false
    else (a[0] == b[0] && IsSubsequence(a[1..], b[1..])) || IsSubsequence(a, b[1..])
  }

  lemma {:induction false} SubsequenceTransitive<T>(a: seq<T>, b: seq<T>, c: seq<T>)
    requires IsSubsequence(a, b) && IsSubsequence(b, c)
    ensures IsSubsequence(a, c)
    decreases |c|
  {
    if a != [] {
      if IsSubsequence(b, c[1..]) {
        SubsequenceTransitive(a, b, c[1..]);
      } else if a[0] == b[0] && IsSubsequence(a[1..], b[1..]) {
        SubsequenceTransitive(a[1..], b[1..], c[1..]);
      } else {
        SubsequenceTransitive(a, b[1..], c[1..]);
      }
    }
  }

  lemma {:induction false} PrefixIsSubsequence<T>(s: seq<T>, k: nat)
    requires k <= |s|
    ensures IsSubsequence(s[..k], s)
  {
    if k > 0 {
      assert s[..k][1..] == s[1..][..k - 1];
      PrefixIsSubsequence(s[1..], k - 1);
    }
  }

  lemma SubsequenceReflexive<T>(s: seq<T>)
    ensures IsSubsequence(s, s)
  {
    PrefixIsSubsequence(s, |s|);
    assert s[..|s|] == s;
  }

  /** No symbol occurs twice. */
  predicate NoDuplicates<T(==)>(s: seq<T>) {
    s == [] || (s[0] !in s[1..] && NoDuplicates(s[1..]))
  }

  /** `prev.filter(s => s !== symbol)`: every occurrence removed. */
  function Without(prev: seq<string>, symbol: string): (r: seq<string>)
    ensures symbol !in r
    ensures forall x :: x != symbol ==> (x in r <==> x in prev)
    ensures IsSubsequence(r, prev)
    ensures symbol !in prev ==> r == prev
  {
    if prev == [] then []
    else if prev[0] == symbol then Without(prev[1..], symbol)
    else
      var rest := Without(prev[1..], symbol);
      assert ([prev[0]] + rest)[1..] == rest;
      [prev[0]] + rest
  }

  lemma {:induction false} WithoutKeepsNoDuplicates(prev: seq<string>, symbol: string)
    requires NoDuplicates(prev)
    ensures NoDuplicates(Without(prev, symbol))
  {
    if prev != [] {
      WithoutKeepsNoDuplicates(prev[1..], symbol);
      if prev[0] != symbol {
        assert ([prev[0]] + Without(prev[1..], symbol))[1..] == Without(prev[1..], symbol);
      }
    }
  }

  /** Removing a symbol just appended gives the list back. */
  lemma {:induction false} WithoutAppended(prev: seq<string>, symbol: string)
    requires symbol !in prev
    ensures Without(prev + [symbol], symbol) == prev
  {
    if prev != [] {
      assert (prev + [symbol])[1..] == prev[1..] + [symbol];
      WithoutAppended(prev[1..], symbol);
    } else {
      assert [] + [symbol] == [symbol];
      assert [symbol][1..] == [];
    }
  }

  lemma {:induction false} AppendKeepsNoDuplicates(prev: seq<string>, symbol: string)
    requires NoDuplicates(prev) && symbol !in prev
    ensures NoDuplicates(prev + [symbol])
  {
    if prev == [] {
      assert [] + [symbol] == [symbol];
    } else {
      assert (prev + [symbol])[1..] == prev[1..] + [symbol];
      AppendKeepsNoDuplicates(prev[1..], symbol);
    }
  }

  /** `toggleFavorite`'s updater: remove the symbol if it is a favourite,
      otherwise append it. Every other symbol keeps its membership. */
  function Toggle(prev: seq<string>, symbol: string): (r: seq<string>)
    ensures symbol in r <==> symbol !in prev
    ensures forall x :: x != symbol ==> (x in r <==> x in prev)
    ensures symbol in prev ==> r == Without(prev, symbol)
    ensures symbol !in prev ==> r == prev + [symbol]
  {
    if symbol in prev then Without(prev, symbol) else prev + [symbol]
  }

  /** Toggling a symbol that is not a favourite twice restores the list. */
  lemma ToggleTwice(prev: seq<string>, symbol: string)
    requires symbol !in prev
    ensures Toggle(Toggle(prev, symbol), symbol) == prev
  {
    WithoutAppended(prev, symbol);
  }

  /** Toggling keeps the favourites free of duplicates. */
  lemma ToggleKeepsNoDuplicates(prev: seq<string>, symbol: string)
    requires NoDuplicates(prev)
    ensures NoDuplicates(Toggle(prev, symbol))
  {
    if symbol in prev {
      WithoutKeepsNoDuplicates(prev, symbol);
    } else {
      AppendKeepsNoDuplicates(prev, symbol);
    }
  }

  lemma InitialFavoritesDistinct()
    ensures NoDuplicates(InitialFavorites)
  {
    assert InitialFavorites[1..] == ["NVDA"];
    assert "AAPL" != "NVDA";
  }

  /** `allStocks.filter(stock => favorites.includes(stock.symbol))` */
  function FavoriteStocks(allStocks: seq<StockData>, favorites: seq<string>): (r: seq<StockData>)
    ensures forall st :: st in r <==> st in allStocks && st.symbol in favorites
    ensures IsSubsequence(r, allStocks)
  {
    if allStocks == [] then []
    else
      var rest := FavoriteStocks(allStocks[1..], favorites);
      if allStocks[0].symbol in favorites then
        assert ([allStocks[0]] + rest)[1..] == rest;
        [allStocks[0]] + rest
      else rest
  }

  /** The stocks among `stocks` whose signal is `signal`, in order. */
  function WithSignal(stocks: seq<StockData>, signal: Signal): (r: seq<StockData>)
    ensures forall st :: st in r <==> st in stocks && st.signal == signal
    ensures IsSubsequence(r, stocks)
  {
    if stocks == [] then []
    else
      var rest := WithSignal(stocks[1..], signal);
      if stocks[0].signal == signal then
        assert ([stocks[0]] + rest)[1..] == rest;
        [stocks[0]] + rest
      else rest
  }

  /** `filteredFavorites`: every favourite stock under the "all" filter,
      otherwise exactly those whose signal is the filter's. */
  function FilteredFavorites(allStocks: seq<StockData>, favorites: seq<string>, filter: Filter)
    : (r: seq<StockData>)
    ensures filter == All ==> r == FavoriteStocks(allStocks, favorites)
    ensures filter.Only? ==> forall st :: st in r <==>
              st in FavoriteStocks(allStocks, favorites) && st.signal == filter.signal
    ensures IsSubsequence(r, FavoriteStocks(allStocks, favorites))
    ensures IsSubsequence(r, allStocks)
  {
    var favs := FavoriteStocks(allStocks, favorites);
    var r := match filter
      case All => favs
      case Only(signal) => WithSignal(favs, signal);
    SubsequenceReflexive(favs);
    SubsequenceTransitive(r, favs, allStocks);
    r
  }

  /** The stocks whose symbol is not a favourite, in order. */
  function NonFavorites(allStocks: seq<StockData>, favorites: seq<string>): (r: seq<StockData>)
    ensures forall st :: st in r <==> st in allStocks && st.symbol !in favorites
    ensures IsSubsequence(r, allStocks)
  {
    if allStocks == [] then []
    else
      var rest := NonFavorites(allStocks[1..], favorites);
      if allStocks[0].symbol !in favorites then
        assert ([allStocks[0]] + rest)[1..] == rest;
        [allStocks[0]] + rest
      else rest
  }

  /** The quick-add suggestions: the first five non-favourites. */
  function Suggestions(allStocks: seq<StockData>, favorites: seq<string>): (r: seq<StockData>)
    ensures |r| <= MaxSuggestions
    ensures forall st :: st in r ==> st in allStocks && st.symbol !in favorites
    ensures IsSubsequence(r, allStocks)
    ensures |NonFavorites(allStocks, favorites)| <= MaxSuggestions ==>
              r == NonFavorites(allStocks, favorites)
    ensures |r| == Min(|NonFavorites(allStocks, favorites)|, MaxSuggestions)
    ensures r == NonFavorites(allStocks, favorites)[..|r|]
  {
    var candidates := NonFavorites(allStocks, favorites);
    var n := Min(|candidates|, MaxSuggestions);
    var r := candidates[..n];
    PrefixIsSubsequence(candidates, n);
    SubsequenceTransitive(r, candidates, allStocks);
    assert forall st :: st in r ==> st in candidates;
    r
  }

  /** Whether the suggestion card is shown. */
  predicate ShowsSuggestions(favorites: seq<string>) {
    |favorites| < SuggestBelow
  }

  /** The three mutually exclusive bodies of the panel. */
  datatype PanelView = NoFavoritesMessage | NoMatchMessage | StockGrid(cards: seq<StockData>)

  /** Which body is shown: the "no favourites" card when the list is empty,
      the "nothing matches this filter" card when favourites exist but none
      passes the filter, and the grid of filtered favourites otherwise. Each
      of the three render conditions is evaluated separately in the page;
      this function is well defined because they never overlap. */
  function View(allStocks: seq<StockData>, favorites: seq<string>, filter: Filter): (v: PanelView)
    ensures v == NoFavoritesMessage <==> |favorites| == 0
    ensures v == NoMatchMessage <==>
              |favorites| > 0 && |FilteredFavorites(allStocks, favorites, filter)| == 0
    ensures v.StockGrid? <==> |FilteredFavorites(allStocks, favorites, filter)| > 0
    ensures v.StockGrid? ==> v.cards == FilteredFavorites(allStocks, favorites, filter)
  {
    var shown := FilteredFavorites(allStocks, favorites, filter);
    if |favorites| == 0 then
      assert shown == [] by { EmptyFavoritesShowNothing(allStocks, filter); }
      NoFavoritesMessage
    else if |shown| == 0 then NoMatchMessage
    else StockGrid(shown)
  }

  /** With no favourites, no stock passes any filter. */
  lemma {:induction false} EmptyFavoritesShowNothing(allStocks: seq<StockData>, filter: Filter)
    ensures FilteredFavorites(allStocks, [], filter) == []
  {
    if allStocks != [] {
      EmptyFavoritesShowNothing(allStocks[1..], All);
    }
  }

  /** The two empty-state conditions as the page writes them exclude each
      other by their form (`length === 0` against `length > 0`); the grid's
      condition fails whenever the "no favourites" condition holds, so at
      most one of the three bodies is rendered. */
  lemma EmptyStatesExclusive(allStocks: seq<StockData>, favorites: seq<string>, filter: Filter)
    ensures |favorites| == 0 ==> |FilteredFavorites(allStocks, favorites, filter)| == 0
  {
    if |favorites| == 0 {
      assert favorites == [];
      EmptyFavoritesShowNothing(allStocks, filter);
    }
  }

  /** The panel's state: the favourite symbols and the selected filter. The
      stock list comes from the parent as a prop and is passed to the views. */
  class FavoritesManager {
    var favorites: seq<string>
    var filter: Filter

    ghost predicate Valid()
      reads this
    {
      NoDuplicates(favorites)
    }

    constructor ()
      ensures Valid()
      ensures favorites == InitialFavorites && filter == All
    {
      favorites := InitialFavorites;
      filter := All;
      InitialFavoritesDistinct();
    }

    /** `toggleFavorite(symbol)`; no check that the symbol is a listed stock. */
    method ToggleFavorite(symbol: string)
      requires Valid()
      modifies this
      ensures Valid()
      ensures favorites == Toggle(old(favorites), symbol) && filter == old(filter)
      ensures symbol in favorites <==> symbol !in old(favorites)
      ensures forall x :: x != symbol ==> (x in favorites <==> x in old(favorites))
    {
      ToggleKeepsNoDuplicates(favorites, symbol);
      favorites := Toggle(favorites, symbol);
    }

    /** `setFilter(filter)`, from the four filter buttons. */
    method SetFilter(f: Filter)
      requires Valid()
      modifies this
      ensures Valid()
      ensures filter == f && favorites == old(favorites)
    {
      filter := f;
    }
  }
}
