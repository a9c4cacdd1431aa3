# Trading dashboard state rules, modelled in Dafny

The dashboard is a React front end whose "live" look comes from timers that
regenerate mock data. Under the rendering sit a few exact state rules. This
project models them and proves their properties:

- **Alerts feed** (`Alerts`, `alerts.dfy`): each five-second tick prepends a
  generated alert and keeps at most nine of the previous ones. The feed is a
  most-recent-first buffer capped at ten. "Clear all" empties it, and four stat
  cards count alerts by type and by priority.
- **Favourites** (`Favorites`, `favorites.dfy`): toggling a symbol adds or
  removes it. Three order-preserving views are derived: the favourite stocks,
  the stocks passing the signal filter, and up to five suggestions. The panel
  shows one of three bodies.
- **Loading screen** (`Loading`, `loading.dfy`): a 50 ms timer advances the
  progress by 100 / (4000 / 50) = 1.25 per tick. The progress saturates at
  100; one more tick then stops the timer and schedules the completion
  callback. An 800 ms timer rotates the status line through five messages.
- **Live analysis** (`Analysis`, `analysis.dfy`): a two-second tick redraws
  five percentages and a candle reading. Threshold rules map these to colours,
  glows, the outlook and the forecast.
- **Intelligence counters** (`Intelligence`, `intelligence.dfy`): a
  five-second tick redraws accuracy and win rate, adds small amounts to four
  counters and copies the other fields.

Each `setInterval` callback is a `Tick`-style method of a class that holds
the page's state. Each `Math.random()` is a `real` parameter in [0, 1) that
the caller draws (`Draws.IsDraw`). `Math.floor(Math.random() * k)` is
`Draws.ScaledFloor`. Arithmetic is exact on reals. The JavaScript numbers
involved are exact as well, since progress values are multiples of 1.25 up to
100.

Two consequences of the code as written:

- The loading increment is 100 / (4000 / 50) = 1.25. Progress reaches
  exactly 100 after 80 ticks, and the completion fires on the 81st.
- `toggleFavorite` does not check that the symbol is a listed stock; any
  string is added or removed.

## Model

| member | source | states |
|---|---|---|
| `Draws.ScaledFloor` | src/pages/AnalysisPage.tsx:34 | `Math.floor(r * k)` for a draw r in [0,1) is an index below k, and is the floor of r·k |
| `Alerts.PriorityOf` | src/pages/AlertsPage.tsx:76 | high iff the first draw > 0.7; medium iff not high and the second draw > 0.4; low otherwise |
| `Alerts.NewAlert` | src/pages/AlertsPage.tsx:64-77 | the generated alert's type is one of buy/sell/warning/info, its symbol one of AAPL/TSLA/NVDA/MSFT/GOOGL, its price in [100,1100); its priority follows the rule; id and time are the given opaque values; title and message are the fixed texts |
| `Alerts.Prepend` | src/pages/AlertsPage.tsx:79 | after a tick the new alert is first; the length is min(\|prev\|,9)+1 ≤ 10; the rest is exactly the first nine previous alerts in order; nothing is dropped when at most nine were there |
| `Alerts.FeedKeepsNewest` | src/pages/AlertsPage.tsx:79 | any run of ticks from a buffer within the cap gives the new alerts newest first, then the old buffer, cut to ten: only the oldest entries are evicted |
| `Alerts.FeedBounded` | src/pages/AlertsPage.tsx:79 | after n ticks from a buffer of length b ≤ 10 the length is min(n+b, 10) |
| `Alerts.FifteenTicks` | src/pages/AlertsPage.tsx:79 | fifteen ticks from the empty feed give ten alerts, the fifteenth first and the sixth last |
| `Alerts.OfType` | src/pages/AlertsPage.tsx:147 | the type filter holds exactly the alerts of that type and is no longer than the feed |
| `Alerts.OfPriority` | src/pages/AlertsPage.tsx:168 | the priority filter holds exactly the alerts of that priority and is no longer than the feed |
| `Alerts.OfTypeAppend` | src/pages/AlertsPage.tsx:147 | a type count is additive over concatenation |
| `Alerts.OfPriorityAppend` | src/pages/AlertsPage.tsx:168 | a priority count is additive over concatenation |
| `Alerts.TypeCountsPartition` | src/pages/AlertsPage.tsx:147-161 | the buy, sell, warning and info counts sum to the feed's length |
| `Alerts.PriorityCountsPartition` | src/pages/AlertsPage.tsx:168 | the high, medium and low counts sum to the feed's length |
| `Alerts.Stats` | src/pages/AlertsPage.tsx:147-168 | the buy, sell and warning cards are the numbers of alerts of those types and the urgent card the number of high-priority alerts; buy + sell + warning equals the length minus the info count; the empty feed shows four zeros |
| `Alerts.TickTypeCount` | src/pages/AlertsPage.tsx:79 | after a tick a type count is the new alert's share plus the count over the nine alerts kept |
| `Alerts.TickPriorityCount` | src/pages/AlertsPage.tsx:79 | after a tick a priority count (so the urgent card) is the new alert's share plus the count over the nine alerts kept |
| `Alerts.AlertsPage.constructor` | src/pages/AlertsPage.tsx:28-59 | the page mounts with the three seed alerts, within the cap |
| `Alerts.AlertsPage.Tick` | src/pages/AlertsPage.tsx:63-80 | the feed becomes the generated alert prepended to the kept previous ones; the cap of ten is preserved |
| `Alerts.AlertsPage.Clear` | src/pages/AlertsPage.tsx:111-113 | clearing leaves the feed empty and every stat zero |
| `Favorites.Without` | src/components/FavoritesManager.tsx:40 | removal takes out every occurrence of the symbol and keeps the membership of every other symbol; the result is an order-preserving subsequence; nothing changes if the symbol was absent |
| `Favorites.Toggle` | src/components/FavoritesManager.tsx:37-43 | a present symbol is removed and an absent one appended at the end; every other symbol keeps its membership |
| `Favorites.ToggleTwice` | src/components/FavoritesManager.tsx:37-43 | toggling an absent symbol twice restores the original list |
| `Favorites.WithoutAppended` | src/components/FavoritesManager.tsx:37-43 | removing a symbol just appended to a list without it gives the list back |
| `Favorites.WithoutKeepsNoDuplicates` | src/components/FavoritesManager.tsx:40 | removal keeps a list free of duplicates |
| `Favorites.AppendKeepsNoDuplicates` | src/components/FavoritesManager.tsx:41 | appending an absent symbol keeps a list free of duplicates |
| `Favorites.ToggleKeepsNoDuplicates` | src/components/FavoritesManager.tsx:37-43 | toggling preserves "no duplicate symbols" |
| `Favorites.InitialFavoritesDistinct` | src/components/FavoritesManager.tsx:34 | the initial favourites AAPL, NVDA have no duplicates |
| `Favorites.FavoriteStocks` | src/components/FavoritesManager.tsx:45 | the favourite stocks are exactly the listed stocks whose symbol is a favourite, as a subsequence of the list |
| `Favorites.WithSignal` | src/components/FavoritesManager.tsx:49 | the signal filter keeps exactly the stocks with that signal, in order |
| `Favorites.FilteredFavorites` | src/components/FavoritesManager.tsx:47-49 | under "all" they equal the favourite stocks; otherwise they are exactly the favourite stocks with the filter's signal; always a subsequence of the favourite stocks and of the list |
| `Favorites.NonFavorites` | src/components/FavoritesManager.tsx:141 | the non-favourites are exactly the listed stocks whose symbol is not a favourite, in order |
| `Favorites.Suggestions` | src/components/FavoritesManager.tsx:140-142 | at most five suggestions; none is a favourite; they are exactly the first min(n, 5) of the n non-favourites, in the list's order, so all of them when there are at most five (`ShowsSuggestions` gives the display condition, fewer than 3 favourites, at line 136) |
| `Favorites.View` | src/components/FavoritesManager.tsx:103-133 | the "no favourites" card iff the list is empty; the "nothing matches" card iff favourites exist but none passes the filter; the grid of filtered favourites iff some pass |
| `Favorites.EmptyFavoritesShowNothing` | src/components/FavoritesManager.tsx:103-121 | with no favourites no stock passes any filter, so no grid is shown |
| `Favorites.EmptyStatesExclusive` | src/components/FavoritesManager.tsx:103-112 | with no favourites the filtered list is empty, so the grid condition fails whenever the "no favourites" condition holds (the two empty-state conditions exclude each other by their form) |
| `Favorites.FavoritesManager.constructor` | src/components/FavoritesManager.tsx:34-35 | starts with AAPL, NVDA and the "all" filter, without duplicates |
| `Favorites.FavoritesManager.ToggleFavorite` | src/components/FavoritesManager.tsx:37-43 | the favourites become the toggled list, the filter is unchanged, no duplicates appear |
| `Favorites.FavoritesManager.SetFilter` | src/components/FavoritesManager.tsx:76-96 | the filter becomes the chosen one, the favourites are unchanged |
| `Loading.Increment` | src/components/LoadingScreen.tsx:22-24 | 100 / (4000 / 50) is 1.25 |
| `Loading.StepProgress` | src/components/LoadingScreen.tsx:27-34 | a tick completes iff prev ≥ 100, and then returns 100; otherwise it returns prev + increment |
| `Loading.ProgressClosedForm` | src/components/LoadingScreen.tsx:27-34 | from 0, progress after k ticks is 1.25·k for k ≤ 80 and 100 afterwards |
| `Loading.ProgressBoundedMonotone` | src/components/LoadingScreen.tsx:10 | from 0, progress stays in [0,100], never decreases, and is exactly 100 iff at least 80 ticks have run |
| `Loading.CompletesOnlyWhenFull` | src/components/LoadingScreen.tsx:28-32 | a tick completes iff 80 ticks have already run, and a completing tick leaves 100 |
| `Loading.TickFromReachable` | src/components/LoadingScreen.tsx:27-34 | while the timer runs, one tick moves progress to the next reachable value, never down and never above 100, completing only from 100 |
| `Loading.IndexOf` | src/components/LoadingScreen.tsx:39 | `indexOf` returns the first index holding the text, or -1 iff the text is absent |
| `Loading.Rotate` | src/components/LoadingScreen.tsx:38-42 | the next text is always one of the messages; an unknown text goes to the first |
| `Loading.IndexOfDistinct` | src/components/LoadingScreen.tsx:39 | in a list without repetitions `indexOf` of the i-th element is i |
| `Loading.TextsDistinct` | src/components/LoadingScreen.tsx:13-19 | the five status messages are pairwise different |
| `Loading.RotateSucceeds` | src/components/LoadingScreen.tsx:39-41 | from the i-th message the rotation goes to message (i+1) mod 5 |
| `Loading.TextAfterCycles` | src/components/LoadingScreen.tsx:38-42 | starting from the first of five distinct messages, after k ticks the text is message k mod 5 |
| `Loading.ScreenTextAfter` | src/components/LoadingScreen.tsx:11 | from the screen's initial text, after k ticks the text is its (k mod 5)-th message |
| `Loading.LoadingScreen.constructor` | src/components/LoadingScreen.tsx:10-19 | starts at progress 0 with the first message, with the progress timer running and no completion scheduled |
| `Loading.LoadingScreen.ProgressTick` | src/components/LoadingScreen.tsx:26-35 | one firing of the running timer applies the updater; progress never decreases and stays ≤ 100; the timer stops and one completion is scheduled exactly when prev ≥ 100; at most one completion is ever scheduled; the tick counter grows by one and the text is unchanged |
| `Loading.LoadingScreen.TextTick` | src/components/LoadingScreen.tsx:37-43 | one firing rotates the text; the firing counter grows by one; after k firings the text is message k mod 5 |
| `Analysis.DrawLiveData` | src/pages/AnalysisPage.tsx:33-39 | each of volume, momentum, support, resistance and sentiment is an integer in [0,99] and the floor of 100 times its draw |
| `Analysis.DrawCandle` | src/pages/AnalysisPage.tsx:41-49 | the pattern is one of 4 names, the strength one of 3, the direction one of 3 |
| `Analysis.ProgressColor` | src/pages/AnalysisPage.tsx:55-59 | green iff v ≥ 70, yellow iff 40 ≤ v < 70, pink iff v < 40 |
| `Analysis.ProgressColorMonotone` | src/pages/AnalysisPage.tsx:55-59 | the bands are ordered: a larger value never gets a weaker colour |
| `Analysis.GlowColor` | src/pages/AnalysisPage.tsx:79 | green iff v ≥ 70, purple iff 40 ≤ v < 70, pink iff v < 40 |
| `Analysis.GlowMatchesProgressColor` | src/pages/AnalysisPage.tsx:91 | the glow and the progress colour always fall in the same band |
| `Analysis.NegativeSentiment` | src/pages/AnalysisPage.tsx:212-218 | positive and negative sentiment sum to 100; the negative one is in [1,100] for a drawn sentiment |
| `Analysis.Outlook` | src/pages/AnalysisPage.tsx:225 | optimistic iff sentiment ≥ 60, neutral iff 40 ≤ sentiment < 60, pessimistic iff sentiment < 40 |
| `Analysis.Forecast` | src/pages/AnalysisPage.tsx:155 | صاعد gives rise, هابط gives fall, any other value gives sideways |
| `Analysis.DirectionColor` | src/pages/AnalysisPage.tsx:145-147 | صاعد gives green, هابط gives pink, any other value gives grey |
| `Analysis.ColorMatchesForecast` | src/pages/AnalysisPage.tsx:145-155 | the label colour and the forecast split the directions the same way |
| `Analysis.AnalysisPage.constructor` | src/pages/AnalysisPage.tsx:17-29 | starts with the seed metrics and candle reading, all within their ranges |
| `Analysis.AnalysisPage.Tick` | src/pages/AnalysisPage.tsx:32-50 | both fields are replaced by fresh draws; every metric stays in [0,99] and every candle field in its closed set |
| `Intelligence.StepPerformance` | src/pages/IntelligencePage.tsx:35-41 | accuracy and win rate in [80,99]; totalSignals grows by 0, 1 or 2; successful grows by 0 or 1; failed is copied unchanged |
| `Intelligence.StepLearning` | src/pages/IntelligencePage.tsx:43-47 | patternsLearned grows by 0 or 1; improvements grows by 1 iff the draw > 0.7, else it is unchanged; marketConditions is copied unchanged |
| `Intelligence.RunPerformanceBounds` | src/pages/IntelligencePage.tsx:38-39 | over n ticks totalSignals grows by between 0 and 2n, successful by between 0 and n, and failed never changes |
| `Intelligence.InitialRunBounds` | src/pages/IntelligencePage.tsx:18-24 | from the initial numbers, after n ticks totalSignals ≤ 156 + 2n, successful ≤ 135 + n, failed = 21 |
| `Intelligence.RunLearningBounds` | src/pages/IntelligencePage.tsx:45-46 | over n ticks patternsLearned and improvements each grow by between 0 and n, and marketConditions never changes |
| `Intelligence.SuccessOnlyRun` | src/pages/IntelligencePage.tsx:38-39 | ticks that each add one success and no signal leave 156 signals and 135 + n successes |
| `Intelligence.SuccessfulCanExceedTotal` | src/pages/IntelligencePage.tsx:146-150 | 22 such ticks push successful (157) above totalSignals (156), which the page shows as "out of" |
| `Intelligence.IntelligencePage.constructor` | src/pages/IntelligencePage.tsx:18-30 | starts with the seed performance and learning records |
| `Intelligence.IntelligencePage.Tick` | src/pages/IntelligencePage.tsx:33-48 | both records become their updaters' results; the per-tick ranges and the n-tick bounds are kept as the class invariant; failed stays 21 and marketConditions stays 12 |

## Left out

- The timers themselves (`setInterval`, `clearInterval`, `setTimeout`, effect cleanup on unmount) belong to the host event loop. Each callback is an explicit method. `ProgressTick` requires a running timer, because a cleared timer no longer fires. The 500 ms delay before `onComplete` is represented only by the `completions` counter.
- `Math.random` is an injected parameter with its range stated. The model makes no claim about distributions.
- An alert's `id` (`Date.now()`) and `time` (`toLocaleTimeString`) are opaque string inputs. Nothing is claimed about id uniqueness.
- JavaScript doubles are modelled as exact reals. Prices and the alert price `r * 1000 + 100` may round in the code; the model does not.
- A stock's `lastUpdate` (a `Date`) is an integer timestamp.
- Rendering is left out: icons, badges, CSS classes other than the colour bands, `toFixed` and the rounded percent label.
- The home page's random walk, the stock chart series, the stock, analysis and alert-button cards, the subscriptions page, the layout and the router carry no state rules here.
- Favorites.Suggestions: the display condition (fewer than three favourites) is the predicate `ShowsSuggestions`, which has no contract of its own. A suggestion's click handler is `toggleFavorite`, modelled by `ToggleFavorite`.
- `Favorites.FilteredFavorites`, `Favorites.FavoriteStocks`, `Favorites.WithSignal`, `Favorites.NonFavorites`: the contracts state membership and order (subsequence), not the multiplicity of repeated entries in the stock list.
- `Alerts.OfType`, `Alerts.OfPriority`: the contracts state membership and a length bound. The exact counts are pinned down by `OfTypeAppend`, `OfPriorityAppend` and the partition lemmas, not by a per-alert multiplicity statement.
- `Loading.LoadingScreen.TextTick`: the class keeps its own copy of the five messages (`loadingTexts`), which the constructor sets to `LoadingTexts`. The source recreates the list on each render.
