# Coin Dash dashboard core in Dafny

Coin Dash is a Next.js dashboard. It shows cryptocurrency markets (price cards, a market
overview, highlights, a top-five table, an "all cryptocurrencies" grid with CSV export, a price
chart with period tabs, market insights), weather for a set of cities (current weather, an
hourly and a 15-day forecast, air-quality and UV ladders, tips), a details page of history
tables, and a site header with a sound preference.

This project models the logic that runs once a payload has arrived. That covers reshaping,
validation, slicing, fallbacks, classifiers, the CSV text, and the component state the
handlers and effects change. Fetched payloads, the clock (`Date.now()`) and `Math.random()`
draws are parameters.

Modules follow the source files:

| module | source file |
|---|---|
| `CryptoChart` | app/Components/crypto-chart.tsx |
| `DataTable` | app/Components/crypto-dialog/data-table.tsx |
| `CryptoDialog` | app/Components/crypto-dialog/crypto-dialog.tsx |
| `Weather` | app/weather/page.tsx |
| `SoundProvider` | components/sound-provider.tsx |
| `Header` | components/ui/header.tsx |
| `MarketHighlights` | app/Components/market-highlights.tsx |
| `CryptoOverview` | app/Components/crypto-overview.tsx |
| `PriceCards` | app/Components/price-cards.tsx |
| `MarketTable` | app/Components/market-table.tsx |
| `MarketInsights` | app/Components/market-insights.tsx |
| `Details` | app/details/page.tsx |

Shared modules:
- `Wrappers`: `Option`, and `Payload`, the result of a schema parse (absent, invalid or valid).
- `Lists`: filter, take, the fail-fast map, sums and folds, and subsequences.
- `Text`: join, split, lower case and substring search.
- `JsNumber`: `Math.round`, the truncating `%`, and `toFixed(2)` read back as a number.
- `Json`: duck-typed JSON values for the `"key" in obj` checks, and JavaScript truthiness.
- `Coins`: the validated coin record.

Where the source keeps React state that it updates, the state is a `class`. Each of its
methods states the new state as a function of the old state and the inputs. The properties
are proved about those functions.

Details where the code's behaviour is easy to misread:
- Force-sort replaces any first sort entry that is not on "name", in either direction.
- `totalPairs || 1800000` also shows the fallback when the computed total is 0.
- `categories || fallback` shows an empty extracted list as it is.
- The change badge of the chart is computed from the chart's prices after they were rounded
  to cents, and the chart state follows that computation.
- The grid library goes back to the first page whenever the filters or the sorting change.
- The force-sort effect of the grid depends only on the table object, which the grid
  creates once. So it runs once, when the grid mounts and the filters are still empty, and
  never changes the sorting. `DataTable.GridState.ForceNameSort` is its body, as a step.

## Model

| member | source | states |
|---|---|---|
| CryptoChart.FilterPricesIsSubsequence | app/Components/crypto-chart.tsx:79-106 | the period filter never adds a point and keeps the order of the points it keeps |
| CryptoChart.FilterPricesKeeps | app/Components/crypto-chart.tsx:81-105 | 1D/7D/30D/1Y keep a point iff it is in the series and `now - timestamp` is below 1, 7, 30 or 365 days in ms; any other tag returns the series unchanged |
| CryptoChart.WindowsNest | app/Components/crypto-chart.tsx:85-103 | the 1D result is a subsequence of 7D, 7D of 30D, 30D of 1Y, and 1Y of the whole series |
| CryptoChart.NestedWindow | app/Components/crypto-chart.tsx:85-103 | a shorter window's points are a subsequence of a longer window's |
| CryptoChart.ToChart | app/Components/crypto-chart.tsx:108-116 | one chart entry per filtered point, in order, with its timestamp and its price rounded to the nearest whole cent, ties away from zero |
| CryptoChart.ChartFollowsWindow | app/Components/crypto-chart.tsx:79-116 | the chart has as many entries as the window has points, and every entry lies inside the window |
| CryptoChart.PercentChange | app/Components/crypto-chart.tsx:124 | a non-zero first price gives the percentage `p` with `p * first == (last - first) * 100`, non-negative iff `last >= first` when `first > 0`; a zero first price gives a non-finite result |
| CryptoChart.ChangeOfPrices | app/Components/crypto-chart.tsx:121-126 | with a positive first price the change is finite, and it is non-negative iff the last price is at least the first |
| CryptoChart.NextPriceChange | app/Components/crypto-chart.tsx:118-126 | the badge value stays as it was unless the chart has more than one point; then it is the change between the first and last cent-rounded chart prices, non-negative iff the last is at least the first, and non-finite when the first rounds to 0 |
| CryptoChart.ChartBadgeFromPrices | app/Components/crypto-chart.tsx:114-126 | against the fetched prices: a rise never shows as a fall once the first price is at least half a cent, and a first price below half a cent always gives a non-finite badge |
| CryptoChart.WholeCentPricesAgree | app/Components/crypto-chart.tsx:114-126 | when the first and last prices are whole cents, the program's badge equals the corrected `ChangeOfPrices` |
| CryptoChart.FormatComboCoinsSpec | app/Components/crypto-chart.tsx:43-65 | the coin list exists iff every record has the six keys and a numeric change; then there is one entry per record, in order, with value = id and label = name |
| CryptoChart.SubCentChangeLost | app/Components/crypto-chart.tsx:114-125 | a coin priced 0.000012 then 0.000013 gets a non-finite change from the cent-rounded chart, but +25/3 % from the fetched prices |
| CryptoChart.ChartCard.constructor | app/Components/crypto-chart.tsx:28-35 | empty selection, period "7D", no coins, no chart, change 0; no badge is shown, so `BadgeCurrent` holds |
| CryptoChart.ChartCard.LoadCoinList | app/Components/crypto-chart.tsx:41-69 | a fully well-formed record list replaces the combobox list; a malformed record makes the effect throw an uncaught error (`escaped`) and the list is not set; nothing else changes |
| CryptoChart.ChartCard.SelectFirstCoin | app/Components/crypto-chart.tsx:146-161 | a non-empty list whose first record has an `id` selects that id; otherwise the selection is kept |
| CryptoChart.ChartCard.SelectPeriod | app/Components/crypto-chart.tsx:163-165 | the toggle group sets the period and nothing else |
| CryptoChart.ChartCard.ApplyPrices | app/Components/crypto-chart.tsx:71-144 | with a truthy selection and a delivered series, the chart becomes the filtered window's cent-rounded points and the badge becomes `NextPriceChange` of the old badge and that chart; otherwise both are kept; a fresh chart always keeps `BadgeCurrent`, and no method breaks it |
| CryptoChart.ChartCard.ShowsBadge | app/Components/crypto-chart.tsx:239-248 | the badge is drawn only when the chart has more than one point; with `BadgeCurrent`, which the constructor sets up and every method keeps, a shown badge reads the change between the chart's first and last prices |
| DataTable.CsvOfNothing | app/Components/crypto-dialog/data-table.tsx:106-116 | no rows give no headers and the empty text |
| DataTable.CsvLineCount | app/Components/crypto-dialog/data-table.tsx:106-116 | the text splits at line breaks into exactly rows + 1 lines iff no header or cell holds a line break; the lines are then the header line and every row's line, in order |
| DataTable.RowFieldCount | app/Components/crypto-dialog/data-table.tsx:112-114 | with headers, a row line splits at "," into exactly one field per header iff no cell holds ","; the fields are then the cells |
| DataTable.Lookup | app/Components/crypto-dialog/data-table.tsx:113 | a key the row lacks reads as nullish |
| DataTable.LookupFirst | app/Components/crypto-dialog/data-table.tsx:113 | a key reads the value stored under it |
| DataTable.RowCellsOwnKeys | app/Components/crypto-dialog/data-table.tsx:111-114 | a row exported under its own distinct keys gives each of its cells, in key order |
| DataTable.LookupSkipsOtherKey | app/Components/crypto-dialog/data-table.tsx:113 | an entry under another key does not change what a key reads |
| DataTable.ExtraKeyNotExported | app/Components/crypto-dialog/data-table.tsx:106-114 | a key that is not among the first row's keys never reaches an exported line |
| DataTable.MissingKeyIsEmpty | app/Components/crypto-dialog/data-table.tsx:113 | a header the row lacks is written as an empty cell |
| DataTable.FilterValueSet | app/Components/crypto-dialog/data-table.tsx:79-83 | after typing, the "name" column's filter reads back the typed text |
| DataTable.FilterValueOthers | app/Components/crypto-dialog/data-table.tsx:79-83 | setting one column's filter leaves every other column's filter as it was |
| DataTable.ReplaceFilterValue | app/Components/crypto-dialog/data-table.tsx:82 | replacing a column's filter value changes only what that column reads |
| DataTable.AppendFilterValue | app/Components/crypto-dialog/data-table.tsx:82 | appending a filter changes only what a column with no earlier filter reads |
| DataTable.FirstFilterColumn | app/Components/crypto-dialog/data-table.tsx:82-97 | setting a filter keeps the first filter's column, or makes the new one first when there was none |
| DataTable.ForcedSortSpec | app/Components/crypto-dialog/data-table.tsx:93-100 | a first filter on "name" leaves a first sort on "name"; the sort is either untouched or exactly ascending by name; no name filter first means untouched; applying the rule twice is applying it once |
| DataTable.ResizedPageIndex | app/Components/crypto-dialog/data-table.tsx:228-230 | the new page holds the first row of the old page |
| DataTable.GridState.constructor | app/Components/crypto-dialog/data-table.tsx:51-56 | no filters, no sorting, page index 0, page size 8 |
| DataTable.GridState.DisplayedPage | app/Components/crypto-dialog/data-table.tsx:221 | the page number shown is the page index plus one |
| DataTable.GridState.TypeSearch | app/Components/crypto-dialog/data-table.tsx:79-83 | typing sets the "name" filter to the typed text and goes back to the first page; sorting and page size are kept |
| DataTable.GridState.PrefillSearch | app/Components/crypto-dialog/data-table.tsx:86-91 | an open dialog with a non-empty search sets the "name" filter to it and goes back to the first page; otherwise nothing changes |
| DataTable.GridState.ForceNameSort | app/Components/crypto-dialog/data-table.tsx:93-100 | the sorting becomes `ForcedSort` of the filters and the old sorting, and a changed sorting goes back to the first page |
| DataTable.ForceSortIdleAtMount | app/Components/crypto-dialog/data-table.tsx:93-100 | with the empty filters of the mount, the effect's only run leaves any sorting alone, though after a "name" filter it would sort by name |
| DataTable.GridState.SetPageSize | app/Components/crypto-dialog/data-table.tsx:228-236 | a size from {8, 10, 20, 30, 40, 50} becomes the page size, and the first row of the old page stays on the page shown |
| CryptoDialog.BuildRows | app/Components/crypto-dialog/crypto-dialog.tsx:40-52 | one row per coin, in the coin list's order, each built from its own coin |
| CryptoDialog.RowColumnsDistinct | app/Components/crypto-dialog/crypto-dialog.tsx:41-51 | the nine row keys are pairwise distinct |
| CryptoDialog.AsRecordKeys | app/Components/crypto-dialog/crypto-dialog.tsx:41-51 | every row has the nine keys in the builder's order |
| CryptoDialog.RowCellsOfCoin | app/Components/crypto-dialog/crypto-dialog.tsx:41-51 | exported, a coin's row gives name, image, price, volume, rank, cap, change, high and low, in that order |
| CryptoDialog.DialogCsv | app/Components/crypto-dialog/crypto-dialog.tsx:39-55 | the dialog's CSV has the nine keys as header and coin `i`'s row as line `i + 1`; no coins give "" |
| CryptoDialog.DialogState.constructor | app/Components/crypto-dialog/crypto-dialog.tsx:36-37 | no rows; the open flag and search come from the store |
| CryptoDialog.DialogState.OnCoinsChanged | app/Components/crypto-dialog/crypto-dialog.tsx:39-55 | the rows are rebuilt from the new coin list alone |
| CryptoDialog.DialogState.SetOpen | app/Components/crypto-dialog/crypto-dialog.tsx:57-61 | closing the dialog clears the search; opening keeps it |
| Weather.WeatherIconIgnoresCase | app/weather/page.tsx:84-100 | the icon does not depend on letter case |
| Weather.WeatherIconCases | app/weather/page.tsx:84-100 | rain and drizzle share the rain icon, and exactly the unlisted conditions get the dust icon |
| Weather.OpenWeatherIcons | app/weather/page.tsx:84-100 | the API's capitalised condition names get their own icons |
| Weather.ConditionIconsAgree | app/weather/page.tsx:254-264 | every simulated condition gets its icon |
| Weather.WindDirectionNearest | app/weather/page.tsx:283-286 | a bearing of at least 0 gets the point `round(deg / 45) mod 8`, within half a sector of the bearing |
| Weather.WindDirectionFullTurn | app/weather/page.tsx:283-286 | adding 360 degrees does not change the direction |
| Weather.WindDirectionPoints | app/weather/page.tsx:283-286 | 0 and 360 degrees give "N", 90 gives "E" |
| Weather.AqiMonotone | app/weather/page.tsx:546-553 | a higher index never gets a better category |
| Weather.AqiIntervals | app/weather/page.tsx:546-553 | each category covers exactly its interval (≤50, ≤100, ≤150, ≤200, ≤300, above) |
| Weather.UvMonotone | app/weather/page.tsx:583-589 | a higher UV index never gets a milder colour |
| Weather.UvIntervals | app/weather/page.tsx:583-589 | each colour covers exactly its interval (≤2, ≤5, ≤7, ≤10, above) |
| Weather.GetTips | app/weather/page.tsx:506-528 | the pushed list equals the tip list: temperature tips, then rain, then snow |
| Weather.TipsSpec | app/weather/page.tsx:506-528 | the tips come in pairs, at most three; cold or hot puts its pair first; mild adds none; the rain and snow pairs appear iff the conditions mention them |
| Weather.HourlySpec | app/weather/page.tsx:223-228 | the hourly forecast exists iff each of the first min(8, n) entries has a condition; then it has one entry per entry, in order, rounded |
| Weather.EveryEighthPicks | app/weather/page.tsx:232 | exactly the entries at indices 0, 8, 16, … are picked, in order |
| Weather.InitialForecastSpec | app/weather/page.tsx:231-242 | the daily forecast has min(5, ⌈n/8⌉) days; day `k` comes from entry `8k` with rounded min and max |
| Weather.TempVariation | app/weather/page.tsx:253 | the variation is an integer in [-3, 2] |
| Weather.ConditionIndex | app/weather/page.tsx:255 | the drawn index is a valid condition index |
| Weather.SimulatedDaysAt | app/weather/page.tsx:247-266 | simulated day `i` is built from base day `initial[i mod 5]` and the `i`-th draw |
| Weather.ExtendForecast | app/weather/page.tsx:245-266 | the loop fails iff there are fewer than five daily days, and otherwise yields the extended forecast |
| Weather.ExtendedSpec | app/weather/page.tsx:245-266 | the daily days are kept and exactly ten follow; day `i` is dated 5 + i days ahead, clamped to [-10, 45], else within [-3, 2] of `initial[i mod 5]` |
| Weather.CitiesToFetch | app/weather/page.tsx:677-680 | the six predefined cities in order, plus the selected city when one is set |
| Weather.FetchAll | app/weather/page.tsx:757 | the batch succeeds iff every city's request and card succeed; then there is one card per city |
| Weather.FetchAllCities | app/weather/page.tsx:743-757 | a successful batch lists every fetched city once, in fetch order |
| Weather.WeatherPage.constructor | app/weather/page.tsx:664-671 | no cards, no city, loading, not refreshing, no error, no detail city, and the given sound provider |
| Weather.WeatherPage.SelectCity | app/weather/page.tsx:818-821 | choosing a city plays the click sound exactly when sound is enabled and records the city; the cards, flags, error and detail city are kept |
| Weather.WeatherPage.OpenDetails | app/weather/page.tsx:876-879 | clicking a card plays the click sound exactly when sound is enabled and opens the detail dialog on that card's city; nothing else changes |
| Weather.WeatherPage.CloseDetails | app/weather/page.tsx:913-919 | closing the dialog plays the click sound exactly when sound is enabled and clears the detail city; nothing else changes |
| Weather.WeatherPage.RefreshButton | app/weather/page.tsx:843-846 | the button plays the click sound exactly when sound is enabled, then refreshes with the outcome `Refresh` states |
| Weather.WeatherPage.Refresh | app/weather/page.tsx:673-768 | success replaces the cards and clears the error; failure keeps the cards and records the message; loading and refreshing end; the selected and detail cities are kept |
| Weather.DetailDialog.constructor | app/weather/page.tsx:177-181 | no details, loading, no error |
| Weather.DetailDialog.Fetch | app/weather/page.tsx:177-318 | a closed dialog fetches nothing; an open one clears the error, stores the details or records the failure, and always ends loading |
| SoundProvider.LoadSpec | components/sound-provider.tsx:16-21 | no saved value keeps the flag; a saved value enables iff it is exactly "true" |
| SoundProvider.StoredTextRoundTrip | components/sound-provider.tsx:18-26 | the text a toggle writes loads back as the flag it set |
| SoundProvider.ToggleThenReload | components/sound-provider.tsx:14-29 | after a toggle the storage agrees with the flag, and mounting again reproduces the flag |
| SoundProvider.ToggleTwice | components/sound-provider.tsx:23-29 | toggling twice restores the flag and, when the storage agreed with it, the storage |
| SoundProvider.KeyValueStore.GetItem | components/sound-provider.tsx:17 | reading a key gives its stored text, or null when missing |
| SoundProvider.KeyValueStore.SetItem | components/sound-provider.tsx:26 | writing a key stores the text under it and changes no other key |
| SoundProvider.Provider.constructor | components/sound-provider.tsx:14 | sound starts enabled |
| SoundProvider.Provider.Load | components/sound-provider.tsx:16-21 | the flag becomes the loaded preference; the storage is not changed |
| SoundProvider.Provider.ToggleSound | components/sound-provider.tsx:23-29 | the flag flips and its text is written under "soundEnabled" |
| SoundProvider.Provider.PlaySound | components/sound-provider.tsx:31-32 | the beep sounds exactly when sound is enabled |
| SoundProvider.UseSound | components/sound-provider.tsx:65-70 | outside a provider the hook throws its message; inside it returns the context |
| Header.RenderNavLinkSpec | components/ui/header.tsx:25-49 | an item is highlighted without a link iff it is active; an inactive item links to its path, with "/currency" sent to "/" |
| Header.LinkPathSpec | components/ui/header.tsx:27 | the link target is "/" iff the path is "/currency" or "/"; every path other than "/currency" links to itself |
| Header.OneActiveItem | components/ui/header.tsx:18-23 | at most one of the four navigation items is active for any path, and "/" activates Currency |
| Header.HeaderState.constructor | components/ui/header.tsx:16 | the mobile menu starts closed |
| Header.HeaderState.SearchClick | components/ui/header.tsx:98-109 | a click on a search input or the mobile search button plays the click sound exactly when sound is enabled, and changes nothing |
| Header.HeaderState.MenuButton | components/ui/header.tsx:64-67 | the menu button plays the click and flips the menu |
| Header.HeaderState.FollowLink | components/ui/header.tsx:40-43 | following a link plays the click and closes the menu |
| Header.HeaderState.CloseMenu | components/ui/header.tsx:139-142 | the close button plays the click and closes the menu |
| Header.HeaderState.SoundButton | components/ui/header.tsx:51-54 | the sound button plays first and toggles second, so only switching off beeps |
| MarketHighlights.AsCategory | app/Components/market-highlights.tsx:19-26 | a value maps to a category iff it is a non-null object whose `name` is a string, and then to that name |
| MarketHighlights.CategoryNames | app/Components/market-highlights.tsx:44-53 | the reference list has one name per category among its input |
| MarketHighlights.MapThenDrop | app/Components/market-highlights.tsx:44-53 | mapping to category-or-null and dropping the nulls keeps exactly the categories' names, in order |
| MarketHighlights.ExtractCategoriesSpec | app/Components/market-highlights.tsx:44-53 | the extracted list is the names of the categories among the first three entries; at most three; later entries never matter |
| MarketHighlights.AllCategoriesKept | app/Components/market-highlights.tsx:44-53 | when the first three entries are categories, all of them are shown, in order |
| MarketHighlights.TotalVolume | app/Components/market-highlights.tsx:59-63 | the total is the sum of every exchange's 24-hour BTC volume, from 0 |
| MarketHighlights.ShownCategories | app/Components/market-highlights.tsx:94-98 | the fallback categories are shown only when no list was extracted; an empty list is shown as is |
| MarketHighlights.ShownTotalPairs | app/Components/market-highlights.tsx:132 | the total falls back to 1800000 when it is missing or 0 |
| MarketHighlights.EmptyExchangesShowFallback | app/Components/market-highlights.tsx:59-63 | an empty exchange list shows the fallback total |
| MarketHighlights.HighlightsState.constructor | app/Components/market-highlights.tsx:38-39 | both pieces of state start null |
| MarketHighlights.HighlightsState.OnCategoriesData | app/Components/market-highlights.tsx:42-56 | a present listing stores its extracted categories; the total is kept |
| MarketHighlights.HighlightsState.OnExchangesData | app/Components/market-highlights.tsx:58-67 | only an array of exchanges stores the summed volume; the categories are kept |
| CryptoOverview.Values | app/Components/crypto-overview.tsx:54 | one value per entry, in order |
| CryptoOverview.NextGlobalDataSpec | app/Components/crypto-overview.tsx:33-89 | the summary changes only for a loaded, validated payload with `data`, and then becomes that data's summary |
| CryptoOverview.FallbackKept | app/Components/crypto-overview.tsx:21-43 | without such a payload the fallback figures stay, with the change up |
| CryptoOverview.SumOfValuesAppend | app/Components/crypto-overview.tsx:54-62 | one more currency adds its value to the total |
| CryptoOverview.TotalsCoverAllCurrencies | app/Components/crypto-overview.tsx:45-62 | every currency's non-negative value is within the total, and a missing map gives 0 |
| CryptoOverview.DominanceSpec | app/Components/crypto-overview.tsx:64-66 | dominance is 0 when btc is missing or 0, and otherwise the btc share rounded to the nearest hundredth, ties away from zero |
| CryptoOverview.EmptyDataSummary | app/Components/crypto-overview.tsx:45-74 | a `data` record with every field missing summarises to zeros, shown as up |
| CryptoOverview.OverviewState.constructor | app/Components/crypto-overview.tsx:30 | the state starts as the fallback record |
| CryptoOverview.OverviewState.OnGlobalMarketData | app/Components/crypto-overview.tsx:33-89 | the state becomes `NextGlobalData` of the old state, the loading flag and the payload |
| PriceCards.FormatCardSpec | app/Components/price-cards.tsx:37-72 | a card exists iff the entry has the five keys and a numeric change; it copies id, symbol, name and price, rounds the change to the nearest hundredth (ties away from zero), and is "up" iff the change is ≥ 0 |
| PriceCards.ThemeSpec | app/Components/price-cards.tsx:58-71 | "bitcoin" is orange with its icon, "ethereum" blue with its icon, and every other id gray with the Tether icon |
| PriceCards.FormatCardsSpec | app/Components/price-cards.tsx:34-75 | the batch succeeds iff each of the first three entries is well formed; then one card per entry, in order; later entries never matter |
| PriceCards.PriceCardsState.constructor | app/Components/price-cards.tsx:26-28 | no cards |
| PriceCards.PriceCardsState.OnCryptocurrencies | app/Components/price-cards.tsx:30-82 | a batch that formats replaces the cards; a throwing one leaves them |
| MarketTable.TopFiveSpec | app/Components/market-table.tsx:48-58 | the first min(5, n) coins, in order, with name, price, volume, rank and icon copied, the change rounded to the nearest hundredth (ties away from zero), and positive iff the change is ≥ 0 |
| MarketTable.MarketTableState.constructor | app/Components/market-table.tsx:36-40 | no rows, no coins |
| MarketTable.MarketTableState.OnAllCoinsData | app/Components/market-table.tsx:43-66 | a validated list sets both the full list and its top five; anything else changes neither; the rows stay the top five of the list |
| MarketInsights.FilteredInsightsSpec | app/Components/market-insights.tsx:154-156 | no data gives no insights; "all" keeps every insight; another tab keeps exactly that category's insights, in order |
| MarketInsights.IconOfSpec | app/Components/market-insights.tsx:76-99 | every listed icon name gets its icon, and an unknown name gets Activity |
| MarketInsights.ChangeStyleSpec | app/Components/market-insights.tsx:101-121 | green and rising iff "up", red and falling iff "down", a yellow dash otherwise |
| MarketInsights.CategoryColorSpec | app/Components/market-insights.tsx:123-136 | each of the four tab categories has its own colour, and every other category is gray |
| MarketInsights.SignPrefix | app/Components/market-insights.tsx:282 | "+" is shown iff the change is positive |
| MarketInsights.RenderSpec | app/Components/market-insights.tsx:158-209 | loading wins over an error, an error over missing or empty data, and the list shows the filtered insights |
| MarketInsights.InsightsState.constructor | app/Components/market-insights.tsx:42-43 | the tab starts at "all" |
| MarketInsights.InsightsState.SetActiveCategory | app/Components/market-insights.tsx:223-230 | the tab handler sets the category |
| MarketInsights.InsightsState.OnInsightsData | app/Components/market-insights.tsx:70-74 | the timestamp moves only when there is data |
| Details.FirstCondition | app/details/page.tsx:86 | the first condition exists iff the weather array exists and is non-empty |
| Details.WeatherRowsSpec | app/details/page.tsx:82-87 | one row per forecast entry, in order, with time in ms, rounded temperature, humidity and the first condition |
| Details.CryptoRowsSpec | app/details/page.tsx:113-118 | the rows exist iff neither volumes nor caps is shorter than prices; then one row per price point, volume and cap from the same index |
| Details.ConditionText | app/details/page.tsx:308 | a missing or empty condition shows "N/A"; any other shows itself |
| Details.TableRows | app/details/page.tsx:293 | the tables show the first min(5, n) rows |
| Details.HttpErrorMessage | app/details/page.tsx:75-78 | a non-OK response records the API's message, or the fallback text when it has none |
| Details.DetailsState.constructor | app/details/page.tsx:55-64 | no rows, no error, both sections loading |
| Details.DetailsState.FetchWeatherHistory | app/details/page.tsx:66-96 | the error is cleared first, delivered rows replace the old ones, a failure records its message and keeps the rows, and loading ends |
| Details.DetailsState.FetchCryptoHistory | app/details/page.tsx:104-129 | aligned series replace the rows; a failure or a short series keeps them; loading ends |
| JsNumber.JsRound | app/weather/page.tsx:225 | `Math.round`: the nearest integer, halves rounded up |
| JsNumber.ToFixed2 | app/Components/price-cards.tsx:51-53 | `toFixed(2)` read back as a number: a whole number of hundredths, the nearest one to the input, ties away from zero, with the input's sign |
| JsNumber.NearestCentUnique | app/Components/crypto-chart.tsx:114 | at most one value is the nearest cent of a number, so the contract of `ToFixed2` fixes its result |
| JsNumber.ToFixed2Monotone | app/Components/crypto-chart.tsx:114 | rounding to cents never reverses the order of two numbers |

## Left out

- Network requests, API keys, `setInterval` polling and the fetch wrappers in app/data/ are left out. Each fetch is a parameter holding its outcome; a missing API key is folded into that outcome's failure.
- The polling hooks in app/hooks/ serve mock data and `Math.random()` values; they are not part of this model.
- Schema validation (zod) is an input: a payload is absent, invalid, or valid with its value.
- Floating point is left out; prices and percentages are exact reals. NaN is left out except for the non-finite change of a zero first price.
- Date and locale text is left out: `toLocaleDateString`, `toLocaleTimeString`, `toLocaleString`, `Intl.NumberFormat` and `formatDistanceToNow`. Times stay as the numbers the API sends.
- `formatValue` in market-insights builds locale text and is left out.
- `CryptoDialog.AsRecord`: the number-to-text conversion `join` applies to prices is a parameter.
- Web Audio synthesis in `playSound` is left out; `PlaySound` returns whether it would sound.
- The Blob and DOM download in `downloadCSV` is left out; the model stops at the CSV text.
- Grid library internals are left out: row sorting, substring filtering, page clamping, previous and next page, and dropping a filter whose value becomes empty.
- The grid library also goes back to the first page when the `data` it is given changes; the grid state here does not hold the data, so that reset is not modelled.
- The click sound that typing in the grid's search box and the CSV download play first is not modelled; `Header.HeaderState` (including its search inputs) and `Weather.WeatherPage` model the same call.
- `MarketHighlights.HighlightsState.OnCategoriesData`: it assumes the category hook delivers an array or nothing. A truthy payload that is not an array would make `.slice` throw, and that case is not modelled.
- `CryptoChart.ChartCard.LoadCoinList`: an uncaught error is only reported as `escaped`. What React and Next.js then do with the page (the error screen, unmounting) is not modelled.
- `Text.ToLower`: it lowers ASCII letters only. JavaScript's `toLowerCase` also maps other characters, such as the Kelvin sign U+212A to `k`.
- `DataTable.WithFilter`: it always upserts the value, including an empty one.
- The order in which `Promise.all` settles is left out. A failed batch records the `failure` message given as a parameter.
- `Weather.DetailDialog.Fetch`: the details are `Weather.DetailsOf` of one report. Sunrise and sunset text, feels-like and pressure are copied fields without a proved property.
- `Details.DetailsState.FetchWeatherHistory`: a thrown value that is not an `Error` (and so yields the generic message) is not modelled separately.
- The chart's formatted price header and its `selectedCoin` lookup are presentational and left out.
- The `lastUpdated` text of market-insights is left out; the timestamp is a parameter.
- `Weather.WindDirection`: it is proved only for bearings of at least 0. A negative bearing below -22.5 reads outside the direction array, which the model returns as `None`.
- Purely presentational files are left out: page layouts, the footer, theme and mode toggles, trending and news lists, and animations.

## Findings

| source | as written | input that shows it | evidently intended | confidence | as-written member | corrected member |
|---|---|---|---|---|---|---|
| app/Components/crypto-chart.tsx:114-125 | the change badge divides by the first chart price after it was rounded to cents | a series 0.000012 → 0.000013: the first price rounds to 0.00, so the change is non-finite | the change computed from the fetched prices: +25/3 % | not executed | CryptoChart.SubCentChangeLost | CryptoChart.ChangeOfPrices |
