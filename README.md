# A verified model of the dollar/yen index dashboard

The dashboard tracks the won against the dollar and the yen. It downloads daily
prices for the six currencies of the U.S. Dollar Index plus USD/KRW, keeps that
history in a database table, derives the yen cross rate JPY_KRW and the yen
index JXY, computes the index itself, and scrapes or queries four point rates
(USDT/KRW, Hana Bank and Investing.com USD/KRW, Investing.com JPY/KRW). On top
of this sits a small ledger of currency investments and their sales.

This project models the logic of those parts in Dafny and proves what it
promises:

- `PeriodCache` models the Python cached period fetch:
  - the one-hour per-period memo (`PeriodFetcher.FetchPeriodDataWithCache`);
  - the per-pair staleness decision that refetches the whole ticker set;
  - the three download shapes and the per-ticker fallback;
  - the guarded derived columns, High and Low using the opposite extreme of USD/JPY;
  - the merge of stored and fetched tables;
  - the fallback chain for current rates.
- `HistoryStore` models the history table as a map from (date, pair) to a
  record. The `ExchangeHistoryDB` class holds it, with its value sanitiser,
  record builder, batched upsert, latest-date query and coverage report.
- The index calculators:
  - `IndexCalculator` (Python);
  - `JsCalculations` (the server library's column-array code);
  - `FrontendCalculations` (the browser code, which skips rows and substitutes 1);
  - `PeriodAssembly` (the TypeScript period fetch: date grouping, the positive-close
    filter, same-side derived arrays, current prices).

  `lib/services/index-calculator.ts:362-417` repeats `calculateDollarIndexSeries`
  and `calculateCurrentDxy` of `lib/utils/calculations.ts` with the same
  behaviour. `JsCalculations` models them once.
- The point-rate caches, as classes whose fields are the cache entries:
  - `ExchangeRate` (Python);
  - `ExchangeRateService` (TypeScript, with its bounded retry loop and the
    `a || b || 0` combination);
  - `Text` holds the text clean-up of scraped cells.
- `BackendApi` models the FastAPI backend's JSON shaping: non-finite and huge
  values become null, and the JPY keys treat 0 as missing.
- The ledger:
  - `Investments` holds the shared records and cleaning rule;
  - `JpyDb` models the Python yen layer and its settlement of a sale;
  - `InvestmentsFunction` models the serverless handler's gate, creation and sell branch.
- The page helpers:
  - `SummaryTab` (the period window, the kimchi premium);
  - `SellRecordsTab` (the date filter, the sums and ratios).
- Shared definitions:
  - `Numbers` holds floating-point values with NaN and the infinities;
  - `Frames` holds date-indexed tables;
  - `MarketData` holds pairs, tickers, weights and download shapes;
  - `Seqs` holds helpers.

Prices are exact reals with explicit NaN and infinity values. Dates are integer
day numbers, or millisecond times in the pages. The clock, every network
answer, every database outcome and the real-exponent power function are
inputs.

Two behaviours of the code are worth stating because they are easy to
misread:

- The fetch (`services/exchange_rate_cached.py:178-179`) treats a pair last
  stored one whole day ago as stale, while the coverage report
  (`database/exchange_history_db.py:309`) counts it as covered.
  `PeriodCache.YesterdayIsCoveredAndStale` states both.
- `calculate_current_dxy` (`services/index_calculator.py:135-152`) returns 0.0
  when a rate is missing, and raises only on a zero rate under a negative
  weight.

The fetches follow the code as written, including the two defects listed
under "## Findings". The corrected definitions stand beside them, with the
intended property proved about each.

## Model

| member | source | states |
|---|---|---|
| Text.RemoveAll | services/exchange_rate.py:69 | the result holds exactly the characters of the text other than the removed one, and is no longer than the text |
| Text.RemoveAllAppend | services/exchange_rate.py:69 | removal works piece by piece, so the kept characters stay in order |
| Text.ReplaceFirst | lib/services/exchange-rate.ts:87 | a string pattern removes only the first occurrence: the text is unchanged without one, and otherwise it loses exactly the character at the first index, everything before that index being free of it |
| Text.ReplaceFirstRemovesSingle | lib/services/exchange-rate.ts:87 | with at most one occurrence, removing the first is the same as removing all |
| Text.Trim | lib/services/exchange-rate.ts:86 | `trim` gives the slice between the leading and trailing JavaScript white space, with no space left at either end |
| Text.TrimSpaceFree | lib/services/exchange-rate.ts:86 | a text without spaces is its own trim |
| Text.NormalisePy | services/exchange_rate.py:68-70 | the Python cell text keeps exactly the characters that are neither a comma nor a won sign |
| Text.NormaliseJs | lib/services/exchange-rate.ts:86-88 | the TypeScript cell text has no comma and no space at either end |
| Text.NormalisationsAgree | lib/services/exchange-rate.ts:100 | on a cell with at most one won sign and no spaces, the TypeScript and Python normalisations give the same text |
| Text.FirstWonRemoved | lib/services/exchange-rate.ts:100 | on a text with two won signs, the string-pattern replace removes the first and keeps the second |
| Text.SecondWonKept | lib/services/exchange-rate.ts:100 | on a text with two won signs, the TypeScript normalisation keeps a won sign and the Python one does not |
| Frames.Column | services/exchange_rate_cached.py:482 | a column read top to bottom has one value per row, NaN where the row lacks the column |
| Frames.Lookup | database/exchange_history_db.py:195-198 | `loc[date, pair]` is defined exactly when the date is in the index and the pair is a column |
| Frames.DropAllNa | services/exchange_rate_cached.py:377-380 | `dropna(how='all')` keeps every row with some value and only such rows, with the columns unchanged |
| Frames.DropAnyNa | services/index_calculator.py:56-58 | `dropna()` keeps every complete row and only complete rows, with the columns unchanged |
| Frames.WithColumn | services/exchange_rate_cached.py:389-398 | assigning a column sets that column row by row and leaves the dates and every other cell as they were |
| Frames.LastWithDateAppend | services/exchange_rate_cached.py:464 | in a concatenation the last row with a date is the second table's when it has that date, else the first table's |
| Frames.UnionColumns | services/exchange_rate_cached.py:459 | the concatenation's columns are those of either table |
| Frames.Merge | services/exchange_rate_cached.py:459-466 | concatenate, sort and keep the last of each date: dates strictly ascending, exactly the union of both tables' dates, and the fetched row wherever the fetched table has the date, else the stored one |
| Frames.LastPositive | services/exchange_rate_cached.py:528-531 | the last positive value of a series: None exactly when no value is positive, otherwise a positive value that no later value beats |
| Frames.LastValue | services/index_calculator.py:90 | `iloc[-1]` is defined exactly when the column exists and there is a row, and is then the last row's value |
| MarketData.PairName | services/exchange_rate_cached.py:363-374 | each quoted ticker is renamed to its pair, position by position |
| MarketData.TickerOf | services/exchange_rate_cached.py:110-118 | each quoted pair maps to its ticker |
| MarketData.PairNameRoundTrip | services/exchange_rate_cached.py:311 | renaming a quoted ticker and mapping it back gives the ticker again |
| MarketData.PeriodString | services/exchange_rate_cached.py:204-205 | a number of months that is not 1, 3, 6 or 12 falls back to one year |
| MarketData.ByTicker | services/exchange_rate_cached.py:316-330 | the (ticker, price) branch keeps one column per quoted pair whose key is present, with the download's dates and cells |
| MarketData.ByPrice | services/exchange_rate_cached.py:332-336 | `df_all[price]` raises exactly when no key has that first level, and otherwise keeps one column per quoted pair listed under it |
| MarketData.AllPairsDistinct | services/exchange_rate_cached.py:119 | the seven quoted pairs are pairwise distinct |
| MarketData.CrossKeysUnquoted | services/exchange_rate_cached.py:520-562 | JXY and JPY_KRW are not quoted pairs |
| HistoryStore.DaysSinceAntitone | database/exchange_history_db.py:309 | a later stored day is never more whole days ago |
| HistoryStore.SafeFloat | database/exchange_history_db.py:179-193 | `safe_float` gives a value exactly for a finite number that is not a zero JPY_KRW or JXY value, and that value is the number itself |
| HistoryStore.CellRecord | database/exchange_history_db.py:195-213 | a (date, pair) cell is skipped exactly when a table lacks it or none of its four prices is safe; otherwise its record carries that date and pair and each safe price, 0.0 where a price is not safe |
| HistoryStore.CollectMembership | database/exchange_history_db.py:176-213 | the column loop yields a record exactly when some column's cell yields it |
| HistoryStore.GatherMembership | database/exchange_history_db.py:166-176 | the date loop yields a record exactly when some row's date yields it |
| HistoryStore.RowRecordsMembership | database/exchange_history_db.py:176-213 | the records of one date are exactly the non-skipped cells of that date over the close table's columns |
| HistoryStore.TableRecordsMembership | database/exchange_history_db.py:161-216 | a record is sent exactly when its date is a row of the close table, its pair a column of it, and its cell is not skipped |
| HistoryStore.UpsertAppend | database/exchange_history_db.py:223-229 | upserting two runs in turn is upserting their concatenation, so batching changes nothing |
| HistoryStore.UpsertLookup | database/exchange_history_db.py:226-229 | after upserting on (date, currency_pair), a key carries the prices of the last record with that key, and every key no record names keeps its row |
| HistoryStore.Written | database/exchange_history_db.py:223-229 | when a batch raises, only the whole batches before it are written, never more than all records; with no failing batch all are |
| HistoryStore.PivotOn | database/exchange_history_db.py:275-277 | the pivot has the requested columns and dates, a stored row's price in its cell and NaN where no row is stored |
| HistoryStore.DateRecords | database/exchange_history_db.py:176-216 | the inner loop builds exactly the records of one date, in column order |
| HistoryStore.CollectRecords | database/exchange_history_db.py:165-216 | the nested loops build exactly the record list of the close table, date by date and column by column |
| HistoryStore.CollectDates | database/exchange_history_db.py:263-275 | the pivot's index is the distinct selected dates in ascending order |
| HistoryStore.KeyDates | database/exchange_history_db.py:263-275 | the distinct dates of the selected rows, as a value: strictly ascending and exactly the dates of the selected keys |
| HistoryStore.SelectedFacts | database/exchange_history_db.py:258-277 | the pivot's columns are the requested pairs with a row in the range, and its dates the dates in range with a requested pair |
| HistoryStore.ExchangeHistoryDB.constructor | database/exchange_history_db.py:15-20 | the store starts with the given client state and table |
| HistoryStore.ExchangeHistoryDB.LatestOf | database/exchange_history_db.py:94-145 | the scan yields the greatest stored date of the pair, None when it has no row |
| HistoryStore.ExchangeHistoryDB.GetAllLatestDates | database/exchange_history_db.py:70-152 | every requested pair, and no other, maps to its greatest stored date or None; all None without a client or when the query raises; an empty request gives an empty map |
| HistoryStore.ExchangeHistoryDB.UpsertInBatches | database/exchange_history_db.py:219-239 | the records are upserted in order in batches of 1 to 1000 whose concatenation is the written prefix; the result is true exactly when every batch was written |
| HistoryStore.ExchangeHistoryDB.SaveHistoryData | database/exchange_history_db.py:154-246 | open defaults to close; without a client nothing is written and the result is false; otherwise the result is true exactly when there was a record and every batch was written, and the new table is the old one with the written prefix upserted |
| HistoryStore.ExchangeHistoryDB.LoadHistoryData | database/exchange_history_db.py:248-291 | the close, high and low tables returned are exactly `HistoryStore.Loaded` of the store's table for the close, high and low fields: three empty tables without a serving store, otherwise the selected rows pivoted |
| HistoryStore.LoadedShape | database/exchange_history_db.py:258-277 | the loaded tables are empty without a serving store; otherwise they share columns and strictly ascending dates, exactly the requested pairs with a row in the range and the dates in the range with a row of a requested pair, each cell the stored price or NaN where no row exists |
| HistoryStore.ExchangeHistoryDB.GetDataCoverage | database/exchange_history_db.py:293-312 | every requested pair is covered exactly when the store serves it a stored date at most one whole day ago, which holds exactly when its latest date is; all false without a client |
| IndexCalculator.WeightKeys | config/settings.py:29-36 | the weights are keyed by the six index components, in order |
| IndexCalculator.DxyOfUnfolded | services/index_calculator.py:123-130 | the written-out six-factor product equals the left-to-right weighted product, for every power function |
| IndexCalculator.CalculateDollarIndexSeries | services/index_calculator.py:112-132 | the series raises (KeyError) exactly when a component column is missing; otherwise it has exactly one value per row of the close table, the index at that row's rates |
| IndexCalculator.CalculateCurrentDxy | services/index_calculator.py:135-152 | the loop runs over the components in weight order and stops at the first that is missing (0.0) or that is 0.0 under a negative weight (ZeroDivisionError); when it runs to the end, the result is C × Π rate^weight, with no positivity check |
| IndexCalculator.StopFrom | services/index_calculator.py:145-150 | the first step at or after `i` where the loop stops: every step before it continues, and it stops there unless it is past the last component |
| IndexCalculator.CurrentDxyCases | services/index_calculator.py:145-152 | with every component present and no zero rate under a negative weight the loop runs to the end; with a component missing it stops early |
| IndexCalculator.OnlyNegativeWeightsRaise | services/index_calculator.py:146-148 | a raising stop is at EUR_USD or GBP_USD with a 0.0 rate, and a 0.0 EUR_USD raises at the first step whatever the other rates are |
| IndexCalculator.LiveOrLastClose | services/index_calculator.py:82-99 | a current rate is the live price when it is not None, else the close table's last value, raising where that lookup raises or the quote raises |
| IndexCalculator.CollectRates | services/index_calculator.py:78-99 | the loop raises exactly when some pair's lookup raises; otherwise every pair, and no other key, gets its rate |
| IndexCalculator.CrossRatesComplete | services/index_calculator.py:101-107 | adding JXY = 100 / USD_JPY and JPY_KRW = USD_KRW / USD_JPY to the collected rates gives the current-rates dictionary |
| IndexCalculator.FetchCurrentRatesAsWritten | services/index_calculator.py:66-109 | as written: raises exactly when a lookup raises, the live USD/JPY is 0, or the eagerly evaluated defaults find no last USD_JPY or USD_KRW close; otherwise the pair rates with JXY and JPY_KRW computed without guard |
| IndexCalculator.FetchCurrentRates | services/index_calculator.py:66-109 | corrected: raises exactly when a lookup raises or the live USD/JPY is 0; otherwise the same dictionary |
| IndexCalculator.EagerDefaultRaises | services/index_calculator.py:102 | seven live quotes with an empty close table make the code as written raise, while the corrected version succeeds |
| IndexCalculator.LiveQuotesSuffice | services/index_calculator.py:82-107 | live, nonzero quotes always give the current rates, whatever the close table holds |
| IndexCalculator.AsWrittenAgreesWithLastValues | services/index_calculator.py:102-106 | both versions fail on the same inputs whenever the close table has a last USD_JPY and USD_KRW value |
| IndexCalculator.SelectPrice | services/index_calculator.py:41-53 | `df_all[price]` of a two-level download is the price-type table, and a one-level download raises |
| IndexCalculator.FetchPeriodDataAndCurrentRates | services/index_calculator.py:16-63 | an unknown period means one year; the result raises exactly when taking a price table raises or `_fetch_current_rates` as written raises on the cleaned close table; otherwise close, high and low with every NaN row dropped, and every current rate present and read from the cleaned close table |
| IndexCalculator.PlainTables | services/index_calculator.py:41-58 | the three tables raise exactly when taking the Close, High or Low table raises; otherwise they are those tables with every row holding a NaN dropped |
| PeriodCache.EntryLifetime | services/exchange_rate_cached.py:62-67 | an entry stored at time t is valid exactly while the clock is below t + 3600 s, and once invalid it never becomes valid again |
| PeriodCache.FindStalePairs | services/exchange_rate_cached.py:154-194 | the pairs needing an update are, in order, exactly those whose latest date is missing or at least a whole day old; "all up to date" holds exactly when there are none |
| PeriodCache.YesterdayIsCoveredAndStale | services/exchange_rate_cached.py:178-179 | a pair last stored one day ago is stale here, although the coverage report counts it as covered |
| PeriodCache.PerTickerDownload | services/exchange_rate_cached.py:244-300 | the per-ticker table's dates are strictly ascending and are exactly the union of the dates of the tickers that returned rows; its keys are exactly the (ticker, price type) pairs those tickers have; no returned ticker gives an empty table |
| PeriodCache.TickerKeys | services/exchange_rate_cached.py:282-285 | a ticker contributes a key for exactly the price types its history has |
| PeriodCache.PerTickerKeys | services/exchange_rate_cached.py:280-285 | the keys are exactly the price-type keys of the tickers that returned rows |
| PeriodCache.PerTickerDates | services/exchange_rate_cached.py:274-277 | the dates are exactly those of the tickers that returned rows |
| PeriodCache.HistoryOf | services/exchange_rate_cached.py:281 | each ticker is paired with its own history |
| PeriodCache.IndexOnly | services/exchange_rate_cached.py:317-320 | `pd.DataFrame(index=...)` has the index's dates and no column |
| PeriodCache.SingleColumn | services/exchange_rate_cached.py:347-351 | a one-level price column becomes a single-column table on the download's dates |
| PeriodCache.TickerColumns | services/exchange_rate_cached.py:353-361 | the ticker-named columns become a close table with one column per quoted pair the download has |
| PeriodCache.NormaliseOneLevel | services/exchange_rate_cached.py:344-361 | with a Close column the branch raises exactly when High, Low or Open is missing; without one only a close table is built |
| PeriodCache.NormaliseAsWritten | services/exchange_rate_cached.py:303-380 | an empty download gives four empty tables, and every non-empty two-level download is read as (ticker, price) and stripped of all-NaN rows |
| PeriodCache.ByTickerOfByPriceLayout | services/exchange_rate_cached.py:322-330 | reading a download whose first level holds price types as (ticker, price) finds no column and keeps no row |
| PeriodCache.AsWrittenLosesByPriceLayout | services/exchange_rate_cached.py:316-330 | the normalisation as written turns every non-empty download grouped by price type into four tables without rows |
| PeriodCache.ByPriceExampleLost | services/exchange_rate_cached.py:237 | on a one-date download grouped by price type with a USD/JPY price, the normalisation as written keeps no close row |
| PeriodCache.Normalise | services/exchange_rate_cached.py:314-380 | the corrected normalisation reads a two-level download with a Close first level by price type (raising exactly when High, Low or Open is missing) and agrees with the code as written everywhere else |
| PeriodCache.NormaliseByPriceLayout | services/exchange_rate_cached.py:332-336 | on a download grouped by price type the corrected normalisation is the four `df_all[price]` tables stripped of all-NaN rows |
| PeriodCache.CorrectedKeepsByPriceLayout | services/exchange_rate_cached.py:332-336 | the corrected normalisation keeps every quoted pair with a close key as a column, and every date on which one of them has a value |
| PeriodCache.ByPriceExampleKept | services/exchange_rate_cached.py:237 | on the same example the corrected normalisation keeps the USD/JPY column and the date |
| PeriodCache.TickersAreNotPriceTypes | services/exchange_rate_cached.py:208 | no quoted ticker is spelled like a price type |
| PeriodCache.DropAllNaNoColumns | services/exchange_rate_cached.py:377 | a table without columns loses every row to `dropna(how='all')` |
| PeriodCache.JpyKrwOf | services/exchange_rate_cached.py:387-393 | a JPY_KRW cell is USD_KRW / USD_JPY when both are positive and NaN otherwise |
| PeriodCache.JxyOf | services/exchange_rate_cached.py:394-398 | a JXY cell is 100 / USD_JPY when it is positive and NaN otherwise |
| PeriodCache.DerivedCellsNonNegative | services/exchange_rate_cached.py:387-398 | a defined derived cell is never negative |
| PeriodCache.WithDerived | services/exchange_rate_cached.py:389-398 | adding the two derived columns sets them row by row and leaves the dates and all other cells unchanged |
| PeriodCache.DeriveSame | services/exchange_rate_cached.py:386-398 | close (and open) derive both columns from the table's own USD_KRW and USD_JPY |
| PeriodCache.Aligned | services/exchange_rate_cached.py:402-406 | another table's column read at this table's dates is NaN where the other table lacks the date |
| PeriodCache.DeriveOpposite | services/exchange_rate_cached.py:400-428 | high uses the low USD_JPY and low the high USD_JPY; JPY_KRW is read by date and is assigned exactly when this side has USD_KRW and the opposite table has no date this side lacks; JXY is read by position and is assigned only when, in addition, both tables have as many rows; a raise after JPY_KRW keeps it; no other cell and no date changes |
| PeriodCache.SameDatesReadByDate | services/exchange_rate_cached.py:400-428 | when both tables have the same strictly ascending dates the step completes, and the positional JXY equals the opposite USD_JPY read by date |
| PeriodCache.DeriveAll | services/exchange_rate_cached.py:382-445 | the derived step runs only with a non-empty close table holding USD_JPY and USD_KRW; high is the high step's table (possibly stopped after JPY_KRW) when low has USD_JPY and is untouched otherwise; low then follows the same rule from the new high's USD/JPY, unless the high step raised; open gets the derived columns only when neither earlier step raised and it is non-empty with USD_JPY and USD_KRW; no cell outside JPY_KRW and JXY and no date ever changes |
| PeriodCache.ShorterLowStopsAfterJpyKrw | services/exchange_rate_cached.py:400-413 | a low table whose dates are a strict part of the high table's leaves high with JPY_KRW but no JXY, and low and open untouched |
| PeriodCache.ChosenDownload | services/exchange_rate_cached.py:223-244 | the fetch uses the first bulk download that did not raise unless it is empty, and otherwise the per-ticker table |
| PeriodCache.FetchedTables | services/exchange_rate_cached.py:303-445 | the new tables are the download normalised as the code is written with the derived columns, and the fetch raises exactly when that normalisation raises |
| PeriodCache.MergeIfStored | services/exchange_rate_cached.py:457-470 | an empty stored close table returns the fetched table as it is; otherwise dates are strictly ascending, exactly the union, and the fetched row wins on a shared date |
| PeriodCache.PairRate | services/exchange_rate_cached.py:475-518 | a pair's current rate is the live price, else the last close, else (only when the quote did not raise) the one-day close, else 0.0 |
| PeriodCache.CurrentJxy | services/exchange_rate_cached.py:522-536 | JXY is 100 / the current USD/JPY when that is positive, else 100 / the last positive USD/JPY close, else None |
| PeriodCache.CurrentJpyKrw | services/exchange_rate_cached.py:538-558 | JPY_KRW is USD/KRW / USD/JPY when both current rates are positive, else the quotient of both last positive closes, else None |
| PeriodCache.CurrentJxyPositive | services/exchange_rate_cached.py:520-536 | a current JXY that is not None is strictly positive when the USD/JPY values are not +infinity |
| PeriodCache.CurrentJpyKrwPositive | services/exchange_rate_cached.py:538-558 | likewise for a current JPY_KRW |
| PeriodCache.PairRates | services/exchange_rate_cached.py:475-496 | the loop gives every key, and nothing else, its pair rate |
| PeriodCache.CachedCurrentRates | services/exchange_rate_cached.py:472-562 | the current rates hold every quoted pair's rate plus JXY and JPY_KRW computed from the USD/JPY and USD/KRW just stored |
| PeriodCache.PeriodFetcher.constructor | services/exchange_rate_cached.py:59 | the memo starts empty |
| PeriodCache.PeriodFetcher.LoadStored | services/exchange_rate_cached.py:122-133 | the stored tables are what the history store loads for all pairs from `months * 30 + 7` days before today to today, with no open table; empty without a serving store |
| PeriodCache.PeriodFetcher.Refresh | services/exchange_rate_cached.py:203-470 | fetch, save and merge: raises exactly when the fetched tables raise (the store then unchanged); otherwise the merged tables and the store after saving the four fetched tables |
| PeriodCache.PeriodFetcher.FetchWithDbCache | services/exchange_rate_cached.py:108-575 | the stored tables are returned, and the store untouched, exactly when every pair has a stored row under one day old and the stored close table is non-empty; otherwise the result raises with the store untouched exactly when the new tables raise, and else holds the new tables merged into the stored ones, the store holding them saved; the current rates always follow the fallback chain |
| PeriodCache.UpToDateIffFresh | services/exchange_rate_cached.py:136-197 | the staleness loop over the latest dates the store reports finds every pair up to date exactly when every pair has a stored row less than one whole day old |
| PeriodCache.PeriodFetcher.FetchPeriodDataWithCache | services/exchange_rate_cached.py:69-105 | a valid memo entry is returned verbatim with nothing changed; otherwise, when the database fetch does not raise, its result and its new store; when it raises, the store untouched and the plain fetch's result, raising exactly when the plain fetch raises; a successful result is memoised with the current time |
| PeriodAssembly.HlcOf | lib/services/index-calculator.ts:103-105 | a date keeps each of a quote's close, high and low when it is truthy and 0 otherwise (`|| 0`) |
| PeriodAssembly.LastOn | lib/services/index-calculator.ts:93-106 | the quote whose fields a date ends up holding is the last of the ticker's quotes on that date; there is none exactly when no quote carries that date |
| PeriodAssembly.AddTicker | lib/services/index-calculator.ts:93-106 | after one ticker's quotes, the date map has the earlier dates plus the ticker's, every other pair's fields are unchanged, and the ticker's pair holds the fields of its last quote on each date and nothing on the dates it has no quote for |
| PeriodAssembly.GroupByDate | lib/services/index-calculator.ts:87-107 | the grouped map has exactly the dates some ticker quotes, in first-seen order, and on each date every pair holds the fields of its last quote, or nothing when it has no quote that day |
| PeriodAssembly.ValidDates | lib/services/index-calculator.ts:109-120 | the kept dates are strictly ascending and are exactly the grouped dates on which every pair has a positive close |
| PeriodAssembly.KeptDateIff | lib/services/index-calculator.ts:109-117 | on a grouped map, the filter keeps a date exactly when every pair's last quote on it exists and has a positive close |
| PeriodAssembly.BuildArrays | lib/services/index-calculator.ts:122-143 | the close, high and low tables are keyed by exactly the pairs, and each pair's array holds, for each kept date in order, its field on that date or 0 |
| PeriodAssembly.PushDate | lib/services/index-calculator.ts:136-142 | one date pushes one value on every pair's three arrays and keeps the key set |
| PeriodAssembly.OrZeroIdempotent | lib/services/index-calculator.ts:139-141 | the second `|| 0` when the arrays are filled changes nothing, since the stored value already went through one |
| PeriodAssembly.ColumnsOfKeptDates | lib/services/index-calculator.ts:87-143 | each pair's arrays hold the close, high and low of its last quote on each kept date |
| PeriodAssembly.DerivedAt | lib/services/index-calculator.ts:155-189 | all six derived values are 0 unless both closes are positive; otherwise JPY/KRW close is the KRW close over the JPY close and JXY close is 100 over the JPY close, and high and low use the highs or lows where both are positive and the closes where not |
| PeriodAssembly.DerivedPositive | lib/services/index-calculator.ts:158-181 | with positive finite closes and finite highs and lows, every derived value is positive |
| PeriodAssembly.DeriveArrays | lib/services/index-calculator.ts:145-198 | the JPY_KRW and JXY tables are added with one value per kept date, derived from the USD/JPY and USD/KRW arrays at that position, and every other column is left as it was |
| PeriodAssembly.PairColumnsKept | lib/services/index-calculator.ts:192-197 | adding the derived columns does not disturb any pair's columns |
| PeriodAssembly.PairArrays | lib/services/index-calculator.ts:87-143 | the dates are strictly ascending and are exactly those on which every pair has a quote with a positive close, and each pair's arrays hold its last quote's fields on those dates |
| PeriodAssembly.AssembleArrays | lib/services/index-calculator.ts:87-198 | as `PairArrays`, with the two derived columns holding the derived values at every position and the tables keyed by the pairs plus JPY_KRW and JXY |
| PeriodAssembly.FirstTruthy | lib/services/index-calculator.ts:220 | the quote price is the first truthy field in order, or 0 when none is truthy |
| PeriodAssembly.LastCloseFallback | lib/services/index-calculator.ts:228-238 | there is a fallback exactly when the pair's array is non-empty and its last close is positive, and it is that close |
| PeriodAssembly.PriceOf | lib/services/index-calculator.ts:220-257 | a pair's price is the quote's price when that is positive, and otherwise, also when the request raised, the positive last close or nothing; any price set is positive |
| PeriodAssembly.QuotedPrice | lib/services/index-calculator.ts:211-258 | one pass of the quote loop gives `PriceOf` of the pair's response |
| PeriodAssembly.CurrentPrices | lib/services/index-calculator.ts:208-283 | after the quote loop and the later retry pass, the current prices hold a price for exactly the pairs that have one, each being `PriceOf` its response |
| PeriodAssembly.CurrentCrossRates | lib/services/index-calculator.ts:285-335 | with positive current USD/JPY and USD/KRW, JXY is 100 over USD/JPY and JPY_KRW is USD/KRW over USD/JPY; otherwise the same quotients of the last closes when both exist and are positive, else neither is set; the pairs' prices are untouched |
| PeriodAssembly.CrossRateFallbackIsDead | lib/services/index-calculator.ts:304-335 | with prices built as above, the last-close branch never sets anything: JXY and JPY_KRW are set exactly when both USD/JPY and USD/KRW have a price |
| PeriodAssembly.AssemblePeriodData | lib/services/index-calculator.ts:81-355 | the whole assembly after the downloads: kept dates, pair and derived columns as above, and current prices for exactly the priced pairs, plus JXY and JPY_KRW exactly when both USD/JPY and USD/KRW are priced, and no other key |
| PeriodAssembly.AllPairsAssemble | lib/services/index-calculator.ts:74-79 | the seven quoted pairs are distinct, include USD/JPY and USD/KRW, and do not include the two derived names |
| ExchangeRate.StoredEntryValid | services/exchange_rate.py:20-23 | an entry holding a value stored at `t` is valid exactly while fewer than `ttl` seconds have passed, whatever the value, and never when a field is unset |
| ExchangeRate.UsdtResult | services/exchange_rate.py:35-47 | after a cache miss, a raised request or a missing `closing_price` gives None, and otherwise the result is the parsed closing price |
| ExchangeRate.ScrapedResult | services/exchange_rate.py:61-76 | a raised request or a missing node gives None; otherwise the result is the node text, without commas and won signs, parsed |
| ExchangeRate.ScrapedEntry | services/exchange_rate.py:70-72 | a scraped source stores every parsed value with the current time, and keeps its entry when nothing was parsed |
| ExchangeRate.ScrapedZeroServed | services/exchange_rate.py:70-72 | a scraped 0.0 is stored and served until the entry expires, unlike the USDT fetcher |
| ExchangeRate.RateCaches.constructor | services/exchange_rate.py:14-17 | the four cache entries start empty |
| ExchangeRate.RateCaches.FetchUsdtKrwPrice | services/exchange_rate.py:25-47 | a valid USDT entry is returned and kept; otherwise the fetched result is returned and stored with the time only when it is truthy; the other entries are untouched, and the USDT entry never holds 0.0 |
| ExchangeRate.RateCaches.FetchHanaUsdKrwRate | services/exchange_rate.py:50-76 | a valid Hana entry (180 seconds) is returned and kept; otherwise the scraped result is returned and stored when there is one; the other entries are untouched |
| ExchangeRate.RateCaches.FetchInvestingUsdKrwRate | services/exchange_rate.py:79-105 | the same rule for the Investing.com USD/KRW entry |
| ExchangeRate.RateCaches.FetchInvestingJpyKrwRate | services/exchange_rate.py:108-134 | the same rule for the Investing.com JPY/KRW entry |
| ExchangeRateService.ZeroNeverValid | lib/services/exchange-rate.ts:25-30 | an entry holding 0 is never valid, however recent, because the validity test needs truthy data |
| ExchangeRateService.UsdtPrice | lib/services/exchange-rate.ts:40-52 | a price is produced exactly when the response has a non-empty `closing_price`, and it is that text parsed, NaN included |
| ExchangeRateService.ParsedCell | lib/services/exchange-rate.ts:98-101 | a cell text gives a number exactly when the text without commas, the first won sign and surrounding space is non-empty, and the number is that text parsed |
| ExchangeRateService.HanaResult | lib/services/exchange-rate.ts:64-119 | any rate reported is finite and strictly between 1000 and 2000; a raised request or no matching node gives none; the first selector's text is used when it matched, even if its rate is rejected, and the fallback selector's text only when it did not |
| ExchangeRateService.AttemptRate | lib/services/exchange-rate.ts:164-241 | one request yields a rate exactly when it answered with status 200, no challenge page, a rate cell, and a truthy parsed number, which is then the rate |
| ExchangeRateService.FirstSuccess | lib/services/exchange-rate.ts:152-261 | the position of the first request that yields a rate, every earlier request yielding none; -1 when none does |
| ExchangeRateService.RetryFromFirstSuccess | lib/services/exchange-rate.ts:152-261 | going through the requests one by one from any point before the first success ends at that first success with its rate and its number, or with null after all of them |
| ExchangeRateService.TryAttempt | lib/services/exchange-rate.ts:164-241 | one pass of the loop body gives `AttemptRate` of that request |
| ExchangeRateService.InvestingAttempts | lib/services/exchange-rate.ts:150-261 | the loop makes between 1 and 3 requests, stops at the first one that yields a rate and returns it, or null after the third; any rate returned is truthy |
| ExchangeRateService.CombineRates | lib/services/exchange-rate.ts:397-421 | Investing.com USD/KRW falls back to Hana and then to 0, Hana falls back to that combined value, the other two fall back to 0 |
| ExchangeRateService.CombinedUsdRates | lib/services/exchange-rate.ts:413-417 | both USD/KRW figures are 0 exactly when both sources failed, no figure is NaN, the two coincide when only one source delivered, and each keeps its own value when both did |
| ExchangeRateService.MulHundredTruthy | lib/services/exchange-rate.ts:353-357 | scaling a truthy per-yen rate to 100 yen keeps it truthy, so the stored yen rate can be served again |
| ExchangeRateService.RateCache.constructor | lib/services/exchange-rate.ts:11-21 | the four entries start empty |
| ExchangeRateService.RateCache.FetchUsdtKrwPrice | lib/services/exchange-rate.ts:35-53 | a valid entry is returned and kept; otherwise the parsed price is returned, NaN included, and stored with the time only when it is truthy; the other entries are untouched |
| ExchangeRateService.RateCache.FetchHanaUsdKrwRate | lib/services/exchange-rate.ts:59-120 | a valid entry is returned and kept; otherwise `HanaResult` is returned and stored when there is one; a stored Hana rate always lies strictly between 1000 and 2000 |
| ExchangeRateService.RateCache.FetchInvestingUsdKrwRate | lib/services/exchange-rate.ts:127-262 | a valid entry is returned without a request; otherwise the retry loop's rate and number of requests, the rate stored when there is one |
| ExchangeRateService.RateCache.FetchInvestingJpyKrwRate | lib/services/exchange-rate.ts:269-391 | as for USD/KRW, with the rate returned and stored being 100 times the loop's per-yen rate |
| JsCalculations.RatesAt | lib/utils/calculations.ts:24-26 | the rates of a row are the element at that position of exactly the arrays long enough to have one |
| JsCalculations.RowProduct | lib/utils/calculations.ts:21-32 | the inner loop reports every component valid exactly when each weighted pair has a truthy positive value at that row, and then the product is the weighted product of the row's rates |
| JsCalculations.CalculateDollarIndexSeries | lib/utils/calculations.ts:7-43 | one value per EUR/USD close; at a row where every component is valid, the dollar index of that row's rates; at any other row, 0 |
| JsCalculations.CalculateCurrentDxy | lib/utils/calculations.ts:49-71 | 0 when some weighted pair is missing, falsy or not positive; otherwise the dollar index of the rates |
| JsCalculations.LevelSignal | lib/utils/calculations.ts:96-97 | 'O' exactly when the first value is below the second, 'X' exactly when above, '-' exactly when they are equal or either is NaN |
| JsCalculations.RatioSignal | lib/utils/calculations.ts:102 | 'O' exactly when the first value is above the second and 'X' exactly when below |
| JsCalculations.RatioSignalIsSwappedLevel | lib/utils/calculations.ts:96-102 | a gap-ratio signal is a level signal with the operands exchanged |
| JsCalculations.LevelSignalAntisymmetric | lib/utils/calculations.ts:96-97 | exchanging a level signal's operands exchanges 'O' and 'X' and keeps '-' |
| JsCalculations.CalculateIndicatorSignals | lib/utils/calculations.ts:76-133 | the dollar, won, yen index and yen rate signals are 'O' below their 52-week middle; the gap-ratio signals are 'O' when the current ratio is above the middle one; the fair-rate signals compare the current rate with the current index over the middle gap ratio, times 100 |
| JsCalculations.CalculateCurrentJxy | lib/utils/calculations.ts:156-163 | 0 for a falsy or non-positive rate; otherwise a number whose product with the rate is 100 (and 0 for an infinite rate) |
| JsCalculations.CalculateJpyIndexSeries | lib/utils/calculations.ts:139-150 | one value per USD/JPY close, none without the array |
| JsCalculations.JpyIndexSeriesIsPointwise | lib/utils/calculations.ts:149-162 | every element of the yen index series is the current yen index of that close |
| JsCalculations.JpyIndexSeriesNonNegative | lib/utils/calculations.ts:149 | every yen index value from a finite close is 0 or positive |
| JsCalculations.CalculateIndicatorSignal | lib/utils/calculations.ts:169-183 | '-' exactly when the values are equal; otherwise 'O' when the current value is above the middle, or below it with `reverseLogic`, and 'X' in every other case |
| JsCalculations.ReverseLogicFlips | lib/utils/calculations.ts:174-182 | flipping `reverseLogic` exchanges 'O' and 'X' for comparable distinct values, and a NaN operand gives 'X' either way |
| FrontendCalculations.KeptRows | frontend/src/utils/calculations.ts:28-40 | the rows the series keeps are, in ascending order, exactly the positions below the length at which all six component values are truthy |
| FrontendCalculations.KeptRowsAll | frontend/src/utils/calculations.ts:28-51 | when every row is complete, every row gives a value |
| FrontendCalculations.RowValue | frontend/src/utils/calculations.ts:30-50 | one pass of the loop: the row is complete exactly when the six values are truthy, and then its value is the dollar index of the row's rates |
| FrontendCalculations.CompleteRow | frontend/src/utils/calculations.ts:30-38 | the six truthiness tests are the completeness of the row, pair by pair |
| FrontendCalculations.CalculateDollarIndexSeries | frontend/src/utils/calculations.ts:13-54 | the series has one value per complete row, in row order, each the dollar index of that row's rates; incomplete rows are skipped instead of giving 0; no columns give an empty series |
| FrontendCalculations.SubstituteOnes | frontend/src/utils/calculations.ts:60-66 | the six components with each missing, zero or NaN rate replaced by 1 and every other rate kept |
| FrontendCalculations.SubstitutedRates | frontend/src/utils/calculations.ts:60-66 | the substituted rate of each of the six named pairs |
| FrontendCalculations.CalculateCurrentDxy | frontend/src/utils/calculations.ts:57-69 | the current index is the dollar index of the rates with 1 substituted for each missing or falsy rate; it never returns 0 early |
| FrontendCalculations.CurrentDxyAgreesOnPositiveRates | frontend/src/utils/calculations.ts:57-69 | with all six rates present and positive, the browser current index equals the dollar index of the rates, the server library's value |
| FrontendCalculations.TwoValued | frontend/src/utils/calculations.ts:83-84 | never '-', and 'O' exactly when the first value is below the second |
| FrontendCalculations.CalculateIndicatorSignals | frontend/src/utils/calculations.ts:72-130 | the four dollar signals are two-valued comparisons; each yen signal is '-' exactly when one of the values it uses is not positive, and otherwise the two-valued comparison |
| FrontendCalculations.JpyFairRateSignal | frontend/src/utils/calculations.ts:107-118 | '-' exactly when the current JXY, either middle, their ratio or the current JPY/KRW per 100 yen is not positive; otherwise 'O' exactly when JPY/KRW per 100 yen is below the fair rate |
| FrontendCalculations.LevelSignalsAgree | frontend/src/utils/calculations.ts:83-84 | the browser's two-valued signals agree with the server library's three-valued ones wherever the library gives 'O' or 'X', and read a library '-' as 'X' |
| FrontendCalculations.FairRateGuardsReduce | frontend/src/utils/calculations.ts:109-116 | for a finite JPY/KRW middle, the two inner guards add nothing: the yen fair-rate signal is '-' exactly when one of its four inputs is not positive |
| BackendApi.CleanFloat | backend/main.py:216-239 | the cleaned value is always JSON-safe; it is kept exactly when it is a finite number no larger than 1e308 in magnitude, and is null otherwise |
| BackendApi.CleanFloatIdempotent | backend/main.py:216-239 | cleaning a cleaned value changes nothing |
| BackendApi.CleanList | backend/main.py:241-247 | the list keeps its length and order, each element cleaned, so every element is JSON-safe |
| BackendApi.CleanTables | backend/main.py:249-268 | an empty close table gives three empty dictionaries; otherwise the three dictionaries have exactly the close table's columns, each holding the three cleaned columns, or three empty lists when the high or low table lacks that column |
| BackendApi.TablesJsonSafe | backend/main.py:241-268 | every list the period endpoint returns holds only JSON-safe values |
| BackendApi.CleanRate | backend/main.py:270-291 | a JXY or JPY_KRW rate that is missing, 0, or 0 after cleaning becomes null; any other value is cleaned, and one that cleans to null is reported as 0.0 |
| BackendApi.CleanRateMeaning | backend/main.py:270-291 | a cleaned rate is JSON-safe, null only under a yen key (exactly when that value was missing or 0), 0.0 exactly when the value was 0 or missing under another key or not JSON-safe, and any other JSON-safe value is kept |
| BackendApi.YenNaNReportedAsZero | backend/main.py:275-284 | a NaN or infinite yen rate is reported as 0.0, not null, while a missing one is null |
| BackendApi.CleanCurrentRates | backend/main.py:270-291 | the cleaned rates have the same keys, each value cleaned by `CleanRate`, so all are JSON-safe and only a yen key can be null |
| BackendApi.GetPeriodData | backend/main.py:175-299 | an empty close table gives no dates and empty dictionaries; otherwise the close table's dates and its column dictionaries; the current rates are cleaned key by key |
| BackendApi.OrZeroPy | backend/main.py:117-120 | Python's `or 0`: a missing value or 0.0 gives 0, and any other value, NaN included, is kept |
| BackendApi.OrZeroAgreesWithJs | backend/main.py:117-120 | Python's `or 0` and JavaScript's `|| 0` differ only on NaN |
| BackendApi.GetCurrentRates | backend/main.py:113-127 | each field of `/current` is 0 exactly when its fetch failed or gave 0, and is the fetched value otherwise |
| Investments.CleanValue | database/jpy_db.py:17-39 | a cleaned value is always storable; null survives only under `memo`, a number only when finite, a date becomes its ISO text, another object its string conversion unless that raises, and any value already storable is kept |
| Investments.CleanValueIdempotent | database/jpy_db.py:17-39 | cleaning a cleaned value keeps it |
| Investments.CleanRecord | netlify/functions/investments.js:22-53 | the cleaned record has exactly the keys whose values survive cleaning, each holding its cleaned value |
| Investments.CleanData | database/jpy_db.py:15-39 | the cleaning loop yields the cleaned record |
| Investments.MissingFrom | netlify/functions/investments.js:106 | the fields of a list a record lacks, and no others, in list order |
| Investments.Missing | database/jpy_db.py:41-46 | the missing required fields are exactly those of the five the cleaned record lacks, and there are none exactly when all five are present |
| Investments.RecordOf | database/jpy_db.py:191-201 | the sell record carries the holding's number, rate and exchange name, the sale's rate, amount and time, proceeds of amount times sell rate, and a profit equal to the proceeds less the purchase cost of the amount sold |
| Investments.Reduced | database/jpy_db.py:213-218 | after a partial sale the holding's amount is the remainder and its purchase cost the remainder at the purchase rate, its other fields unchanged |
| Investments.PartialSaleSplitsCost | database/jpy_db.py:198-218 | the reduced holding keeps its cost basis, and its cost plus the cost of the amount sold is the former cost |
| JpyDb.SaveJpyInvestment | database/jpy_db.py:8-55 | without a client nothing is sent; otherwise the cleaned record is sent exactly when all five required fields survived cleaning, and the result is true exactly when it was sent and the insert succeeded |
| JpyDb.JpyLedger.constructor | database/jpy_db.py:160-174 | a ledger with the given holdings and an empty sell log |
| JpyDb.JpyLedger.SellJpyInvestment | database/jpy_db.py:160-224 | without a client, for an unknown holding or a null amount: failure with 0 and nothing changes; selling more than is held, or a failed record save: failure with the amount held and nothing changes; otherwise the sale is logged, and then a remainder of at most one yen deletes the holding (success, 0), a larger one reduces it (success, the remainder), and a failed final write reports failure with 0; every logged sale stays consistent |
| InvestmentsFunction.Gate | netlify/functions/investments.js:56-71 | a preflight gets 200; any other request gets 503 exactly when there is no database client |
| InvestmentsFunction.CreateInvestment | netlify/functions/investments.js:100-130 | without a client 503; a 400 listing exactly the required fields missing after cleaning; otherwise the cleaned record is inserted, 200 on success and 500 when the insert fails |
| InvestmentsFunction.CurrentAmount | netlify/functions/investments.js:182 | the amount held, with a null amount read as 0 |
| InvestmentsFunction.InvestmentTable.constructor | netlify/functions/investments.js:154-156 | a table with the given holdings and an empty sell log |
| InvestmentsFunction.InvestmentTable.Sell | netlify/functions/investments.js:153-263 | 503 without a client, 400 for a falsy rate or amount, 404 for an unknown holding, 400 with the amount held when selling more; otherwise the sale is logged (500 and no change when that insert fails), then a remainder of at most 0.01 deletes the holding (200 with 0) and a larger one reduces it (200 with the remainder), 500 when that write fails; nothing changes on any other status, and every logged sale stays consistent |
| SummaryTab.FirstFrom | src/pages/SummaryTab.tsx:44-51 | the first position from `i` on whose date is on or after the target, every earlier one being before it, or the end |
| SummaryTab.StartOf | src/pages/SummaryTab.tsx:41-51 | the start is the first date on or after the target when there is one, and 0 when no date is |
| SummaryTab.StartIndex | src/pages/SummaryTab.tsx:41-51 | the search loop with its `break` gives `StartOf` |
| SummaryTab.Tail | src/pages/SummaryTab.tsx:64 | JavaScript `slice(k)`: the elements from position `k` in order, none when `k` is past the end |
| SummaryTab.SliceColumns | src/pages/SummaryTab.tsx:61-67 | the windowed dictionary has exactly the array entries of the given one, each sliced from the start; a missing dictionary gives an empty one |
| SummaryTab.FilterDataByPeriod | src/pages/SummaryTab.tsx:29-92 | null without data, without dates or for empty dates; otherwise the dates and every array column of the three dictionaries cut at the same start, other entries dropped, and the current rates passed through |
| SummaryTab.WindowAligned | src/pages/SummaryTab.tsx:54-83 | a column as long as the dates is cut to as many values as there are windowed dates, each windowed date keeping its value |
| SummaryTab.KimchiPremium | src/pages/SummaryTab.tsx:299-302 | 0 unless both rates are truthy and the dollar rate is positive; otherwise the percentage by which the USDT price exceeds the dollar rate |
| SummaryTab.KimchiPremiumSign | src/pages/SummaryTab.tsx:299-302 | for positive rates the premium is positive exactly when the USDT price is above the dollar rate, and 0 exactly when they are equal |
| SellRecordsTab.FilterSales | src/pages/SellRecordsTab.tsx:32-51 | with neither bound every record; otherwise exactly the records not before the start and before the day after the end |
| SellRecordsTab.NoBoundsIsFilter | src/pages/SellRecordsTab.tsx:33-37 | the early return for no bounds gives what the filter itself would |
| SellRecordsTab.FilterSalesAppend | src/pages/SellRecordsTab.tsx:32-51 | the records shown for a concatenated log are those of its first part followed by those of its second, so the log's order and repetitions are kept |
| SellRecordsTab.FilterSalesSingle | src/pages/SellRecordsTab.tsx:38-50 | a single record is shown exactly when it is in range |
| SellRecordsTab.EndDayIncluded | src/pages/SellRecordsTab.tsx:43-47 | a record sold during the end day is kept, and the same record is dropped when the end is one day earlier |
| SellRecordsTab.Summarise | src/pages/SellRecordsTab.tsx:54-93 | all zero for no records; otherwise the sums of purchase cost, amount and profit (a null profit counting 0), with a rate that has the profit's sign when the cost is positive and is 0 when it is not |
| SellRecordsTab.ProfitIsProceedsLessCost | src/pages/SellRecordsTab.tsx:64-80 | over records written by the ledger, the total profit is the total proceeds less the total purchase cost |
| SellRecordsTab.TotalsAppend | src/pages/SellRecordsTab.tsx:64-80 | the totals of two runs of records add up |
| SellRecordsTab.RecordProfitRate | src/pages/SellRecordsTab.tsx:223-226 | 0 when the purchase rate is 0; for a positive purchase rate, positive exactly when the sell rate is higher and 0 exactly when they are equal |
| SellRecordsTab.RecordRateMatchesProfit | src/pages/SellRecordsTab.tsx:223-226 | on a ledger-written record with a positive amount and rate, the record's rate is positive exactly when its profit is |

## Left out

- Network I/O is not modelled; every answer it gives is an input. This covers:
  - the Yahoo Finance downloads and quotes;
  - the HTTP requests and axios calls, with their timeouts and headers;
  - BeautifulSoup and cheerio node selection;
  - the retry delays and `Math.random`.
- The Supabase client is not modelled. The history table, the investment tables and the sell log are maps or sequences, and each query or write is an input flag saying whether it succeeds.
- The real-exponent power `**` / `Math.pow` is a function parameter, because it is transcendental floating-point work. Only the structure of the weighted product is proved.
- Floating point is not modelled: prices are exact reals with no rounding, overflow or signed zero. NaN and the infinities are explicit values. `float()` and `parseFloat` of text are parameters.
- Date parsing (`_to_datetime`, `new Date(...)`) is not modelled, because it delegates to pandas, dateutil and the browser. Dates are integer day numbers, or millisecond times on the pages. The summary page's parser is a parameter.
- The clock is an input: seconds for the memo and the staleness test, milliseconds for the TypeScript caches.
- `Promise.all` and `Promise.allSettled` are evaluated as a sequence of independent results; concurrency is not modelled.
- The Python scrapers' `get_text(strip=True)` is modelled as part of the page input: the node text they receive is already stripped of surrounding white space.
- PeriodCache.DeriveOpposite: JPY_KRW is read by date, which is what the union-aligned mask and quotient assigned by position give when the high and low tables' dates are ascending with no repeats, as those of a download are; tables with repeated or unordered dates are not modelled.
- Frames.Merge: `sort_index` after `concat` is taken to be stable, so the fetched row, which comes second, is the one kept on a shared date.
- PeriodCache.MergeIfStored: rests on the same stable-sort assumption through Frames.Merge.
- Column sniffing is modelled only for the three documented download shapes (two-level, one-level with price columns, one-level with ticker columns).
- JpyDb.JpyLedger.SellJpyInvestment: the sell record is logged as built. The cleaning that `save_jpy_sell_record` (database/jpy_db.py:86-129) applies before inserting it is not modelled, because every field of a built record is already a finite number or a string.
- The GET and DELETE branches of the investments handler are not modelled, nor the load, update and delete helpers of the yen database layer: they pass queries through to the database with no logic of their own.
- The single-rate backend endpoints (backend/main.py:131-173) and the investment routes (backend/main.py:317-489) are left out, because they only forward to the modelled services and database layer. The HTTP routing, CORS and configuration around the modelled handlers are left out as well.
- IndexCalculator.CalculateCurrentDxy: the rates are taken as plain Python floats. A numpy 0.0 under a negative weight would give an infinity instead of raising, and a negative rate's complex power is not represented: `pow` decides it.
- HistoryStore.PivotOn: the pivot's columns keep the order of the requested pairs, whereas `pivot_table` (database/exchange_history_db.py:275-277) sorts them by name. The set of columns and every cell agree; only the column order differs.
- SellRecordsTab.FilterSales: the end bound adds a fixed 86,400,000 ms. `setDate(getDate() + 1)` (src/pages/SellRecordsTab.tsx:43-47) adds one calendar day, which is 23 or 25 hours across a daylight-saving change; local time zones are not modelled.
- Rendering, charts, formatting (`toFixed`, `toLocaleString`) and client state stores are not modelled.

## Findings

| source | as written | input that shows it | evidently intended | confidence | as-written member | corrected member |
|---|---|---|---|---|---|---|
| services/exchange_rate_cached.py:316-336 | every two-level column download is read as (ticker, price type), so a bulk download whose first level holds the price types loses every column and yields empty tables; the (price type, ticker) branch after it is unreachable | a one-date download grouped by price type with a USD/JPY close, as in the example at services/exchange_rate_cached.py:237 | a download whose first level holds `Close` is read by price type, keeping every quoted pair | not executed | PeriodCache.NormaliseAsWritten (shown by PeriodCache.AsWrittenLosesByPriceLayout and PeriodCache.ByPriceExampleLost) | PeriodCache.Normalise (proved by PeriodCache.CorrectedKeepsByPriceLayout and PeriodCache.ByPriceExampleKept); the modelled fetch, PeriodCache.FetchedTables, keeps the as-written half |
| services/index_calculator.py:102-106 | the default arguments of `current_rates.get('USD_JPY', df_close['USD_JPY'].iloc[-1])` and of the USD_KRW lookup are evaluated eagerly, so an empty close table raises IndexError even when all seven live quotes are present | seven live nonzero quotes with an empty close table | live quotes alone give the current rates | not executed | IndexCalculator.FetchCurrentRatesAsWritten (shown by IndexCalculator.EagerDefaultRaises) | IndexCalculator.FetchCurrentRates (proved by IndexCalculator.LiveQuotesSuffice); the modelled plain fetch, IndexCalculator.FetchPeriodDataAndCurrentRates, keeps the as-written half |
