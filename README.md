# Market-data refresher for NSE stocks, modelled in Dafny

The system keeps CSV files of OHLCV bars (open, high, low, close, volume) for a fixed set
of NSE stocks at four timeframes: 15 minutes, 1 hour, 1 day and 1 week. It knows the
Indian trading calendar: weekends, the 2024 holiday list and the 09:15–15:30 IST session.
A data source fetches history for a list of symbols. A file store merges, deduplicates,
sorts and backs up what was fetched. Per-timeframe handlers decide which symbols to
refresh. A scheduler registers one job per timeframe plus a nightly cleanup, catches up on
empty timeframes when it starts, and runs manual updates. A service ties a data source, the
store and an optional scheduler together.

The model has one module per source file:

| module | models |
|---|---|
| `Text` | the string operations used: `str.replace` with an empty replacement, `str.split`, string order |
| `Calendar` | proleptic Gregorian dates, weekdays, `YYYY-MM-DD` and `YYYYMMDD` formatting and parsing |
| `Settings` | the configuration constants and `get_symbols` |
| `Schedules` | the schedule table, the holiday list, `is_market_holiday`, `is_trading_day` |
| `MarketHours` | the market-hours class |
| `Records` | data-frame rows and the row operations the store uses |
| `FileStorage` | the CSV store |
| `DataSources` | the shared data-source rules and the yfinance and Fyers sources |
| `TimeframeHandlers` | the update handlers and their factory |
| `Scheduling` | the scheduler |
| `Service` | the service |

How the environment is modelled:
- A stored file is an entry of a map from file name to rows. A data frame is a sequence of
  `Record`s carrying every standard column.
- Times are given as parameters. `now` is the current IST time, `localNow` the host's local
  wall-clock time and `today` its date.
- The market-data service is a `Provider` function from (symbol, period, interval) to bars
  or failure.
- Every data-source object keeps a ghost log of the `get_multiple_stocks_data` requests it
  was sent.
- The scheduler records its registered jobs as a job table and runs its jobs sequentially.
- `None` arguments are modelled the way the code reads them. An empty symbol list means "use
  the configured symbols", because the code reads `symbols or self.symbols`. An empty
  timeframe string means "all timeframes".

## Model

| member | source | states |
|---|---|---|
| Text.RemoveAll | data_sources/base.py:91 | removing every `.NS` never lengthens a symbol |
| Text.RemoveAllAbsent | storage/file_storage.py:170 | a symbol without the pattern's first character is left as it is |
| Text.RemoveAllSuffix | data_sources/yfinance_source.py:48 | `X.NS` becomes `X` when `X` holds no `.` |
| Text.Split | storage/file_storage.py:198 | `split` gives one more part than there are separators, and no part holds one |
| Text.LastPartAfterSep | storage/file_storage.py:198-200 | the last part of `x_y` is `y` when `y` has no `_` |
| Text.LessIrreflexive | storage/file_storage.py:78 | string order used for sorting by symbol is strict |
| Text.LessTransitive | storage/file_storage.py:78 | string order is transitive |
| Text.LessTotal | storage/file_storage.py:78 | any two different strings are ordered one way or the other |
| Calendar.NextDate | utils/market_hours.py:146 | adding one day moves exactly one day forward |
| Calendar.OrdinalOrder | utils/market_hours.py:242 | date comparison agrees with the day count since year 1, both ways |
| Calendar.OrdinalInjective | utils/market_hours.py:242 | two dates with one day count are the same date |
| Calendar.WeekdayShift | config/schedules.py:92 | the weekday moves with the day count modulo 7 |
| Calendar.IsoDate | config/schedules.py:96 | `%Y-%m-%d` text has ten characters |
| Calendar.IsoDateInjective | config/schedules.py:96 | different dates give different `%Y-%m-%d` texts |
| Calendar.CompactDate | storage/file_storage.py:41 | `%Y%m%d` text is eight digits |
| Calendar.ParseCompactDateRoundTrip | storage/file_storage.py:201 | `strptime('%Y%m%d')` reads back the date `strftime` wrote |
| Calendar.ParseCompactDateShort | storage/file_storage.py:201 | text shorter than six characters does not parse |
| Settings.TimeframeOrderIsConfigKeys | config/settings.py:20-48 | the iteration order lists each configured timeframe exactly once |
| Settings.GetSymbols | config/symbols.py:51-61 | a known set gives its list, any other name the test list, and the result is never empty |
| Schedules.EveryTimeframeScheduled | config/schedules.py:7-32 | all four timeframes have an enabled schedule |
| Schedules.HolidayTexts | config/schedules.py:47-61 | the holiday dates print exactly as the listed strings |
| Schedules.IsMarketHoliday | config/schedules.py:63-76 | a `YYYY-MM-DD` text is a holiday exactly when it is in the 2024 list; HolidayIffListedDate carries this over to dates |
| Schedules.HolidayIffListedDate | config/schedules.py:63-76 | a date's text is a holiday exactly when the date is listed |
| Schedules.HolidaysOnlyIn2024 | config/schedules.py:76 | no date outside 2024 is a holiday |
| Schedules.IsTradingDay | config/schedules.py:78-97 | Saturdays, Sundays and listed holidays are closed and every other day trades, both directions proved in TradingDayIff |
| Schedules.TradingDayIff | config/schedules.py:78-97 | a trading day is a weekday that is not a listed holiday |
| Schedules.HolidaySpacing | config/schedules.py:47-61 | no two holidays fall on consecutive days, and no Monday holiday comes three days after a Friday holiday |
| Schedules.TradingWithinFour | config/schedules.py:78-97 | among any four consecutive days one is a trading day |
| Schedules.DaysToTradingDay | utils/market_hours.py:149-150 | the loop advances at most three days, passes only closed days and stops on a trading day |
| Schedules.ClosedBeforeFirstTradingDay | utils/market_hours.py:149-150 | every day skipped by the search is closed |
| MarketHours.IsMarketOpen | utils/market_hours.py:38-57 | open exactly on a trading day from 09:15 to 15:30, both seconds included; SessionEdges pins both edges |
| MarketHours.SessionEdges | utils/market_hours.py:52-57 | the session includes 09:15 and 15:30 on trading days, the seconds just outside are closed, and on closed days nothing is open |
| MarketHours.GetMarketStatus | utils/market_hours.py:59-82 | the four statuses, each under exactly its condition; "Market Open" exactly when the market is open |
| MarketHours.SearchStart | utils/market_hours.py:142-146 | the search starts tomorrow after the close and today otherwise |
| MarketHours.NextMarketOpen | utils/market_hours.py:142-154 | a 09:15 opening on a trading day within three days of the start, with only closed days in between |
| MarketHours.GetNextMarketOpen | utils/market_hours.py:128-154 | the loop computes that opening |
| MarketHours.NextOpenDuringSession | utils/market_hours.py:141-154 | during the session the next opening is today's, which is not later than the moment |
| MarketHours.NextOpenAfterClosedTime | utils/market_hours.py:142-154 | when the market is closed the next opening is strictly later |
| MarketHours.TimeToMarketOpen | utils/market_hours.py:97-103 | zero while open; otherwise positive and equal to the wait until the next opening |
| MarketHours.TimeToMarketClose | utils/market_hours.py:118-126 | minus one second while closed; otherwise the time to 15:30, at most the session length |
| MarketHours.ShouldUpdateTimeframe | utils/market_hours.py:177-225 | the per-timeframe due test; NeverUpdatedIsDue, IntradayDueness, DailyAtMostOncePerDay, WeeklyDueness and UnknownTimeframeNeverDue state each branch |
| MarketHours.NeverUpdatedIsDue | utils/market_hours.py:191-192 | a timeframe never updated is always due |
| MarketHours.UnknownTimeframeNeverDue | utils/market_hours.py:225 | an unknown timeframe with a last update is never due |
| MarketHours.IntradayDueness | utils/market_hours.py:201-211 | 15m and 1h are due exactly while the market is open and 15 or 60 minutes have passed |
| MarketHours.DailyAtMostOncePerDay | utils/market_hours.py:213-217 | 1d is due after 16:00 on a later date, so it is not due again that day once updated |
| MarketHours.WeeklyDueness | utils/market_hours.py:219-223 | 1wk is due exactly on Saturday once seven full days have passed |
| MarketHours.CountTradingDays | utils/market_hours.py:238-247 | the count is zero for an empty range and never exceeds the number of days |
| MarketHours.CountAllTrading | utils/market_hours.py:238-247 | the count equals the day count exactly when every day of the range trades |
| MarketHours.AtMostFivePerWeek | utils/market_hours.py:238-247 | a Monday-to-Sunday week has at most five trading days |
| MarketHours.GetTradingDaysBetween | utils/market_hours.py:227-247 | the loop computes that count |
| Records.FilterSymbols | storage/file_storage.py:118-119 | keeps, in order, the rows whose symbol is listed, each as many times as the input holds it, and no other row |
| Records.RowsOfSymbol | storage/file_storage.py:170 | keeps, in order, the rows of one symbol, each as many times as the input holds it, and no other row |
| Records.RowsBetween | services/data_service.py:187-190 | keeps, in order, the rows within the inclusive bounds, each as many times as the input holds it, and no other row |
| Records.LatestTime | storage/file_storage.py:175-176 | none for no rows; otherwise a row's time that no row exceeds |
| Records.RemoveDuplicates | storage/file_storage.py:128-151 | `drop_duplicates` on (Symbol, Datetime) keeping the last row; the Dedup lemmas below prove its keys, uniqueness, order, kept rows and idempotence |
| Records.DedupKeys | storage/file_storage.py:144-145 | dropping duplicates keeps every (Symbol, Datetime) key |
| Records.DedupUnique | storage/file_storage.py:144-145 | after dropping duplicates each key appears once |
| Records.DedupSubsequence | storage/file_storage.py:145 | the kept rows are the input's rows in their order |
| Records.DedupKeepsLast | storage/file_storage.py:145 | the last row of each key is kept |
| Records.DedupRowForKey | storage/file_storage.py:145 | for each key exactly its last row survives |
| Records.DedupIsLastRows | storage/file_storage.py:145 | the result is exactly the rows that no later row shares a key with, in input order |
| Records.DedupOfUnique | storage/file_storage.py:145 | rows without duplicates are left unchanged |
| Records.DedupIdempotent | storage/file_storage.py:128-151 | deduplicating twice is deduplicating once |
| Records.NewRowsWin | storage/file_storage.py:72-73 | in stored-then-new rows, a key's last row is the new one |
| Records.RowLeTotal | storage/file_storage.py:78 | the (Symbol, Datetime) order compares any two rows |
| Records.RowLeTransitive | storage/file_storage.py:78 | the (Symbol, Datetime) order is transitive |
| Records.SortRows | storage/file_storage.py:77-78 | the result is sorted by (Symbol, Datetime) and is a permutation of the input |
| Records.SortKeepsUnique | storage/file_storage.py:78 | sorting keeps keys unique |
| Records.SortStable | storage/file_storage.py:77-78 | the sort is stable: the rows of any one key come out in their input order |
| FileStorage.GetFilename | storage/file_storage.py:29-46 | the name starts with `market_data_<timeframe>`, with the date suffix exactly when asked |
| FileStorage.FileNamesDistinct | storage/file_storage.py:40-46 | main files of different timeframes differ, and no main file is a backup file |
| FileStorage.WrittenRowsSorted | storage/file_storage.py:76-80 | what `save_data` writes is sorted |
| FileStorage.OverwriteKeepsExactlyNewRows | storage/file_storage.py:65-80 | without a merge, exactly the new rows are written |
| FileStorage.MergeResult | storage/file_storage.py:67-74 | a merge writes unique keys: the union of stored and new, new rows winning, stored rows kept for keys not fetched again |
| FileStorage.StoredRowWins | storage/file_storage.py:72-73 | a key only in the stored rows keeps its stored row |
| FileStorage.FileDate | storage/file_storage.py:196-203 | the date in the last `_` part of a `market_data_` name, none for any other name; MainFileNeverDeleted and BackupDeletedIffOld state both cases |
| FileStorage.ShouldDelete | storage/file_storage.py:196-203 | a file goes exactly when its name carries a date whose midnight is before the cutoff; BackupDeletedIffOld and BackupRetention state the edge |
| FileStorage.MainFileNeverDeleted | storage/file_storage.py:194-209 | a main file has no readable date, so cleanup never removes it |
| FileStorage.ConfiguredMainFilesKept | storage/file_storage.py:194-209 | no configured timeframe's main file is removed |
| FileStorage.BackupDeletedIffOld | storage/file_storage.py:194-209 | a backup's date reads back, and it is removed exactly when that date is before the cutoff |
| FileStorage.BackupRetention | storage/file_storage.py:192-203 | a backup is removed exactly when it is older than `days_to_keep` days before now (the cutoff day itself only after midnight) |
| FileStorage.FileStorageManager.constructor | storage/file_storage.py:19-21 | the store starts with the given files |
| FileStorage.FileStorageManager.LoadData | storage/file_storage.py:93-126 | a missing file gives no rows; otherwise an in-order selection of the file's rows, all of them without a filter, and with one every copy of each listed symbol's rows and nothing else |
| FileStorage.FileStorageManager.GetLatestDataTime | storage/file_storage.py:153-182 | none exactly when no stored row matches; otherwise a matching row's time that no matching row exceeds |
| FileStorage.FileStorageManager.SaveData | storage/file_storage.py:48-91 | fails and changes nothing on empty data; otherwise the main and backup files both receive the rows to write |
| FileStorage.FileStorageManager.CleanupOldFiles | storage/file_storage.py:184-212 | keeps exactly the files not due for deletion, with their contents unchanged |
| DataSources.ValidateSymbol | data_sources/base.py:59-70 | a symbol is valid exactly when it is non-empty |
| DataSources.ConfiguredTimeframesSupported | data_sources/base.py:103-121 | every configured interval and period is in the default supported lists |
| DataSources.WithDatetime | data_sources/base.py:94-95 | converting Datetime keeps the column names and every other column |
| DataSources.SelectColumns | data_sources/base.py:98-99 | only existing columns are selected, each with its cells |
| DataSources.SelectNames | data_sources/base.py:98 | the selected names are the required names present, in the required order |
| DataSources.PresentInMembers | data_sources/base.py:98 | a name is selected exactly when it is both required and present |
| DataSources.WithSymbolNames | data_sources/base.py:90-91 | adding Symbol gives the old names plus Symbol |
| DataSources.StandardColumns | data_sources/base.py:86-99 | the standardised frame has exactly the required columns that exist or were added, in the required order |
| DataSources.ColumnAfterDatetime | data_sources/base.py:94-95 | the Datetime conversion leaves other columns unchanged |
| DataSources.ColumnSelected | data_sources/base.py:98-99 | a required column that exists is kept |
| DataSources.SymbolColumn | data_sources/base.py:89-91 | an existing Symbol column is kept; otherwise one holding the symbol minus `.NS` is added |
| DataSources.NoDatetimeUnchanged | data_sources/base.py:94-95 | without a Datetime column nothing is converted |
| DataSources.Frame.constructor | data_sources/base.py:72 | a frame holds the given columns and height |
| DataSources.StandardizeDataframe | data_sources/base.py:72-101 | an empty frame comes back as it is; otherwise the input gains Symbol and a converted Datetime in place, and a fresh frame of the selected columns is returned |
| DataSources.Tagged | data_sources/yfinance_source.py:41-60 | one row per bar, in order, each with the symbol and the bar's time, open, high, low, close and volume |
| DataSources.StockData | data_sources/yfinance_source.py:23-70 | none exactly for an invalid symbol, a failed request or an empty history; otherwise the i-th row holds the symbol minus `.NS` and the i-th bar's time, open, high, low, close and volume |
| DataSources.Combined | data_sources/yfinance_source.py:91-97 | the frame of no symbols is empty; `CombinedSingle` and `CombinedAppend` fix every other frame as the per-symbol results in request order |
| DataSources.CombinedSingle | data_sources/yfinance_source.py:83-92 | one symbol's combined frame is its own result, or nothing when that result is None |
| DataSources.CombinedAppend | data_sources/yfinance_source.py:80-92 | combining `a + b` gives the frame of `a` followed by the frame of `b`, so the results appear in request order |
| DataSources.CombinedComplete | data_sources/yfinance_source.py:83-92 | every row of every requested symbol whose fetch succeeded is in the combined frame |
| DataSources.CombinedSymbols | data_sources/yfinance_source.py:80-94 | every combined row belongs to a requested symbol |
| DataSources.CombinedEmptyIff | data_sources/yfinance_source.py:91-97 | the combined frame is empty exactly when every symbol's fetch fails |
| DataSources.DataSource.constructor | data_sources/yfinance_source.py:19-21 | a new source has its kind, its provider and no requests |
| DataSources.DataSource.IsAvailable | data_sources/yfinance_source.py:99-110 | yfinance is available exactly when the RELIANCE.NS daily probe returns rows; the Fyers placeholder never is |
| DataSources.DataSource.Fetch | data_sources/fyers_source.py:34-41 | Fyers returns nothing; yfinance returns nothing exactly when every symbol fails |
| DataSources.DataSource.GetMultipleStocksData | data_sources/yfinance_source.py:72-97 | one request is logged and the rows of `Fetch` returned |
| TimeframeHandlers.HandlerFor | schedulers/timeframe_handlers.py:226-234 | the factory never chooses the Smart handler |
| TimeframeHandlers.ShouldAppendData | schedulers/timeframe_handlers.py:105-169 | the intraday and daily handlers append, the weekly one overwrites, the base rule appends for 15m and 1h; FactoryAppendMode states the outcome per configured timeframe |
| TimeframeHandlers.FactoryAppendMode | schedulers/timeframe_handlers.py:105-169 | the chosen handler appends for every configured timeframe but 1wk, and for 1d it differs from the base rule |
| TimeframeHandlers.MarketGatedIffMarketHoursOnly | schedulers/timeframe_handlers.py:226-227 | the market-hours handler is chosen exactly for the timeframes configured as market-hours only |
| TimeframeHandlers.SmartSelection | schedulers/timeframe_handlers.py:189-211 | the list the smart handler builds; SmartSelectionFilter proves its order, members and multiplicities |
| TimeframeHandlers.SmartSelectionFilter | schedulers/timeframe_handlers.py:189-211 | the smart selection is an in-order sub-list holding the stale symbols, each as often as the input lists it, and no other |
| TimeframeHandlers.NeverFetchedSelected | schedulers/timeframe_handlers.py:199-201 | a symbol without stored 15m data is always selected |
| TimeframeHandlers.ClosedMarketSelectsOnlyMissing | schedulers/timeframe_handlers.py:203-209 | while the market is closed only symbols with no data are selected |
| TimeframeHandlers.Gate | schedulers/timeframe_handlers.py:128-182 | the selection of each fixed handler; GateAllOrNothing states that it is all or none and when |
| TimeframeHandlers.GateAllOrNothing | schedulers/timeframe_handlers.py:128-182 | a fixed handler selects all symbols or none, under exactly its own time condition |
| TimeframeHandlers.UpdateOutcomes | schedulers/timeframe_handlers.py:51-103 | the outcomes of `update_data`: unknown timeframe, nothing selected, one request, no change on failure, and equal sorted main and backup files on success |
| TimeframeHandlers.UpdateTouchesOnlyItsFiles | schedulers/timeframe_handlers.py:87-92 | an update changes no file but its timeframe's main and backup |
| TimeframeHandlers.TimeframeHandler.constructor | schedulers/timeframe_handlers.py:21-23 | the handler keeps its kind, source and store |
| TimeframeHandlers.TimeframeHandler.GetSymbolsToUpdate | schedulers/timeframe_handlers.py:38-48 | the selection of the handler's kind |
| TimeframeHandlers.TimeframeHandler.SmartSymbolsToUpdate | schedulers/timeframe_handlers.py:189-211 | the loop computes the smart selection |
| TimeframeHandlers.TimeframeHandler.UpdateData | schedulers/timeframe_handlers.py:51-103 | the result, the request log and the files are those of `update_data` on the selection taken before the call |
| TimeframeHandlers.GetHandlerForTimeframe | schedulers/timeframe_handlers.py:213-234 | a fresh handler of the factory's kind on the given source and store |
| Scheduling.TimeframeTrigger | schedulers/data_scheduler.py:104-150 | 15m every 15 minutes, 1h every hour, 1d at 16:30 Monday to Friday, 1wk at 08:00 on Saturday, no job otherwise; ConfiguredJobTable shows the resulting table |
| Scheduling.UpdateJobsMembers | schedulers/data_scheduler.py:96-150 | a timeframe gets a job exactly when it is iterated, scheduled and has a trigger, and every job has one instance and coalesces |
| Scheduling.ConfiguredJobTable | schedulers/data_scheduler.py:93-162 | the configuration gives the 15-minute, hourly, 16:30 weekday and 08:00 Saturday jobs, then cleanup |
| Scheduling.JobIdsDistinct | schedulers/data_scheduler.py:110-158 | job ids are distinct |
| Scheduling.TimeframeRunLastUpdate | schedulers/data_scheduler.py:179-192 | a gated run changes nothing; otherwise `last_updates` gains `tf: localNow` exactly when the handler succeeded and is otherwise unchanged, every other entry keeping its value |
| Scheduling.ClosedMarketIntradayNoRequest | schedulers/data_scheduler.py:179-183 | while the market is closed an intraday run sends no request |
| Scheduling.OtherTimeframeUntouched | schedulers/data_scheduler.py:201-216 | running one timeframe does not change whether another has data |
| Scheduling.ManualRunLastUpdates | schedulers/data_scheduler.py:251-263 | a manual run stamps exactly the timeframes whose update succeeds and keeps the other stamps |
| Scheduling.TargetTimeframes | schedulers/data_scheduler.py:246 | a named timeframe alone, or all configured timeframes |
| Scheduling.Summaries | schedulers/data_scheduler.py:286-292 | one summary per job, with its id and name |
| Scheduling.DataScheduler.constructor | schedulers/data_scheduler.py:31-47 | a stopped scheduler with no jobs or stamps and the set's symbols |
| Scheduling.DataScheduler.SetupScheduledJobs | schedulers/data_scheduler.py:93-162 | the jobs become the configured table |
| Scheduling.DataScheduler.UpdateTimeframe | schedulers/data_scheduler.py:164-195 | the store, the request log and the stamps become those of one scheduled run |
| Scheduling.DataScheduler.InitialUpdateStep | schedulers/data_scheduler.py:204-216 | a timeframe is launched exactly when its data is empty, and the other timeframes' emptiness is unchanged |
| Scheduling.DataScheduler.InitialTurn | schedulers/data_scheduler.py:201-219 | one turn of the catch-up loop keeps its invariant |
| Scheduling.DataScheduler.RunInitialUpdate | schedulers/data_scheduler.py:197-222 | the catch-up runs exactly the timeframes that were empty at the start, in configuration order |
| Scheduling.DataScheduler.Start | schedulers/data_scheduler.py:49-77 | none when already running; false and nothing changed when the source is unavailable; otherwise true, start, the job table and the catch-up run |
| Scheduling.DataScheduler.Stop | schedulers/data_scheduler.py:79-91 | the scheduler ends stopped and keeps everything else |
| Scheduling.DataScheduler.CleanupOldFilesJob | schedulers/data_scheduler.py:224-231 | cleanup with a 30-day retention |
| Scheduling.DataScheduler.ManualTurn | schedulers/data_scheduler.py:252-259 | one loop turn succeeds exactly when the handler run succeeds, and the world becomes that of one ungated handler run |
| Scheduling.DataScheduler.ManualUpdate | schedulers/data_scheduler.py:233-267 | true exactly when every target timeframe's update succeeds, and the store, the requests and the stamps follow the manual run |
| Scheduling.DataScheduler.GetStatus | schedulers/data_scheduler.py:269-301 | the reported state; while running the job list holds one summary per registered job, in an order left open, and none while stopped |
| Scheduling.DataScheduler.UpdateSymbolSet | schedulers/data_scheduler.py:303-316 | the set and its symbols are replaced and nothing else changes |
| Service.DataSourceKindFor | services/data_service.py:61-68 | "yfinance" and "fyers" are accepted, each giving its own kind, and any other name is an error |
| Service.StorageKindFor | services/data_service.py:70-77 | "file" and "database" are accepted, each giving its own kind, and any other name is an error |
| Service.DefaultSourceSupported | services/data_service.py:40 | the default data source is supported |
| Service.OrDefault | services/data_service.py:127 | a non-empty list is used as given, and an empty one means the configured symbols |
| Service.FetchOutcomes | services/data_service.py:124-160 | an unknown timeframe fetches and saves nothing; empty data or no saving leaves the files alone; a save writes equal sorted main and backup files, with a merged key union or exactly the fetched rows |
| Service.SavedFetchOutcome | services/data_service.py:145-150 | a save of a non-empty fetch writes equal sorted main and backup files, leaves every other file alone, and holds the merged key union over stored rows or exactly the fetched rows otherwise |
| Service.DirectRunFrame | services/data_service.py:214-226 | a direct manual update leaves files of unlisted timeframes unchanged |
| Service.DirectRunRequests | services/data_service.py:214-226 | a direct manual update only appends requests, each for a listed configured timeframe; when every listed timeframe is configured, the i-th new request is the i-th timeframe's, with its period and interval |
| Service.MidnightBounds | services/data_service.py:187-190 | a date bound compares like midnight of that day |
| Service.EndDateExcludesItsSession | services/data_service.py:189-190 | no row of the end date after midnight is loaded |
| Service.DataService.constructor | services/data_service.py:40-50 | the service holds the given parts, no scheduler, and its symbol list matches its set |
| Service.DataService.New | services/data_service.py:26-59 | construction succeeds exactly for a supported source and file storage, and without auto-start the store holds the given contents and no request is logged |
| Service.DataService.StartScheduler | services/data_service.py:79-101 | a running scheduler means true with no change; otherwise a fresh scheduler starts exactly when the source is available, with the job table and the catch-up run |
| Service.DataService.StopScheduler | services/data_service.py:103-109 | the scheduler, if any, ends stopped and keeps its jobs and stamps |
| Service.DataService.FetchData | services/data_service.py:111-160 | returns the fetched rows and logs the request, saving by merge exactly when asked and rows came back |
| Service.DataService.LoadData | services/data_service.py:162-197 | an in-order selection of the main file holding every copy of each listed symbol's rows from midnight of the start date to midnight of the end date, and nothing else |
| Service.DataService.ManualUpdate | services/data_service.py:199-226 | through a scheduler, its manual update, with the service's own source untouched when the scheduler holds another one; without one, true exactly when every target timeframe fetched rows, with the direct run's files and requests |
| Service.DataService.DirectManualUpdate | services/data_service.py:212-226 | true exactly when every target timeframe fetched rows; the files and requests are those of fetching and saving each target in turn |
| Service.DataService.SwitchDataSource | services/data_service.py:301-331 | true exactly for a supported name; the running scheduler is stopped and restarted on the fresh source, and a stopped scheduler keeps its old source |
| Service.DataService.UpdateSymbols | services/data_service.py:333-357 | always true; the set and the symbols change, and a scheduler follows with its state otherwise kept |

## Left out

- Files, CSV text, directories and `os` calls are not modelled. The store is a map from
  file name to rows, and a written frame reads back exactly.
- Logging and `PerformanceLogger` are not modelled.
- Clock reads, time zones and `pytz` are not modelled. The caller passes the IST time, the
  local time and the local date. Times are whole seconds, and dates stop at year 9999.
- The Smart handler reads the clock twice for each symbol that has stored 15m data (the IST
  time and the market-open test) and not at all for one without. The model uses one `now`
  for the whole call.
- A scheduled intraday run reads the clock twice: once for the scheduler's market test and
  once in the handler's own gate. Around 15:30 the first can pass and the second fail; the
  handler then returns True without fetching, and the run is stamped. The model uses one
  `now` for both, so `ClosedMarketIntradayNoRequest` and the stamping lemmas hold only for
  a run whose two reads agree.
- Exceptions are not modelled beyond the error paths the code returns itself: the
  unsupported source and storage names, and empty data. The Python handlers also catch
  I/O and pandas errors.
- `pd.to_datetime` is the `parse` parameter of `StandardizeDataframe`, and its errors are
  not modelled. Stored rows always carry every standard column.
- A frame with two columns of one name uses the first.
- Scheduling.DataScheduler.GetStatus: states only which job summaries are listed, not their
  order; the engine lists its jobs by next run time, and each entry's `next_run` is not
  modelled.
- FileStorage.FileDate: accepts only ASCII digits in a backup's date. CPython's `strptime`
  also matches other Unicode decimal digits, so a backup dated in such digits is deleted
  once old by the code and kept by the model.
- Calendar.IsoDate: pads years below 1000 to four digits; Python's width for them depends
  on the platform's C library.
- APScheduler, its threads, `shutdown` and `next_run_time` are not modelled. Only the job
  table is, and the scheduled and catch-up jobs run one after another, without the
  five-second pauses.
- Scheduling.DataScheduler.Start: a second `start()` on a scheduler that was stopped
  registers its jobs anew and returns True. APScheduler keeps a shut-down scheduler's jobs,
  so the code's `add_job` would raise ConflictingIdError there and `start` would return
  False. The service never does this: it builds a fresh scheduler for every start.
- Rate-limit sleeps between symbols are not modelled.
- The yfinance availability probe is the predicate `IsAvailable`. It does not enter the
  request log.
- `TimeframeHandler.should_update` only passes its arguments to `should_update_timeframe`
  and has no caller, so it has no member of its own. The scheduler never consults
  `should_update_timeframe`; the model keeps that.
- `get_market_session_times` has no caller in the modelled classes and is not modelled.
- `MANUAL_UPDATE_WINDOWS` is not read by any modelled code and is not modelled.
- `get_data_summary`, `DataService.get_status`, `DataService.cleanup` and
  `create_data_service` are not modelled, and neither are the scheduler's `data_summary`
  field and `create_scheduler`. They read file sizes and times, or only forward to
  modelled members.
- Service.DataService.New: `storage_type='database'` returns an error instead of a
  `DatabaseManager`. storage/database.py is not part of this model.
- The yfinance extras `get_company_info` and `get_financials`, and the Fyers
  authentication, are not modelled.
- DataSources.ConfiguredTimeframesSupported: checks the default supported lists of
  data_sources/base.py only, not the yfinance overrides.
- main.py and yfinance_data.py are not part of this model.
- Modelled as the code does it, one line each:
  - 1d data is appended, although the base rule would overwrite it.
  - 1d is scheduled at 16:30 on weekdays, while its schedule entry says 16:00.
  - The load end date stands for midnight, so later rows of that day are excluded.
  - After `switch_data_source` a stopped scheduler keeps the old source, and manual updates
    go through it.
