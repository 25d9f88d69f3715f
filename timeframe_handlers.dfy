/** The per-timeframe update handlers of schedulers/timeframe_handlers.py: which symbols a
    run fetches, whether its rows are appended or overwrite the file, and the
    filter-fetch-save control flow they share. `now` is the current IST time. */
module TimeframeHandlers {
  import opened Wrappers
  import opened Calendar
  import opened Settings
  import opened MarketHours
  import opened Records
  import opened FileStorage
  import opened DataSources

  datatype HandlerKind = Base | Intraday | Daily | Weekly | Smart

  /** `get_handler_for_timeframe`: the handler class chosen for a timeframe. */
  function HandlerFor(timeframe: string): (k: HandlerKind)
    ensures k != Smart
  {
    if timeframe in ["15m", "1h"] then Intraday
    else if timeframe == "1d" then Daily
    else if timeframe == "1wk" then Weekly
    else Base
  }

  /** `should_append_data`: the overrides answer by class, the base rule by timeframe. */
  function ShouldAppendData(kind: HandlerKind, timeframe: string): bool {
    match kind
    case Intraday => true
    case Daily => true
    case Weekly => false
    case _ => timeframe in ["15m", "1h"]
  }

  /** Of the configured timeframes only the weekly one overwrites its file: the daily
      handler appends although the base rule would not. */
  lemma FactoryAppendMode(timeframe: string)
    requires timeframe in TimeframeConfigs
    ensures ShouldAppendData(HandlerFor(timeframe), timeframe) <==> timeframe != "1wk"
    ensures timeframe == "1d" ==> ShouldAppendData(HandlerFor(timeframe), timeframe) != ShouldAppendData(Base, timeframe)
  {
  }

  /** The handler chosen for a configured timeframe gates on the market exactly when the
      configuration marks the timeframe as active during market hours only. */
  lemma MarketGatedIffMarketHoursOnly(timeframe: string)
    requires timeframe in TimeframeConfigs
    ensures HandlerFor(timeframe) == Intraday <==> TimeframeConfigs[timeframe].activeDuringMarketHoursOnly
  {
  }

  /** `a` is `b` with some elements left out, the rest in order. */
  predicate IsSubseqOf(a: seq<string>, b: seq<string>)
    decreases |b|
  {
    if |a| == 0 then true
    else if |b| == 0 then false
    else if a[|a| - 1] == b[|b| - 1] then IsSubseqOf(a[..|a| - 1], b[..|b| - 1])
    else IsSubseqOf(a, b[..|b| - 1])
  }

  /** The smart handler's test for one symbol: no 15m row for it yet, or the market is
      open and its latest 15m row is more than an hour old. */
  predicate Stale(storage: FileStorageManager, symbol: string, now: Moment)
    reads storage
  {
    match storage.GetLatestDataTime("15m", symbol)
    case None => true
    case Some(last) => IsMarketOpen(now) && Elapsed(now, last) > 3600
  }

  /** The list `SmartUpdateHandler.get_symbols_to_update` builds. */
  function SmartSelection(storage: FileStorageManager, symbols: seq<string>, now: Moment): seq<string>
    reads storage
  {
    if |symbols| == 0 then []
    else
      var front := SmartSelection(storage, symbols[..|symbols| - 1], now);
      if Stale(storage, symbols[|symbols| - 1], now) then front + [symbols[|symbols| - 1]] else front
  }

  /** The smart selection keeps the input order and holds exactly the stale symbols, each
      as often as the input lists it. */
  lemma {:induction false} SmartSelectionFilter(storage: FileStorageManager, symbols: seq<string>, now: Moment)
    ensures IsSubseqOf(SmartSelection(storage, symbols, now), symbols)
    ensures forall s :: s in SmartSelection(storage, symbols, now) <==> s in symbols && Stale(storage, s, now)
    ensures forall s :: multiset(SmartSelection(storage, symbols, now))[s] == if Stale(storage, s, now) then multiset(symbols)[s] else 0
  {
    SmartSelectionOrder(storage, symbols, now);
    var stale := set s | s in symbols && Stale(storage, s, now);
    SmartSelectionCounts(storage, symbols, now, stale);
    var r := SmartSelection(storage, symbols, now);
    forall s
      ensures multiset(r)[s] == if Stale(storage, s, now) then multiset(symbols)[s] else 0
      ensures s in r <==> s in symbols && Stale(storage, s, now)
    {
      assert s in r <==> s in multiset(r);
      assert s in symbols <==> s in multiset(symbols);
    }
  }

  /** The smart selection lists symbols in input order. */
  lemma {:induction false} SmartSelectionOrder(storage: FileStorageManager, symbols: seq<string>, now: Moment)
    ensures IsSubseqOf(SmartSelection(storage, symbols, now), symbols)
  {
    if |symbols| > 0 {
      var init := symbols[..|symbols| - 1];
      var last := symbols[|symbols| - 1];
      SmartSelectionOrder(storage, init, now);
      var front := SmartSelection(storage, init, now);
      if Stale(storage, last, now) {
        assert (front + [last])[..|front + [last]| - 1] == front;
      } else if |front| > 0 {
        SmartSelectionCounts(storage, init, now, set s | s in init && Stale(storage, s, now));
        assert last !in multiset(front);
        assert front[|front| - 1] in front;
      }
    }
  }

  /** A non-empty list is its front followed by its last element. */
  lemma SplitLast(symbols: seq<string>)
    requires |symbols| > 0
    ensures symbols == symbols[..|symbols| - 1] + [symbols[|symbols| - 1]]
    ensures multiset(symbols) == multiset(symbols[..|symbols| - 1]) + multiset{symbols[|symbols| - 1]}
    ensures forall s :: s in symbols[..|symbols| - 1] ==> s in symbols
  {
    assert symbols == symbols[..|symbols| - 1] + [symbols[|symbols| - 1]];
  }

  /** Given the stale symbols of the input as `stale`, each of them is selected as often as
      the input lists it, and any other symbol never. */
  lemma {:induction false} SmartSelectionCounts(storage: FileStorageManager, symbols: seq<string>, now: Moment,
                                                stale: set<string>)
    requires forall s :: s in symbols ==> (s in stale <==> Stale(storage, s, now))
    ensures forall s :: multiset(SmartSelection(storage, symbols, now))[s] == if s in stale then multiset(symbols)[s] else 0
  {
    if |symbols| > 0 {
      var init := symbols[..|symbols| - 1];
      var last := symbols[|symbols| - 1];
      SplitLast(symbols);
      SmartSelectionCounts(storage, init, now, stale);
      var front := SmartSelection(storage, init, now);
      assert Stale(storage, last, now) <==> last in stale;
      var r := SmartSelection(storage, symbols, now);
      if last in stale {
        assert r == front + [last];
        assert multiset(r) == multiset(front) + multiset{last};
      } else {
        assert r == front;
      }
    }
  }

  /** The selection over one more symbol extends the selection over the prefix. */
  lemma SmartSelectionStep(storage: FileStorageManager, symbols: seq<string>, i: nat, now: Moment)
    requires i < |symbols|
    ensures SmartSelection(storage, symbols[..i + 1], now) ==
      SmartSelection(storage, symbols[..i], now) + if Stale(storage, symbols[i], now) then [symbols[i]] else []
  {
    assert symbols[..i + 1][..i] == symbols[..i];
  }

  /** A symbol with no stored 15m row is always selected. */
  lemma NeverFetchedSelected(storage: FileStorageManager, symbols: seq<string>, symbol: string, now: Moment)
    requires symbol in symbols
    requires storage.GetLatestDataTime("15m", symbol).None?
    ensures symbol in SmartSelection(storage, symbols, now)
  {
    SmartSelectionFilter(storage, symbols, now);
  }

  /** While the market is closed only never-fetched symbols are selected. */
  lemma ClosedMarketSelectsOnlyMissing(storage: FileStorageManager, symbols: seq<string>, symbol: string, now: Moment)
    requires !IsMarketOpen(now)
    requires symbol in SmartSelection(storage, symbols, now)
    ensures storage.GetLatestDataTime("15m", symbol).None?
  {
    SmartSelectionFilter(storage, symbols, now);
  }

  /** The all-or-nothing gates of the base, intraday, daily and weekly handlers. */
  function Gate(kind: HandlerKind, symbols: seq<string>, now: Moment): seq<string> {
    match kind
    case Intraday => if !IsMarketOpen(now) then [] else symbols
    case Daily => if now.secs < DailyUpdateTime then [] else symbols
    case Weekly => if Weekday(now.date) != Saturday then [] else symbols
    case _ => symbols
  }

  /** `get_symbols_to_update` of each handler. */
  function SymbolsToUpdate(kind: HandlerKind, storage: FileStorageManager, symbols: seq<string>, now: Moment): seq<string>
    reads storage
  {
    if kind == Smart then SmartSelection(storage, symbols, now) else Gate(kind, symbols, now)
  }

  /** The three gated handlers are all-or-nothing; the base handler passes the list through. */
  lemma GateAllOrNothing(kind: HandlerKind, symbols: seq<string>, now: Moment)
    requires kind != Smart
    ensures Gate(kind, symbols, now) == symbols || Gate(kind, symbols, now) == []
    ensures kind == Base ==> Gate(kind, symbols, now) == symbols
    ensures kind == Intraday && |symbols| > 0 ==> (Gate(kind, symbols, now) == symbols <==> IsMarketOpen(now))
    ensures kind == Daily && |symbols| > 0 ==> (Gate(kind, symbols, now) == symbols <==> now.secs >= TimeOfDay(16, 0))
    ensures kind == Weekly && |symbols| > 0 ==> (Gate(kind, symbols, now) == symbols <==> Weekday(now.date) == 5)
  {
  }

  /** Whether `update_data` answers True, given the selected symbols: the timeframe is
      configured, and either nothing was selected or the fetch returned rows. */
  predicate UpdateSucceeds(source: DataSource, timeframe: string, selected: seq<string>) {
    timeframe in TimeframeConfigs &&
    (selected == [] ||
     |source.Fetch(selected, TimeframeConfigs[timeframe].period, TimeframeConfigs[timeframe].interval)| > 0)
  }

  /** The request `update_data` sends, if any. */
  function UpdateRequests(timeframe: string, selected: seq<string>): seq<Request> {
    if timeframe in TimeframeConfigs && selected != [] then
      [Request(selected, TimeframeConfigs[timeframe].period, TimeframeConfigs[timeframe].interval)]
    else []
  }

  /** The store after `update_data` for the selected symbols. */
  function UpdatedFiles(source: DataSource, files: map<string, seq<Record>>, timeframe: string,
                        selected: seq<string>, append: bool, today: Date): map<string, seq<Record>>
  {
    if timeframe !in TimeframeConfigs || selected == [] then files
    else
      var data := source.Fetch(selected, TimeframeConfigs[timeframe].period, TimeframeConfigs[timeframe].interval);
      if |data| == 0 then files
      else files[MainFileName(timeframe) := RowsToWrite(files, timeframe, data, append)]
                [BackupFileName(timeframe, today) := RowsToWrite(files, timeframe, data, append)]
  }

  /** The outcomes of one `update_data` run: an unknown timeframe fails and asks nothing;
      an empty selection succeeds and asks nothing; otherwise one request is sent, an empty
      answer fails with the store untouched, and rows are saved with the handler's merge
      mode into the main file and the dated backup, which then hold the same rows. */
  lemma UpdateOutcomes(source: DataSource, files: map<string, seq<Record>>, timeframe: string,
                       selected: seq<string>, append: bool, today: Date)
    ensures timeframe !in TimeframeConfigs ==>
      !UpdateSucceeds(source, timeframe, selected) && UpdateRequests(timeframe, selected) == [] &&
      UpdatedFiles(source, files, timeframe, selected, append, today) == files
    ensures timeframe in TimeframeConfigs && selected == [] ==>
      UpdateSucceeds(source, timeframe, selected) && UpdateRequests(timeframe, selected) == [] &&
      UpdatedFiles(source, files, timeframe, selected, append, today) == files
    ensures timeframe in TimeframeConfigs && selected != [] ==> |UpdateRequests(timeframe, selected)| == 1
    ensures !UpdateSucceeds(source, timeframe, selected) ==> UpdatedFiles(source, files, timeframe, selected, append, today) == files
    ensures UpdateSucceeds(source, timeframe, selected) && selected != [] ==>
      var after := UpdatedFiles(source, files, timeframe, selected, append, today);
      MainFileName(timeframe) in after && BackupFileName(timeframe, today) in after &&
      after[MainFileName(timeframe)] == after[BackupFileName(timeframe, today)] &&
      Sorted(after[MainFileName(timeframe)])
  {
    if timeframe in TimeframeConfigs && selected != [] {
      var config := TimeframeConfigs[timeframe];
      var data := source.Fetch(selected, config.period, config.interval);
      if |data| > 0 {
        WrittenRowsSorted(files, timeframe, data, append);
      }
    }
  }

  /** `update_data` writes no file but the timeframe's main file and its backup of `today`. */
  lemma UpdateTouchesOnlyItsFiles(source: DataSource, files: map<string, seq<Record>>, timeframe: string,
                                  selected: seq<string>, append: bool, today: Date, name: string)
    requires name != MainFileName(timeframe) && name != BackupFileName(timeframe, today)
    ensures name in UpdatedFiles(source, files, timeframe, selected, append, today) <==> name in files
    ensures name in files ==> UpdatedFiles(source, files, timeframe, selected, append, today)[name] == files[name]
  {
  }

  class TimeframeHandler {
    const kind: HandlerKind
    const dataSource: DataSource
    const storage: FileStorageManager

    constructor(kind: HandlerKind, dataSource: DataSource, storage: FileStorageManager)
      ensures this.kind == kind && this.dataSource == dataSource && this.storage == storage
    {
      this.kind := kind;
      this.dataSource := dataSource;
      this.storage := storage;
    }

    /** `get_symbols_to_update(symbols)`; the smart handler's loop asks the store once per
        symbol. */
    method GetSymbolsToUpdate(symbols: seq<string>, now: Moment) returns (selected: seq<string>)
      ensures selected == SymbolsToUpdate(kind, storage, symbols, now)
    {
      if kind == Smart {
        selected := SmartSymbolsToUpdate(symbols, now);
      } else {
        selected := Gate(kind, symbols, now);
      }
    }

    /** The smart handler's loop: a symbol is appended when the store has no 15m row for
        it, or when the market is open and that row is more than an hour old. */
    method SmartSymbolsToUpdate(symbols: seq<string>, now: Moment) returns (selected: seq<string>)
      ensures selected == SmartSelection(storage, symbols, now)
    {
      selected := [];
      var i := 0;
      while i < |symbols|
        invariant 0 <= i <= |symbols|
        invariant selected == SmartSelection(storage, symbols[..i], now)
      {
        var symbol := symbols[i];
        var lastUpdate := storage.GetLatestDataTime("15m", symbol);
        SmartSelectionStep(storage, symbols, i, now);
        var append := false;
        if lastUpdate.None? {
          append := true;
        } else if IsMarketOpen(now) && Elapsed(now, lastUpdate.value) > 3600 {
          append := true;
        }
        assert append == Stale(storage, symbol, now);
        if append {
          selected := selected + [symbol];
        }
        i := i + 1;
      }
      assert symbols[..|symbols|] == symbols;
    }

    /** `update_data(timeframe, symbols)`; `today` is the local date naming the backup
        file. The answer, the request sent and the new store are those of the handler's
        own selection. */
    method UpdateData(timeframe: string, symbols: seq<string>, now: Moment, today: Date) returns (ok: bool)
      modifies dataSource, storage
      ensures ok == UpdateSucceeds(dataSource, timeframe, old(SymbolsToUpdate(kind, storage, symbols, now)))
      ensures dataSource.requests == old(dataSource.requests) +
        UpdateRequests(timeframe, old(SymbolsToUpdate(kind, storage, symbols, now)))
      ensures storage.files == UpdatedFiles(dataSource, old(storage.files), timeframe,
        old(SymbolsToUpdate(kind, storage, symbols, now)), ShouldAppendData(kind, timeframe), today)
    {
      if timeframe !in TimeframeConfigs {
        return false;
      }
      var config := TimeframeConfigs[timeframe];
      var symbolsToUpdate := GetSymbolsToUpdate(symbols, now);
      if symbolsToUpdate == [] {
        return true;
      }
      var data := dataSource.GetMultipleStocksData(symbolsToUpdate, config.period, config.interval);
      if |data| == 0 {
        return false;
      }
      ok := storage.SaveData(data, timeframe, ShouldAppendData(kind, timeframe), today);
    }
  }

  /** `get_handler_for_timeframe(timeframe, data_source, storage_manager)`. */
  method GetHandlerForTimeframe(timeframe: string, dataSource: DataSource, storage: FileStorageManager)
    returns (handler: TimeframeHandler)
    ensures fresh(handler)
    ensures handler.kind == HandlerFor(timeframe) && handler.dataSource == dataSource && handler.storage == storage
  {
    handler := new TimeframeHandler(HandlerFor(timeframe), dataSource, storage);
  }
}
