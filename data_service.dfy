/** The service of services/data_service.py that ties a data source, the file store and an
    optional scheduler together. `now` is the current IST time, `localNow` the local
    wall-clock time, `today` the local date; `provider` is the market-data service every
    data source it builds talks to. */
module Service {
  import opened Wrappers
  import opened Calendar
  import opened Settings
  import opened Records
  import opened FileStorage
  import opened DataSources
  import opened Schedules
  import opened Scheduling

  // --------------------------------------------------------------- factories

  /** `_initialize_data_source`: the implementation for a source name, or the ValueError. */
  function DataSourceKindFor(dataSourceType: string): (r: Result<SourceKind>)
    ensures r.Ok? <==> dataSourceType == "yfinance" || dataSourceType == "fyers"
    ensures r.Ok? ==> (r.value == YFinance <==> dataSourceType == "yfinance")
  {
    if dataSourceType == "yfinance" then Ok(YFinance)
    else if dataSourceType == "fyers" then Ok(Fyers)
    else Err("Unsupported data source: " + dataSourceType)
  }

  datatype StorageKind = FileStore | DatabaseStore

  /** `_initialize_storage`: the store for a storage name, or the ValueError. */
  function StorageKindFor(storageType: string): (r: Result<StorageKind>)
    ensures r.Ok? <==> storageType == "file" || storageType == "database"
    ensures r.Ok? ==> (r.value == FileStore <==> storageType == "file")
  {
    if storageType == "file" then Ok(FileStore)
    else if storageType == "database" then Ok(DatabaseStore)
    else Err("Unsupported storage type: " + storageType)
  }

  /** The default source name is one the factory accepts. */
  lemma DefaultSourceSupported()
    ensures DataSourceKindFor(DefaultDataSource) == Ok(YFinance)
  {
  }

  // ---------------------------------------------------------------- fetching

  /** The rows `fetch_data(timeframe, symbols)` returns: those of one request with the
      timeframe's period and interval; an unknown timeframe raises inside the method and
      comes back as the empty frame. */
  function FetchRows(source: DataSource, timeframe: string, symbols: seq<string>): seq<Record> {
    if timeframe in TimeframeConfigs then
      source.Fetch(symbols, TimeframeConfigs[timeframe].period, TimeframeConfigs[timeframe].interval)
    else []
  }

  function FetchRequests(timeframe: string, symbols: seq<string>): seq<Request> {
    if timeframe in TimeframeConfigs then
      [Request(symbols, TimeframeConfigs[timeframe].period, TimeframeConfigs[timeframe].interval)]
    else []
  }

  /** The store after `fetch_data(timeframe, symbols, save_data)`. */
  function FetchFiles(source: DataSource, files: map<string, seq<Record>>, timeframe: string,
                      symbols: seq<string>, saveData: bool, today: Date): map<string, seq<Record>>
  {
    var data := FetchRows(source, timeframe, symbols);
    if saveData && |data| > 0 then
      files[MainFileName(timeframe) := RowsToWrite(files, timeframe, data, true)]
           [BackupFileName(timeframe, today) := RowsToWrite(files, timeframe, data, true)]
    else files
  }

  /** The symbols a call works on: a given list, or the configured ones for the empty list. */
  function OrDefault(symbolList: seq<string>, symbols: seq<string>): (r: seq<string>)
    ensures symbolList != [] ==> r == symbolList
    ensures symbolList == [] ==> r == symbols
  {
    if symbolList != [] then symbolList else symbols
  }

  /** An unknown timeframe asks nothing and stores nothing, and an empty answer or a call
      without saving stores nothing. A save writes the same rows, sorted, to the main file
      and the dated backup, always in append mode: over a non-empty main file it keeps one
      row for every stored or new key, otherwise exactly the new rows. */
  lemma FetchOutcomes(source: DataSource, files: map<string, seq<Record>>, timeframe: string,
                      symbols: seq<string>, saveData: bool, today: Date)
    ensures timeframe !in TimeframeConfigs ==>
      FetchRows(source, timeframe, symbols) == [] && FetchRequests(timeframe, symbols) == [] &&
      FetchFiles(source, files, timeframe, symbols, saveData, today) == files
    ensures FetchRows(source, timeframe, symbols) == [] || !saveData ==>
      FetchFiles(source, files, timeframe, symbols, saveData, today) == files
    ensures saveData && FetchRows(source, timeframe, symbols) != [] ==> SavedOutcome(source, files, timeframe, symbols, today)
  {
    if saveData && FetchRows(source, timeframe, symbols) != [] {
      SavedFetchOutcome(source, files, timeframe, symbols, today);
    }
  }

  /** What a save leaves behind: the same rows, sorted, in the main file and the dated
      backup, every other file untouched, and the main file's rows either merged with the
      stored ones or exactly the new ones. */
  ghost predicate SavedOutcome(source: DataSource, files: map<string, seq<Record>>, timeframe: string,
                               symbols: seq<string>, today: Date)
  {
    var after := FetchFiles(source, files, timeframe, symbols, true, today);
    MainFileName(timeframe) in after && BackupFileName(timeframe, today) in after &&
    after[MainFileName(timeframe)] == after[BackupFileName(timeframe, today)] &&
    Sorted(after[MainFileName(timeframe)]) &&
    (forall n :: n in files && n != MainFileName(timeframe) && n != BackupFileName(timeframe, today) ==>
      n in after && after[n] == files[n]) &&
    (Merges(files, timeframe, true) ==>
      UniqueKeys(after[MainFileName(timeframe)]) &&
      Keys(after[MainFileName(timeframe)]) == Keys(files[MainFileName(timeframe)]) + Keys(FetchRows(source, timeframe, symbols))) &&
    (!Merges(files, timeframe, true) ==>
      multiset(after[MainFileName(timeframe)]) == multiset(FetchRows(source, timeframe, symbols)))
  }

  /** A fetch that returned rows and is saved leaves `SavedOutcome` behind. */
  lemma SavedFetchOutcome(source: DataSource, files: map<string, seq<Record>>, timeframe: string,
                          symbols: seq<string>, today: Date)
    requires FetchRows(source, timeframe, symbols) != []
    ensures SavedOutcome(source, files, timeframe, symbols, today)
  {
    var data := FetchRows(source, timeframe, symbols);
    FileNamesDistinct(timeframe, timeframe, today);
    WrittenRowsSorted(files, timeframe, data, true);
    if Merges(files, timeframe, true) {
      MergeResult(files, timeframe, data, true);
    } else {
      OverwriteKeepsExactlyNewRows(files, timeframe, data, true);
    }
  }

  /** What a direct update changes: the store and the requests sent to the data source. */
  datatype Store = Store(files: map<string, seq<Record>>, requests: seq<Request>)

  /** One `fetch_data(timeframe, symbols)` call with saving. */
  function FetchStep(source: DataSource, s: Store, timeframe: string, symbols: seq<string>, today: Date): Store {
    Store(FetchFiles(source, s.files, timeframe, symbols, true, today), s.requests + FetchRequests(timeframe, symbols))
  }

  /** `fetch_data` with saving for each of `timeframes` in turn. */
  function DirectRun(source: DataSource, s: Store, timeframes: seq<string>, symbols: seq<string>, today: Date): Store
    decreases |timeframes|
  {
    if |timeframes| == 0 then s
    else DirectRun(source, FetchStep(source, s, timeframes[0], symbols, today), timeframes[1..], symbols, today)
  }

  /** `DirectRun` from the `i`-th timeframe on is one fetch followed by the rest. */
  lemma DirectRunStep(source: DataSource, s: Store, timeframes: seq<string>, i: nat, symbols: seq<string>, today: Date)
    requires i < |timeframes|
    ensures DirectRun(source, s, timeframes[i..], symbols, today) ==
      DirectRun(source, FetchStep(source, s, timeframes[i], symbols, today), timeframes[i + 1..], symbols, today)
  {
    assert timeframes[i..][1..] == timeframes[i + 1..];
  }

  /** Every timeframe of `timeframes` fetches some rows. */
  predicate AllFetched(source: DataSource, timeframes: seq<string>, symbols: seq<string>) {
    forall tf :: tf in timeframes ==> FetchRows(source, tf, symbols) != []
  }

  /** The direct update's success counter stays equal to the number of turns exactly while
      every fetch so far returned rows. */
  lemma FetchCountStep(source: DataSource, timeframes: seq<string>, i: nat, symbols: seq<string>,
                       count: nat, count': nat, fetched: bool)
    requires i < |timeframes| && count <= i
    requires count == i <==> AllFetched(source, timeframes[..i], symbols)
    requires fetched == (FetchRows(source, timeframes[i], symbols) != [])
    requires count' == if fetched then count + 1 else count
    ensures count' <= i + 1
    ensures count' == i + 1 <==> AllFetched(source, timeframes[..i + 1], symbols)
  {
    assert timeframes[..i + 1] == timeframes[..i] + [timeframes[i]];
  }

  /** The files of timeframes not updated, and every file that is neither a main file nor a
      backup of today, are left alone by a direct update. */
  lemma {:induction false} DirectRunFrame(source: DataSource, s: Store, timeframes: seq<string>, symbols: seq<string>,
                                          today: Date, n: string)
    requires n in s.files
    requires forall tf :: tf in timeframes ==> n != MainFileName(tf) && n != BackupFileName(tf, today)
    ensures n in DirectRun(source, s, timeframes, symbols, today).files
    ensures DirectRun(source, s, timeframes, symbols, today).files[n] == s.files[n]
    decreases |timeframes|
  {
    if |timeframes| > 0 {
      var tf := timeframes[0];
      FetchOutcomes(source, s.files, tf, symbols, true, today);
      var s' := FetchStep(source, s, tf, symbols, today);
      assert forall t :: t in timeframes[1..] ==> t in timeframes;
      DirectRunFrame(source, s', timeframes[1..], symbols, today, n);
    }
  }

  /** A direct update asks the source once per configured timeframe, in order, with that
      timeframe's period and interval, and for no other request. */
  lemma {:induction false} DirectRunRequests(source: DataSource, s: Store, timeframes: seq<string>, symbols: seq<string>,
                                             today: Date)
    ensures var r := DirectRun(source, s, timeframes, symbols, today).requests;
      |s.requests| <= |r| && r[..|s.requests|] == s.requests &&
      forall q :: q in r[|s.requests|..] ==>
        (exists tf :: tf in timeframes && tf in TimeframeConfigs &&
           q == Request(symbols, TimeframeConfigs[tf].period, TimeframeConfigs[tf].interval))
    ensures (forall tf :: tf in timeframes ==> tf in TimeframeConfigs) ==>
      |DirectRun(source, s, timeframes, symbols, today).requests| == |s.requests| + |timeframes|
    ensures (forall tf :: tf in timeframes ==> tf in TimeframeConfigs) ==>
      forall i :: 0 <= i < |timeframes| ==>
        DirectRun(source, s, timeframes, symbols, today).requests[|s.requests| + i] ==
          Request(symbols, TimeframeConfigs[timeframes[i]].period, TimeframeConfigs[timeframes[i]].interval)
    decreases |timeframes|
  {
    if |timeframes| > 0 {
      var tf := timeframes[0];
      var s' := FetchStep(source, s, tf, symbols, today);
      DirectRunRequests(source, s', timeframes[1..], symbols, today);
      var r := DirectRun(source, s, timeframes, symbols, today).requests;
      assert r == DirectRun(source, s', timeframes[1..], symbols, today).requests;
      assert r[..|s.requests|] == s.requests by {
        assert s'.requests[..|s.requests|] == s.requests;
      }
      forall q | q in r[|s.requests|..]
        ensures exists t :: (t in timeframes && t in TimeframeConfigs &&
          q == Request(symbols, TimeframeConfigs[t].period, TimeframeConfigs[t].interval))
      {
        var k :| |s.requests| <= k < |r| && r[k] == q;
        if k < |s'.requests| {
          assert tf in TimeframeConfigs && q == Request(symbols, TimeframeConfigs[tf].period, TimeframeConfigs[tf].interval);
        } else {
          assert q in r[|s'.requests|..];
          var t :| t in timeframes[1..] && t in TimeframeConfigs &&
            q == Request(symbols, TimeframeConfigs[t].period, TimeframeConfigs[t].interval);
          assert t in timeframes;
        }
      }
      if forall t :: t in timeframes ==> t in TimeframeConfigs {
        assert forall t :: t in timeframes[1..] ==> t in timeframes;
        forall i | 0 <= i < |timeframes|
          ensures r[|s.requests| + i] ==
            Request(symbols, TimeframeConfigs[timeframes[i]].period, TimeframeConfigs[timeframes[i]].interval)
        {
          if i == 0 {
            assert r[|s.requests|] == s'.requests[|s.requests|];
          } else {
            assert timeframes[1..][i - 1] == timeframes[i];
            assert |s.requests| + i == |s'.requests| + (i - 1);
          }
        }
      }
    }
  }

  /** The day bounds of `load_data`: on or after the start day, and before the end day or
      exactly at its midnight. */
  predicate DayBounds(t: Moment, startDate: Option<Date>, endDate: Option<Date>) {
    (startDate.Some? ==> DateLess(startDate.value, t.date) || startDate.value == t.date) &&
    (endDate.Some? ==> DateLess(t.date, endDate.value) || (t.date == endDate.value && t.secs == 0))
  }

  /** The rows `load_data` keeps: a listed symbol (any, for the empty list) within the day
      bounds. */
  predicate LoadSelects(x: Record, symbolList: seq<string>, startDate: Option<Date>, endDate: Option<Date>) {
    (symbolList != [] ==> x.symbol in symbolList) && DayBounds(x.datetime, startDate, endDate)
  }

  /** A date bound as the moment pandas compares with: midnight of the day. */
  function Midnight(bound: Option<Date>): (m: Option<Moment>)
    ensures m.Some? <==> bound.Some?
    ensures m.Some? ==> m.value.date == bound.value && m.value.secs == 0
  {
    if bound.Some? then Some(Moment(bound.value, 0)) else None
  }

  /** Comparing with the two midnights is comparing with the two days. */
  lemma MidnightWindow(startDate: Option<Date>, endDate: Option<Date>)
    ensures forall m: Moment :: WithinBounds(m, Midnight(startDate), Midnight(endDate)) <==> DayBounds(m, startDate, endDate)
  {
    MidnightBounds(startDate);
    MidnightBounds(endDate);
  }

  /** A date bound compared with a time is midnight of that day: on or after it means on
      or after the day, on or before it means before the day or exactly at its midnight. */
  lemma MidnightBounds(bound: Option<Date>)
    ensures bound.Some? ==> forall m: Moment ::
      Stamp(Moment(bound.value, 0)) <= Stamp(m) <==> DateLess(bound.value, m.date) || bound.value == m.date
    ensures bound.Some? ==> forall m: Moment ::
      Stamp(m) <= Stamp(Moment(bound.value, 0)) <==> DateLess(m.date, bound.value) || (m.date == bound.value && m.secs == 0)
  {
    if bound.Some? {
      var d := bound.value;
      forall m: Moment
        ensures Stamp(Moment(d, 0)) <= Stamp(m) <==> DateLess(d, m.date) || d == m.date
        ensures Stamp(m) <= Stamp(Moment(d, 0)) <==> DateLess(m.date, d) || (m.date == d && m.secs == 0)
      {
        OrdinalOrder(d, m.date);
        OrdinalOrder(m.date, d);
        if Ordinal(d) == Ordinal(m.date) {
          OrdinalInjective(d, m.date);
        }
      }
    }
  }

  // ----------------------------------------------------------------- service

  class DataService {
    var dataSourceType: string
    var symbolSet: string
    const storageType: string
    var dataSource: DataSource
    const storage: FileStorageManager
    var scheduler: DataScheduler?
    var symbols: seq<string>
    /** The market-data provider every data source the service builds talks to. */
    const provider: Provider

    /** The symbols are those of the symbol set, and a scheduler shares the service's store
        and symbol set. */
    ghost predicate Valid()
      reads this, scheduler
    {
      symbols == GetSymbols(symbolSet) &&
      (scheduler != null ==> scheduler.storage == storage && scheduler.symbolSet == symbolSet && scheduler.symbols == symbols)
    }

    constructor(dataSourceType: string, symbolSet: string, storageType: string, dataSource: DataSource,
                storage: FileStorageManager)
      ensures this.dataSourceType == dataSourceType && this.symbolSet == symbolSet && this.storageType == storageType
      ensures this.dataSource == dataSource && this.storage == storage && provider == dataSource.provider
      ensures scheduler == null && symbols == GetSymbols(symbolSet)
      ensures Valid()
    {
      this.dataSourceType := dataSourceType;
      this.symbolSet := symbolSet;
      this.storageType := storageType;
      this.dataSource := dataSource;
      this.storage := storage;
      provider := dataSource.provider;
      scheduler := null;
      symbols := GetSymbols(symbolSet);
    }

    /** `__init__(data_source_type, symbol_set, storage_type, auto_start_scheduler)`: the
        empty name stands for the default source; `contents` is the data directory. An
        unsupported source or store is the ValueError `__init__` raises. */
    static method New(dataSourceType: string, symbolSet: string, storageType: string, autoStart: bool,
                      provider: Provider, contents: map<string, seq<Record>>,
                      now: Moment, localNow: Moment, today: Date) returns (r: Result<DataService>)
      ensures var name := if dataSourceType != "" then dataSourceType else DefaultDataSource;
        r.Ok? <==> DataSourceKindFor(name).Ok? && storageType == "file"
      ensures r.Ok? ==>
        var svc := r.value;
        var name := if dataSourceType != "" then dataSourceType else DefaultDataSource;
        fresh(svc) && fresh(svc.dataSource) && fresh(svc.storage) && svc.Valid() &&
        svc.dataSourceType == name && svc.dataSource.kind == DataSourceKindFor(name).value &&
        svc.dataSource.provider == provider && svc.provider == provider &&
        svc.symbolSet == symbolSet && svc.symbols == GetSymbols(symbolSet) && svc.storageType == storageType
      ensures r.Ok? && !autoStart ==>
        r.value.scheduler == null && r.value.storage.files == contents && r.value.dataSource.requests == []
      ensures r.Ok? && autoStart ==>
        var svc := r.value;
        svc.scheduler != null && fresh(svc.scheduler) && svc.scheduler.dataSource == svc.dataSource &&
        (svc.scheduler.isRunning <==> svc.dataSource.IsAvailable()) &&
        Effects(svc.storage.files, svc.scheduler.lastUpdates, svc.dataSource.requests) ==
          (if svc.dataSource.IsAvailable()
           then InitialRun(svc.dataSource, Effects(contents, map[], []), TimeframeOrder, svc.symbols, now, localNow, today)
           else Effects(contents, map[], []))
    {
      var name := if dataSourceType != "" then dataSourceType else DefaultDataSource;
      var kind := DataSourceKindFor(name);
      if kind.Err? {
        return Err(kind.error);
      }
      var source := new DataSource(kind.value, provider);
      var store := StorageKindFor(storageType);
      if store.Err? {
        return Err(store.error);
      }
      if store.value == DatabaseStore {
        return Err("Storage type database is not part of this model");
      }
      var storage := new FileStorageManager(contents);
      var svc := new DataService(name, symbolSet, storageType, source, storage);
      if autoStart {
        var _ := svc.StartScheduler(now, localNow, today);
      }
      return Ok(svc);
    }

    /** `start_scheduler()`: a running scheduler is kept and True returned; otherwise a new
        scheduler over the current source, store and symbol set replaces any old one, and
        the result is whether it started. */
    method StartScheduler(now: Moment, localNow: Moment, today: Date) returns (ok: bool)
      requires Valid()
      modifies this, dataSource, storage
      ensures Valid()
      ensures dataSource == old(dataSource) && symbols == old(symbols) && symbolSet == old(symbolSet)
      ensures dataSourceType == old(dataSourceType)
      ensures old(scheduler != null && scheduler.isRunning) ==>
        ok && scheduler == old(scheduler) && storage.files == old(storage.files) &&
        dataSource.requests == old(dataSource.requests)
      ensures !old(scheduler != null && scheduler.isRunning) ==>
        scheduler != null && fresh(scheduler) && scheduler.dataSource == dataSource &&
        scheduler.symbolSet == symbolSet && scheduler.symbols == GetSymbols(symbolSet) &&
        (ok <==> dataSource.IsAvailable()) && scheduler.isRunning == ok &&
        (ok ==> scheduler.jobs == JobTable(ScheduleTable)) &&
        Effects(storage.files, scheduler.lastUpdates, dataSource.requests) ==
          (if ok then InitialRun(dataSource, Effects(old(storage.files), map[], old(dataSource.requests)),
                                 TimeframeOrder, GetSymbols(symbolSet), now, localNow, today)
           else Effects(old(storage.files), map[], old(dataSource.requests)))
    {
      if scheduler != null && scheduler.isRunning {
        return true;
      }
      var created := new DataScheduler(dataSource, storage, symbolSet);
      scheduler := created;
      var started := created.Start(now, localNow, today);
      ok := started == Some(true);
    }

    /** `stop_scheduler()`: a scheduler, running or not, is stopped; nothing else changes. */
    method StopScheduler()
      requires Valid()
      modifies scheduler
      ensures Valid()
      ensures scheduler != null ==> !scheduler.isRunning
      ensures scheduler != null ==> scheduler.jobs == old(scheduler.jobs) && scheduler.lastUpdates == old(scheduler.lastUpdates)
      ensures scheduler != null ==> scheduler.symbols == old(scheduler.symbols) && scheduler.symbolSet == old(scheduler.symbolSet)
    {
      if scheduler != null {
        scheduler.Stop();
      }
    }

    /** `fetch_data(timeframe, symbols, save_data)`; the empty list stands for the
        configured symbols. */
    method FetchData(timeframe: string, symbolList: seq<string>, saveData: bool, today: Date) returns (data: seq<Record>)
      modifies dataSource, storage
      ensures data == FetchRows(dataSource, timeframe, OrDefault(symbolList, symbols))
      ensures dataSource.requests == old(dataSource.requests) + FetchRequests(timeframe, OrDefault(symbolList, symbols))
      ensures storage.files == FetchFiles(dataSource, old(storage.files), timeframe, OrDefault(symbolList, symbols), saveData, today)
    {
      var symbolsToFetch := if symbolList != [] then symbolList else symbols;
      if timeframe !in TimeframeConfigs {
        return [];
      }
      var config := TimeframeConfigs[timeframe];
      data := dataSource.GetMultipleStocksData(symbolsToFetch, config.period, config.interval);
      if |data| == 0 {
        return;
      }
      if saveData {
        var _ := storage.SaveData(data, timeframe, true, today);
      }
    }

    /** `load_data(timeframe, symbols, start_date, end_date)`: the stored rows of the
        timeframe, in order and with every copy kept, that `LoadSelects` picks. */
    function LoadData(timeframe: string, symbolList: seq<string>, startDate: Option<Date>, endDate: Option<Date>)
      : (r: seq<Record>)
      reads storage
      ensures MainFileName(timeframe) !in storage.files ==> r == []
      ensures MainFileName(timeframe) in storage.files ==> IsSubsequence(r, storage.files[MainFileName(timeframe)])
      ensures forall x :: x in r <==>
        MainFileName(timeframe) in storage.files && x in storage.files[MainFileName(timeframe)] &&
        LoadSelects(x, symbolList, startDate, endDate)
      ensures var file := MainFileName(timeframe);
        file in storage.files ==>
        forall x :: multiset(r)[x] == if LoadSelects(x, symbolList, startDate, endDate) then multiset(storage.files[file])[x] else 0
    {
      var data := storage.LoadData(timeframe, symbolList);
      MidnightWindow(startDate, endDate);
      var r := RowsBetween(data, Midnight(startDate), Midnight(endDate));
      if MainFileName(timeframe) in storage.files then
        SubsequenceTransitive(r, data, storage.files[MainFileName(timeframe)]);
        r
      else r
    }

    /** `manual_update(timeframe, symbols)`: a scheduler, running or not, does the work;
        without one, the timeframe (every configured one for the empty name) is fetched and
        saved directly, and the result is whether each fetch returned rows. */
    method ManualUpdate(timeframe: string, symbolList: seq<string>, now: Moment, localNow: Moment, today: Date)
      returns (ok: bool)
      requires Valid()
      modifies storage, scheduler, if scheduler != null then {scheduler.dataSource} else {dataSource}
      ensures Valid()
      ensures scheduler == old(scheduler)
      ensures scheduler != null && scheduler.dataSource != dataSource ==> dataSource.requests == old(dataSource.requests)
      ensures scheduler != null ==>
        (ok <==> forall tf :: tf in TargetTimeframes(timeframe) ==>
          ManualSucceeds(scheduler.dataSource, tf, OrDefault(symbolList, symbols), now))
      ensures scheduler != null ==>
        scheduler.World() == ManualRun(scheduler.dataSource, old(scheduler.World()), TargetTimeframes(timeframe),
                                       OrDefault(symbolList, symbols), now, localNow, today)
      ensures scheduler != null ==> scheduler.isRunning == old(scheduler.isRunning) && scheduler.jobs == old(scheduler.jobs)
      ensures scheduler == null ==>
        (ok <==> forall tf :: tf in TargetTimeframes(timeframe) ==> FetchRows(dataSource, tf, OrDefault(symbolList, symbols)) != [])
      ensures scheduler == null ==>
        Store(storage.files, dataSource.requests) ==
          DirectRun(dataSource, old(Store(storage.files, dataSource.requests)), TargetTimeframes(timeframe),
                    OrDefault(symbolList, symbols), today)
    {
      if scheduler != null {
        ok := scheduler.ManualUpdate(timeframe, symbolList, now, localNow, today);
      } else {
        ok := DirectManualUpdate(timeframe, symbolList, today);
      }
    }

    /** `manual_update` without a scheduler: the timeframe (every configured one for the
        empty name) is fetched and saved, and the result is whether each fetch returned rows. */
    method DirectManualUpdate(timeframe: string, symbolList: seq<string>, today: Date) returns (ok: bool)
      modifies storage, dataSource
      ensures ok <==> forall tf :: tf in TargetTimeframes(timeframe) ==> FetchRows(dataSource, tf, OrDefault(symbolList, symbols)) != []
      ensures Store(storage.files, dataSource.requests) ==
        DirectRun(dataSource, old(Store(storage.files, dataSource.requests)), TargetTimeframes(timeframe),
                  OrDefault(symbolList, symbols), today)
    {
      ghost var start := Store(storage.files, dataSource.requests);
      var updateSymbols := OrDefault(symbolList, symbols);
      if timeframe != "" {
        var data := FetchData(timeframe, symbolList, true, today);
        ok := data != [];
        assert [timeframe][1..] == [];
        return;
      }
      var successCount := 0;
      var i := 0;
      while i < |TimeframeOrder|
        invariant 0 <= i <= |TimeframeOrder|
        invariant 0 <= successCount <= i
        invariant successCount == i <==> AllFetched(dataSource, TimeframeOrder[..i], updateSymbols)
        invariant DirectRun(dataSource, Store(storage.files, dataSource.requests), TimeframeOrder[i..], updateSymbols, today) ==
          DirectRun(dataSource, start, TimeframeOrder, updateSymbols, today)
      {
        var tf := TimeframeOrder[i];
        ghost var before := Store(storage.files, dataSource.requests);
        var data := FetchData(tf, symbolList, true, today);
        DirectRunStep(dataSource, before, TimeframeOrder, i, updateSymbols, today);
        ghost var count := successCount;
        if data != [] {
          successCount := successCount + 1;
        }
        FetchCountStep(dataSource, TimeframeOrder, i, updateSymbols, count, successCount, data != []);
        i := i + 1;
      }
      ok := successCount == |TimeframeOrder|;
      assert TimeframeOrder[|TimeframeOrder|..] == [];
      assert TimeframeOrder[..|TimeframeOrder|] == TimeframeOrder;
    }

    /** `switch_data_source(new_source)`: a running scheduler is stopped, the name recorded
        and the new source built; an unsupported name fails there, leaving the scheduler
        stopped. Otherwise a scheduler that was running is rebuilt over the new source, and
        one that was not keeps the source it was built with. */
    method SwitchDataSource(newSource: string, now: Moment, localNow: Moment, today: Date) returns (ok: bool)
      requires Valid()
      modifies this, storage, scheduler
      ensures Valid()
      ensures ok <==> DataSourceKindFor(newSource).Ok?
      ensures dataSourceType == newSource && symbols == old(symbols) && symbolSet == old(symbolSet)
      ensures old(scheduler) != null ==> !old(scheduler).isRunning
      ensures old(scheduler) != null ==> old(scheduler).jobs == old(scheduler.jobs) && old(scheduler).lastUpdates == old(scheduler.lastUpdates)
      ensures !ok ==> dataSource == old(dataSource) && scheduler == old(scheduler) && storage.files == old(storage.files)
      ensures ok ==> fresh(dataSource) && dataSource.kind == DataSourceKindFor(newSource).value && dataSource.provider == provider
      ensures ok && !old(scheduler != null && scheduler.isRunning) ==>
        scheduler == old(scheduler) && storage.files == old(storage.files) && dataSource.requests == [] &&
        (scheduler != null ==> scheduler.dataSource != dataSource)
      ensures ok && old(scheduler != null && scheduler.isRunning) ==>
        scheduler != null && fresh(scheduler) && scheduler.dataSource == dataSource &&
        (scheduler.isRunning <==> dataSource.IsAvailable()) &&
        Effects(storage.files, scheduler.lastUpdates, dataSource.requests) ==
          (if dataSource.IsAvailable()
           then InitialRun(dataSource, Effects(old(storage.files), map[], []), TimeframeOrder, symbols, now, localNow, today)
           else Effects(old(storage.files), map[], []))
    {
      var wasRunning := scheduler != null && scheduler.isRunning;
      if wasRunning {
        StopScheduler();
      }
      dataSourceType := newSource;
      var kind := DataSourceKindFor(newSource);
      if kind.Err? {
        return false;
      }
      dataSource := new DataSource(kind.value, provider);
      if wasRunning {
        var _ := StartScheduler(now, localNow, today);
      }
      return true;
    }

    /** `update_symbols(symbol_set)`: always succeeds; a scheduler follows the new set. */
    method UpdateSymbols(symbolSet: string) returns (ok: bool)
      requires Valid()
      modifies this, scheduler
      ensures Valid()
      ensures ok && this.symbolSet == symbolSet && symbols == GetSymbols(symbolSet)
      ensures scheduler == old(scheduler) && dataSource == old(dataSource) && dataSourceType == old(dataSourceType)
      ensures scheduler != null ==>
        scheduler.isRunning == old(scheduler.isRunning) && scheduler.jobs == old(scheduler.jobs) &&
        scheduler.lastUpdates == old(scheduler.lastUpdates)
    {
      this.symbolSet := symbolSet;
      symbols := GetSymbols(symbolSet);
      if scheduler != null {
        scheduler.UpdateSymbolSet(symbolSet);
      }
      return true;
    }
  }

  /** The end date is compared as midnight, so no row of the end day after midnight is
      loaded: an end date does not include its own trading session. */
  lemma EndDateExcludesItsSession(svc: DataService, timeframe: string, symbolList: seq<string>,
                                  startDate: Option<Date>, endDate: Date, x: Record)
    requires x.datetime.date == endDate && x.datetime.secs > 0
    ensures x !in svc.LoadData(timeframe, symbolList, startDate, Some(endDate))
  {
    OrdinalOrder(x.datetime.date, endDate);
  }
}
