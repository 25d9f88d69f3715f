/** The scheduler of schedulers/data_scheduler.py: its running flag, the table of jobs it
    registers, the time of each timeframe's last successful update, and the update runs
    it makes. The background engine and threads are not modelled: the jobs are a table and
    the initial catch-up updates run one after another. `now` is the current IST time,
    `localNow` the local wall-clock time that `last_updates` records, `today` the local
    date that names backup files. */
module Scheduling {
  import opened Wrappers
  import opened Calendar
  import opened Settings
  import opened Schedules
  import opened MarketHours
  import opened Records
  import opened FileStorage
  import opened DataSources
  import opened TimeframeHandlers

  // -------------------------------------------------------------- job table

  datatype Trigger = Interval(minutes: nat) | Cron(hour: nat, minute: nat, daysOfWeek: string)

  datatype JobTarget = UpdateTimeframeJob(timeframe: string) | CleanupJob

  datatype Job = Job(id: string, name: string, trigger: Trigger, target: JobTarget, maxInstances: nat, coalesce: bool)

  /** The trigger `_setup_scheduled_jobs` gives a timeframe, if it knows the timeframe. */
  function TimeframeTrigger(timeframe: string): Option<Trigger> {
    if timeframe == "15m" then Some(Interval(15))
    else if timeframe == "1h" then Some(Interval(60))
    else if timeframe == "1d" then Some(Cron(16, 30, "mon-fri"))
    else if timeframe == "1wk" then Some(Cron(8, 0, "sat"))
    else None
  }

  /** A timeframe is skipped when it has no schedule entry or the entry is disabled. */
  predicate Scheduled(table: map<string, ScheduleEntry>, timeframe: string) {
    timeframe in table && table[timeframe].enabled
  }

  function UpdateJob(timeframe: string, trigger: Trigger): Job {
    Job("update_" + timeframe, "Update " + timeframe + " data", trigger, UpdateTimeframeJob(timeframe), 1, true)
  }

  const CleanupJobEntry := Job("cleanup_files", "Cleanup old files", Cron(2, 0, "*"), CleanupJob, 1, true)

  /** The update jobs for `timeframes`, in order, under schedule table `table`. */
  function UpdateJobs(table: map<string, ScheduleEntry>, timeframes: seq<string>): seq<Job> {
    if |timeframes| == 0 then []
    else
      var tf := timeframes[0];
      var rest := UpdateJobs(table, timeframes[1..]);
      if Scheduled(table, tf) && TimeframeTrigger(tf).Some? then [UpdateJob(tf, TimeframeTrigger(tf).value)] + rest
      else rest
  }

  /** One turn of the registration loop: the job, if any, for the timeframe at `i`. */
  lemma UpdateJobsStep(table: map<string, ScheduleEntry>, timeframes: seq<string>, i: int)
    requires 0 <= i < |timeframes|
    ensures UpdateJobs(table, timeframes[i..]) ==
      (if Scheduled(table, timeframes[i]) && TimeframeTrigger(timeframes[i]).Some?
       then [UpdateJob(timeframes[i], TimeframeTrigger(timeframes[i]).value)] else [])
      + UpdateJobs(table, timeframes[i + 1..])
  {
    assert timeframes[i..][1..] == timeframes[i + 1..];
  }

  /** Everything `_setup_scheduled_jobs` registers under `table`. */
  function JobTable(table: map<string, ScheduleEntry>): seq<Job> {
    UpdateJobs(table, TimeframeOrder) + [CleanupJobEntry]
  }

  /** An update job for `tf` is registered exactly when `tf` is one of the timeframes, is
      scheduled and has a trigger; every job so registered is `update_<tf>` with one
      instance at a time and coalescing on. */
  lemma {:induction false} UpdateJobsMembers(table: map<string, ScheduleEntry>, timeframes: seq<string>, tf: string)
    ensures (exists j :: j in UpdateJobs(table, timeframes) && j.target == UpdateTimeframeJob(tf)) <==>
      tf in timeframes && Scheduled(table, tf) && TimeframeTrigger(tf).Some?
    ensures forall j :: j in UpdateJobs(table, timeframes) ==>
      j.target.UpdateTimeframeJob? && TimeframeTrigger(j.target.timeframe).Some? &&
      j == UpdateJob(j.target.timeframe, TimeframeTrigger(j.target.timeframe).value) &&
      j.maxInstances == 1 && j.coalesce
  {
    if |timeframes| > 0 {
      UpdateJobsMembers(table, timeframes[1..], tf);
      var t0 := timeframes[0];
      assert tf in timeframes <==> tf == t0 || tf in timeframes[1..];
      if Scheduled(table, t0) && TimeframeTrigger(t0).Some? {
        var head := UpdateJob(t0, TimeframeTrigger(t0).value);
        assert head in UpdateJobs(table, timeframes);
      }
    }
  }

  /** With the configured schedule every timeframe gets its job, and the cleanup job is last. */
  lemma ConfiguredJobTable()
    ensures JobTable(ScheduleTable) == [
      UpdateJob("15m", Interval(15)), UpdateJob("1h", Interval(60)),
      UpdateJob("1d", Cron(16, 30, "mon-fri")), UpdateJob("1wk", Cron(8, 0, "sat")),
      CleanupJobEntry]
  {
  }

  /** All job ids differ under any schedule table. */
  lemma {:induction false} JobIdsDistinct(table: map<string, ScheduleEntry>)
    ensures forall i, j :: 0 <= i < j < |JobTable(table)| ==> JobTable(table)[i].id != JobTable(table)[j].id
  {
    var u := UpdateJobs(table, TimeframeOrder);
    forall tf | true
      ensures (exists j :: j in u && j.target == UpdateTimeframeJob(tf)) <==>
        tf in TimeframeOrder && Scheduled(table, tf) && TimeframeTrigger(tf).Some?
    {
      UpdateJobsMembers(table, TimeframeOrder, tf);
    }
    UpdateJobsMembers(table, TimeframeOrder, "");
    assert |u| <= 4 by {
      UpdateJobsLength(table, TimeframeOrder);
    }
    UpdateJobIdsDistinct(table, TimeframeOrder);
    forall j | j in u
      ensures j.id != CleanupJobEntry.id
    {
      assert j.id == "update_" + j.target.timeframe;
      assert j.id[0] != CleanupJobEntry.id[0];
    }
  }

  lemma {:induction false} UpdateJobsLength(table: map<string, ScheduleEntry>, timeframes: seq<string>)
    ensures |UpdateJobs(table, timeframes)| <= |timeframes|
  {
    if |timeframes| > 0 {
      UpdateJobsLength(table, timeframes[1..]);
    }
  }

  /** Update jobs of distinct timeframes have distinct ids. */
  lemma {:induction false} UpdateJobIdsDistinct(table: map<string, ScheduleEntry>, timeframes: seq<string>)
    requires forall i, j :: 0 <= i < j < |timeframes| ==> timeframes[i] != timeframes[j]
    ensures forall i, j :: 0 <= i < j < |UpdateJobs(table, timeframes)| ==>
      UpdateJobs(table, timeframes)[i].id != UpdateJobs(table, timeframes)[j].id
  {
    if |timeframes| > 0 {
      var t0 := timeframes[0];
      var rest := UpdateJobs(table, timeframes[1..]);
      UpdateJobIdsDistinct(table, timeframes[1..]);
      UpdateJobsMembers(table, timeframes[1..], t0);
      UpdateJobsMembers(table, timeframes[1..], "");
      if Scheduled(table, t0) && TimeframeTrigger(t0).Some? {
        var head := UpdateJob(t0, TimeframeTrigger(t0).value);
        forall k | 0 <= k < |rest|
          ensures rest[k].id != head.id
        {
          assert rest[k] in rest;
          var other := rest[k].target.timeframe;
          if rest[k].id == head.id {
            UpdateIdInjective(other, t0);
          }
        }
      }
    }
  }

  lemma UpdateIdInjective(a: string, b: string)
    requires "update_" + a == "update_" + b
    ensures a == b
  {
    assert a == ("update_" + a)[7..];
    assert b == ("update_" + b)[7..];
  }

  // ---------------------------------------------------------- update runs

  /** The part of the world an update run changes: the store, `last_updates`, and the
      requests sent to the data source. */
  datatype Effects = Effects(files: map<string, seq<Record>>, lastUpdates: map<string, Moment>, requests: seq<Request>)

  /** One `handler.update_data(tf, symbols)` run of the handler the factory picks for `tf`,
      followed by recording `localNow` for `tf` when it succeeded. */
  function HandlerRun(source: DataSource, e: Effects, timeframe: string, symbols: seq<string>,
                      now: Moment, localNow: Moment, today: Date): Effects
  {
    var kind := HandlerFor(timeframe);
    var selected := Gate(kind, symbols, now);
    Effects(
      UpdatedFiles(source, e.files, timeframe, selected, ShouldAppendData(kind, timeframe), today),
      if UpdateSucceeds(source, timeframe, selected) then e.lastUpdates[timeframe := localNow] else e.lastUpdates,
      e.requests + UpdateRequests(timeframe, selected))
  }

  /** Whether `_update_timeframe` returns before asking the handler: the timeframe is
      configured as active during market hours only and the market is closed. */
  predicate MarketGated(timeframe: string, now: Moment) {
    timeframe in TimeframeConfigs && TimeframeConfigs[timeframe].activeDuringMarketHoursOnly && !IsMarketOpen(now)
  }

  /** `_update_timeframe(tf)`. */
  function TimeframeRun(source: DataSource, e: Effects, timeframe: string, symbols: seq<string>,
                        now: Moment, localNow: Moment, today: Date): Effects
  {
    if MarketGated(timeframe, now) then e else HandlerRun(source, e, timeframe, symbols, now, localNow, today)
  }

  /** A market-hours-only timeframe while the market is closed changes nothing; otherwise
      `last_updates[tf]` becomes `localNow` exactly when the handler succeeded, and no
      other timeframe's entry changes. */
  lemma TimeframeRunLastUpdate(source: DataSource, e: Effects, timeframe: string, symbols: seq<string>,
                               now: Moment, localNow: Moment, today: Date)
    ensures MarketGated(timeframe, now) ==> TimeframeRun(source, e, timeframe, symbols, now, localNow, today) == e
    ensures !MarketGated(timeframe, now) ==>
      TimeframeRun(source, e, timeframe, symbols, now, localNow, today).lastUpdates ==
        if UpdateSucceeds(source, timeframe, Gate(HandlerFor(timeframe), symbols, now))
        then e.lastUpdates[timeframe := localNow] else e.lastUpdates
  {
  }

  /** Under one reading of the clock, the handler's own gate and the scheduler's market gate
      agree on intraday timeframes: while the market is closed such a run never reaches the
      data source. */
  lemma ClosedMarketIntradayNoRequest(source: DataSource, e: Effects, timeframe: string, symbols: seq<string>,
                                      now: Moment, localNow: Moment, today: Date)
    requires timeframe in ["15m", "1h"] && !IsMarketOpen(now)
    ensures TimeframeRun(source, e, timeframe, symbols, now, localNow, today).requests == e.requests
    ensures HandlerRun(source, e, timeframe, symbols, now, localNow, today).requests == e.requests
  {
  }

  /** A timeframe with no stored rows. */
  predicate NoData(files: map<string, seq<Record>>, timeframe: string) {
    MainFileName(timeframe) !in files || files[MainFileName(timeframe)] == []
  }

  /** `_run_initial_update`, sequentialised: each timeframe in turn, updated when it has no
      stored rows at that moment. */
  function InitialRun(source: DataSource, e: Effects, timeframes: seq<string>, symbols: seq<string>,
                      now: Moment, localNow: Moment, today: Date): Effects
    decreases |timeframes|
  {
    if |timeframes| == 0 then e
    else
      var tf := timeframes[0];
      var e' := if NoData(e.files, tf) then TimeframeRun(source, e, tf, symbols, now, localNow, today) else e;
      InitialRun(source, e', timeframes[1..], symbols, now, localNow, today)
  }

  lemma InitialRunStep(source: DataSource, e: Effects, e': Effects, tf: string, rest: seq<string>, symbols: seq<string>,
                       now: Moment, localNow: Moment, today: Date)
    requires e' == if NoData(e.files, tf) then TimeframeRun(source, e, tf, symbols, now, localNow, today) else e
    ensures InitialRun(source, e, [tf] + rest, symbols, now, localNow, today) ==
      InitialRun(source, e', rest, symbols, now, localNow, today)
  {
    assert ([tf] + rest)[1..] == rest;
  }

  /** The timeframes of `timeframes` with no stored rows in `files`, in order. */
  function EmptyTimeframes(files: map<string, seq<Record>>, timeframes: seq<string>): seq<string> {
    if |timeframes| == 0 then []
    else (if NoData(files, timeframes[0]) then [timeframes[0]] else []) + EmptyTimeframes(files, timeframes[1..])
  }

  lemma EmptyTimeframesStep(files: map<string, seq<Record>>, tf: string, rest: seq<string>)
    ensures EmptyTimeframes(files, [tf] + rest) == (if NoData(files, tf) then [tf] else []) + EmptyTimeframes(files, rest)
  {
    assert ([tf] + rest)[1..] == rest;
  }

  /** The bookkeeping of `_run_initial_update`'s launches across one turn of its loop. */
  lemma LaunchedStep(launched: seq<string>, before: map<string, seq<Record>>, after: map<string, seq<Record>>,
                     tf: string, rest: seq<string>, target: seq<string>)
    requires launched + EmptyTimeframes(before, [tf] + rest) == target
    requires forall t :: t in rest ==> (NoData(after, t) <==> NoData(before, t))
    ensures (if NoData(before, tf) then launched + [tf] else launched) + EmptyTimeframes(after, rest) == target
  {
    EmptyTimeframesFrame(before, after, rest);
    EmptyTimeframesStep(before, tf, rest);
    if NoData(before, tf) {
      assert launched + ([tf] + EmptyTimeframes(before, rest)) == (launched + [tf]) + EmptyTimeframes(before, rest);
    } else {
      assert [] + EmptyTimeframes(before, rest) == EmptyTimeframes(before, rest);
    }
  }

  /** An update of one configured timeframe leaves another's stored rows as they were. */
  lemma OtherTimeframeUntouched(source: DataSource, e: Effects, tf: string, other: string, symbols: seq<string>,
                                now: Moment, localNow: Moment, today: Date)
    requires tf in TimeframeConfigs && other in TimeframeConfigs && tf != other
    ensures NoData(TimeframeRun(source, e, tf, symbols, now, localNow, today).files, other) <==> NoData(e.files, other)
  {
    FileNamesDistinct(other, tf, today);
    var kind := HandlerFor(tf);
    UpdateTouchesOnlyItsFiles(source, e.files, tf, Gate(kind, symbols, now), ShouldAppendData(kind, tf), today, MainFileName(other));
  }

  /** Two stores that agree on which timeframes have rows give the same empty list. */
  lemma {:induction false} EmptyTimeframesFrame(files: map<string, seq<Record>>, files': map<string, seq<Record>>,
                                                timeframes: seq<string>)
    requires forall tf :: tf in timeframes ==> (NoData(files', tf) <==> NoData(files, tf))
    ensures EmptyTimeframes(files', timeframes) == EmptyTimeframes(files, timeframes)
  {
    if |timeframes| > 0 {
      assert timeframes[0] in timeframes;
      assert forall tf :: tf in timeframes[1..] ==> tf in timeframes;
      EmptyTimeframesFrame(files, files', timeframes[1..]);
    }
  }

  /** `manual_update`'s step for one timeframe: the handler runs with no market gate. */
  function ManualRun(source: DataSource, e: Effects, timeframes: seq<string>, symbols: seq<string>,
                     now: Moment, localNow: Moment, today: Date): Effects
    decreases |timeframes|
  {
    if |timeframes| == 0 then e
    else ManualRun(source, HandlerRun(source, e, timeframes[0], symbols, now, localNow, today), timeframes[1..],
                   symbols, now, localNow, today)
  }

  predicate ManualSucceeds(source: DataSource, timeframe: string, symbols: seq<string>, now: Moment) {
    UpdateSucceeds(source, timeframe, Gate(HandlerFor(timeframe), symbols, now))
  }

  /** After a manual run `last_updates` holds `localNow` exactly for the timeframes that
      succeeded, and the old entry for every other key. */
  lemma {:induction false} ManualRunLastUpdates(source: DataSource, e: Effects, timeframes: seq<string>, symbols: seq<string>,
                                                now: Moment, localNow: Moment, today: Date, k: string)
    decreases |timeframes|
    ensures var after := ManualRun(source, e, timeframes, symbols, now, localNow, today).lastUpdates;
      (k in after <==> k in e.lastUpdates || (k in timeframes && ManualSucceeds(source, k, symbols, now))) &&
      (k in timeframes && ManualSucceeds(source, k, symbols, now) ==> after[k] == localNow) &&
      (!(k in timeframes && ManualSucceeds(source, k, symbols, now)) && k in e.lastUpdates ==> after[k] == e.lastUpdates[k])
  {
    if |timeframes| > 0 {
      var e1 := HandlerRun(source, e, timeframes[0], symbols, now, localNow, today);
      ManualRunLastUpdates(source, e1, timeframes[1..], symbols, now, localNow, today, k);
      assert k in timeframes <==> k == timeframes[0] || k in timeframes[1..];
    }
  }

  /** `ManualRun` from the `i`-th timeframe on is one handler run followed by the rest. */
  lemma ManualRunStep(source: DataSource, e: Effects, timeframes: seq<string>, i: nat, symbols: seq<string>,
                      now: Moment, localNow: Moment, today: Date)
    requires i < |timeframes|
    ensures ManualRun(source, e, timeframes[i..], symbols, now, localNow, today) ==
      ManualRun(source, HandlerRun(source, e, timeframes[i], symbols, now, localNow, today), timeframes[i + 1..],
                symbols, now, localNow, today)
  {
    assert timeframes[i..][1..] == timeframes[i + 1..];
  }

  /** Every timeframe of `timeframes` succeeds when run by hand. */
  predicate AllManualSucceed(source: DataSource, timeframes: seq<string>, symbols: seq<string>, now: Moment) {
    forall tf :: tf in timeframes ==> ManualSucceeds(source, tf, symbols, now)
  }

  /** `manual_update`'s success counter stays equal to the number of turns exactly while
      every turn so far succeeded. */
  lemma ManualCountStep(source: DataSource, timeframes: seq<string>, i: nat, symbols: seq<string>, now: Moment,
                        count: nat, count': nat, success: bool)
    requires i < |timeframes| && count <= i
    requires count == i <==> AllManualSucceed(source, timeframes[..i], symbols, now)
    requires success == ManualSucceeds(source, timeframes[i], symbols, now)
    requires count' == if success then count + 1 else count
    ensures count' <= i + 1
    ensures count' == i + 1 <==> AllManualSucceed(source, timeframes[..i + 1], symbols, now)
  {
    assert timeframes[..i + 1] == timeframes[..i] + [timeframes[i]];
  }

  /** The timeframes `manual_update(timeframe)` visits; the empty name stands for None. */
  function TargetTimeframes(timeframe: string): (tfs: seq<string>)
    ensures timeframe != "" ==> tfs == [timeframe]
    ensures timeframe == "" ==> forall tf :: tf in tfs <==> tf in TimeframeConfigs
  {
    TimeframeOrderIsConfigKeys();
    if timeframe != "" then [timeframe] else TimeframeOrder
  }

  /** What `get_status` reports about one job; the next run time is the engine's and is not
      modelled. */
  datatype JobSummary = JobSummary(id: string, name: string)

  datatype Status = Status(
    isRunning: bool,
    dataSource: string,
    symbolsCount: nat,
    symbolSet: string,
    marketStatus: string,
    lastUpdates: map<string, Moment>,
    scheduledJobs: seq<JobSummary>)

  function Summaries(jobs: seq<Job>): (r: seq<JobSummary>)
    ensures |r| == |jobs|
    ensures forall i :: 0 <= i < |jobs| ==> r[i] == JobSummary(jobs[i].id, jobs[i].name)
  {
    if |jobs| == 0 then [] else [JobSummary(jobs[0].id, jobs[0].name)] + Summaries(jobs[1..])
  }

  // --------------------------------------------------------- the scheduler

  class DataScheduler {
    const dataSource: DataSource
    const storage: FileStorageManager
    var symbolSet: string
    var symbols: seq<string>
    var lastUpdates: map<string, Moment>
    var isRunning: bool
    /** The jobs registered with the background engine. */
    var jobs: seq<Job>

    /** `__init__(data_source, storage_manager, symbol_set)`. */
    constructor(dataSource: DataSource, storage: FileStorageManager, symbolSet: string)
      ensures this.dataSource == dataSource && this.storage == storage
      ensures this.symbolSet == symbolSet && symbols == GetSymbols(symbolSet)
      ensures lastUpdates == map[] && !isRunning && jobs == []
    {
      this.dataSource := dataSource;
      this.storage := storage;
      this.symbolSet := symbolSet;
      symbols := GetSymbols(symbolSet);
      lastUpdates := map[];
      isRunning := false;
      jobs := [];
    }

    ghost function World(): Effects
      reads this, storage, dataSource
    {
      Effects(storage.files, lastUpdates, dataSource.requests)
    }

    /** `_setup_scheduled_jobs`: the loop over the configured timeframes. */
    method SetupScheduledJobs()
      modifies this
      ensures jobs == JobTable(ScheduleTable)
      ensures symbols == old(symbols) && symbolSet == old(symbolSet)
      ensures lastUpdates == old(lastUpdates) && isRunning == old(isRunning)
    {
      var registered: seq<Job> := [];
      var i := 0;
      while i < |TimeframeOrder|
        invariant 0 <= i <= |TimeframeOrder|
        invariant registered + UpdateJobs(ScheduleTable, TimeframeOrder[i..]) == UpdateJobs(ScheduleTable, TimeframeOrder)
        invariant unchanged(this)
      {
        var timeframe := TimeframeOrder[i];
        UpdateJobsStep(ScheduleTable, TimeframeOrder, i);
        if timeframe in ScheduleTable && ScheduleTable[timeframe].enabled {
          var trigger := TimeframeTrigger(timeframe);
          if trigger.Some? {
            registered := registered + [UpdateJob(timeframe, trigger.value)];
          }
        }
        i := i + 1;
      }
      jobs := registered + [CleanupJobEntry];
    }

    /** `_update_timeframe(timeframe)`. */
    method UpdateTimeframe(timeframe: string, now: Moment, localNow: Moment, today: Date)
      modifies this, dataSource, storage
      ensures World() == TimeframeRun(dataSource, old(World()), timeframe, symbols, now, localNow, today)
      ensures symbols == old(symbols) && symbolSet == old(symbolSet)
      ensures isRunning == old(isRunning) && jobs == old(jobs)
    {
      var handler := GetHandlerForTimeframe(timeframe, dataSource, storage);
      if timeframe in TimeframeConfigs && TimeframeConfigs[timeframe].activeDuringMarketHoursOnly {
        if !IsMarketOpen(now) {
          return;
        }
      }
      var success := handler.UpdateData(timeframe, symbols, now, today);
      if success {
        lastUpdates := lastUpdates[timeframe := localNow];
      }
    }

    /** One turn of `_run_initial_update`'s loop: `timeframe` is updated when it has no
        stored rows; the timeframes still to be checked keep their rows. */
    method InitialUpdateStep(timeframe: string, rest: seq<string>, now: Moment, localNow: Moment, today: Date)
      returns (launch: bool)
      requires timeframe in TimeframeConfigs
      requires forall tf :: tf in rest ==> tf in TimeframeConfigs && tf != timeframe
      modifies this, dataSource, storage
      ensures launch == NoData(old(storage.files), timeframe)
      ensures World() == if launch then TimeframeRun(dataSource, old(World()), timeframe, symbols, now, localNow, today) else old(World())
      ensures forall tf :: tf in rest ==> (NoData(storage.files, tf) <==> NoData(old(storage.files), tf))
      ensures symbols == old(symbols) && symbolSet == old(symbolSet)
      ensures isRunning == old(isRunning) && jobs == old(jobs)
    {
      ghost var before := World();
      var existingData := storage.LoadData(timeframe, []);
      launch := existingData == [];
      if launch {
        UpdateTimeframe(timeframe, now, localNow, today);
        forall tf | tf in rest
          ensures NoData(storage.files, tf) <==> NoData(before.files, tf)
        {
          OtherTimeframeUntouched(dataSource, before, timeframe, tf, symbols, now, localNow, today);
        }
      }
    }

    /** The loop invariant of `_run_initial_update` after `i` timeframes. */
    ghost predicate InitialProgress(i: nat, launched: seq<string>, start: Effects, now: Moment, localNow: Moment, today: Date)
      reads this, storage, dataSource
      requires i <= |TimeframeOrder|
    {
      InitialRun(dataSource, World(), TimeframeOrder[i..], symbols, now, localNow, today) ==
        InitialRun(dataSource, start, TimeframeOrder, symbols, now, localNow, today) &&
      launched + EmptyTimeframes(storage.files, TimeframeOrder[i..]) == EmptyTimeframes(start.files, TimeframeOrder)
    }

    /** One turn of `_run_initial_update`'s loop, for the `i`-th timeframe. */
    method InitialTurn(i: nat, launched: seq<string>, ghost start: Effects, now: Moment, localNow: Moment, today: Date)
      returns (launched': seq<string>)
      requires i < |TimeframeOrder|
      requires InitialProgress(i, launched, start, now, localNow, today)
      modifies this, dataSource, storage
      ensures InitialProgress(i + 1, launched', start, now, localNow, today)
      ensures symbols == old(symbols) && symbolSet == old(symbolSet)
      ensures isRunning == old(isRunning) && jobs == old(jobs)
    {
      TimeframeOrderIsConfigKeys();
      var timeframe := TimeframeOrder[i];
      var rest := TimeframeOrder[i + 1..];
      assert TimeframeOrder[i..] == [timeframe] + rest;
      ghost var before := storage.files;
      ghost var w := World();
      var launch := InitialUpdateStep(timeframe, rest, now, localNow, today);
      InitialRunStep(dataSource, w, World(), timeframe, rest, symbols, now, localNow, today);
      LaunchedStep(launched, before, storage.files, timeframe, rest, EmptyTimeframes(start.files, TimeframeOrder));
      launched' := if launch then launched + [timeframe] else launched;
    }

    /** `_run_initial_update`: the timeframes launched are returned. */
    method RunInitialUpdate(now: Moment, localNow: Moment, today: Date) returns (launched: seq<string>)
      modifies this, dataSource, storage
      ensures World() == InitialRun(dataSource, old(World()), TimeframeOrder, symbols, now, localNow, today)
      ensures launched == EmptyTimeframes(old(storage.files), TimeframeOrder)
      ensures symbols == old(symbols) && symbolSet == old(symbolSet)
      ensures isRunning == old(isRunning) && jobs == old(jobs)
    {
      ghost var start := World();
      launched := [];
      var i := 0;
      while i < |TimeframeOrder|
        invariant 0 <= i <= |TimeframeOrder|
        invariant symbols == old(symbols) && symbolSet == old(symbolSet)
        invariant isRunning == old(isRunning) && jobs == old(jobs)
        invariant InitialProgress(i, launched, start, now, localNow, today)
      {
        launched := InitialTurn(i, launched, start, now, localNow, today);
        i := i + 1;
      }
      assert TimeframeOrder[|TimeframeOrder|..] == [];
    }

    /** `start()`: None when already running, False when the source is unavailable,
        otherwise the jobs are registered, the flag set, the catch-up run made, and True. */
    method Start(now: Moment, localNow: Moment, today: Date) returns (started: Option<bool>)
      modifies this, dataSource, storage
      ensures old(isRunning) ==> started == None && World() == old(World()) && isRunning && jobs == old(jobs)
      ensures !old(isRunning) && !dataSource.IsAvailable() ==>
        started == Some(false) && World() == old(World()) && !isRunning && jobs == old(jobs)
      ensures !old(isRunning) && dataSource.IsAvailable() ==>
        started == Some(true) && isRunning && jobs == JobTable(ScheduleTable) &&
        World() == InitialRun(dataSource, old(World()), TimeframeOrder, symbols, now, localNow, today)
      ensures symbols == old(symbols) && symbolSet == old(symbolSet)
    {
      if isRunning {
        return None;
      }
      if !dataSource.IsAvailable() {
        return Some(false);
      }
      SetupScheduledJobs();
      isRunning := true;
      var _ := RunInitialUpdate(now, localNow, today);
      return Some(true);
    }

    /** `stop()`: clears the flag; the registered jobs stay in the table. */
    method Stop()
      modifies this
      ensures !isRunning
      ensures jobs == old(jobs) && lastUpdates == old(lastUpdates)
      ensures symbols == old(symbols) && symbolSet == old(symbolSet)
    {
      if !isRunning {
        return;
      }
      isRunning := false;
    }

    /** `_cleanup_old_files()`: the cleanup job, keeping 30 days; `listing` is the data
        directory's listing and `localNow` the local time. */
    method CleanupOldFilesJob(listing: seq<string>, localNow: Moment)
      modifies storage
      requires forall i, j :: 0 <= i < j < |listing| ==> listing[i] != listing[j]
      requires forall n :: n in listing <==> n in storage.files
      ensures CleanupCutoff(localNow, DefaultDaysToKeep).None? ==> storage.files == old(storage.files)
      ensures CleanupCutoff(localNow, DefaultDaysToKeep).Some? ==> forall n :: n in storage.files <==>
        n in old(storage.files) && !ShouldDelete(n, CleanupCutoff(localNow, DefaultDaysToKeep).value)
      ensures forall n :: n in storage.files ==> storage.files[n] == old(storage.files)[n]
    {
      storage.CleanupOldFiles(listing, localNow, DefaultDaysToKeep);
    }

    /** One turn of `manual_update`'s loop: the handler for `timeframe` runs and, when it
        succeeded, `last_updates[timeframe]` becomes `localNow`. */
    method ManualTurn(timeframe: string, updateSymbols: seq<string>, now: Moment, localNow: Moment, today: Date)
      returns (success: bool)
      modifies this, dataSource, storage
      ensures success == ManualSucceeds(dataSource, timeframe, updateSymbols, now)
      ensures World() == HandlerRun(dataSource, old(World()), timeframe, updateSymbols, now, localNow, today)
      ensures symbols == old(symbols) && symbolSet == old(symbolSet)
      ensures isRunning == old(isRunning) && jobs == old(jobs)
    {
      var handler := GetHandlerForTimeframe(timeframe, dataSource, storage);
      success := handler.UpdateData(timeframe, updateSymbols, now, today);
      if success {
        lastUpdates := lastUpdates[timeframe := localNow];
      }
    }

    /** `manual_update(timeframe, symbols)`: the empty timeframe name and the empty symbol
        list stand for None. True iff every visited timeframe's handler succeeded. */
    method ManualUpdate(timeframe: string, symbolList: seq<string>, now: Moment, localNow: Moment, today: Date)
      returns (ok: bool)
      modifies this, dataSource, storage
      ensures ok <==> forall tf :: tf in TargetTimeframes(timeframe) ==>
        ManualSucceeds(dataSource, tf, if symbolList != [] then symbolList else old(symbols), now)
      ensures World() == ManualRun(dataSource, old(World()), TargetTimeframes(timeframe),
        if symbolList != [] then symbolList else old(symbols), now, localNow, today)
      ensures symbols == old(symbols) && symbolSet == old(symbolSet)
      ensures isRunning == old(isRunning) && jobs == old(jobs)
    {
      var updateSymbols := if symbolList != [] then symbolList else symbols;
      var timeframesToUpdate := TargetTimeframes(timeframe);
      var successCount := 0;
      var i := 0;
      while i < |timeframesToUpdate|
        invariant 0 <= i <= |timeframesToUpdate|
        invariant symbols == old(symbols) && symbolSet == old(symbolSet)
        invariant isRunning == old(isRunning) && jobs == old(jobs)
        invariant 0 <= successCount <= i
        invariant successCount == i <==> AllManualSucceed(dataSource, timeframesToUpdate[..i], updateSymbols, now)
        invariant ManualRun(dataSource, World(), timeframesToUpdate[i..], updateSymbols, now, localNow, today) ==
          ManualRun(dataSource, old(World()), timeframesToUpdate, updateSymbols, now, localNow, today)
      {
        var tf := timeframesToUpdate[i];
        ghost var w := World();
        var success := ManualTurn(tf, updateSymbols, now, localNow, today);
        ManualRunStep(dataSource, w, timeframesToUpdate, i, updateSymbols, now, localNow, today);
        ghost var count := successCount;
        if success {
          successCount := successCount + 1;
        }
        ManualCountStep(dataSource, timeframesToUpdate, i, updateSymbols, now, count, successCount, success);
        i := i + 1;
      }
      ok := successCount == |timeframesToUpdate|;
      assert timeframesToUpdate[..|timeframesToUpdate|] == timeframesToUpdate;
    }

    /** `get_status()` at IST time `now`, without the data summary. */
    function GetStatus(now: Moment): (s: Status)
      reads this
      ensures s.lastUpdates == lastUpdates && s.isRunning == isRunning
      ensures multiset(s.scheduledJobs) == if isRunning then multiset(Summaries(jobs)) else multiset{}
      ensures s.symbolsCount == |symbols| && s.symbolSet == symbolSet
      ensures s.marketStatus == GetMarketStatus(now) && s.dataSource == dataSource.SourceName()
    {
      Status(isRunning, dataSource.SourceName(), |symbols|, symbolSet, GetMarketStatus(now), lastUpdates,
             if isRunning then Summaries(jobs) else [])
    }

    /** `update_symbol_set(symbol_set)`. */
    method UpdateSymbolSet(symbolSet: string)
      modifies this
      ensures symbols == GetSymbols(symbolSet) && this.symbolSet == symbolSet
      ensures lastUpdates == old(lastUpdates) && isRunning == old(isRunning) && jobs == old(jobs)
    {
      var newSymbols := GetSymbols(symbolSet);
      symbols := newSymbols;
      this.symbolSet := symbolSet;
    }
  }
}
