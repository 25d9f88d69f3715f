/** The CSV store of storage/file_storage.py over an abstract directory: a map from file
    name to the rows the file holds. Writing a file replaces its rows; reading gives them
    back unchanged. */
module FileStorage {
  import opened Wrappers
  import opened Calendar
  import opened Text
  import opened Settings
  import opened Records

  /** `get_filename(timeframe, date_suffix=False)`, without the directory. */
  function MainFileName(timeframe: string): string {
    CsvFilePrefix + "_" + timeframe + ".csv"
  }

  /** `get_filename(timeframe, date_suffix=True)` on local day `today`. */
  function BackupFileName(timeframe: string, today: Date): string {
    CsvFilePrefix + "_" + timeframe + "_" + CompactDate(today) + ".csv"
  }

  /** `get_filename`; the local date of the call is a parameter. */
  function GetFilename(timeframe: string, dateSuffix: bool, today: Date): (name: string)
    ensures StartsWith(name, CsvFilePrefix + "_" + timeframe)
    ensures dateSuffix ==> name == BackupFileName(timeframe, today)
    ensures !dateSuffix ==> name == MainFileName(timeframe)
  {
    if dateSuffix then BackupFileName(timeframe, today) else MainFileName(timeframe)
  }

  /** Main files of different timeframes differ, and a backup is never a main file. */
  lemma FileNamesDistinct(tf1: string, tf2: string, today: Date)
    ensures MainFileName(tf1) == MainFileName(tf2) <==> tf1 == tf2
    ensures '_' !in tf1 ==> MainFileName(tf1) != BackupFileName(tf2, today)
  {
    var p := CsvFilePrefix + "_";
    if MainFileName(tf1) == MainFileName(tf2) {
      assert tf1 == MainFileName(tf1)[|p|..|MainFileName(tf1)| - 4];
      assert tf2 == MainFileName(tf2)[|p|..|MainFileName(tf2)| - 4];
    }
    if '_' !in tf1 && MainFileName(tf1) == BackupFileName(tf2, today) {
      var m := MainFileName(tf1);
      assert m == CsvFilePrefix + ['_'] + (tf1 + ".csv");
      assert BackupFileName(tf2, today) == (CsvFilePrefix + "_" + tf2) + ['_'] + (CompactDate(today) + ".csv");
      assert '_' !in CompactDate(today) + ".csv" by {
        assert forall i :: 0 <= i < 8 ==> IsDigit(CompactDate(today)[i]);
      }
      LastPartAfterSep(CsvFilePrefix, '_', tf1 + ".csv");
      LastPartAfterSep(CsvFilePrefix + "_" + tf2, '_', CompactDate(today) + ".csv");
    }
  }

  // ---------------------------------------------------------------- saving

  /** The rows `save_data` writes: with `append` and an existing non-empty main file, the
      stored rows followed by the new ones with duplicates removed; otherwise the new rows
      alone. Either way sorted by Symbol, then Datetime. */
  function RowsToWrite(files: map<string, seq<Record>>, timeframe: string, data: seq<Record>, append: bool): seq<Record> {
    var main := MainFileName(timeframe);
    var merged :=
      if append && main in files && |files[main]| > 0 then RemoveDuplicates(files[main] + data)
      else data;
    SortRows(merged)
  }

  /** Whether `save_data` merges with the stored rows. */
  predicate Merges(files: map<string, seq<Record>>, timeframe: string, append: bool) {
    append && MainFileName(timeframe) in files && |files[MainFileName(timeframe)]| > 0
  }

  /** Whatever the mode, the written rows are sorted by Symbol, then Datetime. */
  lemma WrittenRowsSorted(files: map<string, seq<Record>>, timeframe: string, data: seq<Record>, append: bool)
    ensures Sorted(RowsToWrite(files, timeframe, data, append))
  {
  }

  /** Without a merge the written rows are exactly the new rows, reordered: earlier
      contents are discarded and duplicates inside the new rows are kept. */
  lemma OverwriteKeepsExactlyNewRows(files: map<string, seq<Record>>, timeframe: string, data: seq<Record>, append: bool)
    requires !Merges(files, timeframe, append)
    ensures multiset(RowsToWrite(files, timeframe, data, append)) == multiset(data)
  {
  }

  /** A merge keeps one row per key, for every key of the stored or the new rows; where
      the new rows carry a key, the last new row with it wins; other keys keep the last
      stored row. */
  lemma MergeResult(files: map<string, seq<Record>>, timeframe: string, data: seq<Record>, append: bool)
    requires Merges(files, timeframe, append)
    ensures UniqueKeys(RowsToWrite(files, timeframe, data, append))
    ensures Keys(RowsToWrite(files, timeframe, data, append)) == Keys(files[MainFileName(timeframe)]) + Keys(data)
    ensures forall k :: k in Keys(data) ==>
      LastOfKey(data, k) in RowsToWrite(files, timeframe, data, append)
      && forall r :: r in RowsToWrite(files, timeframe, data, append) && KeyOf(r) == k ==> r == LastOfKey(data, k)
    ensures forall k :: k in Keys(files[MainFileName(timeframe)]) && k !in Keys(data) ==>
      LastOfKey(files[MainFileName(timeframe)], k) in RowsToWrite(files, timeframe, data, append)
  {
    var existing := files[MainFileName(timeframe)];
    var combined := existing + data;
    var d := RemoveDuplicates(combined);
    var w := RowsToWrite(files, timeframe, data, append);
    assert w == SortRows(d);
    DedupUnique(combined);
    SortKeepsUnique(d);
    SameRowsSameKeys(w, d);
    DedupKeys(combined);
    assert Keys(combined) == Keys(existing) + Keys(data) by {
      assert forall r :: r in combined <==> r in existing || r in data;
    }
    forall k | k in Keys(data)
      ensures LastOfKey(data, k) in w
      ensures forall r :: r in w && KeyOf(r) == k ==> r == LastOfKey(data, k)
    {
      NewRowsWin(existing, data, k);
      DedupRowForKey(combined, k);
    }
    forall k | k in Keys(existing) && k !in Keys(data)
      ensures LastOfKey(existing, k) in w
    {
      StoredRowWins(existing, data, k);
      DedupRowForKey(combined, k);
    }
  }

  /** A key the new rows lack keeps its last stored row. */
  lemma StoredRowWins(existing: seq<Record>, incoming: seq<Record>, k: Key)
    requires k in Keys(existing) && k !in Keys(incoming)
    ensures k in Keys(existing + incoming)
    ensures LastOfKey(existing + incoming, k) == LastOfKey(existing, k)
  {
    var s := existing + incoming;
    var j := LastIndexOfKey(existing, k);
    assert s[j] == existing[j];
    assert existing[j] in s;
    var i := LastIndexOfKey(s, k);
  }

  // ---------------------------------------------------------------- cleanup

  const DefaultDaysToKeep := 30

  /** `datetime.now() - timedelta(days=days_to_keep)`, as a `Stamp`, when it is a datetime
      Python can represent. */
  function CleanupCutoff(now: Moment, daysToKeep: int): Option<int> {
    var c := Stamp(now) - daysToKeep * SecondsPerDay;
    if SecondsPerDay <= c < (MaxOrdinal + 1) * SecondsPerDay then Some(c) else None
  }

  /** The date a dated backup's name carries: the last `_`-separated part with every
      `.csv` removed, read as `%Y%m%d`; `None` where the loop skips the file. */
  function FileDate(filename: string): Option<Date> {
    if !(StartsWith(filename, CsvFilePrefix) && '_' in filename) then None
    else
      var parts := Split(filename, '_');
      if |parts| < 3 then None
      else ParseCompactDate(RemoveAll(parts[|parts| - 1], ".csv"))
  }

  /** `cleanup_old_files` removes `filename` when its date, at midnight, is before the
      cutoff. */
  predicate ShouldDelete(filename: string, cutoff: int) {
    match FileDate(filename)
    case None => false
    case Some(d) => Ordinal(d) * SecondsPerDay < cutoff
  }

  /** Main files of the configured timeframes never carry a date, so they always survive. */
  lemma MainFileNeverDeleted(timeframe: string, cutoff: int)
    requires '_' !in timeframe && '.' !in timeframe && |timeframe| < 6
    ensures FileDate(MainFileName(timeframe)) == None
    ensures !ShouldDelete(MainFileName(timeframe), cutoff)
  {
    var name := MainFileName(timeframe);
    assert name == CsvFilePrefix + ['_'] + (timeframe + ".csv");
    assert '_' !in timeframe + ".csv";
    LastPartAfterSep(CsvFilePrefix, '_', timeframe + ".csv");
    RemoveAllSuffix(timeframe, ".csv");
    ParseCompactDateShort(timeframe);
  }

  lemma ConfiguredMainFilesKept(cutoff: int)
    ensures forall tf :: tf in TimeframeOrder ==> !ShouldDelete(MainFileName(tf), cutoff)
  {
    MainFileNeverDeleted("15m", cutoff);
    MainFileNeverDeleted("1h", cutoff);
    MainFileNeverDeleted("1d", cutoff);
    MainFileNeverDeleted("1wk", cutoff);
  }

  /** A dated backup carries exactly the day it was written on, and is removed iff that day
      at midnight is before the cutoff. */
  lemma BackupDeletedIffOld(timeframe: string, day: Date, cutoff: int)
    requires '_' !in timeframe
    ensures FileDate(BackupFileName(timeframe, day)) == Some(day)
    ensures ShouldDelete(BackupFileName(timeframe, day), cutoff) <==> Ordinal(day) * SecondsPerDay < cutoff
  {
    var c := CompactDate(day);
    BackupNameShape(timeframe, day);
    assert '.' !in c by {
      assert forall i :: 0 <= i < |c| ==> IsDigit(c[i]);
    }
    RemoveAllSuffix(c, ".csv");
    ParseCompactDateRoundTrip(day);
  }

  /** A backup name passes the cleanup loop's filters, and its last `_`-part is its
      date followed by `.csv`. */
  lemma BackupNameShape(timeframe: string, day: Date)
    requires '_' !in timeframe
    ensures StartsWith(BackupFileName(timeframe, day), CsvFilePrefix)
    ensures '_' in BackupFileName(timeframe, day)
    ensures |Split(BackupFileName(timeframe, day), '_')| >= 3
    ensures LastPart(BackupFileName(timeframe, day), '_') == CompactDate(day) + ".csv"
  {
    var name := BackupFileName(timeframe, day);
    var c := CompactDate(day);
    assert '_' !in c + ".csv" by {
      assert forall i :: 0 <= i < |c| ==> IsDigit(c[i]);
    }
    var z := timeframe + "_" + c + ".csv";
    assert name == "market" + ['_'] + ("data" + ['_'] + z);
    assert name[..|CsvFilePrefix|] == CsvFilePrefix;
    assert name[6] == '_';
    OccurrencesAround("market", '_', "data" + ['_'] + z);
    OccurrencesAround("data", '_', z);
    assert name == (CsvFilePrefix + "_" + timeframe) + ['_'] + (c + ".csv");
    LastPartAfterSep(CsvFilePrefix + "_" + timeframe, '_', c + ".csv");
  }

  /** With a valid cutoff, a backup written on `day` is removed iff `day` is more than
      `daysToKeep` days before today, or exactly that many while today is past midnight. */
  lemma BackupRetention(timeframe: string, day: Date, now: Moment, daysToKeep: int)
    requires '_' !in timeframe
    requires CleanupCutoff(now, daysToKeep).Some?
    ensures ShouldDelete(BackupFileName(timeframe, day), CleanupCutoff(now, daysToKeep).value) <==>
      Ordinal(day) < Ordinal(now.date) - daysToKeep
      || (Ordinal(day) == Ordinal(now.date) - daysToKeep && now.secs > 0)
  {
    BackupDeletedIffOld(timeframe, day, CleanupCutoff(now, daysToKeep).value);
    var o := Ordinal(day) - Ordinal(now.date) + daysToKeep;
    assert Ordinal(day) * SecondsPerDay - (Stamp(now) - daysToKeep * SecondsPerDay) == o * SecondsPerDay - now.secs;
  }

  /** One turn of the cleanup loop: the file it looks at goes exactly when it is due. */
  lemma CleanupStep(start: map<string, seq<Record>>, before: map<string, seq<Record>>,
                    after: map<string, seq<Record>>, listing: seq<string>, i: int, cutoff: int)
    requires 0 <= i < |listing|
    requires forall j, k :: 0 <= j < k < |listing| ==> listing[j] != listing[k]
    requires forall n :: n in before <==> n in start && !(n in listing[..i] && ShouldDelete(n, cutoff))
    requires after == if ShouldDelete(listing[i], cutoff) then before - {listing[i]} else before
    ensures forall n :: n in after <==> n in start && !(n in listing[..i + 1] && ShouldDelete(n, cutoff))
  {
    assert listing[..i + 1] == listing[..i] + [listing[i]];
  }

  // ---------------------------------------------------------------- the store

  /** The rows `get_latest_data_time` considers: all of the timeframe's rows, or, for a
      non-empty symbol, those whose Symbol is that symbol with every `.NS` removed. */
  predicate MatchesSymbol(x: Record, symbol: string) {
    symbol == "" || x.symbol == RemoveAll(symbol, ".NS")
  }

  class FileStorageManager {
    /** The data directory: file name to the rows it holds. */
    var files: map<string, seq<Record>>

    /** `__init__`: the manager works on the directory's current contents. */
    constructor(contents: map<string, seq<Record>>)
      ensures files == contents
    {
      files := contents;
    }

    /** `load_data(timeframe, symbol_filter)`; an empty filter list applies no filter. */
    function LoadData(timeframe: string, symbolFilter: seq<string>): (r: seq<Record>)
      reads this
      ensures MainFileName(timeframe) !in files ==> r == []
      ensures MainFileName(timeframe) in files && |symbolFilter| == 0 ==> r == files[MainFileName(timeframe)]
      ensures MainFileName(timeframe) in files ==> IsSubsequence(r, files[MainFileName(timeframe)])
      ensures |symbolFilter| > 0 ==> forall x :: x in r <==>
        MainFileName(timeframe) in files && x in files[MainFileName(timeframe)] && x.symbol in symbolFilter
      ensures MainFileName(timeframe) in files ==>
        forall x :: multiset(r)[x] == if |symbolFilter| == 0 || x.symbol in symbolFilter then multiset(files[MainFileName(timeframe)])[x] else 0
    {
      var filename := MainFileName(timeframe);
      if filename !in files then []
      else if |symbolFilter| > 0 then FilterSymbols(files[filename], symbolFilter)
      else
        SubsequenceReflexive(files[filename]);
        files[filename]
    }

    /** `get_latest_data_time(timeframe, symbol)`; the empty string stands for no symbol. */
    function GetLatestDataTime(timeframe: string, symbol: string): (r: Option<Moment>)
      reads this
      ensures r.None? <==> forall x :: x in LoadData(timeframe, []) ==> !MatchesSymbol(x, symbol)
      ensures r.Some? ==> exists x :: x in LoadData(timeframe, []) && MatchesSymbol(x, symbol) && x.datetime == r.value
      ensures r.Some? ==> forall x :: x in LoadData(timeframe, []) && MatchesSymbol(x, symbol) ==>
        Stamp(x.datetime) <= Stamp(r.value)
    {
      var data := LoadData(timeframe, []);
      if |data| == 0 then None
      else if symbol != "" then
        var symbolData := RowsOfSymbol(data, RemoveAll(symbol, ".NS"));
        if |symbolData| == 0 then None
        else
          var r := LatestTime(symbolData);
          assert forall i :: 0 <= i < |symbolData| ==> symbolData[i] in symbolData;
          r
      else
        var r := LatestTime(data);
        assert forall i :: 0 <= i < |data| ==> data[i] in data;
        r
    }

    /** `save_data(data, timeframe, append)`; `today` is the local date that names the
        backup. Empty data writes nothing and fails; otherwise the main file and the dated
        backup both receive `RowsToWrite`. */
    method SaveData(data: seq<Record>, timeframe: string, append: bool, today: Date) returns (ok: bool)
      modifies this
      ensures ok <==> |data| > 0
      ensures !ok ==> files == old(files)
      ensures ok ==> files == old(files)
        [MainFileName(timeframe) := RowsToWrite(old(files), timeframe, data, append)]
        [BackupFileName(timeframe, today) := RowsToWrite(old(files), timeframe, data, append)]
    {
      if |data| == 0 {
        return false;
      }
      var filename := MainFileName(timeframe);
      var rows := data;
      if append && filename in files {
        var existing := LoadData(timeframe, []);
        if |existing| > 0 {
          var combined := existing + rows;
          combined := RemoveDuplicates(combined);
          rows := combined;
        }
      }
      rows := SortRows(rows);
      files := files[filename := rows];
      var backupFilename := BackupFileName(timeframe, today);
      files := files[backupFilename := rows];
      return true;
    }

    /** `cleanup_old_files(days_to_keep)` over the directory `listing`. A cutoff Python cannot
        represent raises before the loop and nothing is removed. */
    method CleanupOldFiles(listing: seq<string>, now: Moment, daysToKeep: int)
      modifies this
      requires forall i, j :: 0 <= i < j < |listing| ==> listing[i] != listing[j]
      requires forall n :: n in listing <==> n in files
      ensures CleanupCutoff(now, daysToKeep).None? ==> files == old(files)
      ensures CleanupCutoff(now, daysToKeep).Some? ==>
        forall n :: n in files <==> n in old(files) && !ShouldDelete(n, CleanupCutoff(now, daysToKeep).value)
      ensures forall n :: n in files ==> n in old(files) && files[n] == old(files)[n]
    {
      var cutoff := CleanupCutoff(now, daysToKeep);
      if cutoff.None? {
        return;
      }
      var i := 0;
      while i < |listing|
        invariant 0 <= i <= |listing|
        invariant forall n :: n in files <==> n in old(files) && !(n in listing[..i] && ShouldDelete(n, cutoff.value))
        invariant forall n :: n in files ==> files[n] == old(files)[n]
      {
        var filename := listing[i];
        var fileDate := FileDate(filename);
        ghost var before := files;
        if fileDate.Some? && Ordinal(fileDate.value) * SecondsPerDay < cutoff.value {
          files := files - {filename};
        }
        CleanupStep(old(files), before, files, listing, i, cutoff.value);
        i := i + 1;
      }
      assert listing[..|listing|] == listing;
    }
  }
}
