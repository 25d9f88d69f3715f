/** The data-source layer: the shared rules of data_sources/base.py (symbol validation,
    column standardisation, the supported interval and period lists) and a market-data
    source whose network side is a provider function. */
module DataSources {
  import opened Wrappers
  import opened Calendar
  import opened Text
  import opened Settings
  import opened Records

  // ------------------------------------------------------------ base rules

  /** `validate_symbol`: the Python expression is truthy exactly for a non-empty string. */
  function ValidateSymbol(symbol: string): (ok: bool)
    ensures ok <==> symbol != ""
  {
    |symbol| > 0
  }

  const SupportedIntervals: seq<string> := ["1m", "5m", "15m", "30m", "1h", "1d", "1wk", "1mo"]

  const SupportedPeriods: seq<string> := ["1d", "5d", "1mo", "3mo", "6mo", "1y", "2y", "5y", "10y", "ytd", "max"]

  /** Every configured timeframe asks for an interval and a period the default lists support. */
  lemma ConfiguredTimeframesSupported(tf: string)
    requires tf in TimeframeConfigs
    ensures TimeframeConfigs[tf].interval in SupportedIntervals
    ensures TimeframeConfigs[tf].period in SupportedPeriods
  {
  }

  // ------------------------------------------------------ column selection

  /** A named column of a frame; the cells are kept as text. */
  datatype Column = Column(name: string, cells: seq<string>)

  const RequiredColumns: seq<string> := ["Datetime", "Symbol", "Open", "High", "Low", "Close", "Volume"]

  function Names(cols: seq<Column>): (names: seq<string>)
    ensures |names| == |cols|
    ensures forall i :: 0 <= i < |cols| ==> names[i] == cols[i].name
  {
    if |cols| == 0 then [] else [cols[0].name] + Names(cols[1..])
  }

  /** The first column of that name. */
  function ColumnNamed(cols: seq<Column>, name: string): (c: Column)
    requires name in Names(cols)
    ensures c in cols && c.name == name
  {
    if cols[0].name == name then cols[0] else ColumnNamed(cols[1..], name)
  }

  /** `n` cells all holding `value`. */
  function Repeat(value: string, n: nat): (cells: seq<string>)
    ensures |cells| == n
    ensures forall i :: 0 <= i < n ==> cells[i] == value
  {
    if n == 0 then [] else Repeat(value, n - 1) + [value]
  }

  /** The frame after the Symbol step: unchanged when a Symbol column exists, otherwise
      with a Symbol column appended holding the symbol with every `.NS` removed. */
  function WithSymbol(cols: seq<Column>, symbol: string, height: nat): seq<Column> {
    if "Symbol" in Names(cols) then cols
    else cols + [Column("Symbol", Repeat(RemoveAll(symbol, ".NS"), height))]
  }

  /** The frame after the Datetime step: every Datetime column converted cell by cell with
      `parse`, in its place. */
  function WithDatetime(cols: seq<Column>, parse: string -> string): (r: seq<Column>)
    ensures Names(r) == Names(cols)
    ensures forall i :: 0 <= i < |cols| && cols[i].name != "Datetime" ==> r[i] == cols[i]
  {
    if |cols| == 0 then []
    else
      var c := cols[0];
      var c' := if c.name == "Datetime" then Column(c.name, ParseAll(c.cells, parse)) else c;
      [c'] + WithDatetime(cols[1..], parse)
  }

  function ParseAll(cells: seq<string>, parse: string -> string): (r: seq<string>)
    ensures |r| == |cells|
    ensures forall i :: 0 <= i < |cells| ==> r[i] == parse(cells[i])
  {
    if |cells| == 0 then [] else [parse(cells[0])] + ParseAll(cells[1..], parse)
  }

  /** `df[[col for col in wanted if col in df.columns]]`. */
  function SelectColumns(wanted: seq<string>, cols: seq<Column>): (r: seq<Column>)
    ensures forall c :: c in r ==> c in cols
    ensures forall i :: 0 <= i < |r| ==> r[i].name in Names(cols) && r[i] == ColumnNamed(cols, r[i].name)
  {
    if |wanted| == 0 then []
    else if wanted[0] in Names(cols) then [ColumnNamed(cols, wanted[0])] + SelectColumns(wanted[1..], cols)
    else SelectColumns(wanted[1..], cols)
  }

  /** The names of `wanted` that `present` holds, in the order of `wanted`. */
  function PresentIn(wanted: seq<string>, present: seq<string>): seq<string> {
    if |wanted| == 0 then []
    else if wanted[0] in present then [wanted[0]] + PresentIn(wanted[1..], present)
    else PresentIn(wanted[1..], present)
  }

  lemma {:induction false} SelectNames(wanted: seq<string>, cols: seq<Column>)
    ensures Names(SelectColumns(wanted, cols)) == PresentIn(wanted, Names(cols))
  {
    if |wanted| > 0 {
      SelectNames(wanted[1..], cols);
    }
  }

  lemma {:induction false} PresentInMembers(wanted: seq<string>, present: seq<string>, n: string)
    ensures n in PresentIn(wanted, present) <==> n in wanted && n in present
  {
    if |wanted| > 0 {
      PresentInMembers(wanted[1..], present, n);
      assert n in wanted <==> n == wanted[0] || n in wanted[1..];
    }
  }

  /** The columns of `standardize_dataframe`'s result for a non-empty frame. */
  function Standardized(cols: seq<Column>, symbol: string, height: nat, parse: string -> string): seq<Column> {
    SelectColumns(RequiredColumns, WithDatetime(WithSymbol(cols, symbol, height), parse))
  }

  lemma {:induction false} WithSymbolNames(cols: seq<Column>, symbol: string, height: nat)
    ensures forall n :: n in Names(WithSymbol(cols, symbol, height)) <==> n in Names(cols) || n == "Symbol"
  {
    var r := WithSymbol(cols, symbol, height);
    if "Symbol" !in Names(cols) {
      assert Names(r) == Names(cols) + ["Symbol"];
    }
  }

  /** The result holds exactly the required columns the frame has once Symbol is
      ensured, in the canonical order, and no other column. */
  lemma StandardColumns(cols: seq<Column>, symbol: string, height: nat, parse: string -> string)
    ensures Names(Standardized(cols, symbol, height, parse)) ==
      PresentIn(RequiredColumns, Names(WithSymbol(cols, symbol, height)))
    ensures forall n :: n in Names(Standardized(cols, symbol, height, parse)) <==>
      n in RequiredColumns && (n in Names(cols) || n == "Symbol")
  {
    var w := WithSymbol(cols, symbol, height);
    SelectNames(RequiredColumns, WithDatetime(w, parse));
    WithSymbolNames(cols, symbol, height);
    forall n | true
      ensures n in Names(Standardized(cols, symbol, height, parse)) <==>
        n in RequiredColumns && (n in Names(cols) || n == "Symbol")
    {
      PresentInMembers(RequiredColumns, Names(w), n);
    }
  }

  lemma {:induction false} FirstColumnNamed(cols: seq<Column>, name: string, i: nat)
    requires i < |cols| && cols[i].name == name
    requires forall j :: 0 <= j < i ==> cols[j].name != name
    ensures ColumnNamed(cols, name) == cols[i]
  {
    if i > 0 {
      FirstColumnNamed(cols[1..], name, i - 1);
    }
  }

  lemma {:induction false} ColumnAfterDatetime(cols: seq<Column>, parse: string -> string, name: string)
    requires name in Names(cols) && name != "Datetime"
    ensures ColumnNamed(WithDatetime(cols, parse), name) == ColumnNamed(cols, name)
  {
    if cols[0].name != name {
      ColumnAfterDatetime(cols[1..], parse, name);
    }
  }

  lemma {:induction false} ColumnSelected(wanted: seq<string>, cols: seq<Column>, name: string)
    requires name in wanted && name in Names(cols)
    ensures exists c :: c in SelectColumns(wanted, cols) && c == ColumnNamed(cols, name)
  {
    if wanted[0] == name {
      var r := SelectColumns(wanted, cols);
      assert r[0] == ColumnNamed(cols, name) && r[0] in r;
    } else {
      assert name in wanted[1..];
      ColumnSelected(wanted[1..], cols, name);
      var c :| c in SelectColumns(wanted[1..], cols) && c == ColumnNamed(cols, name);
      assert c in SelectColumns(wanted, cols);
    }
  }

  /** An existing Symbol column is carried over as it is; a missing one is added holding
      the symbol with every `.NS` removed, on every row. */
  lemma SymbolColumn(cols: seq<Column>, symbol: string, height: nat, parse: string -> string)
    ensures "Symbol" in Names(cols) ==>
      ColumnNamed(cols, "Symbol") in Standardized(cols, symbol, height, parse)
    ensures "Symbol" !in Names(cols) ==>
      Column("Symbol", Repeat(RemoveAll(symbol, ".NS"), height)) in Standardized(cols, symbol, height, parse)
  {
    var w := WithSymbol(cols, symbol, height);
    WithSymbolNames(cols, symbol, height);
    ColumnAfterDatetime(w, parse, "Symbol");
    ColumnSelected(RequiredColumns, WithDatetime(w, parse), "Symbol");
    if "Symbol" !in Names(cols) {
      FirstColumnNamed(w, "Symbol", |cols|);
    }
  }

  /** A frame held by the caller; `standardize_dataframe` writes its columns in place. */
  class Frame {
    var columns: seq<Column>
    var height: nat

    constructor(columns: seq<Column>, height: nat)
      ensures this.columns == columns && this.height == height
    {
      this.columns := columns;
      this.height := height;
    }

    /** pandas' `empty`: no rows or no columns. */
    predicate Empty()
      reads this
    {
      height == 0 || |columns| == 0
    }
  }

  /** `standardize_dataframe(df, symbol)`; `parse` is the `pd.to_datetime` conversion.
      An empty frame comes back as the same object; otherwise the caller's frame gains the
      Symbol column and the converted Datetime column, and a new frame with the selected
      columns is returned. */
  method StandardizeDataframe(df: Frame, symbol: string, parse: string -> string) returns (r: Frame)
    modifies df
    ensures old(df.Empty()) ==> r == df && df.columns == old(df.columns) && df.height == old(df.height)
    ensures !old(df.Empty()) ==> df.height == old(df.height)
    ensures !old(df.Empty()) ==> df.columns == WithDatetime(WithSymbol(old(df.columns), symbol, old(df.height)), parse)
    ensures !old(df.Empty()) ==> fresh(r) && r.height == df.height
    ensures !old(df.Empty()) ==> r.columns == Standardized(old(df.columns), symbol, old(df.height), parse)
  {
    if df.Empty() {
      return df;
    }
    if "Symbol" !in Names(df.columns) {
      df.columns := df.columns + [Column("Symbol", Repeat(RemoveAll(symbol, ".NS"), df.height))];
    }
    if "Datetime" in Names(df.columns) {
      df.columns := WithDatetime(df.columns, parse);
    } else {
      NoDatetimeUnchanged(df.columns, parse);
    }
    var available := SelectColumns(RequiredColumns, df.columns);
    r := new Frame(available, df.height);
  }

  lemma {:induction false} NoDatetimeUnchanged(cols: seq<Column>, parse: string -> string)
    requires "Datetime" !in Names(cols)
    ensures WithDatetime(cols, parse) == cols
  {
    if |cols| > 0 {
      assert Names(cols[1..]) == Names(cols)[1..];
      NoDatetimeUnchanged(cols[1..], parse);
    }
  }

  // ------------------------------------------------------------ the source

  /** One bar of price history as the provider reports it. */
  datatype Bar = Bar(datetime: Moment, open: real, high: real, low: real, close: real, volume: int)

  /** The market-data service: history for (symbol, period, interval), or None when the
      request fails. */
  type Provider = (string, string, string) -> Option<seq<Bar>>

  datatype SourceKind = YFinance | Fyers

  /** One `get_multiple_stocks_data` request. */
  datatype Request = Request(symbols: seq<string>, period: string, interval: string)

  /** The rows of `bars` tagged with a symbol. */
  function Tagged(bars: seq<Bar>, symbol: string): (rows: seq<Record>)
    ensures |rows| == |bars|
    ensures forall i :: 0 <= i < |bars| ==>
      rows[i] == Record(symbol, bars[i].datetime, bars[i].open, bars[i].high, bars[i].low, bars[i].close, bars[i].volume)
  {
    if |bars| == 0 then []
    else
      var b := bars[0];
      [Record(symbol, b.datetime, b.open, b.high, b.low, b.close, b.volume)] + Tagged(bars[1..], symbol)
  }

  /** The yfinance `get_stock_data`: None for an invalid symbol, a failed request or an
      empty history; otherwise every bar, tagged with the symbol minus `.NS`. */
  function StockData(provider: Provider, symbol: string, period: string, interval: string): (r: Option<seq<Record>>)
    ensures r.None? <==>
      (symbol == "" || provider(symbol, period, interval).None? || |provider(symbol, period, interval).value| == 0)
    ensures r.Some? ==> |r.value| == |provider(symbol, period, interval).value| > 0
    ensures r.Some? ==> forall x :: x in r.value ==> x.symbol == RemoveAll(symbol, ".NS")
    ensures r.Some? ==>
      var bars := provider(symbol, period, interval).value;
      forall i :: 0 <= i < |bars| ==>
        r.value[i] == Record(RemoveAll(symbol, ".NS"), bars[i].datetime, bars[i].open, bars[i].high, bars[i].low,
                             bars[i].close, bars[i].volume)
  {
    if !ValidateSymbol(symbol) then None
    else
      match provider(symbol, period, interval)
      case None => None
      case Some(bars) => if |bars| == 0 then None else Some(Tagged(bars, RemoveAll(symbol, ".NS")))
  }

  /** The rows one symbol adds to the combined frame: its history, or nothing when its
      request came back None. */
  function Piece(provider: Provider, symbol: string, period: string, interval: string): seq<Record> {
    var piece := StockData(provider, symbol, period, interval);
    if piece.Some? then piece.value else []
  }

  /** `Piece` for a fixed provider, period and interval. */
  function PieceOf(provider: Provider, period: string, interval: string): string -> seq<Record> {
    s => Piece(provider, s, period, interval)
  }

  /** The concatenation of `piece(s)` for each `s` of `symbols`, in order. */
  function ConcatMap(piece: string -> seq<Record>, symbols: seq<string>): seq<Record> {
    if |symbols| == 0 then []
    else ConcatMap(piece, symbols[..|symbols| - 1]) + piece(symbols[|symbols| - 1])
  }

  lemma {:induction false} ConcatMapAppend(piece: string -> seq<Record>, a: seq<string>, b: seq<string>)
    ensures ConcatMap(piece, a + b) == ConcatMap(piece, a) + ConcatMap(piece, b)
    decreases |b|
  {
    if |b| == 0 {
      assert a + b == a;
    } else {
      assert (a + b)[..|a + b| - 1] == a + b[..|b| - 1];
      ConcatMapAppend(piece, a, b[..|b| - 1]);
    }
  }

  /** The concatenation, in request order, of the per-symbol results that are not None. */
  function Combined(provider: Provider, symbols: seq<string>, period: string, interval: string): (rows: seq<Record>)
    ensures |symbols| == 0 ==> rows == []
  {
    ConcatMap(PieceOf(provider, period, interval), symbols)
  }

  /** A single symbol's combined frame is its own piece. */
  lemma CombinedSingle(provider: Provider, symbol: string, period: string, interval: string)
    ensures Combined(provider, [symbol], period, interval) == Piece(provider, symbol, period, interval)
  {
    var f := PieceOf(provider, period, interval);
    assert [symbol][..0] == [];
    assert ConcatMap(f, [symbol]) == ConcatMap(f, []) + f(symbol);
  }

  /** `pd.concat` keeps request order: combining `a + b` is combining `a`, then `b`. */
  lemma CombinedAppend(provider: Provider, a: seq<string>, b: seq<string>, period: string, interval: string)
    ensures Combined(provider, a + b, period, interval) ==
      Combined(provider, a, period, interval) + Combined(provider, b, period, interval)
  {
    ConcatMapAppend(PieceOf(provider, period, interval), a, b);
  }

  /** Every row of every symbol whose request succeeded is in the combined frame. */
  lemma CombinedComplete(provider: Provider, symbols: seq<string>, period: string, interval: string, s: string, x: Record)
    requires s in symbols
    requires StockData(provider, s, period, interval).Some? && x in StockData(provider, s, period, interval).value
    ensures x in Combined(provider, symbols, period, interval)
  {
    var k :| 0 <= k < |symbols| && symbols[k] == s;
    assert symbols == symbols[..k] + ([s] + symbols[k + 1..]);
    CombinedAppend(provider, symbols[..k], [s] + symbols[k + 1..], period, interval);
    CombinedAppend(provider, [s], symbols[k + 1..], period, interval);
    CombinedSingle(provider, s, period, interval);
  }

  /** Every combined row carries the name of a requested symbol, `.NS` removed. */
  lemma {:induction false} CombinedSymbols(provider: Provider, symbols: seq<string>, period: string, interval: string, x: Record)
    requires x in Combined(provider, symbols, period, interval)
    ensures exists s :: s in symbols && x.symbol == RemoveAll(s, ".NS")
  {
    var init := symbols[..|symbols| - 1];
    var last := symbols[|symbols| - 1];
    var piece := StockData(provider, last, period, interval);
    if x in Combined(provider, init, period, interval) {
      CombinedSymbols(provider, init, period, interval, x);
      var s :| s in init && x.symbol == RemoveAll(s, ".NS");
      assert s in symbols;
    } else {
      assert x in piece.value;
      assert last in symbols;
    }
  }

  /** The combined frame is empty exactly when every symbol's request came back None. */
  lemma {:induction false} CombinedEmptyIff(provider: Provider, symbols: seq<string>, period: string, interval: string)
    ensures |Combined(provider, symbols, period, interval)| == 0 <==>
      forall s :: s in symbols ==> StockData(provider, s, period, interval).None?
  {
    if |symbols| > 0 {
      var init := symbols[..|symbols| - 1];
      CombinedEmptyIff(provider, init, period, interval);
      assert symbols == init + [symbols[|symbols| - 1]];
    }
  }

  /** A data source: which implementation it is, the provider it calls, and the requests it
      has made so far. */
  class DataSource {
    const kind: SourceKind
    const provider: Provider
    ghost var requests: seq<Request>

    constructor(kind: SourceKind, provider: Provider)
      ensures this.kind == kind && this.provider == provider && requests == []
    {
      this.kind := kind;
      this.provider := provider;
      requests := [];
    }

    /** The `name` attribute each source sets in its constructor. */
    function SourceName(): string {
      if kind == YFinance then "YFinance" else "Fyers"
    }

    /** yfinance asks for one day of RELIANCE.NS and is available when that is non-empty;
        the Fyers placeholder is never available. */
    predicate IsAvailable() {
      kind == YFinance && StockData(provider, "RELIANCE.NS", "1d", "1d").Some?
    }

    /** What `get_multiple_stocks_data` returns: the combined per-symbol results for
        yfinance, and always the empty frame for the Fyers placeholder. */
    function Fetch(symbols: seq<string>, period: string, interval: string): (rows: seq<Record>)
      ensures kind == Fyers ==> rows == []
      ensures |rows| == 0 <==> kind == Fyers || forall s :: s in symbols ==> StockData(provider, s, period, interval).None?
    {
      CombinedEmptyIff(provider, symbols, period, interval);
      if kind == Fyers then [] else Combined(provider, symbols, period, interval)
    }

    /** `get_multiple_stocks_data(symbols, period, interval)`. */
    method GetMultipleStocksData(symbols: seq<string>, period: string, interval: string) returns (data: seq<Record>)
      modifies this
      ensures requests == old(requests) + [Request(symbols, period, interval)]
      ensures data == Fetch(symbols, period, interval)
    {
      requests := requests + [Request(symbols, period, interval)];
      if kind == Fyers {
        return [];
      }
      var allData: seq<Record> := [];
      var i := 0;
      while i < |symbols|
        invariant 0 <= i <= |symbols|
        invariant allData == Combined(provider, symbols[..i], period, interval)
      {
        var piece := StockData(provider, symbols[i], period, interval);
        assert symbols[..i + 1][..i] == symbols[..i];
        if piece.Some? {
          allData := allData + piece.value;
        }
        i := i + 1;
      }
      assert symbols[..|symbols|] == symbols;
      data := allData;
    }
  }
}
