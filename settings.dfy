/** Static configuration: the market session, the per-timeframe fetch settings and the
    symbol universes (config/settings.py and config/symbols.py). */
module Settings {
  import opened Calendar

  const DefaultDataSource := "yfinance"

  const CsvFilePrefix := "market_data"

  /** 9:15 IST */
  const MarketOpenTime: Seconds := TimeOfDay(9, 15)

  /** 15:30 IST */
  const MarketCloseTime: Seconds := TimeOfDay(15, 30)

  /** One entry of TIMEFRAME_CONFIGS. The preferred update day and time of the daily and
      weekly entries are read by nothing and are not carried. */
  datatype TimeframeConfig = TimeframeConfig(
    period: string,
    interval: string,
    updateFrequencyMinutes: nat,
    activeDuringMarketHoursOnly: bool)

  const TimeframeConfigs: map<string, TimeframeConfig> := map[
    "15m" := TimeframeConfig("5d", "15m", 15, true),
    "1h" := TimeframeConfig("5d", "1h", 60, true),
    "1d" := TimeframeConfig("1y", "1d", 1440, false),
    "1wk" := TimeframeConfig("2y", "1wk", 10080, false)
  ]

  /** The keys of TIMEFRAME_CONFIGS in the dictionary's insertion order, the order in
      which every loop over the configuration visits them. */
  const TimeframeOrder: seq<string> := ["15m", "1h", "1d", "1wk"]

  lemma TimeframeOrderIsConfigKeys()
    ensures forall tf :: tf in TimeframeOrder <==> tf in TimeframeConfigs
    ensures forall i, j :: 0 <= i < j < |TimeframeOrder| ==> TimeframeOrder[i] != TimeframeOrder[j]
  {
  }

  const Nifty50: seq<string> := [
    "RELIANCE.NS", "TCS.NS", "HDFCBANK.NS", "INFY.NS", "ICICIBANK.NS",
    "HDFC.NS", "KOTAKBANK.NS", "HINDUNILVR.NS", "SBIN.NS", "BHARTIARTL.NS",
    "ASIANPAINT.NS", "ITC.NS", "AXISBANK.NS", "LT.NS", "DMART.NS",
    "MARUTI.NS", "TITAN.NS", "BAJFINANCE.NS", "NESTLEIND.NS", "ULTRACEMCO.NS",
    "WIPRO.NS", "ONGC.NS", "NTPC.NS", "TECHM.NS", "HCLTECH.NS",
    "POWERGRID.NS", "TATAMOTORS.NS", "COALINDIA.NS", "BAJAJFINSV.NS", "M&M.NS",
    "SUNPHARMA.NS", "TATASTEEL.NS", "GRASIM.NS", "ADANIPORTS.NS", "BRITANNIA.NS",
    "DRREDDY.NS", "EICHERMOT.NS", "CIPLA.NS", "BPCL.NS", "HEROMOTOCO.NS",
    "JSWSTEEL.NS", "INDUSINDBK.NS", "DIVISLAB.NS", "TATACONSUM.NS", "APOLLOHOSP.NS",
    "BAJAJ-AUTO.NS", "HINDALCO.NS", "SHREECEM.NS", "UPL.NS", "SBILIFE.NS"
  ]

  const TestSymbols: seq<string> := ["RELIANCE.NS", "TCS.NS", "HDFCBANK.NS", "INFY.NS", "ICICIBANK.NS"]

  const BankingStocks: seq<string> := [
    "HDFCBANK.NS", "ICICIBANK.NS", "SBIN.NS", "KOTAKBANK.NS", "AXISBANK.NS",
    "INDUSINDBK.NS", "FEDERALBNK.NS", "BANKBARODA.NS", "PNB.NS", "IDFCFIRSTB.NS"
  ]

  const ItStocks: seq<string> := [
    "TCS.NS", "INFY.NS", "WIPRO.NS", "TECHM.NS", "HCLTECH.NS",
    "LTI.NS", "MINDTREE.NS", "MPHASIS.NS", "LTTS.NS", "COFORGE.NS"
  ]

  const AutoStocks: seq<string> := [
    "MARUTI.NS", "TATAMOTORS.NS", "M&M.NS", "EICHERMOT.NS", "BAJAJ-AUTO.NS",
    "ASHOKLEY.NS", "HEROMOTOCO.NS", "TVSMOTOR.NS", "BHARATFORG.NS", "MOTHERSUMI.NS"
  ]

  const DefaultSymbols: map<string, seq<string>> := map[
    "development" := TestSymbols,
    "production" := Nifty50,
    "sector_banking" := BankingStocks,
    "sector_it" := ItStocks,
    "sector_auto" := AutoStocks
  ]

  /** `get_symbols`: the named universe, or the development list for an unknown name. */
  function GetSymbols(symbolSet: string): (r: seq<string>)
    ensures symbolSet in DefaultSymbols ==> r == DefaultSymbols[symbolSet]
    ensures symbolSet !in DefaultSymbols ==> r == TestSymbols
    ensures |r| > 0
  {
    if symbolSet in DefaultSymbols then DefaultSymbols[symbolSet] else TestSymbols
  }
}
