/** The request side of the StockScreener client for the Alpha Vantage
    market-data API: the closed lists of allowed argument values, the query
    payload each `get_*` operation builds (a map from parameter name to
    string value that always carries `function` and `apikey`), the checks
    that reject an argument before any request is made, and the stripping of
    the three-character numeric prefix ("1. ", "2. ", ...) from the column
    labels of a response. */
module Alpha {
  import Decimal

  /** Query parameters of one GET request. */
  type Payload = map<string, string>

  const API_HOST_NAME: string := "www.alphavantage.co"
  const API_KEY: string := "demo"
  const INTERVALS: seq<string> := ["1min", "5min", "15min", "30min", "60min"]
  const OUTPUT_SIZE: seq<string> := ["compact", "full"]
  const API_FREQ: seq<string> := ["DAILY", "MONTHLY", "WEEKLY"]
  const TECH_INDS: seq<string> := ["SMA", "EMA", "VWAP"]
  const SERIES_TYPE: seq<string> := ["close", "open", "high", "low"]
  /** The intervals a technical indicator accepts besides `INTERVALS`. */
  const DAY_INTERVALS: seq<string> := ["daily", "weekly", "monthly"]

  /** CPython's default limit on the digits `str` renders for an int
      (`sys.int_info.default_max_str_digits`, 3.11 and later and the
      security releases before them); a longer rendering raises
      `ValueError`. */
  const MAX_STR_DIGITS: nat := 4300

  /** Every request goes to this path with method GET. */
  const QUERY_PATH: string := "/query"

  /** Default argument values of the `get_*` operations. */
  const DEFAULT_ADJUSTED: string := "true"
  const DEFAULT_OUTPUT_SIZE: string := "compact"
  const DEFAULT_DATATYPE: string := "json"

  /** The key set of each operation's payload. */
  const SYMBOL_SEARCH_KEYS: set<string> := {"function", "keywords", "apikey"}
  const INTRADAY_KEYS: set<string> := {"function", "symbol", "interval", "output_type", "apikey"}
  const HISTORICAL_KEYS: set<string> := {"function", "symbol", "datatype", "apikey"}
  const QUOTE_KEYS: set<string> := {"function", "symbol", "datatype", "apikey"}
  const TECHNICAL_KEYS: set<string> :=
    {"function", "symbol", "interval", "time_period", "series_type", "datatype", "apikey"}

  /** Why a `get_*` call raised before issuing a request. All but the last
      are one `assert` of the source each, and the first failing one (in
      source order) is the one reported. The last is the `ValueError` that
      CPython's `str` raises for an int with more digits than it will
      render. */
  datatype CallError =
    | IntervalNotAllowed
    | OutputSizeNotAllowed
    | FreqNotAllowed
    | IndicatorNotAllowed
    | SeriesTypeNotAllowed
    | TimePeriodNotPositive
    | TimePeriodTooManyDigits

  datatype BuildResult = Ok(payload: Payload) | Failed(error: CallError)

  datatype Option<T> = None | Some(value: T)

  /** A payload names the API function and carries the client's key. */
  predicate Authenticated(p: Payload) {
    "function" in p && "apikey" in p && p["apikey"] == API_KEY
  }

  // ---------------------------------------------------------------------
  // format_columns

  /** Python's `col[3:]`: the label without its first three characters, or
      the empty string when the label is shorter than that. */
  function StripPrefix(col: string): (r: string)
    ensures |col| < 3 ==> r == ""
    ensures |col| >= 3 ==> col == col[..3] + r
  {
    if |col| < 3 then "" else col[3..]
  }

  /** `format_columns`: strips every label, keeping their number and order. */
  function FormatColumns(columns: seq<string>): (r: seq<string>)
    ensures |r| == |columns|
    ensures forall i :: 0 <= i < |columns| ==> r[i] == StripPrefix(columns[i])
  {
    if columns == [] then []
    else [StripPrefix(columns[0])] + FormatColumns(columns[1..])
  }

  lemma StripLabel(p: string, s: string)
    requires |p| == 3
    ensures StripPrefix(p + s) == s
  {
  }

  /** Labels of the form prefix + name, with three-character prefixes,
      format to exactly the names. */
  lemma FormatLabels(prefixes: seq<string>, names: seq<string>)
    requires |prefixes| == |names|
    requires forall i :: 0 <= i < |prefixes| ==> |prefixes[i]| == 3
    ensures FormatColumns(seq(|names|, i requires 0 <= i < |names| => prefixes[i] + names[i])) == names
  {
  }

  /** Formatting a list is formatting its parts. */
  lemma FormatColumnsAppend(a: seq<string>, b: seq<string>)
    ensures FormatColumns(a + b) == FormatColumns(a) + FormatColumns(b)
  {
  }

  // ---------------------------------------------------------------------
  // Payload builders, one per `get_*` operation

  /** `get_symbols_match`: never rejects its argument. */
  function GetSymbolsMatch(keywords: string): (r: BuildResult)
    ensures r.Ok? && Authenticated(r.payload)
  {
    Ok(map["function" := "SYMBOL_SEARCH", "keywords" := keywords, "apikey" := API_KEY])
  }

  /** `get_intraday_prices` (the live, second definition). */
  function GetIntradayPrices(symbol: string, interval: string, adjusted: string, outputsize: string): (r: BuildResult)
    ensures r.Ok? ==> Authenticated(r.payload)
  {
    if interval !in INTERVALS then Failed(IntervalNotAllowed)
    else if outputsize !in OUTPUT_SIZE then Failed(OutputSizeNotAllowed)
    else Ok(map[
      "function" := "TIME_SERIES_INTRADAY",
      "symbol" := symbol,
      "interval" := interval,
      "output_type" := outputsize,
      "apikey" := API_KEY])
  }

  /** `get_historical_prices`. */
  function GetHistoricalPrices(symbol: string, freq: string, dataType: string): (r: BuildResult)
    ensures r.Ok? ==> Authenticated(r.payload)
  {
    if freq !in API_FREQ then Failed(FreqNotAllowed)
    else Ok(map[
      "function" := "TIME_SERIES_" + freq,
      "symbol" := symbol,
      "datatype" := dataType,
      "apikey" := API_KEY])
  }

  /** `get_current_quote`: never rejects its arguments. */
  function GetCurrentQuote(symbol: string, dataType: string): (r: BuildResult)
    ensures r.Ok? && Authenticated(r.payload)
  {
    Ok(map[
      "function" := "GLOBAL_QUOTE",
      "symbol" := symbol,
      "datatype" := dataType,
      "apikey" := API_KEY])
  }

  /** `get_technical_indicator`; `indicator` is the source's `function`
      argument. */
  function GetTechnicalIndicator(
    indicator: string, symbol: string, interval: string, timePeriod: int,
    seriesType: string, dataType: string): (r: BuildResult)
    ensures r.Ok? ==> Authenticated(r.payload)
  {
    if !(interval in INTERVALS || interval in DAY_INTERVALS) then Failed(IntervalNotAllowed)
    else if indicator !in TECH_INDS then Failed(IndicatorNotAllowed)
    else if seriesType !in SERIES_TYPE then Failed(SeriesTypeNotAllowed)
    else if !(timePeriod > 0) then Failed(TimePeriodNotPositive)
    else if |Decimal.NatToString(timePeriod)| > MAX_STR_DIGITS then Failed(TimePeriodTooManyDigits)
    else Ok(map[
      "function" := indicator,
      "symbol" := symbol,
      "interval" := interval,
      "time_period" := Decimal.IntToString(timePeriod),
      "series_type" := seriesType,
      "datatype" := dataType,
      "apikey" := API_KEY])
  }

  // ---------------------------------------------------------------------
  // What each builder accepts, what it rejects, and the payload it makes

  lemma SymbolsMatchPayload(keywords: string)
    ensures var r := GetSymbolsMatch(keywords);
      && r.Ok?
      && r.payload.Keys == SYMBOL_SEARCH_KEYS
      && r.payload["function"] == "SYMBOL_SEARCH"
      && r.payload["keywords"] == keywords
  {
  }

  /** Intraday accepts exactly the five intervals and the two output sizes;
      the interval is checked first. */
  lemma IntradayValidation(symbol: string, interval: string, adjusted: string, outputsize: string)
    ensures var r := GetIntradayPrices(symbol, interval, adjusted, outputsize);
      && (r.Ok? <==>
           interval in {"1min", "5min", "15min", "30min", "60min"} && outputsize in {"compact", "full"})
      && (interval !in INTERVALS ==> r == Failed(IntervalNotAllowed))
      && (interval in INTERVALS && outputsize !in OUTPUT_SIZE ==> r == Failed(OutputSizeNotAllowed))
  {
  }

  /** On success the intraday payload has exactly five keys; the output size
      travels under `output_type`, and `adjusted` is not sent. */
  lemma IntradayPayload(symbol: string, interval: string, adjusted: string, outputsize: string)
    requires GetIntradayPrices(symbol, interval, adjusted, outputsize).Ok?
    ensures var p := GetIntradayPrices(symbol, interval, adjusted, outputsize).payload;
      && p.Keys == INTRADAY_KEYS
      && "outputsize" !in p && "adjusted" !in p
      && p["function"] == "TIME_SERIES_INTRADAY"
      && p["symbol"] == symbol && p["interval"] == interval && p["output_type"] == outputsize
  {
  }

  /** The `adjusted` argument has no effect on the outcome. */
  lemma IntradayIgnoresAdjusted(symbol: string, interval: string, a1: string, a2: string, outputsize: string)
    ensures GetIntradayPrices(symbol, interval, a1, outputsize) == GetIntradayPrices(symbol, interval, a2, outputsize)
  {
  }

  lemma HistoricalValidation(symbol: string, freq: string, dataType: string)
    ensures var r := GetHistoricalPrices(symbol, freq, dataType);
      && (r.Ok? <==> freq in {"DAILY", "WEEKLY", "MONTHLY"})
      && (r.Failed? ==> r.error == FreqNotAllowed)
  {
  }

  /** The function name is `TIME_SERIES_` joined to the frequency, and symbol
      and datatype pass through unchecked. */
  lemma HistoricalPayload(symbol: string, freq: string, dataType: string)
    requires GetHistoricalPrices(symbol, freq, dataType).Ok?
    ensures var p := GetHistoricalPrices(symbol, freq, dataType).payload;
      && p.Keys == HISTORICAL_KEYS
      && p["function"] in {"TIME_SERIES_DAILY", "TIME_SERIES_MONTHLY", "TIME_SERIES_WEEKLY"}
      && p["function"] == "TIME_SERIES_" + freq
      && p["symbol"] == symbol && p["datatype"] == dataType
  {
    if freq == "DAILY" {
      assert "TIME_SERIES_" + freq == "TIME_SERIES_DAILY";
    } else if freq == "MONTHLY" {
      assert "TIME_SERIES_" + freq == "TIME_SERIES_MONTHLY";
    } else {
      assert "TIME_SERIES_" + freq == "TIME_SERIES_WEEKLY";
    }
  }

  lemma CurrentQuotePayload(symbol: string, dataType: string)
    ensures var r := GetCurrentQuote(symbol, dataType);
      && r.Ok?
      && r.payload.Keys == QUOTE_KEYS
      && r.payload["function"] == "GLOBAL_QUOTE"
      && r.payload["symbol"] == symbol && r.payload["datatype"] == dataType
  {
  }

  /** The technical indicator accepts exactly when all four checks pass and
      `str` can render the period (below 10^4300), and reports the first
      failing check in the order interval, indicator, series type, time
      period, digit limit. */
  lemma TechnicalValidation(
    indicator: string, symbol: string, interval: string, timePeriod: int,
    seriesType: string, dataType: string)
    ensures var r := GetTechnicalIndicator(indicator, symbol, interval, timePeriod, seriesType, dataType);
      && (r.Ok? <==>
           && interval in {"1min", "5min", "15min", "30min", "60min", "daily", "weekly", "monthly"}
           && indicator in {"SMA", "EMA", "VWAP"}
           && seriesType in {"close", "open", "high", "low"}
           && 0 < timePeriod < Decimal.Pow10(MAX_STR_DIGITS))
      && (interval !in INTERVALS + DAY_INTERVALS ==> r == Failed(IntervalNotAllowed))
      && (interval in INTERVALS + DAY_INTERVALS && indicator !in TECH_INDS ==> r == Failed(IndicatorNotAllowed))
      && (interval in INTERVALS + DAY_INTERVALS && indicator in TECH_INDS && seriesType !in SERIES_TYPE
          ==> r == Failed(SeriesTypeNotAllowed))
      && ((interval in INTERVALS + DAY_INTERVALS && indicator in TECH_INDS && seriesType in SERIES_TYPE
           && timePeriod <= 0) ==> r == Failed(TimePeriodNotPositive))
      && ((interval in INTERVALS + DAY_INTERVALS && indicator in TECH_INDS && seriesType in SERIES_TYPE
           && timePeriod >= Decimal.Pow10(MAX_STR_DIGITS)) ==> r == Failed(TimePeriodTooManyDigits))
  {
    if timePeriod > 0 {
      Decimal.NatToStringLength(timePeriod, MAX_STR_DIGITS);
    }
  }

  /** On success `time_period` is the decimal rendering of the period: all
      digits, no leading zero, within the digit limit, and it reads back as
      the period. */
  lemma TechnicalPayload(
    indicator: string, symbol: string, interval: string, timePeriod: int,
    seriesType: string, dataType: string)
    requires GetTechnicalIndicator(indicator, symbol, interval, timePeriod, seriesType, dataType).Ok?
    ensures var p := GetTechnicalIndicator(indicator, symbol, interval, timePeriod, seriesType, dataType).payload;
      && p.Keys == TECHNICAL_KEYS
      && p["function"] == indicator && p["symbol"] == symbol && p["interval"] == interval
      && p["series_type"] == seriesType && p["datatype"] == dataType
      && Decimal.AllDigits(p["time_period"]) && p["time_period"][0] != '0'
      && |p["time_period"]| <= MAX_STR_DIGITS
      && Decimal.ParseInt(p["time_period"]) == timePeriod
  {
    Decimal.ParseIntToString(timePeriod);
  }

  // ---------------------------------------------------------------------
  // Operations, and the request each one issues

  /** The five operations with their arguments; `indicator` is the source's
      `function` argument of `get_technical_indicator`. */
  datatype Operation =
    | SymbolSearch(keywords: string)
    | IntradayPrices(symbol: string, interval: string, adjusted: string, outputsize: string)
    | HistoricalPrices(symbol: string, freq: string, dataType: string)
    | CurrentQuote(symbol: string, dataType: string)
    | TechnicalIndicator(
        indicator: string, symbol: string, interval: string, timePeriod: int,
        seriesType: string, dataType: string)

  /** The arguments of the session's `request` call in `get_request`. */
  datatype HttpGet = HttpGet(httpMethod: string, host: string, path: string, fields: Payload)

  /** A `get_*` call either raises before the network or issues one request. */
  datatype Outcome = Raised(error: CallError) | Issued(request: HttpGet)

  function Build(op: Operation): (r: BuildResult)
    ensures r.Ok? ==> Authenticated(r.payload)
  {
    match op
    case SymbolSearch(k) => GetSymbolsMatch(k)
    case IntradayPrices(s, i, a, o) => GetIntradayPrices(s, i, a, o)
    case HistoricalPrices(s, f, d) => GetHistoricalPrices(s, f, d)
    case CurrentQuote(s, d) => GetCurrentQuote(s, d)
    case TechnicalIndicator(f, s, i, t, st, d) => GetTechnicalIndicator(f, s, i, t, st, d)
  }

  /** A `get_*` call up to the network: validation, then the GET request
      handed to the connection pool for the API host. */
  function Perform(op: Operation): (r: Outcome)
    ensures r.Issued? ==> r.request.httpMethod == "GET" && r.request.host == API_HOST_NAME
    ensures r.Issued? ==> r.request.path == QUERY_PATH && Authenticated(r.request.fields)
  {
    match Build(op)
    case Failed(e) => Raised(e)
    case Ok(p) => Issued(HttpGet("GET", API_HOST_NAME, QUERY_PATH, p))
  }

  /** Validation comes before the request: a call that raises issues nothing, and
      a request is issued exactly when every check passes, carrying the
      built payload. */
  lemma ValidationPrecedesRequest(op: Operation)
    ensures Perform(op).Raised? <==> Build(op).Failed?
    ensures Build(op).Failed? ==> Perform(op) == Raised(Build(op).error)
    ensures Build(op).Ok? ==> Perform(op).request.fields == Build(op).payload
  {
  }

  // ---------------------------------------------------------------------
  // The payload determines the operation

  /** The operation with the argument a payload does not carry (`adjusted`)
      set to its default. */
  function Normalize(op: Operation): (r: Operation)
    ensures r.IntradayPrices? ==> r.adjusted == DEFAULT_ADJUSTED
  {
    match op
    case IntradayPrices(s, i, _, o) => IntradayPrices(s, i, DEFAULT_ADJUSTED, o)
    case _ => op
  }

  /** Reads an operation back from a payload this client builds. */
  function Decode(p: Payload): (r: Option<Operation>)
  {
    if !Authenticated(p) then None
    else
      var f := p["function"];
      if f == "SYMBOL_SEARCH" && p.Keys == SYMBOL_SEARCH_KEYS then
        Some(SymbolSearch(p["keywords"]))
      else if f == "TIME_SERIES_INTRADAY" && p.Keys == INTRADAY_KEYS then
        Some(IntradayPrices(p["symbol"], p["interval"], DEFAULT_ADJUSTED, p["output_type"]))
      else if f == "GLOBAL_QUOTE" && p.Keys == QUOTE_KEYS then
        Some(CurrentQuote(p["symbol"], p["datatype"]))
      else if |f| >= 12 && f[..12] == "TIME_SERIES_" && p.Keys == HISTORICAL_KEYS then
        Some(HistoricalPrices(p["symbol"], f[12..], p["datatype"]))
      else if p.Keys == TECHNICAL_KEYS && Decimal.IsIntString(p["time_period"]) then
        Some(TechnicalIndicator(
          f, p["symbol"], p["interval"], Decimal.ParseInt(p["time_period"]),
          p["series_type"], p["datatype"]))
      else None
  }

  /** Every payload the builders make reads back as the operation that made
      it, apart from `adjusted`. */
  lemma DecodeBuild(op: Operation)
    requires Build(op).Ok?
    ensures Decode(Build(op).payload) == Some(Normalize(op))
  {
    var p := Build(op).payload;
    match op
    case SymbolSearch(k) =>
    case IntradayPrices(s, i, a, o) =>
    case CurrentQuote(s, d) =>
    case HistoricalPrices(s, f, d) =>
      var fn := "TIME_SERIES_" + f;
      assert fn[..12] == "TIME_SERIES_" && fn[12..] == f;
      assert f != "INTRADAY";
    case TechnicalIndicator(f, s, i, t, st, d) =>
      Decimal.ParseIntToString(t);
      assert "interval" !in HISTORICAL_KEYS;
  }

  /** Two operations that build the same payload differ at most in
      `adjusted`. */
  lemma BuildInjective(op1: Operation, op2: Operation)
    requires Build(op1).Ok? && Build(op1) == Build(op2)
    ensures Normalize(op1) == Normalize(op2)
  {
    DecodeBuild(op1);
    DecodeBuild(op2);
  }

  // ---------------------------------------------------------------------
  // The calls made by the demonstration script

  lemma DemoRequests()
    ensures GetSymbolsMatch("VOD").payload["keywords"] == "VOD"
    ensures GetIntradayPrices("VOD", "5min", DEFAULT_ADJUSTED, DEFAULT_OUTPUT_SIZE).Ok?
    ensures GetHistoricalPrices("IBM", "DAILY", "json").payload["function"] == "TIME_SERIES_DAILY"
    ensures GetHistoricalPrices("IBM", "WEEKLY", "json").payload["function"] == "TIME_SERIES_WEEKLY"
    ensures GetCurrentQuote("IBM", "csv").payload["datatype"] == "csv"
    ensures GetTechnicalIndicator("SMA", "IBM", "weekly", 10, "open", "json").payload["time_period"] == "10"
    ensures GetTechnicalIndicator("SMA", "IBM", "weekly", 0, "open", "json") == Failed(TimePeriodNotPositive)
    ensures GetTechnicalIndicator("SMA", "IBM", "weekly", 1, "open", "json").Ok?
    ensures FormatColumns(["1. symbol", "2. name"]) == ["symbol", "name"]
  {
  }
}
