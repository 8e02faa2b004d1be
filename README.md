# StockScreener request model

A Dafny model of the request side of `StockScreener`, a small Python client
for the Alpha Vantage market-data web API (`alpha.py`). Each `get_*` operation
checks its arguments against closed lists of allowed values, then builds a
flat query payload, a map from parameter name to string value that always
holds `function` and `apikey`, and hands it to an HTTP GET on `/query`.
`format_columns` strips the three-character numeric prefix (`"1. "`) from
the column labels of a response.

The model is pure, as the modelled code is:

- `decimal.dfy`, module `Decimal`: Python's `str` on an `int` (used for the
  `time_period` parameter), for ints within CPython's limit of 4300 digits,
  with a parser as its left inverse (`ParseInt(IntToString(i)) == i`) and
  the bound "at most k digits exactly when below 10^k".
- `alpha.dfy`, module `Alpha`: the module constants (`API_KEY`, `INTERVALS`,
  `OUTPUT_SIZE`, `API_FREQ`, `TECH_INDS`, `SERIES_TYPE`, the host name), one
  builder per `get_*` operation returning `Ok(payload)` or `Failed(error)`,
  `FormatColumns`, and `Perform`, which turns an `Operation` into either the
  error it raises or the GET request that `get_request` would issue.

Each Python `assert` becomes a `Failed` result naming the check, not a
precondition. So does the `ValueError` that `str(time_period)` (alpha.py:198)
raises in CPython 3.11 and later, and the security releases before them, when
the period has more than 4300 digits (`sys.int_info.default_max_str_digits`).
That check comes after the four asserts and before any request. Checks run in source order, so the first failing check is the
one reported. Both acceptance and rejection are proved, as an
if-and-only-if over literal sets of allowed values.

`Decode` reads an operation back from a payload; it is a left inverse of
`Build` up to `Normalize`. `DecodeBuild` proves that every payload a builder makes decodes to
the operation that made it, with `adjusted` set to its default because the
payload never carries `adjusted`. `BuildInjective` follows: two operations
with the same payload differ at most in `adjusted`.

Faithfulness notes:

- The intraday payload sends the output size under the key `output_type`
  (alpha.py:126), as written, not `outputsize`. `IntradayPayload` states that
  no `outputsize` and no `adjusted` key is sent.
- `get_intraday_prices` is defined twice (alpha.py:82 and alpha.py:107). The
  statements after the docstring are identical and the second definition
  shadows the first, so it is modelled once.
- For a label shorter than three characters, `format_columns` returns the
  empty string, as Python's `col[3:]` does; alpha.py does not say more
  about such labels, and the model follows the slice.
- `symbol`, `keywords` and the `datatype` argument are copied into the
  payload unchecked, as in the code.
- Python's keyword defaults (`adjusted='true'`, `outputsize='compact'`,
  `datatype='json'`) are the constants `DEFAULT_ADJUSTED`,
  `DEFAULT_OUTPUT_SIZE` and `DEFAULT_DATATYPE`. Callers pass them explicitly.
- The source's `function` argument of `get_technical_indicator` is named
  `indicator`, because `function` is a Dafny keyword. Likewise, `datatype`
  becomes `dataType`.

## Model

| member | source | states |
|---|---|---|
| `Decimal.NatToString` | alpha.py:198 | the decimal rendering of a natural number is non-empty, all digits, one digit exactly below 10, and starts with '0' only for 0 |
| `Decimal.IntToString` | alpha.py:198 | `str(i)` is a readable integer string; for i > 0 it is all digits with no leading zero; for i < 0 it is '-' then such digits |
| `Decimal.ParseNatToString` | alpha.py:198 | reading back the rendering of n gives n |
| `Decimal.ParseIntToString` | alpha.py:198 | reading back the rendering of i gives i, for every integer i (the digit limit is checked by the caller) |
| `Decimal.NatToStringLength` | alpha.py:198 | for k >= 1, n renders to at most k digits exactly when n < 10^k |
| `Decimal.IntToStringInjective` | alpha.py:198 | distinct time periods give distinct `time_period` strings |
| `Alpha.StripPrefix` | alpha.py:52 | `col[3:]` is empty for a label shorter than 3; otherwise the label is its first three characters followed by the result |
| `Alpha.FormatColumns` | alpha.py:46-52 | `format_columns` keeps length and order: element i of the result is label i stripped of its first three characters |
| `Alpha.StripLabel` | alpha.py:52 | a label p + s with a 3-character prefix p strips to exactly s |
| `Alpha.FormatLabels` | alpha.py:212 | a column list of labels prefix_i + name_i with 3-character prefixes formats to exactly the names |
| `Alpha.FormatColumnsAppend` | alpha.py:52 | formatting a concatenation is the concatenation of the formatted parts |
| `Alpha.GetSymbolsMatch` | alpha.py:66-77 | symbol search never fails and its payload carries `function` and `apikey` = `API_KEY` |
| `Alpha.SymbolsMatchPayload` | alpha.py:73-77 | the symbol-search payload has exactly the keys function, keywords, apikey, with `function` = SYMBOL_SEARCH and `keywords` the argument |
| `Alpha.GetIntradayPrices` | alpha.py:107-128 | a successful intraday payload carries `function` and `apikey` = `API_KEY` |
| `Alpha.IntradayValidation` | alpha.py:119-120 | intraday succeeds iff interval is one of the five intervals and outputsize is compact or full; a bad interval is reported first |
| `Alpha.IntradayPayload` | alpha.py:122-128 | on success the keys are exactly function, symbol, interval, output_type, apikey; `function` = TIME_SERIES_INTRADAY; `output_type` holds outputsize; no `outputsize` or `adjusted` key |
| `Alpha.IntradayIgnoresAdjusted` | alpha.py:107 | the outcome is the same for every value of `adjusted` |
| `Alpha.GetHistoricalPrices` | alpha.py:132-153 | a successful historical payload carries `function` and `apikey` = `API_KEY` |
| `Alpha.HistoricalValidation` | alpha.py:143 | historical succeeds iff freq is DAILY, WEEKLY or MONTHLY, and otherwise fails the frequency check |
| `Alpha.HistoricalPayload` | alpha.py:145-153 | on success the keys are exactly function, symbol, datatype, apikey; `function` = "TIME_SERIES_" + freq, one of the three series names; symbol and datatype are copied unchanged |
| `Alpha.GetCurrentQuote` | alpha.py:158-172 | the current quote never fails and its payload carries `function` and `apikey` = `API_KEY` |
| `Alpha.CurrentQuotePayload` | alpha.py:167-172 | the quote payload has exactly the keys function, symbol, datatype, apikey, with `function` = GLOBAL_QUOTE and the arguments copied |
| `Alpha.GetTechnicalIndicator` | alpha.py:176-202 | a successful indicator payload carries `function` and `apikey` = `API_KEY` |
| `Alpha.TechnicalValidation` | alpha.py:189-198 | the indicator succeeds iff interval is an intraday interval or daily/weekly/monthly, the indicator is SMA, EMA or VWAP, the series type is close/open/high/low, time_period > 0, and time_period < 10^4300 so that `str` can render it; failures are reported in that order |
| `Alpha.TechnicalPayload` | alpha.py:194-202 | on success the payload has the seven source keys, copies the arguments, and `time_period` is all digits, has no leading zero, has at most 4300 digits and reads back as the period |
| `Alpha.Build` | alpha.py:66-204 | every operation's successful payload carries `function` and `apikey` = `API_KEY` |
| `Alpha.Perform` | alpha.py:55-64 | an issued request is a GET to the API host on `/query` whose fields carry `function` and the API key |
| `Alpha.ValidationPrecedesRequest` | alpha.py:119-130 | a request is issued iff every check passes; a call that raises issues nothing and reports the error; an issued request carries the built payload |
| `Alpha.Normalize` | alpha.py:107 | the normalised operation has `adjusted` at its default 'true' |
| `Alpha.DecodeBuild` | alpha.py:73-202 | every payload a builder makes decodes back to the operation that built it, apart from `adjusted` |
| `Alpha.BuildInjective` | alpha.py:73-202 | two operations that build the same payload differ at most in `adjusted` |
| `Alpha.DemoRequests` | alpha.py:207-257 | the script's own calls: search VOD, intraday 5min with the defaults succeeds, DAILY gives TIME_SERIES_DAILY, the csv quote carries datatype csv, SMA weekly with period 10 sends "10". Further examples beside the script: WEEKLY gives TIME_SERIES_WEEKLY, period 0 fails and period 1 succeeds, and "1. symbol", "2. name" format to "symbol", "name" |

## Left out

- The HTTP transport: `HTTPSConnectionPool`, `__init__` and the network call
  inside `get_request` (alpha.py:44, 55-64). `Perform` stops at the request
  it would issue: method, host, path and fields. The response bytes,
  transport errors and non-2xx statuses are not modelled.
- `json.loads` on response bytes (alpha.py:79, 105, 130, 232, 244, 262). It is
  a foreign parser applied to network data.
- All pandas reshaping in the demonstration script: `DataFrame`, `.T`,
  `read_csv`, `set_index` and `print` (alpha.py:207-264). Only the request
  arguments of its calls and the `format_columns` results appear, in
  `DemoRequests`.
- The first, shadowed `get_intraday_prices` (alpha.py:82-105). It is dead
  code; its statements after the docstring are those of the live definition.
- Interpreters without the digit limit (CPython before 3.11 other than the
  security releases that added it), where `str` renders a period of any
  size; the model follows the limit with its default of 4300, and does not
  model changing it with `sys.set_int_max_str_digits` or
  `PYTHONINTMAXSTRDIGITS`.
- Python's dynamic typing. Arguments are modelled as strings, and
  `time_period` as an integer. A call with a value of another type (for
  example a string `time_period`, which would raise `TypeError` at
  `time_period > 0`) is not modelled.
- The message and traceback of the `AssertionError`. The model reports only
  which check failed. It also does not model Python run with `-O`, where the
  asserts are skipped.
