# Crypto data API backend — a Dafny model

This project models the backend of a small cryptocurrency data service. The service is a
FastAPI application. It fetches market data from the CoinGecko provider, and it can
summarise a coin's snapshot, return its price history, or export that history as CSV.

The model covers the two files that hold the logic:

- `backend/utils.py`, modelled in three parts:
  - the snapshot summary (`summarize_data` and its inner `safe_float`), together with the
    standalone `calculate_volatility_24h_ratio` and Python's `round(x, 4)`
    (module `Snapshot`, `snapshot.dfy`);
  - the series pipeline `process_historical_data`, which computes the percentage change,
    the 3-day rolling average and the 3-day rolling volatility (module `Series`,
    `series.dfy`);
  - the column selection of `generate_csv` and `to_dict(orient='records')`, also in
    `Series`.
- `backend/main.py`: the four HTTP handlers, as functions of the path symbol, the query
  parameters and the provider's answer (module `Api`, `api.dfy`). The model covers:
  - symbol normalisation (`lower().strip()`);
  - the `days` bound (1 to 365, default 1), rejected with status 422 before anything runs;
  - which endpoint enriches the series and which columns it exports;
  - the download file name and media type;
  - the mapping of every exception to status 500 carrying `str(e)`.

Module `Base` (`base.dfy`) holds `Option`, `Result` and the exceptions the handlers catch.

Numbers are exact reals. A data frame is a value: `df[name] = column` yields the frame with
that column set. A missing pandas value is the cell `NaN`. The rolling standard deviation is
the cell `Root(v)`: the square root of the sample variance `v`, kept symbolic.

Three behaviours of the code are easy to miss:

- `volatility_3d` is first defined at row 3, not row 2. Row 0 of `pct_change` is missing,
  and `rolling(window=3)` needs three observations (`RollingStdAt`).
- The summary's `volatility_24h_ratio` is `None` when `low_24h` or `high_24h` is zero,
  because the guard tests Python truthiness (`VolatilityRatio`, `RatioRulesDifferOnZeroLow`).
- `safe_float` accepts JSON booleans as 1.0 and 0.0, because Python's `bool` is an `int`
  (`SafeFloat`).

## Model

| member | source | states |
|---|---|---|
| Series.FromSamples | backend/utils.py:15-16 | the frame has exactly the columns `timestamp`, `price`, one row per sample, each row carrying that sample's timestamp and price |
| Series.WithColumn | backend/utils.py:19-21 | assigning a column keeps the frame well formed and its height; a new name is appended last, an existing one is replaced in place, no other column changes |
| Series.PctChange | backend/utils.py:19 | pandas' `p[i]/p[i-1] - 1` times 100 equals `(p[i]-p[i-1])/p[i-1]*100` for every row after the first; row 0 is missing; same length |
| Series.RatioMinusOne | backend/utils.py:19 | `a/b - 1` equals `(a-b)/b` for a non-zero `b` |
| Series.Rolling | backend/utils.py:20-21 | a rolling statistic has one row per input row |
| Series.PctChangeAt | backend/utils.py:19 | row `i` of the percentage change is missing for `i = 0`, else the change from the previous price in percent |
| Series.RollingMeanAt | backend/utils.py:20 | the 3-day rolling average is missing for rows 0 and 1, and at row `i >= 2` equals `(p[i-2]+p[i-1]+p[i])/3` |
| Series.RollingStdAt | backend/utils.py:21 | the 3-day volatility is missing for rows 0 to 2, and at row `i >= 3` is the root of the sample variance of the three percentage changes ending at `i` |
| Series.VarianceOfThree | backend/utils.py:21 | the sample variance of three values (denominator 2) is the sum of squared deviations from their mean over 2; it is never negative, and it is zero when the three are equal |
| Series.Enrich | backend/utils.py:18-21 | enrichment appends exactly `pct_change`, `rolling_avg_3d`, `volatility_3d` in that order, keeps the height and the two original columns |
| Series.AppendDerived | backend/utils.py:19-21 | the three assignments, made in order on a basic frame, give the full five-column layout with the same height, the original columns untouched and each new column holding what was assigned |
| Series.EnrichedColumns | backend/utils.py:18-21 | the enriched frame's three derived columns are the percentage change of the prices and the two rolling statistics |
| Series.ProcessHistoricalData | backend/utils.py:13-23 | a payload without `prices` raises `KeyError('prices')`, and only then; otherwise one row per sample in input order, timestamps and prices carried over, and the full five columns exactly when enrichment is asked for |
| Series.WorkedPctChange | backend/utils.py:19 | prices 100, 110, 121, 108.9 give changes missing, 10, 10, -10 |
| Series.WorkedRollingAverage | backend/utils.py:20 | the same prices give rolling averages missing, missing, 331/3, 113.3 |
| Series.WorkedVolatility | backend/utils.py:21 | the same prices give a volatility defined only at row 3, the root of 400/3 |
| Series.WorkedVariance | backend/utils.py:21 | the sample variance (denominator 2) of the changes 10, 10, -10 is 400/3 |
| Series.MissingMembers | backend/utils.py:38 | a name is reported missing exactly when it is requested and the frame lacks it |
| Series.MissingAppend | backend/utils.py:38 | the missing names of two requested lists in a row are those of the first list followed by those of the second |
| Series.MissingNone | backend/utils.py:38 | nothing is reported missing when every requested column exists |
| Series.MissingAll | backend/utils.py:38 | every requested name is reported, in order, when none of them exists |
| Series.Select | backend/utils.py:38 | `df[columns]` succeeds exactly when every requested column exists, and then has exactly those columns in that order with unchanged contents and every row; otherwise it raises naming the missing columns |
| Series.GenerateCsv | backend/utils.py:30-38 | the export selects `[timestamp, price]` for basic and all five columns for full, in that order, keeping every row and every cell |
| Series.ExportPairing | backend/main.py:56-57 | exporting a processed series succeeds exactly when the full layout is asked only of an enriched series; a matching layout exports the series unchanged |
| Series.ExportOwnLayout | backend/utils.py:38 | exporting a frame in its own layout returns it unchanged |
| Series.ExportFullOfBasic | backend/utils.py:30-38 | a full export of an unenriched frame raises, naming the three derived columns as missing |
| Series.MissingFromBasic | backend/utils.py:30-38 | of the five full columns, a frame holding only `timestamp` and `price` lacks exactly `pct_change`, `rolling_avg_3d`, `volatility_3d`, in that order |
| Series.ToRecords | backend/main.py:45 | one record per row; each record pairs every column name, in column order, with that row's cell |
| Series.SeriesRecords | backend/main.py:44-45 | the records of a processed series are one per sample in order, five fields wide when enriched and two otherwise, each beginning with the sample's timestamp and price |
| Series.FirstEnrichedRecord | backend/main.py:44-45 | the first record of an enriched series has a missing `pct_change` as its third field |
| Snapshot.SafeFloat | backend/utils.py:51-52 | a value becomes a number exactly when it is an int, float or bool, and keeps its numeric value; anything else, including a missing key, becomes `None` |
| Snapshot.RoundHalfEven | backend/utils.py:58 | the rounded integer is within one half of the input, and an exact half goes to the even neighbour |
| Snapshot.RoundHalfEvenNearest | backend/utils.py:58 | no integer is nearer to the input than its rounding |
| Snapshot.RoundHalfEvenOfInteger | backend/utils.py:58 | an integer rounds to itself |
| Snapshot.Round4 | backend/utils.py:58 | `round(x, 4)` is within 0.00005 of `x` and is a whole number of ten-thousandths; at an exact tie that number is even |
| Snapshot.Round4OfFourPlaces | backend/utils.py:58 | a value with at most four decimal places is unchanged by rounding |
| Snapshot.Round4Idempotent | backend/utils.py:58 | rounding a rounded value changes nothing |
| Snapshot.CalculateVolatility24hRatio | backend/utils.py:9-11 | the result is `None` exactly when the current price is missing or zero; a missing high or low with a non-zero price raises `TypeError` with Python's unsupported-operand message, and only then; otherwise the ratio times the price is `high - low` |
| Snapshot.VolatilityRatio | backend/utils.py:58-59 | the summary ratio is present exactly when high, low and current price are all present and non-zero, and is then `round((high-low)/current, 4)`, within 0.00005 of the quotient |
| Snapshot.RatioAgreesWithStandalone | backend/utils.py:58-59 | when all three inputs are non-zero, the summary ratio is the standalone ratio rounded to four places |
| Snapshot.RatioRulesDifferOnZeroLow | backend/utils.py:58-59 | with a zero low and a non-zero price the standalone function returns `high/current` while the summary ratio is `None` |
| Snapshot.Summarize | backend/utils.py:49-74 | the summary's ratio is present exactly when its high, low and price are all present and non-zero, and is then `round((high-low)/price, 4)`, within 0.00005 of the quotient |
| Snapshot.SummaryCoercion | backend/utils.py:54-73 | price, high, low, market cap and total volume are each `safe_float` of the snapshot's value under their key: present exactly when the snapshot holds a number there, and then that number |
| Snapshot.SummaryPassThrough | backend/utils.py:62-71 | name, symbol and the four percentage changes are copied unchanged from their source keys, `None` when absent |
| Snapshot.MissingHighChangesOnlyHigh | backend/utils.py:55-73 | removing `high_24h` from the snapshot changes only the summary's high and ratio, both to `None` |
| Snapshot.SummaryExample | backend/utils.py:58-59 | high 51000, low 49000, price 50000 give the ratio 0.04 |
| Api.Lower | backend/main.py:26 | lower-casing keeps the length, maps each character to its lower case, and leaves no upper-case letter |
| Api.LeadingSpaces | backend/main.py:26 | counts exactly the whitespace prefix: all counted characters are whitespace and the next one is not |
| Api.TrailingSpaces | backend/main.py:26 | counts exactly the whitespace suffix, symmetrically |
| Api.LeadingSpacesIs | backend/main.py:26 | any count whose prefix is all whitespace and is followed by a non-whitespace character or the end is the leading-whitespace count |
| Api.TrailingSpacesIs | backend/main.py:26 | the same for the trailing count |
| Api.StripIs | backend/main.py:26 | when only whitespace lies outside a slice that starts and ends with non-whitespace, stripping returns exactly that slice |
| Api.Strip | backend/main.py:26 | the result is a slice of the input that neither starts nor ends with whitespace, and everything cut off is whitespace |
| Api.Normalize | backend/main.py:26 | a normalised symbol is the lower-cased symbol with its surrounding whitespace stripped, no longer than the input; it has no upper-case letter and no whitespace at either end |
| Api.StripKeepsNoUpper | backend/main.py:26 | stripping a string without upper-case letters leaves none |
| Api.LowerOfNoUpper | backend/main.py:26 | lower-casing a string without upper-case letters changes nothing |
| Api.StripOfTrimmed | backend/main.py:26 | stripping a string that neither starts nor ends with whitespace changes nothing |
| Api.NormalizeIdempotent | backend/main.py:26 | normalising a normalised symbol changes nothing |
| Api.NormalizeUpperExample | backend/main.py:26 | `BITCOIN` normalises to `bitcoin` |
| Api.NormalizePaddedExample | backend/main.py:26 | a symbol padded with a space and a newline normalises to the bare symbol |
| Api.GetCryptoSummary | backend/main.py:22-32 | a provider error becomes status 500 with its message; otherwise the body is the summary of the snapshot fetched for the normalised symbol |
| Api.GetCryptoHistory | backend/main.py:34-48 | status 422 exactly when `days` is outside 1..365; a provider error or a payload without `prices` becomes 500 with its message; otherwise one record per sample, two or five cells wide by `include_pct_change`, starting with the sample's timestamp and price |
| Api.Download | backend/main.py:50-74 | 422 exactly for a bad `days`; provider and payload errors become 500; otherwise the file is the processed series itself in the export layout, named after the normalised symbol, with media type `text/csv` |
| Api.DownloadBasicCsv | backend/main.py:50-61 | 422 exactly for a bad `days`; a successful download has the basic columns, the name `<symbol>_basic_history.csv` and type `text/csv` |
| Api.DownloadFullCsv | backend/main.py:63-74 | 422 exactly for a bad `days`; a successful download has the five full columns, the name `<symbol>_full_history.csv` and type `text/csv` |
| Api.DownloadsNeverMissColumns | backend/main.py:54-71 | both downloads succeed whenever `days` is valid and the provider returns a price list: every exported column exists |
| Api.SameSymbolSameResponse | backend/main.py:22-74 | two symbols with the same normalisation get the same response from all four handlers |
| Api.DaysExamples | backend/main.py:37 | an absent `days` is 1 and valid; 400 and 0 days are rejected whatever the provider would answer |
| Api.Render | backend/main.py:45 | a record list holding a NaN turns into a bare 500 when it is rendered as JSON; every other response is rendered unchanged |
| Api.EnrichedHistoryNotJsonCompliant | backend/main.py:44-45 | as written, an enriched history of at least one sample always fails to render |
| Api.NullForNaN | backend/main.py:45 | replacing NaN by null leaves a JSON-compliant record list of the same shape, with every other cell and every name unchanged |
| Api.GetCryptoHistoryCorrected | backend/main.py:34-48 | the corrected history handler always renders as returned, with the same status as the handler as written; on success its records are the written handler's records with every NaN sent as `null`, and every error passes through unchanged |

## Left out

- `backend/coingecko.py` is not part of this model. Its two calls are the function
  parameters `SummaryFetch` and `HistoryFetch`, and any failure they report, such as an
  unknown coin, is an `Error`.
- Logging, FastAPI routing, `async` and the server startup are not modelled.
- The temporary directory, the time-stamped internal file name, `to_csv` and `FileResponse`
  are not modelled. The download body is the selected table with its file name and media
  type.
- Query parsing is not modelled: `days` arrives as an already parsed integer or absent, so
  a non-integer `days` is not represented.
- Epoch milliseconds are not converted to dates. A timestamp cell carries its milliseconds
  unchanged.
- IEEE floating point is not modelled: prices are exact reals, so there is no rounding error,
  overflow or NaN input.
- Snapshot.SafeFloat: always returns the exact value of an int. Python's `float(v)` raises
  `OverflowError` for an int beyond float range (about 1.8e308), and the summary handler
  would then answer 500. That case is not modelled.
- Series.PctChange: requires every price before the last to be non-zero. pandas would
  produce infinities or NaN there, and those are not modelled. The same precondition
  (`Divisible`, `Enrichable` or `FetchEnrichable`) is carried, when enrichment is asked for,
  by each of the members below and by the lemmas stated about them.
- Series.Enrich: requires non-zero prices before the last, as `Series.PctChange`.
- Series.ProcessHistoricalData: requires non-zero prices before the last when enriching.
- Series.EnrichedColumns: requires non-zero prices before the last, as `Series.Enrich`.
- Api.GetCryptoHistory: requires the fetched prices to be non-zero before the last when
  `include_pct_change` is set.
- Api.GetCryptoHistoryCorrected: the same precondition as `Api.GetCryptoHistory`.
- Api.Download: requires non-zero prices before the last when the series is enriched.
- Api.DownloadFullCsv: requires the fetched prices to be non-zero before the last.
- Series.VarianceOfThree: does not prove that the variance is positive when the three values
  differ. Only non-negativity and the zero case are stated.
- Series.Select: a missing column is reported as the list of missing names. pandas' exact
  `KeyError` text is not reproduced.
- Api.Lower: only ASCII letters are lowered. Python's full Unicode case mapping is not
  modelled.
- Column names are the five labels the code uses (datatype `Column`, printed by `Name`). A
  frame with any other column name is not represented, and none arises in this code.
- The data frame is modelled as a value, not an object updated in place. The frame is local
  to `process_historical_data`, so no aliasing is lost.
- `DataFrame` construction from rows that are not `[timestamp, price]` pairs is not
  represented: samples are typed.

## Findings

| source | as written | input that shows it | evidently intended | confidence | as-written member | corrected member |
|---|---|---|---|---|---|---|
| backend/main.py:44-45 | `get_crypto_history` returns `df.to_dict(orient='records')` with `include_pct_change=true`. Row 0 of `pct_change`, rows 0-1 of `rolling_avg_3d` and rows 0-2 of `volatility_3d` are NaN, and the framework's JSON response encodes with `allow_nan=False`. It raises after the handler returned, outside its `try`, and the client gets a bare 500. | `GET /crypto/history/bitcoin?include_pct_change=true` with any non-empty price list | missing values sent as JSON `null` and a 200 response | high; not executed | Api.EnrichedHistoryNotJsonCompliant | Api.GetCryptoHistoryCorrected |
