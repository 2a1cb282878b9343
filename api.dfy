/**
 * The four HTTP handlers of the backend, each a function of the path symbol, the query
 * parameters and the provider's answer. The provider client is a function parameter: the
 * handlers call it once with the normalised symbol (and the day count), nothing more.
 */
module Api {
  import opened Base
  import opened Series
  import opened Snapshot

  // ---------------------------------------------------------------------------------------
  // Symbol normalisation: `symbol.lower().strip()`

  /** `str.lower` on one character; only ASCII letters are modelled. */
  function LowerChar(c: char): char
  {
    if 'A' <= c <= 'Z' then (c as int + 32) as char else c
  }

  predicate NoUpper(s: string)
  {
    forall i :: 0 <= i < |s| ==> !('A' <= s[i] <= 'Z')
  }

  /** `str.lower`: every letter lowered, nothing else changed. */
  function Lower(s: string): (r: string)
    ensures |r| == |s| && NoUpper(r)
    ensures forall i :: 0 <= i < |s| ==> r[i] == LowerChar(s[i])
  {
    seq(|s|, i requires 0 <= i < |s| => LowerChar(s[i]))
  }

  /** `str.isspace` on one character: the characters Python treats as whitespace. */
  predicate IsSpace(c: char)
  {
    var n := c as int;
    n == 0x20 || 0x09 <= n <= 0x0D || 0x1C <= n <= 0x1F || n == 0x85 || n == 0xA0 ||
    n == 0x1680 || 0x2000 <= n <= 0x200A || n == 0x2028 || n == 0x2029 || n == 0x202F ||
    n == 0x205F || n == 0x3000
  }

  /** The number of whitespace characters `s` starts with. */
  function LeadingSpaces(s: string): (k: nat)
    ensures k <= |s|
    ensures forall i :: 0 <= i < k ==> IsSpace(s[i])
    ensures k < |s| ==> !IsSpace(s[k])
  {
    if s == [] || !IsSpace(s[0]) then 0 else 1 + LeadingSpaces(s[1..])
  }

  /** The number of whitespace characters `s` ends with. */
  function TrailingSpaces(s: string): (k: nat)
    ensures k <= |s|
    ensures forall i :: |s| - k <= i < |s| ==> IsSpace(s[i])
    ensures k < |s| ==> !IsSpace(s[|s| - 1 - k])
  {
    if s == [] || !IsSpace(s[|s| - 1]) then 0 else 1 + TrailingSpaces(s[..|s| - 1])
  }

  /**
   * `str.strip`: the slice of `s` left after removing whitespace at both ends; what is
   * removed is whitespace, and what is left neither starts nor ends with it.
   */
  function Strip(s: string): (r: string)
    ensures r == [] || (!IsSpace(r[0]) && !IsSpace(r[|r| - 1]))
    ensures exists lo, hi :: (0 <= lo <= hi <= |s| && r == s[lo..hi] &&
      (forall i :: 0 <= i < lo ==> IsSpace(s[i])) && (forall i :: hi <= i < |s| ==> IsSpace(s[i])))
  {
    var lo := LeadingSpaces(s);
    var t := s[lo..];
    var k := TrailingSpaces(t);
    var hi := |s| - k;
    assert forall i :: hi <= i < |s| ==> IsSpace(s[i]) by {
      forall i | hi <= i < |s| ensures IsSpace(s[i]) {
        assert s[i] == t[i - lo];
      }
    }
    var r := s[lo..hi];
    assert r == t[..|t| - k];
    assert r != [] ==> r[0] == t[0] && r[|r| - 1] == t[|t| - 1 - k];
    r
  }

  /** `LeadingSpaces` is the one count its contract describes. */
  lemma LeadingSpacesIs(s: string, k: nat)
    requires k <= |s| && (forall i :: 0 <= i < k ==> IsSpace(s[i])) && (k < |s| ==> !IsSpace(s[k]))
    ensures LeadingSpaces(s) == k
  {
  }

  /** `TrailingSpaces` is the one count its contract describes. */
  lemma TrailingSpacesIs(s: string, k: nat)
    requires k <= |s| && (forall i :: |s| - k <= i < |s| ==> IsSpace(s[i]))
    requires k < |s| ==> !IsSpace(s[|s| - 1 - k])
    ensures TrailingSpaces(s) == k
  {
  }

  /** Stripping keeps exactly the characters `lo .. hi` when only whitespace lies outside them. */
  lemma StripIs(s: string, lo: nat, hi: nat)
    requires lo < hi <= |s| && !IsSpace(s[lo]) && !IsSpace(s[hi - 1])
    requires forall i :: 0 <= i < lo ==> IsSpace(s[i])
    requires forall i :: hi <= i < |s| ==> IsSpace(s[i])
    ensures Strip(s) == s[lo..hi]
  {
    LeadingSpacesIs(s, lo);
    var t := s[lo..];
    TrailingSpacesIs(t, |s| - hi);
  }

  /**
   * The symbol every handler fetches with, `symbol.lower().strip()`: the lower-cased symbol
   * with its surrounding whitespace stripped, so it has no upper-case letter and no whitespace
   * at either end.
   */
  function Normalize(symbol: string): (r: string)
    ensures r == Strip(Lower(symbol))
    ensures |r| <= |symbol|
    ensures NoUpper(r)
    ensures r == [] || (!IsSpace(r[0]) && !IsSpace(r[|r| - 1]))
  {
    var t := Strip(Lower(symbol));
    StripKeepsNoUpper(Lower(symbol));
    t
  }

  /** Stripping cannot introduce an upper-case letter. */
  lemma StripKeepsNoUpper(s: string)
    requires NoUpper(s)
    ensures NoUpper(Strip(s))
  {
    var lo, hi :| 0 <= lo <= hi <= |s| && Strip(s) == s[lo..hi];
    assert forall i :: 0 <= i < hi - lo ==> Strip(s)[i] == s[lo + i];
  }

  /** Lower-casing a string without upper-case letters changes nothing. */
  lemma LowerOfNoUpper(s: string)
    requires NoUpper(s)
    ensures Lower(s) == s
  {
  }

  /** A string with no whitespace at either end is its own stripping. */
  lemma {:induction false} StripOfTrimmed(s: string)
    requires s == [] || (!IsSpace(s[0]) && !IsSpace(s[|s| - 1]))
    ensures Strip(s) == s
  {
    assert LeadingSpaces(s) == 0;
    assert s[0..] == s;
    assert TrailingSpaces(s) == 0;
  }

  /** Normalising a normalised symbol changes nothing. */
  lemma NormalizeIdempotent(symbol: string)
    ensures Normalize(Normalize(symbol)) == Normalize(symbol)
  {
    var n := Normalize(symbol);
    LowerOfNoUpper(n);
    StripOfTrimmed(n);
  }

  // The examples take their symbol as a parameter pinned by `requires`: a literal argument
  // makes the solver unfold `Lower` and `Strip` eagerly and exhaust its budget.

  /** Upper case is lowered: `BITCOIN` names `bitcoin`. */
  lemma NormalizeUpperExample(symbol: string)
    requires symbol == "BITCOIN"
    ensures Normalize(symbol) == "bitcoin"
  {
    var l := Lower(symbol);
    assert l == "bitcoin";
    StripIs(l, 0, |l|);
  }

  /** Surrounding whitespace is dropped: `" bitcoin\n"` names `bitcoin`. */
  lemma NormalizePaddedExample(symbol: string)
    requires symbol == " bitcoin\n"
    ensures Normalize(symbol) == "bitcoin"
  {
    assert |symbol| == 9 && symbol[0] == ' ' && symbol[1] == 'b' && symbol[7] == 'n' && symbol[8] == '\n';
    assert NoUpper(symbol);
    LowerOfNoUpper(symbol);
    assert IsSpace(symbol[0]) && IsSpace(symbol[8]) && !IsSpace(symbol[1]) && !IsSpace(symbol[7]);
    StripIs(symbol, 1, 8);
    assert symbol[1..8] == "bitcoin";
  }

  // ---------------------------------------------------------------------------------------
  // Query parameters and responses

  const MIN_DAYS := 1
  const MAX_DAYS := 365

  /** `days: int = Query(1, ...)`: an absent parameter is 1. */
  function ResolveDays(days: Option<int>): int
  {
    if days.Some? then days.value else 1
  }

  /** `Query(..., ge=1, le=365)`. */
  predicate ValidDays(days: int)
  {
    MIN_DAYS <= days <= MAX_DAYS
  }

  /** What a handler hands back to the framework. */
  datatype Body =
    | SummaryBody(summary: Summary)
    | RecordsBody(records: seq<Record>)
    | FileBody(table: Frame, filename: string, mediaType: string)

  datatype Response =
    | Success(body: Body)             // 200
    | Rejected(param: string)         // 422: a query parameter failed validation
    | Failure(status: int, detail: string)

  function Status(r: Response): int
  {
    match r
    case Success(_) => 200
    case Rejected(_) => 422
    case Failure(status, _) => status
  }

  /** `HTTPException(status_code=500, detail=str(e))`. */
  function ServerError(e: Error): Response
  {
    Failure(500, Message(e))
  }

  const CSV_MEDIA_TYPE := "text/csv"

  /** The provider client's summary call. */
  type SummaryFetch = string -> Result<Dict, Error>

  /** The provider client's history call, given a symbol and a day count. */
  type HistoryFetch = (string, int) -> Result<Chart, Error>

  /**
   * The series the provider returns for this request has no zero price before its last row,
   * so its percentage change is defined (pandas' infinities are not modelled).
   */
  predicate FetchEnrichable(fetch: HistoryFetch, sym: string, days: Option<int>)
  {
    var answer := fetch(sym, ResolveDays(days));
    ValidDays(ResolveDays(days)) && answer.Ok? ==> Enrichable(answer.value)
  }

  // ---------------------------------------------------------------------------------------
  // Handlers

  /** `GET /crypto/{symbol}`. */
  function GetCryptoSummary(symbol: string, fetch: SummaryFetch): (r: Response)
    ensures fetch(Normalize(symbol)).Err? ==> r == ServerError(fetch(Normalize(symbol)).error)
    ensures fetch(Normalize(symbol)).Ok? ==> r == Success(SummaryBody(Summarize(fetch(Normalize(symbol)).value)))
  {
    match fetch(Normalize(symbol))
    case Err(e) => ServerError(e)
    case Ok(data) => Success(SummaryBody(Summarize(data)))
  }

  /** `GET /crypto/history/{symbol}?days=&include_pct_change=`. */
  function GetCryptoHistory(symbol: string, days: Option<int>, includePctChange: bool, fetch: HistoryFetch)
    : (r: Response)
    requires includePctChange ==> FetchEnrichable(fetch, Normalize(symbol), days)
    ensures Status(r) == 422 <==> !ValidDays(ResolveDays(days))
    ensures !ValidDays(ResolveDays(days)) ==> r == Rejected("days")
    ensures ValidDays(ResolveDays(days)) ==>
      var answer := fetch(Normalize(symbol), ResolveDays(days));
      (answer.Err? ==> r == ServerError(answer.error)) &&
      (answer.Ok? && PRICES !in answer.value ==> r == ServerError(KeyError(PRICES))) &&
      (answer.Ok? && PRICES in answer.value ==>
        r == Success(RecordsBody(ToRecords(ProcessHistoricalData(answer.value, includePctChange).value))) &&
        |r.body.records| == |answer.value[PRICES]| &&
        forall i :: 0 <= i < |r.body.records| ==>
          |r.body.records[i]| == (if includePctChange then 5 else 2) &&
          r.body.records[i][0] == ("timestamp", Time(answer.value[PRICES][i].timestamp)) &&
          r.body.records[i][1] == ("price", Num(answer.value[PRICES][i].price)))
  {
    var n := ResolveDays(days);
    if !ValidDays(n) then Rejected("days")
    else match fetch(Normalize(symbol), n)
      case Err(e) => ServerError(e)
      case Ok(data) =>
        match ProcessHistoricalData(data, includePctChange)
        case Err(e) => ServerError(e)
        case Ok(df) =>
          SeriesRecords(data, includePctChange);
          Success(RecordsBody(ToRecords(df)))
  }

  /**
   * The shared body of both downloads, for the already normalised symbol `sym`: fetch,
   * process, select the export columns, name the file.
   */
  function Download(sym: string, days: Option<int>, isFull: bool, fetch: HistoryFetch): (r: Response)
    requires isFull ==> FetchEnrichable(fetch, sym, days)
    ensures Status(r) == 422 <==> !ValidDays(ResolveDays(days))
    ensures !ValidDays(ResolveDays(days)) ==> r == Rejected("days")
    ensures ValidDays(ResolveDays(days)) ==>
      var answer := fetch(sym, ResolveDays(days));
      (answer.Err? ==> r == ServerError(answer.error)) &&
      (answer.Ok? && PRICES !in answer.value ==> r == ServerError(KeyError(PRICES))) &&
      (answer.Ok? && PRICES in answer.value ==>
        r == Success(FileBody(ProcessHistoricalData(answer.value, isFull).value,
          sym + (if isFull then "_full_history.csv" else "_basic_history.csv"),
          CSV_MEDIA_TYPE)) &&
        r.body.table.columns == ExportColumns(isFull) &&
        r.body.table.height == |answer.value[PRICES]|)
  {
    var n := ResolveDays(days);
    if !ValidDays(n) then Rejected("days")
    else match fetch(sym, n)
      case Err(e) => ServerError(e)
      case Ok(data) =>
        match ProcessHistoricalData(data, isFull)
        case Err(e) => ServerError(e)
        case Ok(df) =>
          ExportPairing(data, isFull, isFull);
          match GenerateCsv(df, isFull)
          case Err(e) => ServerError(e)
          case Ok(table) =>
            var kind := if isFull then "_full_history.csv" else "_basic_history.csv";
            Success(FileBody(table, sym + kind, CSV_MEDIA_TYPE))
  }

  /** `GET /crypto/history/{symbol}/download/basic`: the unenriched series, basic columns. */
  function DownloadBasicCsv(symbol: string, days: Option<int>, fetch: HistoryFetch): (r: Response)
    ensures Status(r) == 422 <==> !ValidDays(ResolveDays(days))
    ensures r.Success? ==> (r.body.FileBody? && r.body.table.columns == BASIC_COLUMNS &&
      r.body.filename == Normalize(symbol) + "_basic_history.csv" && r.body.mediaType == "text/csv")
  {
    Download(Normalize(symbol), days, false, fetch)
  }

  /** `GET /crypto/history/{symbol}/download/full`: the enriched series, all five columns. */
  function DownloadFullCsv(symbol: string, days: Option<int>, fetch: HistoryFetch): (r: Response)
    requires FetchEnrichable(fetch, Normalize(symbol), days)
    ensures Status(r) == 422 <==> !ValidDays(ResolveDays(days))
    ensures r.Success? ==> (r.body.FileBody? && r.body.table.columns == FULL_COLUMNS &&
      r.body.filename == Normalize(symbol) + "_full_history.csv" && r.body.mediaType == "text/csv")
  {
    Download(Normalize(symbol), days, true, fetch)
  }

  /**
   * Every export the handlers produce names only columns the processed series has: each
   * download succeeds whenever the provider answers with a price list.
   */
  lemma DownloadsNeverMissColumns(sym: string, days: Option<int>, isFull: bool, fetch: HistoryFetch)
    requires isFull ==> FetchEnrichable(fetch, sym, days)
    requires ValidDays(ResolveDays(days))
    requires fetch(sym, ResolveDays(days)).Ok?
    requires PRICES in fetch(sym, ResolveDays(days)).value
    ensures Download(sym, days, isFull, fetch).Success?
  {
  }

  /** A symbol that normalises like another gets the same response from every handler. */
  lemma SameSymbolSameResponse(a: string, b: string, days: Option<int>, enrich: bool,
                                summaries: SummaryFetch, fetch: HistoryFetch)
    requires Normalize(a) == Normalize(b)
    requires FetchEnrichable(fetch, Normalize(a), days)
    ensures GetCryptoSummary(a, summaries) == GetCryptoSummary(b, summaries)
    ensures GetCryptoHistory(a, days, enrich, fetch) == GetCryptoHistory(b, days, enrich, fetch)
    ensures DownloadBasicCsv(a, days, fetch) == DownloadBasicCsv(b, days, fetch)
    ensures DownloadFullCsv(a, days, fetch) == DownloadFullCsv(b, days, fetch)
  {
  }

  /** An absent `days` is the valid default of one day; 400 days is rejected before any fetch. */
  lemma DaysExamples(symbol: string, fetch: HistoryFetch)
    ensures ResolveDays(None) == 1 && ValidDays(ResolveDays(None))
    ensures DownloadBasicCsv(symbol, Some(400), fetch) == Rejected("days")
    ensures GetCryptoHistory(symbol, Some(0), false, fetch) == Rejected("days")
  {
  }

  // ---------------------------------------------------------------------------------------
  // Rendering the history records as JSON

  /**
   * A record list JSON can carry: no cell is pandas' NaN. Python's encoder, run with
   * `allow_nan=False` by the framework's JSON response, raises on any NaN.
   */
  predicate JsonCompliant(records: seq<Record>)
  {
    forall i, j :: 0 <= i < |records| && 0 <= j < |records[i]| ==> !records[i][j].1.NaN?
  }

  /**
   * The framework's rendering of a handler's return value. A record list with a NaN raises
   * after the handler returned, outside its `try`, and becomes a bare 500.
   */
  function Render(r: Response): (out: Response)
    ensures r.Success? && r.body.RecordsBody? && !JsonCompliant(r.body.records) ==>
      out == Failure(500, "Internal Server Error")
    ensures !(r.Success? && r.body.RecordsBody?) || JsonCompliant(r.body.records) ==> out == r
  {
    if r.Success? && r.body.RecordsBody? && !JsonCompliant(r.body.records) then
      Failure(500, "Internal Server Error")
    else r
  }

  /**
   * As written, an enriched history of at least one sample always fails to render: its first
   * percentage change is NaN.
   */
  lemma EnrichedHistoryNotJsonCompliant(symbol: string, days: Option<int>, fetch: HistoryFetch)
    requires FetchEnrichable(fetch, Normalize(symbol), days)
    requires ValidDays(ResolveDays(days))
    requires fetch(Normalize(symbol), ResolveDays(days)).Ok?
    requires PRICES in fetch(Normalize(symbol), ResolveDays(days)).value
    requires |fetch(Normalize(symbol), ResolveDays(days)).value[PRICES]| >= 1
    ensures Render(GetCryptoHistory(symbol, days, true, fetch)) == Failure(500, "Internal Server Error")
  {
    var data := fetch(Normalize(symbol), ResolveDays(days)).value;
    var rs := ToRecords(ProcessHistoricalData(data, true).value);
    assert GetCryptoHistory(symbol, days, true, fetch) == Success(RecordsBody(rs));
    FirstEnrichedRecord(data);
    assert !JsonCompliant(rs);
  }

  /** A missing cell rendered as JSON `null`, as `df.replace({np.nan: None})` would give. */
  function NullForNaN(records: seq<Record>): (out: seq<Record>)
    ensures JsonCompliant(out)
    ensures |out| == |records|
    ensures forall i :: 0 <= i < |out| ==> |out[i]| == |records[i]|
    ensures forall i, j :: 0 <= i < |out| && 0 <= j < |out[i]| ==>
      out[i][j].0 == records[i][j].0 &&
      out[i][j].1 == (if records[i][j].1.NaN? then Null else records[i][j].1)
  {
    seq(|records|, i requires 0 <= i < |records| =>
      seq(|records[i]|, j requires 0 <= j < |records[i]| =>
        (records[i][j].0, if records[i][j].1.NaN? then Null else records[i][j].1)))
  }

  /** The history handler with missing cells sent as `null`. */
  function GetCryptoHistoryCorrected(symbol: string, days: Option<int>, includePctChange: bool, fetch: HistoryFetch)
    : (r: Response)
    requires includePctChange ==> FetchEnrichable(fetch, Normalize(symbol), days)
    ensures Render(r) == r
    ensures Status(r) == Status(GetCryptoHistory(symbol, days, includePctChange, fetch))
    ensures var h := GetCryptoHistory(symbol, days, includePctChange, fetch);
      h.Success? ==> h.body.RecordsBody? && r == Success(RecordsBody(NullForNaN(h.body.records)))
    ensures var h := GetCryptoHistory(symbol, days, includePctChange, fetch);
      !h.Success? ==> r == h
  {
    var h := GetCryptoHistory(symbol, days, includePctChange, fetch);
    if h.Success? && h.body.RecordsBody? then Success(RecordsBody(NullForNaN(h.body.records))) else h
  }
}
