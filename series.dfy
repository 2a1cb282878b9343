/**
 * The price-series half of `backend/utils.py`: `process_historical_data`, which turns the
 * provider's `prices` list into a pandas data frame and, on request, adds the percentage
 * change, the 3-day rolling average and the 3-day rolling volatility; the column selection of
 * `generate_csv`; and `DataFrame.to_dict(orient='records')`, which the history endpoint returns.
 *
 * A data frame is a value here: `df[name] = column` is `WithColumn`, which yields the frame
 * with that column set. Nothing else holds the frame while it is built, so no update is lost.
 */
module Series {
  import opened Base

  /** One `[timestamp, price]` pair of the provider's `prices` list (epoch milliseconds). */
  datatype Sample = Sample(timestamp: int, price: real)

  /** The provider's market-chart payload: `prices`, `market_caps`, `total_volumes`. */
  type Chart = map<string, seq<Sample>>

  /**
   * A data-frame cell. `Time` is a converted timestamp, carried as its milliseconds.
   * `Root(v)` is the non-negative square root of `v`. It stays symbolic because the
   * reals here have no square root function. `NaN` is pandas' missing value.
   * `Null` is Python's `None` in an object column.
   */
  datatype Cell = Time(ms: int) | Num(x: real) | Root(radicand: real) | NaN | Null

  const PRICES := "prices"

  /**
   * The columns the backend's data frames carry. Only these five labels are ever used, so
   * a column is named by one of them; `Name` gives the pandas label.
   */
  datatype Column = TimestampCol | PriceCol | PctChangeCol | RollingAvg3dCol | Volatility3dCol

  function Name(c: Column): string
  {
    match c
    case TimestampCol => "timestamp"
    case PriceCol => "price"
    case PctChangeCol => "pct_change"
    case RollingAvg3dCol => "rolling_avg_3d"
    case Volatility3dCol => "volatility_3d"
  }

  function Names(cs: seq<Column>): (ns: seq<string>)
    ensures |ns| == |cs| && forall i :: 0 <= i < |cs| ==> ns[i] == Name(cs[i])
  {
    seq(|cs|, i requires 0 <= i < |cs| => Name(cs[i]))
  }

  /** The `window=3` of both rolling statistics; pandas' `min_periods` defaults to it. */
  const WINDOW := 3

  const BASIC_COLUMNS: seq<Column> := [TimestampCol, PriceCol]
  const FULL_COLUMNS: seq<Column> := [TimestampCol, PriceCol, PctChangeCol, RollingAvg3dCol, Volatility3dCol]

  predicate Distinct(names: seq<Column>)
  {
    forall i, j :: 0 <= i < j < |names| ==> names[i] != names[j]
  }

  /** A pandas data frame: ordered column names, one cell sequence per name, all of one height. */
  datatype Frame = Frame(columns: seq<Column>, data: map<Column, seq<Cell>>, height: nat)
  {
    predicate Valid()
    {
      Distinct(columns) &&
      data.Keys == (set c | c in columns) &&
      forall c :: c in data ==> |data[c]| == height
    }
  }

  function Prices(samples: seq<Sample>): (p: seq<real>)
    ensures |p| == |samples|
    ensures forall i :: 0 <= i < |samples| ==> p[i] == samples[i].price
  {
    seq(|samples|, i requires 0 <= i < |samples| => samples[i].price)
  }

  function NumCells(p: seq<real>): (cells: seq<Cell>)
    ensures |cells| == |p|
    ensures forall i :: 0 <= i < |p| ==> cells[i] == Num(p[i])
  {
    seq(|p|, i requires 0 <= i < |p| => Num(p[i]))
  }

  function TimeCells(samples: seq<Sample>): (cells: seq<Cell>)
    ensures |cells| == |samples|
    ensures forall i :: 0 <= i < |samples| ==> cells[i] == Time(samples[i].timestamp)
  {
    seq(|samples|, i requires 0 <= i < |samples| => Time(samples[i].timestamp))
  }

  /** `pd.DataFrame(prices, columns=['timestamp', 'price'])` followed by the timestamp conversion. */
  function FromSamples(samples: seq<Sample>): (df: Frame)
    ensures df.Valid() && df.columns == BASIC_COLUMNS && df.height == |samples|
    ensures df.data[TimestampCol] == TimeCells(samples) && df.data[PriceCol] == NumCells(Prices(samples))
  {
    Frame(BASIC_COLUMNS, map[TimestampCol := TimeCells(samples), PriceCol := NumCells(Prices(samples))], |samples|)
  }

  /** `df[name] = cells`: replaces the column of that name, or appends it as the last column. */
  function WithColumn(df: Frame, name: Column, cells: seq<Cell>): (r: Frame)
    requires df.Valid() && |cells| == df.height
    ensures r.Valid() && r.height == df.height
    ensures name in df.data ==> r.columns == df.columns
    ensures name !in df.data ==> r.columns == df.columns + [name]
    ensures r.data == df.data[name := cells]
  {
    Frame(if name in df.data then df.columns else df.columns + [name], df.data[name := cells], df.height)
  }

  // ---------------------------------------------------------------------------------------
  // Percentage change

  /** Every price that serves as a predecessor is non-zero, so no percentage change divides by zero. */
  predicate Divisible(p: seq<real>)
  {
    forall i :: 0 <= i < |p| - 1 ==> p[i] != 0.0
  }

  predicate Enrichable(data: Chart)
  {
    PRICES in data ==> Divisible(Prices(data[PRICES]))
  }

  /**
   * `price.pct_change() * 100`, as pandas computes it: `p[i] / p[i-1] - 1`, missing in row 0.
   * The contract states the documented formula `(p[i] - p[i-1]) / p[i-1] * 100`.
   */
  function PctChange(p: seq<real>): (r: seq<Cell>)
    requires Divisible(p)
    ensures |r| == |p|
    ensures |p| > 0 ==> r[0] == NaN
    ensures forall i :: 1 <= i < |p| ==> r[i] == Num((p[i] - p[i-1]) / p[i-1] * 100.0)
  {
    var r := seq(|p|, i requires 0 <= i < |p| => if i == 0 then NaN else Num((p[i] / p[i-1] - 1.0) * 100.0));
    assert forall i :: 1 <= i < |p| ==> r[i] == Num((p[i] - p[i-1]) / p[i-1] * 100.0) by {
      forall i | 1 <= i < |p| ensures r[i] == Num((p[i] - p[i-1]) / p[i-1] * 100.0) {
        RatioMinusOne(p[i], p[i-1]);
      }
    }
    r
  }

  lemma RatioMinusOne(a: real, b: real)
    requires b != 0.0
    ensures (a / b - 1.0) * 100.0 == (a - b) / b * 100.0
  {
    assert b / b == 1.0;
    assert (a - b) / b == a / b - b / b;
  }

  // ---------------------------------------------------------------------------------------
  // Rolling statistics

  /** First row of the window that pandas' `rolling(window=3)` uses for row `i`. */
  function WindowStart(i: nat): nat
  {
    if i + 1 < WINDOW then 0 else i + 1 - WINDOW
  }

  /** The rows `max(0, i-2) .. i` of a column. */
  function Window(col: seq<Cell>, i: nat): seq<Cell>
    requires i < |col|
  {
    col[WindowStart(i)..i + 1]
  }

  /** The values of the non-missing (`Num`) cells, in order. */
  function Observations(w: seq<Cell>): (xs: seq<real>)
    ensures |xs| <= |w|
  {
    if w == [] then [] else (if w[0].Num? then [w[0].x] else []) + Observations(w[1..])
  }

  function Sum(xs: seq<real>): real
  {
    if xs == [] then 0.0 else xs[0] + Sum(xs[1..])
  }

  function Mean(xs: seq<real>): real
    requires |xs| > 0
  {
    Sum(xs) / |xs| as real
  }

  function SumSquaredDeviations(xs: seq<real>, m: real): real
  {
    if xs == [] then 0.0 else (xs[0] - m) * (xs[0] - m) + SumSquaredDeviations(xs[1..], m)
  }

  /** The sample variance, with the `n - 1` denominator of pandas' default `ddof=1`. */
  function SampleVariance(xs: seq<real>): real
    requires |xs| >= 2
  {
    SumSquaredDeviations(xs, Mean(xs)) / (|xs| - 1) as real
  }

  datatype Stat = MeanStat | StdStat

  function Aggregate(stat: Stat, xs: seq<real>): Cell
    requires |xs| >= 2
  {
    match stat
    case MeanStat => Num(Mean(xs))
    case StdStat => Root(SampleVariance(xs))
  }

  /**
   * `col.rolling(window=3).mean()` or `.std()`: a row whose window holds fewer than
   * `min_periods = 3` non-missing observations is missing.
   */
  function Rolling(col: seq<Cell>, stat: Stat): (r: seq<Cell>)
    ensures |r| == |col|
  {
    seq(|col|, i requires 0 <= i < |col| =>
      var xs := Observations(Window(col, i));
      if |xs| < WINDOW then NaN else Aggregate(stat, xs))
  }

  // ---------------------------------------------------------------------------------------
  // process_historical_data

  /** The three column assignments of `process_historical_data` under `include_pct_change`. */
  function Enrich(df: Frame, p: seq<real>): (r: Frame)
    requires df.Valid() && df.columns == BASIC_COLUMNS && df.height == |p| && Divisible(p)
    ensures r.Valid() && r.columns == FULL_COLUMNS && r.height == df.height
    ensures r.data == df.data[PctChangeCol := PctChange(p)][RollingAvg3dCol := Rolling(NumCells(p), MeanStat)]
      [Volatility3dCol := Rolling(PctChange(p), StdStat)]
  {
    var pct := PctChange(p);
    AppendDerived(df, pct, Rolling(NumCells(p), MeanStat), Rolling(pct, StdStat))
  }

  /** `df['pct_change'] = pct`, `df['rolling_avg_3d'] = avg`, `df['volatility_3d'] = vol`, in that order. */
  function AppendDerived(df: Frame, pct: seq<Cell>, avg: seq<Cell>, vol: seq<Cell>): (r: Frame)
    requires df.Valid() && df.columns == BASIC_COLUMNS
    requires |pct| == |avg| == |vol| == df.height
    ensures r.Valid() && r.columns == FULL_COLUMNS && r.height == df.height
    ensures r.data == df.data[PctChangeCol := pct][RollingAvg3dCol := avg][Volatility3dCol := vol]
  {
    assert PctChangeCol !in df.data && RollingAvg3dCol !in df.data && Volatility3dCol !in df.data;
    var df1 := WithColumn(df, PctChangeCol, pct);
    assert df1.columns == BASIC_COLUMNS + [PctChangeCol];
    var df2 := WithColumn(df1, RollingAvg3dCol, avg);
    assert df2.columns == BASIC_COLUMNS + [PctChangeCol] + [RollingAvg3dCol];
    var r := WithColumn(df2, Volatility3dCol, vol);
    assert r.columns == BASIC_COLUMNS + [PctChangeCol] + [RollingAvg3dCol] + [Volatility3dCol];
    r
  }

  /**
   * `process_historical_data(data, include_pct_change)`. A payload without `prices` raises
   * `KeyError('prices')`; otherwise one row per sample, in order, with the three derived
   * columns appended exactly when they are asked for.
   */
  function ProcessHistoricalData(data: Chart, includePctChange: bool): (r: Result<Frame, Error>)
    requires includePctChange ==> Enrichable(data)
    ensures r.Err? <==> PRICES !in data
    ensures r.Err? ==> r.error == KeyError(PRICES)
    ensures r.Ok? ==> r.value.Valid() && r.value.height == |data[PRICES]|
    ensures r.Ok? ==> r.value.columns == if includePctChange then FULL_COLUMNS else BASIC_COLUMNS
    ensures r.Ok? ==> forall i :: 0 <= i < |data[PRICES]| ==>
      r.value.data[TimestampCol][i] == Time(data[PRICES][i].timestamp) &&
      r.value.data[PriceCol][i] == Num(data[PRICES][i].price)
  {
    if PRICES !in data then Err(KeyError(PRICES))
    else
      var df := FromSamples(data[PRICES]);
      if !includePctChange then Ok(df)
      else Ok(Enrich(df, Prices(data[PRICES])))
  }

  /** The enriched frame's derived columns are the percentage change and its two rolling statistics. */
  lemma EnrichedColumns(data: Chart)
    requires Enrichable(data) && PRICES in data
    ensures var df := ProcessHistoricalData(data, true).value;
      var p := Prices(data[PRICES]);
      df.data[PctChangeCol] == PctChange(p) &&
      df.data[RollingAvg3dCol] == Rolling(NumCells(p), MeanStat) &&
      df.data[Volatility3dCol] == Rolling(PctChange(p), StdStat)
  {
  }

  /** Row `i` of the percentage change is missing for row 0, else the change from the day before. */
  lemma PctChangeAt(p: seq<real>, i: nat)
    requires Divisible(p) && i < |p|
    ensures PctChange(p)[i] == if i == 0 then NaN else Num((p[i] - p[i-1]) / p[i-1] * 100.0)
  {
  }

  /** Row `i` of the 3-day rolling average is missing for `i < 2`, else the mean of `p[i-2..i]`. */
  lemma {:induction false} RollingMeanAt(p: seq<real>, i: nat)
    requires i < |p|
    ensures Rolling(NumCells(p), MeanStat)[i] == if i < 2 then NaN else Num((p[i-2] + p[i-1] + p[i]) / 3.0)
  {
    var w := Window(NumCells(p), i);
    if i >= 2 {
      assert w == [Num(p[i-2]), Num(p[i-1]), Num(p[i])];
      ObservationsOfThree(p[i-2], p[i-1], p[i]);
      SumOfThree(p[i-2], p[i-1], p[i]);
    }
  }

  /**
   * Row `i` of the 3-day volatility. Its window must hold three defined percentage changes,
   * and row 0 has none, so the first defined row is 3.
   */
  lemma {:induction false} RollingStdAt(p: seq<real>, i: nat)
    requires Divisible(p) && i < |p|
    ensures Rolling(PctChange(p), StdStat)[i] == if i < 3 then NaN else Root(SampleVariance([
        (p[i-2] - p[i-3]) / p[i-3] * 100.0,
        (p[i-1] - p[i-2]) / p[i-2] * 100.0,
        (p[i] - p[i-1]) / p[i-1] * 100.0]))
  {
    var pct := PctChange(p);
    var w := Window(pct, i);
    if i < 2 {
      assert |Observations(w)| <= |w| <= 2;
    } else if i == 2 {
      assert w[0] == NaN;
      ObservationsSkipsMissing(w);
    } else {
      assert w == [pct[i-2], pct[i-1], pct[i]];
      ObservationsOfThree((p[i-2] - p[i-3]) / p[i-3] * 100.0, (p[i-1] - p[i-2]) / p[i-2] * 100.0,
        (p[i] - p[i-1]) / p[i-1] * 100.0);
    }
  }

  lemma ObservationsOfThree(a: real, b: real, c: real)
    ensures Observations([Num(a), Num(b), Num(c)]) == [a, b, c]
  {
    var w := [Num(a), Num(b), Num(c)];
    assert w[1..] == [Num(b), Num(c)] && w[1..][1..] == [Num(c)] && w[1..][1..][1..] == [];
    assert Observations([Num(c)]) == [c];
    assert Observations([Num(b), Num(c)]) == [b] + [c];
    assert Observations(w) == [a] + [b, c];
  }

  lemma SumOfThree(a: real, b: real, c: real)
    ensures Sum([a, b, c]) == a + b + c
  {
    var xs := [a, b, c];
    assert xs[1..] == [b, c] && xs[1..][1..] == [c] && xs[1..][1..][1..] == [];
    assert Sum([c]) == c;
    assert Sum([b, c]) == b + c;
  }

  /** A window whose first cell is missing has fewer observations than cells. */
  lemma ObservationsSkipsMissing(w: seq<Cell>)
    requires |w| > 0 && w[0] == NaN
    ensures |Observations(w)| < |w|
  {
    assert Observations(w) == Observations(w[1..]);
  }

  /**
   * The sample variance of three values in closed form: never negative, and zero when the
   * three values agree.
   */
  lemma {:induction false} VarianceOfThree(a: real, b: real, c: real)
    ensures var m := (a + b + c) / 3.0;
      SampleVariance([a, b, c]) == ((a - m) * (a - m) + (b - m) * (b - m) + (c - m) * (c - m)) / 2.0
    ensures SampleVariance([a, b, c]) >= 0.0
    ensures a == b == c ==> SampleVariance([a, b, c]) == 0.0
  {
    var xs := [a, b, c];
    var m := (a + b + c) / 3.0;
    SumOfThree(a, b, c);
    assert Mean(xs) == m;
    assert xs[1..] == [b, c] && xs[1..][1..] == [c] && xs[1..][1..][1..] == [];
    assert SumSquaredDeviations([c], m) == (c - m) * (c - m);
    assert SumSquaredDeviations([b, c], m) == (b - m) * (b - m) + (c - m) * (c - m);
    assert SumSquaredDeviations(xs, m) == (a - m) * (a - m) + (b - m) * (b - m) + (c - m) * (c - m);
    SquaresNonNegative(a - m, b - m, c - m);
    if a == b == c {
      assert a - m == 0.0 && b - m == 0.0 && c - m == 0.0;
    }
  }

  lemma SquaresNonNegative(x: real, y: real, z: real)
    ensures x * x + y * y + z * z >= 0.0
  {
    if x < 0.0 {
      assert x * x > 0.0;
    }
    if y < 0.0 {
      assert y * y > 0.0;
    }
    if z < 0.0 {
      assert z * z > 0.0;
    }
  }

  // The worked examples take their series as a parameter pinned by `requires`: a literal
  // argument makes the solver unfold the recursive definitions eagerly and exhaust its budget.

  /** The worked series `100, 110, 121, 108.9` changes by +10 %, +10 %, then -10 %. */
  lemma WorkedPctChange(p: seq<real>)
    requires p == [100.0, 110.0, 121.0, 108.9]
    ensures PctChange(p) == [NaN, Num(10.0), Num(10.0), Num(-10.0)]
  {
    assert p[0] == 100.0 && p[1] == 110.0 && p[2] == 121.0 && p[3] == 108.9;
    assert Divisible(p);
    PctChangeAt(p, 0);
    PctChangeAt(p, 1);
    PctChangeAt(p, 2);
    PctChangeAt(p, 3);
    assert (110.0 - 100.0) / 100.0 * 100.0 == 10.0;
    assert (121.0 - 110.0) / 110.0 * 100.0 == 10.0;
    assert (108.9 - 121.0) / 121.0 * 100.0 == -10.0;
  }

  /** Its 3-day rolling average is defined from row 2 on. */
  lemma WorkedRollingAverage(p: seq<real>)
    requires p == [100.0, 110.0, 121.0, 108.9]
    ensures Rolling(NumCells(p), MeanStat) == [NaN, NaN, Num(331.0 / 3.0), Num(113.3)]
  {
    RollingMeanAt(p, 0);
    RollingMeanAt(p, 1);
    RollingMeanAt(p, 2);
    RollingMeanAt(p, 3);
  }

  /** Its 3-day volatility is defined only at row 3, the sample variance of 10, 10, -10. */
  lemma WorkedVolatility(p: seq<real>)
    requires p == [100.0, 110.0, 121.0, 108.9]
    ensures Rolling(PctChange(p), StdStat) == [NaN, NaN, NaN, Root(400.0 / 3.0)]
  {
    assert p[0] == 100.0 && p[1] == 110.0 && p[2] == 121.0 && p[3] == 108.9;
    assert Divisible(p);
    var vol := Rolling(PctChange(p), StdStat);
    RollingStdAt(p, 0);
    RollingStdAt(p, 1);
    RollingStdAt(p, 2);
    RollingStdAt(p, 3);
    var changes := [(p[1] - p[0]) / p[0] * 100.0, (p[2] - p[1]) / p[1] * 100.0, (p[3] - p[2]) / p[2] * 100.0];
    assert changes == [10.0, 10.0, -10.0];
    WorkedVariance();
    assert vol[3] == Root(400.0 / 3.0);
  }

  /** The sample variance of the worked changes 10, 10, -10 is 400/3. */
  lemma WorkedVariance()
    ensures SampleVariance([10.0, 10.0, -10.0]) == 400.0 / 3.0
  {
    VarianceOfThree(10.0, 10.0, -10.0);
  }

  // ---------------------------------------------------------------------------------------
  // Export shaping and records

  /** The columns `generate_csv` writes: basic or full. */
  function ExportColumns(isFull: bool): seq<Column>
  {
    if isFull then FULL_COLUMNS else BASIC_COLUMNS
  }

  /** The names in `cols` that the frame lacks, in order. */
  function Missing(df: Frame, cols: seq<Column>): seq<Column>
  {
    if cols == [] then []
    else (if cols[0] in df.data then [] else [cols[0]]) + Missing(df, cols[1..])
  }

  /** A name is reported missing exactly when it is requested and the frame lacks it. */
  lemma {:induction false} MissingMembers(df: Frame, cols: seq<Column>)
    ensures forall c :: c in Missing(df, cols) <==> c in cols && c !in df.data
  {
    if cols != [] {
      MissingMembers(df, cols[1..]);
      assert forall c :: c in cols <==> c == cols[0] || c in cols[1..];
    }
  }

  /** `df[cols]`: the frame restricted to `cols`, in that order; a missing name raises `KeyError`. */
  function Select(df: Frame, cols: seq<Column>): (r: Result<Frame, Error>)
    requires df.Valid() && Distinct(cols)
    ensures r.Ok? <==> forall c :: c in cols ==> c in df.data
    ensures r.Err? ==> r.error == ColumnsNotInIndex(Names(Missing(df, cols)))
    ensures r.Ok? ==> r.value.Valid() && r.value.columns == cols && r.value.height == df.height
    ensures r.Ok? ==> forall c :: c in cols ==> r.value.data[c] == df.data[c]
  {
    var missing := Missing(df, cols);
    MissingMembers(df, cols);
    assert missing != [] ==> missing[0] in missing;
    if missing != [] then Err(ColumnsNotInIndex(Names(missing)))
    else Ok(Frame(cols, map c | c in cols :: df.data[c], df.height))
  }

  /** The column selection of `generate_csv(df, is_full)`; writing the file is not modelled. */
  function GenerateCsv(df: Frame, isFull: bool): (r: Result<Frame, Error>)
    requires df.Valid()
    ensures r.Ok? <==> forall c :: c in ExportColumns(isFull) ==> c in df.data
    ensures r.Ok? ==> r.value.Valid() && r.value.columns == ExportColumns(isFull) && r.value.height == df.height
    ensures r.Ok? ==> forall c :: c in ExportColumns(isFull) ==> r.value.data[c] == df.data[c]
  {
    Select(df, ExportColumns(isFull))
  }

  /**
   * Exporting a processed series succeeds exactly when the full layout is asked only of an
   * enriched series; when the layout matches the enrichment, the export is the series itself.
   */
  lemma ExportPairing(data: Chart, enrich: bool, isFull: bool)
    requires enrich ==> Enrichable(data)
    requires PRICES in data
    ensures var df := ProcessHistoricalData(data, enrich).value;
      var t := GenerateCsv(df, isFull);
      (t.Ok? <==> (isFull ==> enrich)) &&
      (t.Ok? ==> t.value.columns == ExportColumns(isFull) && t.value.height == |data[PRICES]|) &&
      (isFull == enrich ==> t == Ok(df))
  {
    var df := ProcessHistoricalData(data, enrich).value;
    if isFull == enrich {
      ExportOwnLayout(df, isFull);
    } else if isFull {
      ExportFullOfBasic(df);
    }
    // A basic export of an enriched series needs no help: both of its columns exist.
  }

  /** Exporting a frame in the layout it already has gives the frame back unchanged. */
  lemma ExportOwnLayout(df: Frame, isFull: bool)
    requires df.Valid() && df.columns == ExportColumns(isFull)
    ensures GenerateCsv(df, isFull) == Ok(df)
  {
    var t := GenerateCsv(df, isFull);
    assert t.value.data == df.data;
  }

  /** A basic frame has no percentage-change column, so the full export raises. */
  lemma ExportFullOfBasic(df: Frame)
    requires df.Valid() && df.columns == BASIC_COLUMNS
    ensures GenerateCsv(df, true) == Err(ColumnsNotInIndex(Names([PctChangeCol, RollingAvg3dCol, Volatility3dCol])))
  {
    MissingFromBasic(df);
  }

  /** Of the full layout, a basic frame lacks exactly the three derived columns. */
  lemma MissingFromBasic(df: Frame)
    requires df.Valid() && df.columns == BASIC_COLUMNS
    ensures Missing(df, FULL_COLUMNS) == [PctChangeCol, RollingAvg3dCol, Volatility3dCol]
  {
    var derived := [PctChangeCol, RollingAvg3dCol, Volatility3dCol];
    assert FULL_COLUMNS == BASIC_COLUMNS + derived;
    MissingAppend(df, BASIC_COLUMNS, derived);
    assert TimestampCol in df.data && PriceCol in df.data;
    assert PctChangeCol !in df.data && RollingAvg3dCol !in df.data && Volatility3dCol !in df.data;
    MissingNone(df, BASIC_COLUMNS);
    MissingAll(df, derived);
  }

  /** Nothing is missing when every requested column is present. */
  lemma {:induction false} MissingNone(df: Frame, cols: seq<Column>)
    requires forall c :: c in cols ==> c in df.data
    ensures Missing(df, cols) == []
  {
    if cols != [] {
      assert cols[0] in cols;
      MissingNone(df, cols[1..]);
    }
  }

  /** Everything is missing when no requested column is present. */
  lemma {:induction false} MissingAll(df: Frame, cols: seq<Column>)
    requires forall c :: c in cols ==> c !in df.data
    ensures Missing(df, cols) == cols
  {
    if cols != [] {
      assert cols[0] in cols;
      MissingAll(df, cols[1..]);
      assert [cols[0]] + cols[1..] == cols;
    }
  }

  /** The missing names of a concatenation are those of each part, in order. */
  lemma {:induction false} MissingAppend(df: Frame, a: seq<Column>, b: seq<Column>)
    ensures Missing(df, a + b) == Missing(df, a) + Missing(df, b)
  {
    if a == [] {
      assert a + b == b;
    } else {
      assert (a + b)[1..] == a[1..] + b;
      MissingAppend(df, a[1..], b);
    }
  }

  /** One record of `to_dict(orient='records')`: column name and cell, in column order. */
  type Record = seq<(string, Cell)>

  /** `df.to_dict(orient='records')`. */
  function ToRecords(df: Frame): (rs: seq<Record>)
    requires df.Valid()
    ensures |rs| == df.height
    ensures forall i :: 0 <= i < |rs| ==> |rs[i]| == |df.columns|
    ensures forall i, j :: 0 <= i < |rs| && 0 <= j < |df.columns| ==>
      rs[i][j] == (Name(df.columns[j]), df.data[df.columns[j]][i])
  {
    seq(df.height, i requires 0 <= i < df.height =>
      seq(|df.columns|, j requires 0 <= j < |df.columns| => (Name(df.columns[j]), df.data[df.columns[j]][i])))
  }

  /**
   * The records of a processed series: one per sample, in order, two or five fields wide,
   * each starting with the sample's timestamp and price.
   */
  lemma SeriesRecords(data: Chart, enrich: bool)
    requires enrich ==> Enrichable(data)
    requires PRICES in data
    ensures var rs := ToRecords(ProcessHistoricalData(data, enrich).value);
      |rs| == |data[PRICES]| &&
      forall i :: 0 <= i < |rs| ==>
        |rs[i]| == (if enrich then 5 else 2) &&
        rs[i][0] == ("timestamp", Time(data[PRICES][i].timestamp)) &&
        rs[i][1] == ("price", Num(data[PRICES][i].price))
  {
    var df := ProcessHistoricalData(data, enrich).value;
    assert df.columns[0] == TimestampCol && df.columns[1] == PriceCol;
  }

  /** The first record of an enriched series carries a missing percentage change. */
  lemma FirstEnrichedRecord(data: Chart)
    requires Enrichable(data) && PRICES in data && |data[PRICES]| >= 1
    ensures var rs := ToRecords(ProcessHistoricalData(data, true).value);
      |rs| >= 1 && |rs[0]| == 5 && rs[0][2] == ("pct_change", NaN)
  {
    var df := ProcessHistoricalData(data, true).value;
    EnrichedColumns(data);
    PctChangeAt(Prices(data[PRICES]), 0);
    assert df.columns[2] == PctChangeCol;
  }
}
