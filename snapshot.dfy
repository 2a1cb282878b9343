/**
 * The market snapshot summary: `summarize_data` with its inner `safe_float`, the standalone
 * `calculate_volatility_24h_ratio`, and Python's `round(x, 4)` that the summary applies.
 *
 * Numbers are exact reals; Python floats are not modelled bit for bit.
 */
module Snapshot {
  import opened Base

  /** A decoded JSON value, as the provider's snapshot dictionary holds it. */
  datatype Json =
    | JNull
    | JBool(b: bool)
    | JInt(i: int)
    | JFloat(x: real)
    | JString(s: string)
    | JArray(items: seq<Json>)
    | JObject(fields: map<string, Json>)

  /** The snapshot dictionary for one coin. */
  type Dict = map<string, Json>

  /** `data.get(key)`: the value, or `None` when the key is absent. */
  function Get(d: Dict, key: string): Json
  {
    if key in d then d[key] else JNull
  }

  /** Whether Python's `isinstance(v, (int, float))` holds; `bool` is a subclass of `int`. */
  predicate IsNumber(v: Json)
  {
    v.JInt? || v.JFloat? || v.JBool?
  }

  /**
   * `safe_float`: `float(v)` for an int or float (so `True` is 1.0), `None` for anything else.
   * No value makes it raise here: an int too large for a Python float, which would raise
   * `OverflowError`, is not modelled.
   */
  function SafeFloat(v: Json): (r: Option<real>)
    ensures r.None? <==> !IsNumber(v)
    ensures v.JFloat? ==> r == Some(v.x)
    ensures v.JInt? ==> r == Some(v.i as real)
    ensures v.JBool? ==> r == Some(if v.b then 1.0 else 0.0)
  {
    match v
    case JInt(i) => Some(i as real)
    case JFloat(x) => Some(x)
    case JBool(b) => Some(if b then 1.0 else 0.0)
    case _ => None
  }

  /** Python truthiness of an optional float: present and non-zero. */
  predicate Truthy(o: Option<real>)
  {
    o.Some? && o.value != 0.0
  }

  function Abs(x: real): real
  {
    if x < 0.0 then -x else x
  }

  // ---------------------------------------------------------------------------------------
  // round(x, 4)

  /**
   * Rounding to an integer with ties to even, as Python's `round` does: the result is within
   * one half of `y`, and at an exact half it is the even neighbour.
   */
  function RoundHalfEven(y: real): (n: int)
    ensures Abs(y - n as real) <= 0.5
    ensures Abs(y - n as real) == 0.5 ==> n % 2 == 0
  {
    var f := y.Floor;
    var frac := y - f as real;
    if frac < 0.5 then f
    else if frac > 0.5 then f + 1
    else if f % 2 == 0 then f
    else f + 1
  }

  /** No integer is nearer to `y` than the rounded one. */
  lemma RoundHalfEvenNearest(y: real, m: int)
    ensures Abs(y - RoundHalfEven(y) as real) <= Abs(y - m as real)
  {
    var f := y.Floor;
    assert f as real <= y < f as real + 1.0;
    if m <= f - 1 {
      assert Abs(y - m as real) >= 1.0;
    } else if m >= f + 2 {
      assert Abs(y - m as real) > 1.0;
    }
  }

  /** An integer is its own rounding. */
  lemma RoundHalfEvenOfInteger(k: int)
    ensures RoundHalfEven(k as real) == k
  {
    assert (k as real).Floor == k;
  }

  /**
   * `round(x, 4)`: the nearest multiple of 0.0001; at an exact tie, the multiple whose count of
   * ten-thousandths is even.
   */
  function Round4(x: real): (r: real)
    ensures Abs(r - x) <= 0.00005
    ensures (r * 10000.0).Floor as real == r * 10000.0
    ensures Abs(r - x) == 0.00005 ==> (r * 10000.0).Floor % 2 == 0
  {
    var y := x * 10000.0;
    var n := RoundHalfEven(y);
    var r := n as real / 10000.0;
    assert r * 10000.0 == n as real;
    assert r - x == (n as real - y) / 10000.0;
    assert Abs(r - x) == Abs(y - n as real) / 10000.0;
    assert (n as real).Floor == n;
    r
  }

  /** A value with at most four decimal places is left unchanged by `round(x, 4)`. */
  lemma Round4OfFourPlaces(k: int)
    ensures Round4(k as real / 10000.0) == k as real / 10000.0
  {
    assert (k as real / 10000.0) * 10000.0 == k as real;
    RoundHalfEvenOfInteger(k);
  }

  /** Rounding is idempotent: a rounded value rounds to itself. */
  lemma Round4Idempotent(x: real)
    ensures Round4(Round4(x)) == Round4(x)
  {
    var n := RoundHalfEven(x * 10000.0);
    assert Round4(x) == n as real / 10000.0;
    Round4OfFourPlaces(n);
  }

  // ---------------------------------------------------------------------------------------
  // Volatility ratio

  /**
   * The standalone `calculate_volatility_24h_ratio`: only the current price is tested, so
   * a missing high or low with a non-zero price raises `TypeError` on the subtraction.
   */
  function CalculateVolatility24hRatio(high: Option<real>, low: Option<real>, current: Option<real>)
    : (r: Result<Option<real>, Error>)
    ensures r == Ok(None) <==> !Truthy(current)
    ensures r.Err? <==> Truthy(current) && (high.None? || low.None?)
    ensures r.Err? ==> r.error == TypeError(SubtractionError(high, low))
    ensures r.Ok? && r.value.Some? ==> r.value.value * current.value == high.value - low.value
  {
    if !Truthy(current) then Ok(None)
    else if high.None? || low.None? then Err(TypeError(SubtractionError(high, low)))
    else
      var q := (high.value - low.value) / current.value;
      assert q * current.value == high.value - low.value;
      Ok(Some(q))
  }

  /** The message Python gives for `high - low` when either side is `None`. */
  function SubtractionError(high: Option<real>, low: Option<real>): string
  {
    "unsupported operand type(s) for -: '" + TypeName(high) + "' and '" + TypeName(low) + "'"
  }

  function TypeName(o: Option<real>): string
  {
    if o.None? then "NoneType" else "float"
  }

  /**
   * The ratio inside `summarize_data`: defined only when high, low and current price are all
   * present and non-zero, and then the rounded `(high - low) / current`.
   */
  function VolatilityRatio(high: Option<real>, low: Option<real>, current: Option<real>): (r: Option<real>)
    ensures r.Some? <==> Truthy(high) && Truthy(low) && Truthy(current)
    ensures r.Some? ==> r.value == Round4((high.value - low.value) / current.value)
    ensures r.Some? ==> Abs(r.value - (high.value - low.value) / current.value) <= 0.00005
  {
    if Truthy(high) && Truthy(low) && Truthy(current) then
      Some(Round4((high.value - low.value) / current.value))
    else None
  }

  /**
   * Where all three inputs are non-zero the summary's ratio is the standalone ratio rounded
   * to four places.
   */
  lemma RatioAgreesWithStandalone(high: real, low: real, current: real)
    requires high != 0.0 && low != 0.0 && current != 0.0
    ensures var t := CalculateVolatility24hRatio(Some(high), Some(low), Some(current));
      t.Ok? && t.value.Some? &&
      VolatilityRatio(Some(high), Some(low), Some(current)) == Some(Round4(t.value.value))
  {
  }

  /**
   * The two rules differ on a zero low (or high): the standalone function still divides,
   * the summary reports no ratio.
   */
  lemma RatioRulesDifferOnZeroLow(high: real, current: real)
    requires current != 0.0
    ensures CalculateVolatility24hRatio(Some(high), Some(0.0), Some(current)) == Ok(Some(high / current))
    ensures VolatilityRatio(Some(high), Some(0.0), Some(current)) == None
  {
  }

  // ---------------------------------------------------------------------------------------
  // Summary

  /** The dictionary `summarize_data` returns, one field per key in the same order. */
  datatype Summary = Summary(
    name: Json,                       // "name"
    symbol: Json,                     // "symbol"
    currentPrice: Option<real>,       // "current_price"
    high24h: Option<real>,            // "high_24h"
    low24h: Option<real>,             // "low_24h"
    volatility24hRatio: Option<real>, // "volatility_24h_ratio"
    priceChange1h: Json,              // "price_change_percentage_1h"
    priceChange24h: Json,             // "price_change_percentage_24h"
    priceChange7d: Json,              // "price_change_percentage_7d"
    priceChange30d: Json,             // "price_change_percentage_30d"
    marketCap: Option<real>,          // "market_cap"
    totalVolume: Option<real>)        // "total_volume"

  /** `summarize_data(data)`. */
  function Summarize(d: Dict): (s: Summary)
    ensures s.volatility24hRatio.Some? <==> Truthy(s.high24h) && Truthy(s.low24h) && Truthy(s.currentPrice)
    ensures s.volatility24hRatio.Some? ==>
      s.volatility24hRatio.value == Round4((s.high24h.value - s.low24h.value) / s.currentPrice.value)
    ensures s.volatility24hRatio.Some? ==>
      Abs(s.volatility24hRatio.value - (s.high24h.value - s.low24h.value) / s.currentPrice.value) <= 0.00005
  {
    var current := SafeFloat(Get(d, "current_price"));
    var high := SafeFloat(Get(d, "high_24h"));
    var low := SafeFloat(Get(d, "low_24h"));
    Summary(
      Get(d, "name"),
      Get(d, "symbol"),
      current,
      high,
      low,
      VolatilityRatio(high, low, current),
      Get(d, "price_change_percentage_1h_in_currency"),
      Get(d, "price_change_percentage_24h_in_currency"),
      Get(d, "price_change_percentage_7d_in_currency"),
      Get(d, "price_change_percentage_30d_in_currency"),
      SafeFloat(Get(d, "market_cap")),
      SafeFloat(Get(d, "total_volume")))
  }

  /**
   * The coerced fields are `safe_float` of the snapshot's value under their key: present
   * exactly when the snapshot holds a number there, and then that number; nothing that is not
   * a number (a string, an object, a missing key) gets through.
   */
  lemma SummaryCoercion(d: Dict)
    ensures var s := Summarize(d);
      s.currentPrice == SafeFloat(Get(d, "current_price")) &&
      s.high24h == SafeFloat(Get(d, "high_24h")) &&
      s.low24h == SafeFloat(Get(d, "low_24h")) &&
      s.marketCap == SafeFloat(Get(d, "market_cap")) &&
      s.totalVolume == SafeFloat(Get(d, "total_volume"))
    ensures var s := Summarize(d);
      (s.currentPrice.Some? <==> "current_price" in d && IsNumber(d["current_price"])) &&
      (s.high24h.Some? <==> "high_24h" in d && IsNumber(d["high_24h"])) &&
      (s.low24h.Some? <==> "low_24h" in d && IsNumber(d["low_24h"])) &&
      (s.marketCap.Some? <==> "market_cap" in d && IsNumber(d["market_cap"])) &&
      (s.totalVolume.Some? <==> "total_volume" in d && IsNumber(d["total_volume"]))
  {
  }

  /** Name, symbol and the four percentage changes are copied unchanged (`None` when absent). */
  lemma SummaryPassThrough(d: Dict)
    ensures var s := Summarize(d);
      s.name == Get(d, "name") && s.symbol == Get(d, "symbol") &&
      s.priceChange1h == Get(d, "price_change_percentage_1h_in_currency") &&
      s.priceChange24h == Get(d, "price_change_percentage_24h_in_currency") &&
      s.priceChange7d == Get(d, "price_change_percentage_7d_in_currency") &&
      s.priceChange30d == Get(d, "price_change_percentage_30d_in_currency")
  {
  }

  /** Dropping `high_24h` from the snapshot changes only the high and the ratio of its summary. */
  lemma MissingHighChangesOnlyHigh(d: Dict)
    ensures Summarize(d - {"high_24h"}) == Summarize(d).(high24h := None, volatility24hRatio := None)
  {
    var e := d - {"high_24h"};
    assert "high_24h" !in e;
    forall k | k != "high_24h"
      ensures Get(e, k) == Get(d, k)
    {
    }
    assert "current_price" != "high_24h" && "low_24h" != "high_24h" && "name" != "high_24h";
    assert "symbol" != "high_24h" && "market_cap" != "high_24h" && "total_volume" != "high_24h";
    assert "price_change_percentage_1h_in_currency" != "high_24h";
    assert "price_change_percentage_24h_in_currency" != "high_24h";
    assert "price_change_percentage_7d_in_currency" != "high_24h";
    assert "price_change_percentage_30d_in_currency" != "high_24h";
  }

  /** A snapshot with high 51000, low 49000 and price 50000 has a ratio of 0.04. */
  lemma SummaryExample()
    ensures var d := map["current_price" := JInt(50000), "high_24h" := JInt(51000), "low_24h" := JFloat(49000.0)];
      Summarize(d).volatility24hRatio == Some(0.04)
  {
    var d := map["current_price" := JInt(50000), "high_24h" := JInt(51000), "low_24h" := JFloat(49000.0)];
    assert Get(d, "current_price") == JInt(50000);
    assert Get(d, "high_24h") == JInt(51000);
    assert Get(d, "low_24h") == JFloat(49000.0);
    assert (51000.0 - 49000.0) / 50000.0 == 400 as real / 10000.0;
    Round4OfFourPlaces(400);
  }
}
