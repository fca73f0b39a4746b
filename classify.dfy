/**
 * Context classification of an ordered price (or exchange-rate) series.
 * Every point gets three labels: the change against the previous point,
 * the trend of the point against the long simple moving average, and the
 * momentum of the short average against the long one.  "UNKNOWN" marks
 * every label for which there is not enough history.
 */
module Classify {
  import opened Wrappers

  datatype Label = UNKNOWN | UP | DOWN | FLAT | ABOVE | BELOW | AT | BEAT | MISS | INLINE

  /** The label as the context tables store it. */
  function Name(l: Label): (s: string)
    ensures |s| > 0 && forall i :: 0 <= i < |s| ==> 'A' <= s[i] <= 'Z'
  {
    match l
    case UNKNOWN => "UNKNOWN" case UP => "UP" case DOWN => "DOWN" case FLAT => "FLAT"
    case ABOVE => "ABOVE" case BELOW => "BELOW" case AT => "AT"
    case BEAT => "BEAT" case MISS => "MISS" case INLINE => "INLINE"
  }

  /** Reading a stored label back; None for any other text. */
  function LabelNamed(s: string): (r: Option<Label>)
    ensures r.Some? ==> Name(r.value) == s
  {
    if s == "UNKNOWN" then Some(UNKNOWN) else if s == "UP" then Some(UP)
    else if s == "DOWN" then Some(DOWN) else if s == "FLAT" then Some(FLAT)
    else if s == "ABOVE" then Some(ABOVE) else if s == "BELOW" then Some(BELOW)
    else if s == "AT" then Some(AT) else if s == "BEAT" then Some(BEAT)
    else if s == "MISS" then Some(MISS) else if s == "INLINE" then Some(INLINE)
    else None
  }

  lemma LabelNamedOfName(l: Label)
    ensures LabelNamed(Name(l)) == Some(l)
  {
  }

  /** Rate-change, trend and momentum labels of one observation. */
  datatype Context = Context(rcd: Label, td: Label, md: Label)

  /** A classified point, as the services see it. */
  datatype Labelled = Labelled(dt: int, ctx: Context)

  /** A classified point, as the context-index builders see it. */
  datatype Observation = Observation(dt: int, close: real, ctx: Context, change: Option<real>)

  /** Per-instrument thresholds of the hourly market service and its index builder. */
  const MarketThresholds: map<string, real> :=
    map["EURUSD" := 0.0003, "DXY" := 0.0003, "BTC" := 0.002,
        "ETH" := 0.003, "GOLD" := 0.001, "OIL" := 0.002]
  const MarketDefaultThreshold: real := 0.001
  const MarketSmaShort: int := 24
  const MarketSmaLong: int := 168

  /** The daily ECB service uses one threshold for every currency. */
  const EcbThreshold: real := 0.0003
  const EcbSmaShort: int := 5
  const EcbSmaLong: int := 20

  function MarketThreshold(instrument: string): (t: real)
    ensures t > 0.0
    ensures instrument !in MarketThresholds ==> t == MarketDefaultThreshold
  {
    Get(MarketThresholds, instrument, MarketDefaultThreshold)
  }

  function Abs(x: real): real { if x < 0.0 then -x else x }

  /**
   * Relative direction of a against b: UNKNOWN without both values or with
   * a zero base, otherwise up, down or flat as (a - b) / |b| lies above
   * threshold, below -threshold, or in between.
   */
  function DirectionLabel(a: Option<real>, b: Option<real>, threshold: real,
                          up: Label, down: Label, flat: Label): (r: Label)
    ensures r == UNKNOWN || r == up || r == down || r == flat
    ensures a.None? || b.None? || b.value == 0.0 ==> r == UNKNOWN
    ensures a.Some? && b.Some? && b.value != 0.0 ==> r == up || r == down || r == flat
  {
    if a.None? || b.None? || b.value == 0.0 then UNKNOWN
    else
      var pct := (a.value - b.value) / Abs(b.value);
      if pct > threshold then up
      else if pct < -threshold then down
      else flat
  }

  /**
   * Division-free reading of the label: with known values and a non-zero
   * base, exactly one of the three labels applies for a non-negative
   * threshold, according to where a - b lies relative to ±threshold·|b|.
   */
  lemma DirectionLabelMeaning(a: real, b: real, threshold: real)
    requires b != 0.0 && threshold >= 0.0
    ensures DirectionLabel(Some(a), Some(b), threshold, UP, DOWN, FLAT) == UP <==> a - b > threshold * Abs(b)
    ensures DirectionLabel(Some(a), Some(b), threshold, UP, DOWN, FLAT) == DOWN <==> a - b < -threshold * Abs(b)
    ensures DirectionLabel(Some(a), Some(b), threshold, UP, DOWN, FLAT) == FLAT <==>
      -threshold * Abs(b) <= a - b <= threshold * Abs(b)
  {
    var pct := (a - b) / Abs(b);
    assert pct * Abs(b) == a - b;
    if pct > threshold {
      assert (pct - threshold) * Abs(b) > 0.0;
    } else if pct < -threshold {
      assert (-threshold - pct) * Abs(b) > 0.0;
    } else {
      assert (threshold - pct) * Abs(b) >= 0.0;
      assert (pct + threshold) * Abs(b) >= 0.0;
    }
  }

  /** Sum of the closes at indices lo..hi-1, left to right as Python's sum(). */
  function SumCloses(series: seq<(int, real)>, lo: int, hi: int): real
    requires 0 <= lo <= hi <= |series|
    decreases hi - lo
  {
    if lo == hi then 0.0 else SumCloses(series, lo, hi - 1) + series[hi - 1].1
  }

  /**
   * Simple moving average of the `window` closes ending at idx; None while
   * fewer than `window` points are available.
   */
  function Sma(series: seq<(int, real)>, idx: int, window: int): (r: Option<real>)
    requires window >= 1 && 0 <= idx < |series|
    ensures r.None? <==> idx < window - 1
  {
    if idx < window - 1 then None
    else Some(SumCloses(series, idx - window + 1, idx + 1) / (window as real))
  }

  lemma {:induction false} SumClosesBounds(series: seq<(int, real)>, lo: int, hi: int, min: real, max: real)
    requires 0 <= lo <= hi <= |series|
    requires forall k :: lo <= k < hi ==> min <= series[k].1 <= max
    ensures min * ((hi - lo) as real) <= SumCloses(series, lo, hi) <= max * ((hi - lo) as real)
    decreases hi - lo
  {
    if lo < hi {
      SumClosesBounds(series, lo, hi - 1, min, max);
    }
  }

  lemma MeanBounds(sum: real, n: real, lo: real, hi: real)
    requires n > 0.0 && lo * n <= sum <= hi * n
    ensures lo <= sum / n <= hi
  {
    assert (sum / n) * n == sum;
  }

  /** A moving average lies between the smallest and the largest close of its window. */
  lemma SmaWithinWindow(series: seq<(int, real)>, idx: int, window: int, lo: real, hi: real)
    requires window >= 1 && 0 <= idx < |series|
    requires forall k :: 0 <= k < |series| && idx - window < k <= idx ==> lo <= series[k].1 <= hi
    ensures Sma(series, idx, window).Some? ==> lo <= Sma(series, idx, window).value <= hi
  {
    if idx >= window - 1 {
      SumClosesBounds(series, idx - window + 1, idx + 1, lo, hi);
      MeanBounds(SumCloses(series, idx - window + 1, idx + 1), window as real, lo, hi);
    }
  }

  predicate IsChangeLabel(l: Label) { l == UNKNOWN || l == UP || l == DOWN || l == FLAT }
  predicate IsTrendLabel(l: Label) { l == UNKNOWN || l == ABOVE || l == BELOW || l == AT }

  /** The labels the classifier gives to point i of a date-ordered series. */
  function ContextAt(series: seq<(int, real)>, i: int, threshold: real, shortW: int, longW: int): Context
    requires shortW >= 1 && longW >= 1 && 0 <= i < |series|
  {
    var close := series[i].1;
    var rcd := if i == 0 then UNKNOWN else DirectionLabel(Some(close), Some(series[i - 1].1), threshold, UP, DOWN, FLAT);
    var smaLong := Sma(series, i, longW);
    var td := if smaLong.None? then UNKNOWN else DirectionLabel(Some(close), smaLong, threshold, ABOVE, BELOW, AT);
    var smaShort := Sma(series, i, shortW);
    var md := if smaShort.None? || smaLong.None? then UNKNOWN else DirectionLabel(smaShort, smaLong, threshold, UP, DOWN, FLAT);
    Context(rcd, td, md)
  }

  /**
   * The UNKNOWN rules: no rate change at the first point, no trend before
   * the long window is full, no momentum before both windows are full, and
   * a known label of the right kind otherwise (given non-zero bases).
   */
  lemma ContextAtLabels(series: seq<(int, real)>, i: int, threshold: real, shortW: int, longW: int)
    requires shortW >= 1 && longW >= 1 && 0 <= i < |series|
    ensures var c := ContextAt(series, i, threshold, shortW, longW);
      && IsChangeLabel(c.rcd) && IsTrendLabel(c.td) && IsChangeLabel(c.md)
      && (i == 0 ==> c.rcd == UNKNOWN)
      && (i > 0 && series[i - 1].1 != 0.0 ==> c.rcd != UNKNOWN)
      && (c.td == UNKNOWN <==> i < longW - 1 || Sma(series, i, longW).value == 0.0)
      && (c.md == UNKNOWN <==> i < longW - 1 || i < shortW - 1 || Sma(series, i, longW).value == 0.0)
  {
  }

  /** The change against the previous point: None only for the first point. */
  function ChangeAt(series: seq<(int, real)>, i: int): (d: Option<real>)
    requires 0 <= i < |series|
    ensures d.None? <==> i == 0
    ensures d.Some? ==> series[i - 1].1 + d.value == series[i].1
  {
    if i == 0 then None else Some(series[i].1 - series[i - 1].1)
  }

  /** The labels of point i, computed as the classifiers' loops compute them. */
  method ClassifyPoint(series: seq<(int, real)>, i: int, threshold: real, shortW: int, longW: int)
    returns (c: Context)
    requires shortW >= 1 && longW >= 1 && 0 <= i < |series|
    ensures c == ContextAt(series, i, threshold, shortW, longW)
  {
    var close := series[i].1;
    var rcd := if i == 0 then UNKNOWN else DirectionLabel(Some(close), Some(series[i - 1].1), threshold, UP, DOWN, FLAT);
    var smaLong := Sma(series, i, longW);
    var td := if smaLong.None? then UNKNOWN else DirectionLabel(Some(close), smaLong, threshold, ABOVE, BELOW, AT);
    var smaShort := Sma(series, i, shortW);
    var md := if smaShort.None? || smaLong.None? then UNKNOWN else DirectionLabel(smaShort, smaLong, threshold, UP, DOWN, FLAT);
    c := Context(rcd, td, md);
  }

  /**
   * The index builders' classifier: one observation per input point, in
   * input order, carrying the close and the change against the previous point.
   */
  method ClassifyObservations(series: seq<(int, real)>, threshold: real, shortW: int, longW: int)
    returns (res: seq<Observation>)
    requires shortW >= 1 && longW >= 1
    ensures |res| == |series|
    ensures forall k :: 0 <= k < |series| ==>
      res[k] == Observation(series[k].0, series[k].1, ContextAt(series, k, threshold, shortW, longW), ChangeAt(series, k))
  {
    res := [];
    for i := 0 to |series|
      invariant |res| == i
      invariant forall k :: 0 <= k < i ==>
        res[k] == Observation(series[k].0, series[k].1, ContextAt(series, k, threshold, shortW, longW), ChangeAt(series, k))
    {
      var dt, close := series[i].0, series[i].1;
      var ctx := ClassifyPoint(series, i, threshold, shortW, longW);
      var change := if i == 0 then None else Some(close - series[i - 1].1);
      assert change == ChangeAt(series, i);
      res := res + [Observation(dt, close, ctx, change)];
    }
  }

  /** The services' classifier: one (timestamp, labels) pair per input point, in input order. */
  method ClassifyMarketObservations(series: seq<(int, real)>, threshold: real, shortW: int, longW: int)
    returns (res: seq<Labelled>)
    requires shortW >= 1 && longW >= 1
    ensures |res| == |series|
    ensures forall k :: 0 <= k < |series| ==> res[k] == Labelled(series[k].0, ContextAt(series, k, threshold, shortW, longW))
  {
    res := [];
    for i := 0 to |series|
      invariant |res| == i
      invariant forall k :: 0 <= k < i ==> res[k] == Labelled(series[k].0, ContextAt(series, k, threshold, shortW, longW))
    {
      var ctx := ClassifyPoint(series, i, threshold, shortW, longW);
      LabelledSnoc(series, threshold, shortW, longW, res, Labelled(series[i].0, ctx));
      res := res + [Labelled(series[i].0, ctx)];
    }
  }

  /** One more labelled point keeps the classifier's loop invariant. */
  lemma LabelledSnoc(series: seq<(int, real)>, threshold: real, shortW: int, longW: int, res: seq<Labelled>, x: Labelled)
    requires shortW >= 1 && longW >= 1 && |res| < |series|
    requires forall k :: 0 <= k < |res| ==> res[k] == Labelled(series[k].0, ContextAt(series, k, threshold, shortW, longW))
    requires x == Labelled(series[|res|].0, ContextAt(series, |res|, threshold, shortW, longW))
    ensures forall k :: 0 <= k < |res| + 1 ==> (res + [x])[k] == Labelled(series[k].0, ContextAt(series, k, threshold, shortW, longW))
  {
    forall k | 0 <= k < |res| + 1
      ensures (res + [x])[k] == Labelled(series[k].0, ContextAt(series, k, threshold, shortW, longW))
    {
      if k < |res| {
        assert (res + [x])[k] == res[k];
      } else {
        assert (res + [x])[k] == x;
      }
    }
  }

  // ----------------------------------------------- economic-event contexts



  /** Absolute threshold of the event-context service and its SQL index. */
  const EventThreshold: real := 0.0001

  /**
   * Absolute direction of a against b: UNKNOWN without both values,
   * otherwise the first label above b + threshold, the second below
   * b - threshold and the third in between.
   */
  function EventDirection(a: Option<real>, b: Option<real>, first: Label, second: Label, third: Label): (r: Label)
    ensures a.None? || b.None? ==> r == UNKNOWN
    ensures a.Some? && b.Some? ==>
      (r == first && a.value > b.value + EventThreshold) ||
      (r == second && a.value < b.value - EventThreshold) ||
      (r == third && b.value - EventThreshold <= a.value <= b.value + EventThreshold)
  {
    if a.None? || b.None? then UNKNOWN
    else if a.value > b.value + EventThreshold then first
    else if a.value < b.value - EventThreshold then second
    else third
  }

  /** Forecast vs previous, actual vs forecast (the surprise), actual vs previous. */
  function ResolveEventContext(actual: Option<real>, forecast: Option<real>, previous: Option<real>): (c: Context)
    ensures IsChangeLabel(c.rcd) && IsChangeLabel(c.md)
    ensures c.td == UNKNOWN || c.td == BEAT || c.td == MISS || c.td == INLINE
    ensures forecast.None? ==> c.rcd == UNKNOWN && c.td == UNKNOWN
    ensures actual.None? ==> c.td == UNKNOWN && c.md == UNKNOWN
    ensures previous.None? ==> c.rcd == UNKNOWN && c.md == UNKNOWN
    ensures c.td == BEAT <==> actual.Some? && forecast.Some? && actual.value > forecast.value + EventThreshold
  {
    Context(EventDirection(forecast, previous, UP, DOWN, FLAT),
            EventDirection(actual, forecast, BEAT, MISS, INLINE),
            EventDirection(actual, previous, UP, DOWN, FLAT))
  }
}
