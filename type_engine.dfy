/**
 * The event-type memory engine: calculate_pure_memory of the 32 service
 * with its five variants, of the 25 service it grew out of, and of the
 * two 23 services, whose calendar grades importance by a word rather
 * than a number.
 *
 * A request names a pair, the day flag and a target date. The engine
 * looks for calendar releases in a window of hours (day == 0) or days
 * around the target, keeps the ones whose type allows their distance
 * from the target (a one-off event only at the target itself, a
 * recurring one up to twelve steps away), and for each of them looks at
 * the event's own earlier releases, shifted by the same distance: the
 * sum of the rates found there (mode 0) and how often the market made
 * an extremum in the direction of the last candle (mode 1).
 *
 * The services' module-level dictionaries are the Snapshot record; a
 * query only reads them.
 */
module TypeEngine {
  import opened Wrappers
  import opened Dates
  import opened Calendar
  import opened Rounding
  import opened Results
  import Text
  import Candles
  import Components
  import WeightCodes

  type Cursor = WeightCodes.Cursor

  /** The dates of local minima and maxima of one rates table. */
  datatype Extrema = Extrema(minSet: set<int>, maxSet: set<int>)

  const NoExtrema: Extrema := Extrema({}, {})

  /**
   * What the services hold in memory, keyed as they key it: calendar
   * entries by date, release dates by event, event types by event, and
   * per rates table the rates, the candles in date order, the extremum
   * dates, the candle sizes and the size percentiles (the last two only
   * in the 32 service; the 23 services keep no event types).
   */
  datatype Snapshot<I> = Snapshot(
    calendar: map<int, seq<CalEntry<I, ()>>>,
    history: map<int, seq<int>>,
    eventTypes: map<int, int>,
    rates: map<string, map<int, real>>,
    candles: map<string, seq<Candles.Candle>>,
    extremums: map<string, Extrema>,
    sizes: map<string, map<int, real>>,
    thresholds: map<string, map<int, real>>)

  function TableOr<V>(m: map<string, V>, table: string, default: V): V
  {
    if table in m then m[table] else default
  }

  // ------------------------------------------------------------ importance and type

  /** GLOBAL_EVENT_TYPES.get(eid, 0). */
  function TypeOf(types: map<int, int>, eid: int): int
  {
    if eid in types then types[eid] else 0
  }

  function RankedType(types: map<int, int>): CalEntry<Option<int>, ()> -> int
  {
    (e: CalEntry<Option<int>, ()>) => TypeOf(types, e.eid)
  }

  /** The 23 services call a medium or high release recurring (type 1), anything else one-off. */
  function LabelType(e: CalEntry<Option<string>, ()>): (t: int)
    ensures t == 0 || t == 1
    ensures t == 1 <==> e.importance == Some("medium") || e.importance == Some("high")
  {
    if e.importance == Some("medium") || e.importance == Some("high") then 1 else 0
  }

  // ------------------------------------------------------------ releases that count

  datatype Needed<I> = Needed(entry: CalEntry<I, ()>, shift: int, etype: int)

  /** A one-off event counts only at the target, a recurring one up to twelve steps away. */
  predicate Skipped(etype: int, shift: int)
  {
    (etype == 0 && shift != 0) || (etype == 1 && (shift < -12 || shift > 12))
  }

  /** needed_events: the window's releases with their shift and type, less the skipped ones, in window order. */
  function NeededEvents<I(==,!new)>(events: seq<CalEntry<I, ()>>, target: int, day: int, typeOf: CalEntry<I, ()> -> int)
    : (r: seq<Needed<I>>)
    ensures |r| <= |events|
    ensures forall n :: n in r ==> n.entry in events && n.shift == Shift(day, target, n.entry.date)
                                   && n.etype == typeOf(n.entry) && !Skipped(n.etype, n.shift)
    ensures forall e :: e in events && !Skipped(typeOf(e), Shift(day, target, e.date)) ==>
                          Needed(e, Shift(day, target, e.date), typeOf(e)) in r
  {
    if |events| == 0 then []
    else
      var e := events[|events| - 1];
      var init := NeededEvents(events[..|events| - 1], target, day, typeOf);
      assert forall x :: x in events <==> x in events[..|events| - 1] || x == e;
      var shift := Shift(day, target, e.date);
      var t := typeOf(e);
      if Skipped(t, shift) then init else init + [Needed(e, shift, t)]
  }

  method SelectNeeded<I(==,!new)>(events: seq<CalEntry<I, ()>>, target: int, day: int, typeOf: CalEntry<I, ()> -> int)
    returns (needed: seq<Needed<I>>)
    ensures needed == NeededEvents(events, target, day, typeOf)
  {
    needed := [];
    for i := 0 to |events|
      invariant needed == NeededEvents(events[..i], target, day, typeOf)
    {
      assert events[..i + 1][..i] == events[..i];
      var e := events[i];
      var shift := Shift(day, target, e.date);
      var t := typeOf(e);
      if Skipped(t, shift) {
        continue;
      }
      needed := needed + [Needed(e, shift, t)];
    }
    assert events[..|events|] == events;
  }

  // ------------------------------------------------------------ the 32 variants

  datatype Confidence = Bayes(prior: nat) | Flat

  datatype VarConfig = VarConfig(lo: int, hi: int, pct: Option<int>, conf: Confidence)

  /** VAR_CONFIGS: window, candle-size percentile and confidence of each variant. */
  function VarConfigs(v: int): (c: Option<VarConfig>)
    ensures c.Some? <==> 0 <= v <= 4
    ensures c.Some? ==> c.value.lo == -c.value.hi && c.value.hi > 0
    ensures c.Some? ==> (c.value.pct.None? <==> c.value.conf.Flat?)
    ensures c.Some? && c.value.pct.Some? ==> c.value.pct.value in Candles.Percentiles
  {
    if v == 0 then Some(VarConfig(-12, 12, Some(50), Bayes(10)))
    else if v == 1 then Some(VarConfig(-12, 12, Some(75), Bayes(10)))
    else if v == 2 then Some(VarConfig(-6, 6, Some(50), Bayes(10)))
    else if v == 3 then Some(VarConfig(-24, 24, Some(50), Bayes(10)))
    else if v == 4 then Some(VarConfig(-12, 12, None, Flat))
    else None
  }

  /** The error for a variant VAR_CONFIGS does not have; 4 is its largest key. */
  function UnknownVar(v: int): string
  {
    "Unknown var=" + Text.IntToString(v) + ". Valid: 0-4"
  }

  /** confidence_bayes (count / (count + prior), nothing for no dates) and confidence_none. */
  function ConfidenceOf(c: Confidence, n: nat): (r: real)
    ensures 0.0 <= r <= 1.0
    ensures c.Flat? ==> r == 1.0
    ensures c.Bayes? ==> (r == 0.0 <==> n == 0)
    ensures c.Bayes? && c.prior > 0 ==> r < 1.0
  {
    match c
    case Flat => 1.0
    case Bayes(prior) => if n > 0 then n as real / (n + prior) as real else 0.0
  }

  /** More dates never lower the Bayesian confidence. */
  lemma ConfidenceGrows(prior: nat, n: nat, m: nat)
    requires n <= m
    ensures ConfidenceOf(Bayes(prior), n) <= ConfidenceOf(Bayes(prior), m)
  {
    if n > 0 {
      FractionGrows(n as real, m as real, prior as real);
    }
  }

  lemma FractionGrows(a: real, b: real, p: real)
    requires 0.0 < a <= b && 0.0 <= p
    ensures a / (a + p) <= b / (b + p)
  {
    var x := a / (a + p);
    var y := b / (b + p);
    assert x + p / (a + p) == 1.0 by {
      assert (a + p) / (a + p) == 1.0;
      assert a / (a + p) + p / (a + p) == (a + p) / (a + p);
    }
    assert y + p / (b + p) == 1.0 by {
      assert (b + p) / (b + p) == 1.0;
      assert b / (b + p) + p / (b + p) == (b + p) / (b + p);
    }
    assert p / (b + p) <= p / (a + p) by {
      var u := p / (a + p);
      var v := p / (b + p);
      assert u * (a + p) == p;
      assert v * (b + p) == p;
      assert v * (a + p) <= v * (b + p);
    }
  }

  /** The dates whose candle is at least the threshold in size; a threshold of zero keeps them all. */
  function Filtered(tDates: seq<int>, sizes: map<int, real>, threshold: real): (r: seq<int>)
    ensures |r| <= |tDates|
    ensures threshold <= 0.0 ==> r == tDates
    ensures threshold > 0.0 ==> forall d :: d in r <==> d in tDates && GetOr(sizes, d) >= threshold
  {
    if threshold > 0.0 then BigCandles(tDates, sizes, threshold) else tDates
  }

  function BigCandles(tDates: seq<int>, sizes: map<int, real>, threshold: real): (r: seq<int>)
    ensures |r| <= |tDates|
    ensures forall d :: d in r <==> d in tDates && GetOr(sizes, d) >= threshold
  {
    if |tDates| == 0 then []
    else
      var d := tDates[|tDates| - 1];
      var init := BigCandles(tDates[..|tDates| - 1], sizes, threshold);
      assert forall x :: x in tDates <==> x in tDates[..|tDates| - 1] || x == d;
      if GetOr(sizes, d) >= threshold then init + [d] else init
  }

  /** A higher threshold keeps fewer dates: the 75th-percentile variant looks at a subset of the median one's. */
  lemma FilterNarrows(tDates: seq<int>, sizes: map<int, real>, low: real, high: real)
    requires 0.0 < low <= high
    ensures forall d :: d in Filtered(tDates, sizes, high) ==> d in Filtered(tDates, sizes, low)
  {
  }

  /** sum(rates.get(td, 0) for td in dates). */
  function RateSum(dates: seq<int>, rates: map<int, real>): real
  {
    if |dates| == 0 then 0.0
    else RateSum(dates[..|dates| - 1], rates) + GetOr(rates, dates[|dates| - 1])
  }

  /** The rate sum is the plain (variant 0) T1 component of the context engines. */
  lemma {:induction false} RateSumIsPlainT1(dates: seq<int>, rates: map<int, real>, ranges: map<int, real>, avg: real)
    ensures RateSum(dates, rates) == Components.T1Total(dates, Components.VariantOf(0), rates, ranges, avg)
  {
    if |dates| > 0 {
      RateSumIsPlainT1(dates[..|dates| - 1], rates, ranges, avg);
    }
  }

  /** The 25 and 23 loop: add each rate that is there. */
  method SumPresentRates(tDates: seq<int>, rates: map<int, real>) returns (sum: real)
    ensures sum == RateSum(tDates, rates)
  {
    sum := 0.0;
    for i := 0 to |tDates|
      invariant sum == RateSum(tDates[..i], rates)
    {
      assert tDates[..i + 1][..i] == tDates[..i];
      if tDates[i] in rates {
        sum := sum + rates[tDates[i]];
      }
    }
    assert tDates[..|tDates|] == tDates;
  }

  // ------------------------------------------------------------ one table's view

  /** What a query reads of the requested rates table, with the pair's factor. */
  datatype View = View(rates: map<int, real>, extremums: Extrema, prev: Option<Candles.Candle>,
                       sizes: map<int, real>, threshold: real, modification: real)

  /** GLOBAL_CANDLE_THRESHOLD.get(table, {}).get(pct, 0), or 0 when the variant has no percentile. */
  function SizeThreshold(thresholds: map<string, map<int, real>>, table: string, pct: Option<int>): real
  {
    if pct.None? then 0.0 else GetOr(TableOr(thresholds, table, map[]), pct.value)
  }

  function ViewOf<I>(s: Snapshot<I>, pair: int, day: int, target: int, pct: Option<int>): View
  {
    var table := Candles.RatesTableName(pair, day);
    View(TableOr(s.rates, table, map[]), TableOr(s.extremums, table, NoExtrema),
         Candles.PrevCandle(TableOr(s.candles, table, []), target),
         TableOr(s.sizes, table, map[]), SizeThreshold(s.thresholds, table, pct),
         Candles.ModificationFactor(pair))
  }

  /** The maxima after a bullish candle, the minima after a bearish one. */
  function TrendSet(ext: Extrema, isBull: bool): set<int>
  {
    if isBull then ext.maxSet else ext.minSet
  }

  /** "{eid}_{type}_{mode}", with "_{shift}" for a recurring event. */
  function KeyOf<I>(n: Needed<I>, mode: int): Cursor
  {
    WeightCodes.Cursor(n.entry.eid, n.etype, mode, if n.etype == 1 then Some(n.shift) else None)
  }

  /** sum_t1 * conf. */
  function Weighted(sum: real, conf: real): real
  {
    sum * conf
  }

  /** ((matches / total) * 2 - 1) * conf * modification. */
  function TrendValue(matches: nat, total: nat, conf: real, modification: real): real
    requires total > 0
  {
    ((matches as real / total as real) * 2.0 - 1.0) * conf * modification
  }

  /** The mode-1 value never exceeds the modification factor in size. */
  lemma TrendValueBounded(matches: nat, total: nat, conf: real, modification: real)
    requires 0 < total && matches <= total && 0.0 <= conf <= 1.0
    ensures -Components.Abs(modification) <= TrendValue(matches, total, conf, modification) <= Components.Abs(modification)
  {
    var q := matches as real / total as real;
    assert q * (total as real) == matches as real;
    var y := q * 2.0 - 1.0;
    assert -1.0 <= y <= 1.0;
    Within(y, conf);
    ScaleBound(y * conf, modification);
  }

  lemma Within(y: real, c: real)
    requires -1.0 <= y <= 1.0 && 0.0 <= c <= 1.0
    ensures -1.0 <= y * c <= 1.0
  {
    if y >= 0.0 {
      assert y * c <= y * 1.0;
    } else {
      assert (-y) * c <= (-y) * 1.0;
    }
  }

  lemma ScaleBound(y: real, m: real)
    requires -1.0 <= y <= 1.0
    ensures -Components.Abs(m) <= y * m <= Components.Abs(m)
  {
    if m >= 0.0 {
      assert -m <= y * m <= m;
    } else {
      var k := -m;
      assert -k <= y * k <= k;
      assert y * m == -(y * k);
    }
  }

  /** One needed release's contributions in the 32 service. */
  function TypedEntries<I>(n: Needed<I>, history: map<int, seq<int>>, target: int, day: int, view: View, conf: Confidence)
    : seq<Entry<Cursor>>
  {
    var valid := ValidDates(DatesOf(history, n.entry.eid), target);
    if |valid| == 0 then []
    else TypedOf(n, Filtered(Shifted(valid, StepUnit(day) * n.shift), view.sizes, view.threshold), view, conf)
  }

  /** The contributions of the shifted dates that passed the size filter. */
  function TypedOf<I>(n: Needed<I>, filtered: seq<int>, view: View, conf: Confidence): seq<Entry<Cursor>>
  {
    var c := ConfidenceOf(conf, |filtered|);
    var e0 := Entry(KeyOf(n, 0), Weighted(RateSum(filtered, view.rates), c));
    if view.prev.Some? && |filtered| > 0 then
      var m := Components.Matches(filtered, TrendSet(view.extremums, view.prev.value.isBull));
      [e0, Entry(KeyOf(n, 1), TrendValue(m, |filtered|, c, view.modification))]
    else [e0]
  }

  function AllTyped<I>(needed: seq<Needed<I>>, history: map<int, seq<int>>, target: int, day: int, view: View, conf: Confidence)
    : seq<Entry<Cursor>>
  {
    if |needed| == 0 then []
    else AllTyped(needed[..|needed| - 1], history, target, day, view, conf)
         + TypedEntries(needed[|needed| - 1], history, target, day, view, conf)
  }

  /** The 32 weights for a readable date and a known variant. */
  function TypedWeights(s: Snapshot<Option<int>>, pair: int, day: int, target: int, cfg: VarConfig): map<Cursor, real>
  {
    var events := EventsInWindow(s.calendar, CheckDates(target, StepUnit(day), cfg.lo, cfg.hi), target, IsLowRank);
    var needed := NeededEvents(events, target, day, RankedType(s.eventTypes));
    var view := ViewOf(s, pair, day, target, cfg.pct);
    Finalize(Assign(map[], AllTyped(needed, s.history, target, day, view, cfg.conf)))
  }

  /** calculate_pure_memory of the 32 service; its type_ argument is never read. */
  function TypedResponse(s: Snapshot<Option<int>>, pair: int, day: int, dateStr: string, v: int, strptime: Strptime)
    : Response<Cursor>
  {
    var parsed := ParseDate(dateStr, strptime);
    if parsed.None? then Error(InvalidDate)
    else
      var cfg := VarConfigs(v);
      if cfg.None? then Error(UnknownVar(v))
      else Weights(TypedWeights(s, pair, day, parsed.value, cfg.value))
  }

  lemma TypedErrors(s: Snapshot<Option<int>>, pair: int, day: int, dateStr: string, v: int, strptime: Strptime)
    ensures TypedResponse(s, pair, day, dateStr, v, strptime).Error? <==> ParseDate(dateStr, strptime).None? || !(0 <= v <= 4)
    ensures ParseDate(dateStr, strptime).None? ==> TypedResponse(s, pair, day, dateStr, v, strptime) == Error(InvalidDate)
    ensures ParseDate(dateStr, strptime).Some? && !(0 <= v <= 4) ==>
              TypedResponse(s, pair, day, dateStr, v, strptime) == Error(UnknownVar(v))
  {
  }

  /** One needed release's step of the result loop of the 32 service. */
  method ApplyTyped<I>(result: map<Cursor, real>, n: Needed<I>, history: map<int, seq<int>>, target: int, day: int,
                       view: View, conf: Confidence)
    returns (out: map<Cursor, real>)
    ensures out == Assign(result, TypedEntries(n, history, target, day, view, conf))
  {
    var valid := ValidDates(DatesOf(history, n.entry.eid), target);
    if |valid| == 0 {
      assert TypedEntries(n, history, target, day, view, conf) == [];
      return result;
    }
    var key0 := KeyOf(n, 0);
    var key1 := KeyOf(n, 1);
    var tDates := Shifted(valid, StepUnit(day) * n.shift);
    var filtered := Filtered(tDates, view.sizes, view.threshold);
    assert TypedEntries(n, history, target, day, view, conf) == TypedOf(n, filtered, view, conf);
    var c := ConfidenceOf(conf, |filtered|);
    var e0 := Entry(key0, Weighted(RateSum(filtered, view.rates), c));
    out := result[key0 := e0.value];
    TypedOfShape(n, filtered, view, conf);
    if view.prev.Some? {
      var ext := TrendSet(view.extremums, view.prev.value.isBull);
      var matches := Components.Matches(filtered, ext);
      var total := |filtered|;
      if total > 0 {
        var e1 := Entry(key1, TrendValue(matches, total, c, view.modification));
        out := out[key1 := e1.value];
        AssignTwo(result, e0, e1);
        return;
      }
    }
    AssignOne(result, e0);
  }

  lemma TypedOfShape<I>(n: Needed<I>, filtered: seq<int>, view: View, conf: Confidence)
    ensures var c := ConfidenceOf(conf, |filtered|);
            var e0 := Entry(KeyOf(n, 0), Weighted(RateSum(filtered, view.rates), c));
            TypedOf(n, filtered, view, conf) ==
              if view.prev.Some? && |filtered| > 0 then
                [e0, Entry(KeyOf(n, 1), TrendValue(Components.Matches(filtered, TrendSet(view.extremums, view.prev.value.isBull)),
                                                   |filtered|, c, view.modification))]
              else [e0]
  {
    var t := TypedOf(n, filtered, view, conf);
    var c := ConfidenceOf(conf, |filtered|);
    assert t[0] == Entry(KeyOf(n, 0), Weighted(RateSum(filtered, view.rates), c));
    if view.prev.Some? && |filtered| > 0 {
      assert |t| == 2;
      assert t[1] == Entry(KeyOf(n, 1), TrendValue(Components.Matches(filtered, TrendSet(view.extremums, view.prev.value.isBull)),
                                                   |filtered|, c, view.modification));
    } else {
      assert |t| == 1;
    }
  }

  /** The result loop of the 32 service. */
  method AssignTyped<I>(needed: seq<Needed<I>>, history: map<int, seq<int>>, target: int, day: int, view: View, conf: Confidence)
    returns (result: map<Cursor, real>)
    ensures result == Assign(map[], AllTyped(needed, history, target, day, view, conf))
  {
    result := map[];
    for i := 0 to |needed|
      invariant result == Assign(map[], AllTyped(needed[..i], history, target, day, view, conf))
    {
      assert needed[..i + 1][..i] == needed[..i];
      AssignAppend(map[], AllTyped(needed[..i], history, target, day, view, conf),
                   TypedEntries(needed[i], history, target, day, view, conf));
      result := ApplyTyped(result, needed[i], history, target, day, view, conf);
    }
    assert needed[..|needed|] == needed;
  }

  method CalculateTyped(s: Snapshot<Option<int>>, pair: int, day: int, dateStr: string, v: int, strptime: Strptime)
    returns (r: Response<Cursor>)
    ensures r == TypedResponse(s, pair, day, dateStr, v, strptime)
  {
    var parsed := ParseDate(dateStr, strptime);
    if parsed.None? {
      return Error(InvalidDate);
    }
    var target := parsed.value;
    var cfg := VarConfigs(v);
    if cfg.None? {
      return Error(UnknownVar(v));
    }
    var events := CollectEvents(s.calendar, target, StepUnit(day), cfg.value.lo, cfg.value.hi, IsLowRank);
    var needed := SelectNeeded(events, target, day, RankedType(s.eventTypes));
    var view := ViewOf(s, pair, day, target, cfg.value.pct);
    var result := AssignTyped(needed, s.history, target, day, view, cfg.value.conf);
    return Weights(Finalize(result));
  }

  // ------------------------------------------------------------ the 25 and 23 engine

  /** One needed release's contributions in the 25 and 23 services: no size filter, no confidence. */
  function ReleaseEntries<I>(n: Needed<I>, history: map<int, seq<int>>, target: int, day: int, view: View): seq<Entry<Cursor>>
  {
    var valid := ValidDates(DatesOf(history, n.entry.eid), target);
    if |valid| == 0 then []
    else
      var tDates := Shifted(valid, StepUnit(day) * n.shift);
      var e0 := Entry(KeyOf(n, 0), RateSum(tDates, view.rates));
      if view.prev.Some? then
        var m := Components.Matches(tDates, TrendSet(view.extremums, view.prev.value.isBull));
        [e0, Entry(KeyOf(n, 1), Components.Ratio(m, |valid|, view.modification))]
      else [e0]
  }

  function AllRelease<I>(needed: seq<Needed<I>>, history: map<int, seq<int>>, target: int, day: int, view: View): seq<Entry<Cursor>>
  {
    if |needed| == 0 then []
    else AllRelease(needed[..|needed| - 1], history, target, day, view) + ReleaseEntries(needed[|needed| - 1], history, target, day, view)
  }

  const Window: int := 12

  function ReleaseWeights<I(==,!new)>(s: Snapshot<I>, pair: int, day: int, target: int, isLow: I -> bool,
                                      typeOf: CalEntry<I, ()> -> int): map<Cursor, real>
  {
    var events := EventsInWindow(s.calendar, CheckDates(target, StepUnit(day), -Window, Window), target, isLow);
    var needed := NeededEvents(events, target, day, typeOf);
    var view := ViewOf(s, pair, day, target, None);
    Finalize(Assign(map[], AllRelease(needed, s.history, target, day, view)))
  }

  /** calculate_pure_memory of the 25 service. */
  function RankedResponse(s: Snapshot<Option<int>>, pair: int, day: int, dateStr: string, strptime: Strptime): Response<Cursor>
  {
    var parsed := ParseDate(dateStr, strptime);
    if parsed.None? then Error(InvalidDate)
    else Weights(ReleaseWeights(s, pair, day, parsed.value, IsLowRank, RankedType(s.eventTypes)))
  }

  /** calculate_pure_memory of the two 23 services. */
  function LabelledResponse(s: Snapshot<Option<string>>, pair: int, day: int, dateStr: string, strptime: Strptime): Response<Cursor>
  {
    var parsed := ParseDateLegacy(dateStr, strptime);
    if parsed.None? then Error(InvalidDate)
    else Weights(ReleaseWeights(s, pair, day, parsed.value, IsLowLabel, LabelType))
  }

  /** One needed release's step of the result loop of the 25 and 23 services. */
  method ApplyRelease<I>(result: map<Cursor, real>, n: Needed<I>, history: map<int, seq<int>>, target: int, day: int, view: View)
    returns (out: map<Cursor, real>)
    ensures out == Assign(result, ReleaseEntries(n, history, target, day, view))
  {
    var valid := ValidDates(DatesOf(history, n.entry.eid), target);
    if |valid| == 0 {
      assert ReleaseEntries(n, history, target, day, view) == [];
      return result;
    }
    var key0 := KeyOf(n, 0);
    var key1 := KeyOf(n, 1);
    var tDates := Shifted(valid, StepUnit(day) * n.shift);
    var sum := SumPresentRates(tDates, view.rates);
    var e0 := Entry(key0, sum);
    out := result[key0 := sum];
    if view.prev.Some? {
      var ext := TrendSet(view.extremums, view.prev.value.isBull);
      var matches := Components.Matches(tDates, ext);
      var total := |valid|;
      var e1 := Entry(key1, Components.Ratio(matches, total, view.modification));
      out := out[key1 := e1.value];
      assert ReleaseEntries(n, history, target, day, view) == [e0, e1];
      AssignTwo(result, e0, e1);
    } else {
      assert ReleaseEntries(n, history, target, day, view) == [e0];
      AssignOne(result, e0);
    }
  }

  /** The result loop of the 25 and 23 services. */
  method AssignRelease<I>(needed: seq<Needed<I>>, history: map<int, seq<int>>, target: int, day: int, view: View)
    returns (result: map<Cursor, real>)
    ensures result == Assign(map[], AllRelease(needed, history, target, day, view))
  {
    result := map[];
    for i := 0 to |needed|
      invariant result == Assign(map[], AllRelease(needed[..i], history, target, day, view))
    {
      assert needed[..i + 1][..i] == needed[..i];
      AssignAppend(map[], AllRelease(needed[..i], history, target, day, view), ReleaseEntries(needed[i], history, target, day, view));
      result := ApplyRelease(result, needed[i], history, target, day, view);
    }
    assert needed[..|needed|] == needed;
  }

  method CalculateRelease<I(==,!new)>(s: Snapshot<I>, pair: int, day: int, target: int, isLow: I -> bool,
                                      typeOf: CalEntry<I, ()> -> int)
    returns (w: map<Cursor, real>)
    ensures w == ReleaseWeights(s, pair, day, target, isLow, typeOf)
  {
    var events := CollectEvents(s.calendar, target, StepUnit(day), -Window, Window, isLow);
    var needed := SelectNeeded(events, target, day, typeOf);
    var view := ViewOf(s, pair, day, target, None);
    var result := AssignRelease(needed, s.history, target, day, view);
    w := Finalize(result);
  }

  method CalculateRanked(s: Snapshot<Option<int>>, pair: int, day: int, dateStr: string, strptime: Strptime)
    returns (r: Response<Cursor>)
    ensures r == RankedResponse(s, pair, day, dateStr, strptime)
  {
    var parsed := ParseDate(dateStr, strptime);
    if parsed.None? {
      return Error(InvalidDate);
    }
    var w := CalculateRelease(s, pair, day, parsed.value, IsLowRank, RankedType(s.eventTypes));
    return Weights(w);
  }

  method CalculateLabelled(s: Snapshot<Option<string>>, pair: int, day: int, dateStr: string, strptime: Strptime)
    returns (r: Response<Cursor>)
    ensures r == LabelledResponse(s, pair, day, dateStr, strptime)
  {
    var parsed := ParseDateLegacy(dateStr, strptime);
    if parsed.None? {
      return Error(InvalidDate);
    }
    var w := CalculateRelease(s, pair, day, parsed.value, IsLowLabel, LabelType);
    return Weights(w);
  }

  // ------------------------------------------------------------ variant 4 is the 25 engine

  /** Without a size filter and with confidence 1, a release contributes what it does in the 25 service. */
  lemma FlatIsRelease<I>(n: Needed<I>, history: map<int, seq<int>>, target: int, day: int, view: View)
    requires view.threshold == 0.0
    ensures TypedEntries(n, history, target, day, view, Flat) == ReleaseEntries(n, history, target, day, view)
  {
    var valid := ValidDates(DatesOf(history, n.entry.eid), target);
    if |valid| > 0 {
      var tDates := Shifted(valid, StepUnit(day) * n.shift);
      assert Filtered(tDates, view.sizes, view.threshold) == tDates;
      TypedOfShape(n, tDates, view, Flat);
      assert Weighted(RateSum(tDates, view.rates), 1.0) == RateSum(tDates, view.rates);
      if view.prev.Some? {
        var m := Components.Matches(tDates, TrendSet(view.extremums, view.prev.value.isBull));
        assert TrendValue(m, |tDates|, 1.0, view.modification) == Components.Ratio(m, |valid|, view.modification);
      }
    }
  }

  lemma {:induction false} AllFlatIsRelease<I>(needed: seq<Needed<I>>, history: map<int, seq<int>>, target: int, day: int, view: View)
    requires view.threshold == 0.0
    ensures AllTyped(needed, history, target, day, view, Flat) == AllRelease(needed, history, target, day, view)
  {
    if |needed| > 0 {
      AllFlatIsRelease(needed[..|needed| - 1], history, target, day, view);
      FlatIsRelease(needed[|needed| - 1], history, target, day, view);
    }
  }

  lemma FlatWeights(s: Snapshot<Option<int>>, pair: int, day: int, target: int)
    ensures TypedWeights(s, pair, day, target, VarConfig(-12, 12, None, Flat))
            == ReleaseWeights(s, pair, day, target, IsLowRank, RankedType(s.eventTypes))
  {
    var events := EventsInWindow(s.calendar, CheckDates(target, StepUnit(day), -12, 12), target, IsLowRank);
    var needed := NeededEvents(events, target, day, RankedType(s.eventTypes));
    AllFlatIsRelease(needed, s.history, target, day, ViewOf(s, pair, day, target, None));
  }

  /**
   * Variant 4 of the 32 service (the plain window, no candle-size filter,
   * confidence_none) answers exactly what the 25 service answers.
   */
  lemma Var4IsRanked(s: Snapshot<Option<int>>, pair: int, day: int, dateStr: string, strptime: Strptime)
    ensures TypedResponse(s, pair, day, dateStr, 4, strptime) == RankedResponse(s, pair, day, dateStr, strptime)
  {
    var parsed := ParseDate(dateStr, strptime);
    if parsed.Some? {
      var cfg := VarConfig(-12, 12, None, Flat);
      assert VarConfigs(4) == Some(cfg);
      FlatWeights(s, pair, day, parsed.value);
      assert TypedResponse(s, pair, day, dateStr, 4, strptime) == Weights(TypedWeights(s, pair, day, parsed.value, cfg));
    }
  }

  // ------------------------------------------------------------ variant 3 is variant 0

  /** Every event type is 0 or 1, as the preload writes them. */
  predicate BinaryTypes(types: map<int, int>)
  {
    forall eid :: eid in types ==> types[eid] == 0 || types[eid] == 1
  }

  lemma {:induction false} NeededAppend<I(!new)>(a: seq<CalEntry<I, ()>>, b: seq<CalEntry<I, ()>>, target: int, day: int,
                                                typeOf: CalEntry<I, ()> -> int)
    ensures NeededEvents(a + b, target, day, typeOf) == NeededEvents(a, target, day, typeOf) + NeededEvents(b, target, day, typeOf)
  {
    if |b| == 0 {
      assert a + b == a;
    } else {
      var ab := a + b;
      var e := b[|b| - 1];
      var shift := Shift(day, target, e.date);
      var t := typeOf(e);
      var tail := if Skipped(t, shift) then [] else [Needed(e, shift, t)];
      assert NeededEvents(ab, target, day, typeOf) == NeededEvents(a + b[..|b| - 1], target, day, typeOf) + tail by {
        assert ab[..|ab| - 1] == a + b[..|b| - 1];
        assert ab[|ab| - 1] == e;
      }
      assert NeededEvents(b, target, day, typeOf) == NeededEvents(b[..|b| - 1], target, day, typeOf) + tail;
      NeededAppend(a, b[..|b| - 1], target, day, typeOf);
    }
  }

  lemma NeededNone<I(!new)>(events: seq<CalEntry<I, ()>>, target: int, day: int, typeOf: CalEntry<I, ()> -> int)
    requires forall e :: e in events ==> Skipped(typeOf(e), Shift(day, target, e.date))
    ensures NeededEvents(events, target, day, typeOf) == []
  {
  }

  /**
   * A release more than twelve steps from the target is skipped whatever
   * its type, as long as types are 0 or 1 and entries are filed under
   * their own date.
   */
  lemma FarReleasesSkipped(s: Snapshot<Option<int>>, target: int, day: int, lo: int, hi: int)
    requires Consistent(s.history, s.calendar) && BinaryTypes(s.eventTypes)
    requires 13 <= lo || hi <= -13
    ensures NeededEvents(EventsInWindow(s.calendar, CheckDates(target, StepUnit(day), lo, hi), target, IsLowRank),
                         target, day, RankedType(s.eventTypes)) == []
  {
    var events := EventsInWindow(s.calendar, CheckDates(target, StepUnit(day), lo, hi), target, IsLowRank);
    forall e | e in events
      ensures Skipped(RankedType(s.eventTypes)(e), Shift(day, target, e.date))
    {
      InWindowIsAtStep(s.calendar, target, StepUnit(day), lo, hi, IsLowRank, e);
      var k :| lo <= k <= hi && e.date == target + StepUnit(day) * k;
      ShiftOfStep(day, target, k);
    }
    NeededNone(events, target, day, RankedType(s.eventTypes));
  }

  lemma WideWindowWeights(s: Snapshot<Option<int>>, pair: int, day: int, target: int, pct: Option<int>, conf: Confidence)
    requires Consistent(s.history, s.calendar) && BinaryTypes(s.eventTypes)
    ensures TypedWeights(s, pair, day, target, VarConfig(-24, 24, pct, conf)) == TypedWeights(s, pair, day, target, VarConfig(-12, 12, pct, conf))
  {
    WideWindowNeeded(s, target, day);
  }

  /** The releases the 24-step window needs are those the 12-step window needs. */
  lemma WideWindowNeeded(s: Snapshot<Option<int>>, target: int, day: int)
    requires Consistent(s.history, s.calendar) && BinaryTypes(s.eventTypes)
    ensures NeededEvents(EventsInWindow(s.calendar, CheckDates(target, StepUnit(day), -24, 24), target, IsLowRank),
                         target, day, RankedType(s.eventTypes))
         == NeededEvents(EventsInWindow(s.calendar, CheckDates(target, StepUnit(day), -12, 12), target, IsLowRank),
                         target, day, RankedType(s.eventTypes))
  {
    var u := StepUnit(day);
    var typeOf := RankedType(s.eventTypes);
    CheckDatesSplit(target, u, -24, -12, 24);
    CheckDatesSplit(target, u, -12, 13, 24);
    var left := CheckDates(target, u, -24, -13);
    var mid := CheckDates(target, u, -12, 12);
    var right := CheckDates(target, u, 13, 24);
    assert CheckDates(target, u, -24, 24) == left + (mid + right);
    EventsInWindowAppend(s.calendar, left, mid + right, target, IsLowRank);
    EventsInWindowAppend(s.calendar, mid, right, target, IsLowRank);
    var l := EventsInWindow(s.calendar, left, target, IsLowRank);
    var m := EventsInWindow(s.calendar, mid, target, IsLowRank);
    var r := EventsInWindow(s.calendar, right, target, IsLowRank);
    NeededAppend(l, m + r, target, day, typeOf);
    NeededAppend(m, r, target, day, typeOf);
    FarReleasesSkipped(s, target, day, -24, -13);
    FarReleasesSkipped(s, target, day, 13, 24);
  }

  /**
   * Variant 3's wider window (24 steps each side) adds nothing: what it
   * finds beyond twelve steps fails the type gate, so it answers exactly
   * what variant 0 answers.
   */
  lemma Var3IsVar0(s: Snapshot<Option<int>>, pair: int, day: int, dateStr: string, strptime: Strptime)
    requires Consistent(s.history, s.calendar) && BinaryTypes(s.eventTypes)
    ensures TypedResponse(s, pair, day, dateStr, 3, strptime) == TypedResponse(s, pair, day, dateStr, 0, strptime)
  {
    var parsed := ParseDate(dateStr, strptime);
    if parsed.Some? {
      var wide, base := VarConfig(-24, 24, Some(50), Bayes(10)), VarConfig(-12, 12, Some(50), Bayes(10));
      assert VarConfigs(3) == Some(wide) && VarConfigs(0) == Some(base);
      WideWindowWeights(s, pair, day, parsed.value, Some(50), Bayes(10));
      assert TypedResponse(s, pair, day, dateStr, 3, strptime) == Weights(TypedWeights(s, pair, day, parsed.value, wide));
      assert TypedResponse(s, pair, day, dateStr, 0, strptime) == Weights(TypedWeights(s, pair, day, parsed.value, base));
    }
  }

  // ------------------------------------------------------------ shape of the answer

  /**
   * A weight key has mode 0 or 1 and carries a shift exactly when its
   * event is recurring, a shift of at most twelve steps.
   */
  predicate WellKeyed(k: Cursor)
  {
    (k.mode == 0 || k.mode == 1) && (k.shift.Some? <==> k.etype == 1)
    && (k.shift.Some? ==> -12 <= k.shift.value <= 12)
  }

  /** A well-keyed entry whose mode-1 value exists only after a previous candle and stays within the factor. */
  predicate GoodEntry(e: Entry<Cursor>, view: View)
  {
    WellKeyed(e.key)
    && (e.key.mode == 1 ==> view.prev.Some? && -Components.Abs(view.modification) <= e.value <= Components.Abs(view.modification))
  }

  /** A finished weight: a well-formed key and, in mode 1, a rounded value within the factor. */
  predicate GoodValue(k: Cursor, v: real, view: View)
  {
    WellKeyed(k)
    && (k.mode == 1 ==>
          view.prev.Some?
          && -Components.Abs(view.modification) - 0.0000005 <= v <= Components.Abs(view.modification) + 0.0000005)
  }

  lemma TypedEntriesGood<I>(n: Needed<I>, history: map<int, seq<int>>, target: int, day: int, view: View, conf: Confidence)
    requires !Skipped(n.etype, n.shift)
    ensures forall i :: 0 <= i < |TypedEntries(n, history, target, day, view, conf)| ==>
                          GoodEntry(TypedEntries(n, history, target, day, view, conf)[i], view)
  {
    var valid := ValidDates(DatesOf(history, n.entry.eid), target);
    if |valid| > 0 {
      var filtered := Filtered(Shifted(valid, StepUnit(day) * n.shift), view.sizes, view.threshold);
      TypedOfShape(n, filtered, view, conf);
      if view.prev.Some? && |filtered| > 0 {
        var m := Components.Matches(filtered, TrendSet(view.extremums, view.prev.value.isBull));
        TrendValueBounded(m, |filtered|, ConfidenceOf(conf, |filtered|), view.modification);
      }
    }
  }

  lemma ReleaseEntriesGood<I>(n: Needed<I>, history: map<int, seq<int>>, target: int, day: int, view: View)
    requires !Skipped(n.etype, n.shift)
    ensures forall i :: 0 <= i < |ReleaseEntries(n, history, target, day, view)| ==>
                          GoodEntry(ReleaseEntries(n, history, target, day, view)[i], view)
  {
    var valid := ValidDates(DatesOf(history, n.entry.eid), target);
    if |valid| > 0 && view.prev.Some? {
      var tDates := Shifted(valid, StepUnit(day) * n.shift);
      var m := Components.Matches(tDates, TrendSet(view.extremums, view.prev.value.isBull));
      Components.RatioBounds(m, |valid|, view.modification);
    }
  }

  lemma {:induction false} AllTypedGood<I>(needed: seq<Needed<I>>, history: map<int, seq<int>>, target: int, day: int,
                                           view: View, conf: Confidence)
    requires forall n :: n in needed ==> !Skipped(n.etype, n.shift)
    ensures forall i :: 0 <= i < |AllTyped(needed, history, target, day, view, conf)| ==>
                          GoodEntry(AllTyped(needed, history, target, day, view, conf)[i], view)
  {
    if |needed| > 0 {
      var init := needed[..|needed| - 1];
      var last := needed[|needed| - 1];
      assert forall n :: n in init ==> n in needed;
      AllTypedGood(init, history, target, day, view, conf);
      TypedEntriesGood(last, history, target, day, view, conf);
      var a := AllTyped(init, history, target, day, view, conf);
      var b := TypedEntries(last, history, target, day, view, conf);
      assert forall i :: |a| <= i < |a + b| ==> (a + b)[i] == b[i - |a|];
    }
  }

  lemma {:induction false} AllReleaseGood<I>(needed: seq<Needed<I>>, history: map<int, seq<int>>, target: int, day: int, view: View)
    requires forall n :: n in needed ==> !Skipped(n.etype, n.shift)
    ensures forall i :: 0 <= i < |AllRelease(needed, history, target, day, view)| ==>
                          GoodEntry(AllRelease(needed, history, target, day, view)[i], view)
  {
    if |needed| > 0 {
      var init := needed[..|needed| - 1];
      var last := needed[|needed| - 1];
      assert forall n :: n in init ==> n in needed;
      AllReleaseGood(init, history, target, day, view);
      ReleaseEntriesGood(last, history, target, day, view);
      var a := AllRelease(init, history, target, day, view);
      var b := ReleaseEntries(last, history, target, day, view);
      assert forall i :: |a| <= i < |a + b| ==> (a + b)[i] == b[i - |a|];
    }
  }

  /** Good entries make a good answer: rounding moves a mode-1 value by at most half a millionth. */
  lemma FinalGood(es: seq<Entry<Cursor>>, view: View)
    requires forall i :: 0 <= i < |es| ==> GoodEntry(es[i], view)
    ensures forall k :: k in Finalize(Assign(map[], es)) ==> GoodValue(k, Finalize(Assign(map[], es))[k], view)
  {
    var raw := Assign(map[], es);
    forall k | k in Finalize(raw)
      ensures GoodValue(k, Finalize(raw)[k], view)
    {
      AssignValueFrom(map[], es, k);
      var i :| 0 <= i < |es| && es[i] == Entry(k, raw[k]);
      assert GoodEntry(es[i], view);
      FinalizeClose(raw, k);
    }
  }

  /**
   * Every key of a 32 answer is well formed, a mode-1 key appears only
   * when the table has a candle before the target, and a mode-1 value
   * lies within the pair's modification factor.
   */
  lemma TypedWeightsShape(s: Snapshot<Option<int>>, pair: int, day: int, target: int, cfg: VarConfig)
    ensures var view := ViewOf(s, pair, day, target, cfg.pct);
            var w := TypedWeights(s, pair, day, target, cfg);
            forall k :: k in w ==> GoodValue(k, w[k], view)
  {
    var events := EventsInWindow(s.calendar, CheckDates(target, StepUnit(day), cfg.lo, cfg.hi), target, IsLowRank);
    var needed := NeededEvents(events, target, day, RankedType(s.eventTypes));
    var view := ViewOf(s, pair, day, target, cfg.pct);
    AllTypedGood(needed, s.history, target, day, view, cfg.conf);
    FinalGood(AllTyped(needed, s.history, target, day, view, cfg.conf), view);
  }

  /** The same for the 25 and 23 answers. */
  lemma ReleaseWeightsShape<I(!new)>(s: Snapshot<I>, pair: int, day: int, target: int, isLow: I -> bool, typeOf: CalEntry<I, ()> -> int)
    ensures var view := ViewOf(s, pair, day, target, None);
            var w := ReleaseWeights(s, pair, day, target, isLow, typeOf);
            forall k :: k in w ==> GoodValue(k, w[k], view)
  {
    var events := EventsInWindow(s.calendar, CheckDates(target, StepUnit(day), -Window, Window), target, isLow);
    var needed := NeededEvents(events, target, day, typeOf);
    var view := ViewOf(s, pair, day, target, None);
    AllReleaseGood(needed, s.history, target, day, view);
    FinalGood(AllRelease(needed, s.history, target, day, view), view);
  }

  // ------------------------------------------------------------ only the past counts

  lemma {:induction false} AllTypedSameValid<I>(needed: seq<Needed<I>>, h1: map<int, seq<int>>, h2: map<int, seq<int>>, target: int,
                                                day: int, view: View, conf: Confidence)
    requires forall eid :: ValidDates(DatesOf(h1, eid), target) == ValidDates(DatesOf(h2, eid), target)
    ensures AllTyped(needed, h1, target, day, view, conf) == AllTyped(needed, h2, target, day, view, conf)
  {
    if |needed| > 0 {
      AllTypedSameValid(needed[..|needed| - 1], h1, h2, target, day, view, conf);
      assert ValidDates(DatesOf(h1, needed[|needed| - 1].entry.eid), target) == ValidDates(DatesOf(h2, needed[|needed| - 1].entry.eid), target);
    }
  }

  lemma {:induction false} AllReleaseSameValid<I>(needed: seq<Needed<I>>, h1: map<int, seq<int>>, h2: map<int, seq<int>>, target: int,
                                                  day: int, view: View)
    requires forall eid :: ValidDates(DatesOf(h1, eid), target) == ValidDates(DatesOf(h2, eid), target)
    ensures AllRelease(needed, h1, target, day, view) == AllRelease(needed, h2, target, day, view)
  {
    if |needed| > 0 {
      AllReleaseSameValid(needed[..|needed| - 1], h1, h2, target, day, view);
      assert ValidDates(DatesOf(h1, needed[|needed| - 1].entry.eid), target) == ValidDates(DatesOf(h2, needed[|needed| - 1].entry.eid), target);
    }
  }

  /** Releases of an event at or after the target, added to its history, change no 32 weight. */
  lemma TypedIgnoresLaterHistory(s: Snapshot<Option<int>>, pair: int, day: int, target: int, cfg: VarConfig, eid: int, later: seq<int>)
    requires forall k :: 0 <= k < |later| ==> later[k] >= target
    ensures TypedWeights(s.(history := s.history[eid := DatesOf(s.history, eid) + later]), pair, day, target, cfg)
            == TypedWeights(s, pair, day, target, cfg)
  {
    var s2 := s.(history := s.history[eid := DatesOf(s.history, eid) + later]);
    forall e
      ensures ValidDates(DatesOf(s2.history, e), target) == ValidDates(DatesOf(s.history, e), target)
    {
      if e == eid {
        ValidDatesIgnoresLater(DatesOf(s.history, eid), later, target);
      }
    }
    TypedSameValid(s, s2.history, pair, day, target, cfg);
  }

  /** The 32 weights read the history only through each event's dates before the target. */
  lemma TypedSameValid(s: Snapshot<Option<int>>, h2: map<int, seq<int>>, pair: int, day: int, target: int, cfg: VarConfig)
    requires forall e :: ValidDates(DatesOf(h2, e), target) == ValidDates(DatesOf(s.history, e), target)
    ensures TypedWeights(s.(history := h2), pair, day, target, cfg) == TypedWeights(s, pair, day, target, cfg)
  {
    var s2 := s.(history := h2);
    var events := EventsInWindow(s.calendar, CheckDates(target, StepUnit(day), cfg.lo, cfg.hi), target, IsLowRank);
    var needed := NeededEvents(events, target, day, RankedType(s.eventTypes));
    var view := ViewOf(s, pair, day, target, cfg.pct);
    assert ViewOf(s2, pair, day, target, cfg.pct) == view;
    assert AllTyped(needed, h2, target, day, view, cfg.conf) == AllTyped(needed, s.history, target, day, view, cfg.conf) by {
      AllTypedSameValid(needed, h2, s.history, target, day, view, cfg.conf);
    }
  }

  /** The same for the 25 and 23 weights. */
  lemma ReleaseIgnoresLaterHistory<I(!new)>(s: Snapshot<I>, pair: int, day: int, target: int, isLow: I -> bool,
                                           typeOf: CalEntry<I, ()> -> int, eid: int, later: seq<int>)
    requires forall k :: 0 <= k < |later| ==> later[k] >= target
    ensures ReleaseWeights(s.(history := s.history[eid := DatesOf(s.history, eid) + later]), pair, day, target, isLow, typeOf)
            == ReleaseWeights(s, pair, day, target, isLow, typeOf)
  {
    var s2 := s.(history := s.history[eid := DatesOf(s.history, eid) + later]);
    forall e
      ensures ValidDates(DatesOf(s2.history, e), target) == ValidDates(DatesOf(s.history, e), target)
    {
      if e == eid {
        ValidDatesIgnoresLater(DatesOf(s.history, eid), later, target);
      }
    }
    ReleaseSameValid(s, s2.history, pair, day, target, isLow, typeOf);
  }

  /** The 25 and 23 weights read the history only through each event's dates before the target. */
  lemma ReleaseSameValid<I(!new)>(s: Snapshot<I>, h2: map<int, seq<int>>, pair: int, day: int, target: int, isLow: I -> bool,
                                  typeOf: CalEntry<I, ()> -> int)
    requires forall e :: ValidDates(DatesOf(h2, e), target) == ValidDates(DatesOf(s.history, e), target)
    ensures ReleaseWeights(s.(history := h2), pair, day, target, isLow, typeOf) == ReleaseWeights(s, pair, day, target, isLow, typeOf)
  {
    var s2 := s.(history := h2);
    var events := EventsInWindow(s.calendar, CheckDates(target, StepUnit(day), -Window, Window), target, isLow);
    var needed := NeededEvents(events, target, day, typeOf);
    var view := ViewOf(s, pair, day, target, None);
    assert ViewOf(s2, pair, day, target, None) == view;
    assert AllRelease(needed, h2, target, day, view) == AllRelease(needed, s.history, target, day, view) by {
      AllReleaseSameValid(needed, h2, s.history, target, day, view);
    }
  }
}
