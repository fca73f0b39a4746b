/**
 * The market-context memory engines: the 31 service (hourly or daily
 * market instruments) and the 30 service (daily ECB exchange rates).
 *
 * Both look at the observations of their instruments in a window of
 * twelve steps around the target. An observation is an instrument's
 * context (rate change, trend and momentum labels) at one step; it
 * counts when the context index knows that context for the instrument,
 * subject to the same recurrence gates as the event-context engine. The
 * instrument's earlier observations of the same context, shifted by the
 * observation's distance from the target, are the dates the two shared
 * components are computed over, and the values are accumulated per code.
 *
 * The two services differ only in their clock: the 31 service steps by an
 * hour (by a day for daily tables) from the target itself and measures a
 * distance by rounding the quotient of two time spans; the 30 service
 * steps by days from the target's date, measures whole days, and turns
 * the shifted dates into midnight timestamps.
 */
module MarketEngine {
  import opened Wrappers
  import opened Dates
  import opened Rounding
  import opened Results
  import opened Sorting
  import opened Classify
  import Calendar
  import Candles
  import Components
  import WeightCodes

  /** The two services that share this engine. */
  datatype Service = Market | Ecb

  /** RECURRING_MIN_COUNT. */
  const RecurringMinCount: int := 2

  /** SHIFT_WINDOW of the 31 service (its default) and the fixed window of the 30 service. */
  const Window: int := 12

  /** The key of the context index and of the context histories: an instrument and one of its contexts. */
  datatype CtxKey = CtxKey(entity: string, ctx: Context)

  /**
   * A weight code `{entity}_{r}_{t}_{m}_{mode}[_{shift}]`, kept as its
   * fields; CodeOf renders it, and CodeOfInjective shows that rendering
   * loses nothing for the contexts the classifier produces.
   */
  datatype MarketKey = MarketKey(entity: string, ctx: Context, mode: int, shift: Option<int>)

  function CodeOf(k: MarketKey): string
  {
    WeightCodes.MarketCode(k.entity, k.ctx, k.mode, k.shift)
  }

  /**
   * What a service holds in memory: the context of every (instrument,
   * timestamp) observation, the instruments observed at each timestamp,
   * the timestamps of every (instrument, context) pair, the occurrence
   * count of every indexed context, and the loaded quote tables.
   */
  datatype MarketSnapshot = MarketSnapshot(
    context: map<(string, int), Context>,
    observed: map<int, seq<string>>,
    ctxHist: map<CtxKey, seq<int>>,
    ctxIndex: map<CtxKey, int>,
    tables: map<string, Candles.TableData>)

  function SeenContext(s: MarketSnapshot, entity: string, dt: int): Option<Context>
  {
    if (entity, dt) in s.context then Some(s.context[(entity, dt)]) else None
  }

  function EntitiesAt(s: MarketSnapshot, dt: int): seq<string>
  {
    if dt in s.observed then s.observed[dt] else []
  }

  function HistOf(s: MarketSnapshot, key: CtxKey): seq<int>
  {
    if key in s.ctxHist then s.ctxHist[key] else []
  }

  // ------------------------------------------------------------ the clocks

  /** The window step: delta_unit of the 31 service, one day for the 30 service. */
  function Unit(svc: Service, day: int): (u: int)
    ensures u == Hour || u == Day
    ensures svc == Ecb ==> u == Day
  {
    if svc == Market then DeltaUnit(day) else Day
  }

  /** The centre of the window and the cut-off of the history: the target, or its date for the 30 service. */
  function Anchor(svc: Service, target: int): int
  {
    if svc == Market then target else DateOf(target)
  }

  /** round((target - dt) / delta_unit) for the 31 service, (target_d - dt).days for the 30 service. */
  function StepsBetween(svc: Service, anchor: int, dt: int, unit: int): int
    requires unit > 0
  {
    if svc == Market then RoundHalfEven((anchor - dt) as real / unit as real)
    else Days(anchor - dt)
  }

  /** An observation at window step k is -k steps away, for both clocks. */
  lemma StepsOfStep(svc: Service, day: int, anchor: int, k: int)
    ensures StepsBetween(svc, anchor, anchor + Unit(svc, day) * k, Unit(svc, day)) == -k
  {
    var u := Unit(svc, day);
    if svc == Market {
      assert (anchor - (anchor + u * k)) as real == (u as real) * ((-k) as real);
      assert (anchor - (anchor + u * k)) as real / u as real == (-k) as real;
      RoundHalfEvenOfInt(-k);
    } else {
      WholeShifts(-k);
      assert anchor - (anchor + Day * k) == (-k) * Day;
    }
  }

  /** The dates a history maps to: shifted by the steps, as midnight timestamps for the 30 service. */
  function TDates(svc: Service, valid: seq<int>, unit: int, shift: int): (r: seq<int>)
    ensures |r| == |valid|
  {
    var moved := Calendar.Shifted(valid, unit * shift);
    if svc == Market then moved else seq(|moved|, i requires 0 <= i < |moved| => DateOf(moved[i]))
  }

  // ------------------------------------------------------------ the observations of the window

  /** An instrument observed in one context at a timestamp, and its distance from the target in steps. */
  datatype Sighting = Sighting(entity: string, dt: int, ctx: Context, shift: int)

  /** o is the sighting of one of the listed instruments at dt, with its context and distance. */
  predicate SightedAmong(o: Sighting, s: MarketSnapshot, svc: Service, anchor: int, unit: int, dt: int, entities: seq<string>)
    requires unit > 0
  {
    o.dt == dt && o.entity in entities && SeenContext(s, o.entity, dt) == Some(o.ctx)
    && o.shift == StepsBetween(svc, anchor, dt, unit)
  }

  /** The instruments of one timestamp that have a context, in the order they are listed. */
  function SightingsAt(s: MarketSnapshot, svc: Service, anchor: int, unit: int, dt: int, entities: seq<string>): (r: seq<Sighting>)
    requires unit > 0
    ensures forall i :: 0 <= i < |r| ==> SightedAmong(r[i], s, svc, anchor, unit, dt, entities)
    ensures forall e :: e in entities && SeenContext(s, e, dt).Some? ==> exists i :: 0 <= i < |r| && r[i].entity == e
  {
    if |entities| == 0 then []
    else
      var init := SightingsAt(s, svc, anchor, unit, dt, entities[..|entities| - 1]);
      var e := entities[|entities| - 1];
      assert forall x :: x in entities <==> x in entities[..|entities| - 1] || x == e;
      var ctx := SeenContext(s, e, dt);
      if ctx.Some? then
        var r := init + [Sighting(e, dt, ctx.value, StepsBetween(svc, anchor, dt, unit))];
        assert r[|init|].entity == e;
        assert forall i :: 0 <= i < |init| ==> r[i] == init[i];
        r
      else init
  }

  /** The observations of the window dates, date by date. */
  function Sightings(s: MarketSnapshot, svc: Service, anchor: int, unit: int, dates: seq<int>): seq<Sighting>
    requires unit > 0
  {
    if |dates| == 0 then []
    else
      var dt := dates[|dates| - 1];
      Sightings(s, svc, anchor, unit, dates[..|dates| - 1]) + SightingsAt(s, svc, anchor, unit, dt, EntitiesAt(s, dt))
  }

  function WindowDates(svc: Service, day: int, target: int): seq<int>
  {
    Calendar.CheckDates(Anchor(svc, target), Unit(svc, day), -Window, Window)
  }

  function WindowSightings(s: MarketSnapshot, svc: Service, day: int, target: int): seq<Sighting>
  {
    Sightings(s, svc, Anchor(svc, target), Unit(svc, day), WindowDates(svc, day, target))
  }

  /** The observation loops of calculate_pure_memory. */
  method CollectSightings(s: MarketSnapshot, svc: Service, day: int, target: int) returns (obs: seq<Sighting>)
    ensures obs == WindowSightings(s, svc, day, target)
  {
    var anchor, unit := Anchor(svc, target), Unit(svc, day);
    var dates := WindowDates(svc, day, target);
    obs := [];
    for i := 0 to |dates|
      invariant obs == Sightings(s, svc, anchor, unit, dates[..i])
    {
      var dt := dates[i];
      assert dates[..i + 1][..i] == dates[..i];
      var entities := EntitiesAt(s, dt);
      var here: seq<Sighting> := [];
      for j := 0 to |entities|
        invariant here == SightingsAt(s, svc, anchor, unit, dt, entities[..j])
      {
        assert entities[..j + 1][..j] == entities[..j];
        var ctx := SeenContext(s, entities[j], dt);
        if ctx.Some? {
          here := here + [Sighting(entities[j], dt, ctx.value, StepsBetween(svc, anchor, dt, unit))];
        }
      }
      assert entities[..|entities|] == entities;
      obs := obs + here;
    }
    assert dates[..|dates|] == dates;
  }

  /** The instrument was observed in the context at the timestamp. */
  predicate Observed(s: MarketSnapshot, entity: string, ctx: Context, dt: int)
  {
    entity in EntitiesAt(s, dt) && SeenContext(s, entity, dt) == Some(ctx)
  }

  /** What an observation of the window is: a listed instrument's context, at most twelve steps away, at its distance. */
  predicate SightingFits(o: Sighting, s: MarketSnapshot, anchor: int, unit: int)
  {
    Observed(s, o.entity, o.ctx, o.dt) && -Window <= o.shift <= Window && o.dt == anchor - unit * o.shift
  }

  predicate AllSightingsFit(obs: seq<Sighting>, s: MarketSnapshot, anchor: int, unit: int)
  {
    forall i :: 0 <= i < |obs| ==> SightingFits(obs[i], s, anchor, unit)
  }

  /** The sightings of window step k all fit. */
  lemma StepSightingsFit(s: MarketSnapshot, svc: Service, day: int, anchor: int, k: int)
    requires -Window <= k <= Window
    ensures var dt := anchor + Unit(svc, day) * k;
            AllSightingsFit(SightingsAt(s, svc, anchor, Unit(svc, day), dt, EntitiesAt(s, dt)), s, anchor, Unit(svc, day))
  {
    var unit := Unit(svc, day);
    StepsOfStep(svc, day, anchor, k);
    assert unit * (-k) == -(unit * k);
  }

  lemma AllSightingsFitAppend(a: seq<Sighting>, b: seq<Sighting>, s: MarketSnapshot, anchor: int, unit: int)
    requires AllSightingsFit(a, s, anchor, unit) && AllSightingsFit(b, s, anchor, unit)
    ensures AllSightingsFit(a + b, s, anchor, unit)
  {
    assert forall i :: |a| <= i < |a + b| ==> (a + b)[i] == b[i - |a|];
  }

  lemma {:induction false} SightingsFit(s: MarketSnapshot, svc: Service, day: int, anchor: int, dates: seq<int>)
    requires |dates| <= 2 * Window + 1
    requires forall i :: 0 <= i < |dates| ==> dates[i] == anchor + Unit(svc, day) * (-Window + i)
    ensures AllSightingsFit(Sightings(s, svc, anchor, Unit(svc, day), dates), s, anchor, Unit(svc, day))
  {
    var unit := Unit(svc, day);
    if |dates| > 0 {
      var n := |dates| - 1;
      var dt := dates[n];
      SightingsFit(s, svc, day, anchor, dates[..n]);
      StepSightingsFit(s, svc, day, anchor, -Window + n);
      AllSightingsFitAppend(Sightings(s, svc, anchor, unit, dates[..n]), SightingsAt(s, svc, anchor, unit, dt, EntitiesAt(s, dt)),
                            s, anchor, unit);
    }
  }

  lemma WindowSightingsFit(s: MarketSnapshot, svc: Service, day: int, target: int)
    ensures AllSightingsFit(WindowSightings(s, svc, day, target), s, Anchor(svc, target), Unit(svc, day))
  {
    SightingsFit(s, svc, day, Anchor(svc, target), WindowDates(svc, day, target));
  }

  // ------------------------------------------------------------ one observation

  /** An observation the index admits: whether its context recurs, and the history before the target. */
  datatype Admission = Admission(recurring: bool, valid: seq<int>)

  /** The gates of the observation loop, in the order the services apply them. */
  function Admit(s: MarketSnapshot, o: Sighting, anchor: int): Option<Admission>
  {
    var key := CtxKey(o.entity, o.ctx);
    if key !in s.ctxIndex then None
    else
      var recurring := s.ctxIndex[key] >= RecurringMinCount;
      if !recurring && o.shift != 0 then None
      else if recurring && (o.shift < -Window || o.shift > Window) then None
      else
        var valid := Earlier(HistOf(s, key), anchor);
        if |valid| == 0 then None else Some(Admission(recurring, valid))
  }

  /** shift_arg: the steps for a recurring context, nothing otherwise. */
  function ShiftArg(o: Sighting, a: Admission): Option<int>
  {
    if a.recurring then Some(o.shift) else None
  }

  function T1Entries(o: Sighting, a: Admission, tDates: seq<int>, calcType: int, calcVar: int, view: Components.TableView)
    : seq<Entry<MarketKey>>
  {
    if calcType == 0 || calcType == 1 then
      var t := view.table;
      [Entry(MarketKey(o.entity, o.ctx, 0, ShiftArg(o, a)),
             Components.T1Total(tDates, Components.VariantOf(calcVar), t.rates, t.ranges, t.avgRange))]
    else []
  }

  function ExtremumEntries(o: Sighting, a: Admission, tDates: seq<int>, calcType: int, calcVar: int, view: Components.TableView)
    : seq<Entry<MarketKey>>
  {
    if (calcType == 0 || calcType == 2) && view.prev.Some? then
      var t := view.table;
      var ext := Components.ExtremumValue(tDates, calcVar, Components.TrendSet(t, view.prev.value.isBull), t.ranges, t.avgRange,
                                          view.modification, |a.valid|);
      if ext.Some? then [Entry(MarketKey(o.entity, o.ctx, 1, ShiftArg(o, a)), ext.value)] else []
    else []
  }

  /** Everything one observation adds to the result, in the order the loop adds it. */
  function SightingEntries(s: MarketSnapshot, svc: Service, o: Sighting, anchor: int, unit: int, calcType: int, calcVar: int,
                           view: Components.TableView): seq<Entry<MarketKey>>
  {
    var a := Admit(s, o, anchor);
    if a.None? then []
    else
      var tDates := TDates(svc, a.value.valid, unit, o.shift);
      T1Entries(o, a.value, tDates, calcType, calcVar, view) + ExtremumEntries(o, a.value, tDates, calcType, calcVar, view)
  }

  function AllEntries(s: MarketSnapshot, svc: Service, obs: seq<Sighting>, anchor: int, unit: int, calcType: int, calcVar: int,
                      view: Components.TableView): seq<Entry<MarketKey>>
  {
    if |obs| == 0 then []
    else AllEntries(s, svc, obs[..|obs| - 1], anchor, unit, calcType, calcVar, view)
         + SightingEntries(s, svc, obs[|obs| - 1], anchor, unit, calcType, calcVar, view)
  }

  /** The weights for a readable date. */
  function MarketWeights(s: MarketSnapshot, svc: Service, pair: int, day: int, target: int, calcType: int, calcVar: int)
    : map<MarketKey, real>
  {
    var view := Components.ViewOf(s.tables, pair, day, target);
    Finalize(Accumulate(map[], AllEntries(s, svc, WindowSightings(s, svc, day, target), Anchor(svc, target), Unit(svc, day),
                                          calcType, calcVar, view)))
  }

  /** calculate_pure_memory of the 31 (Market) and 30 (Ecb) services. */
  function MarketResponse(s: MarketSnapshot, svc: Service, pair: int, day: int, dateStr: string, calcType: int, calcVar: int,
                          strptime: Strptime): Response<MarketKey>
  {
    var parsed := ParseDate(dateStr, strptime);
    if parsed.None? then Error(InvalidDate)
    else Weights(MarketWeights(s, svc, pair, day, parsed.value, calcType, calcVar))
  }

  // ------------------------------------------------------------ the loops

  /** One observation's step of the result loop. */
  method ApplySighting(result: map<MarketKey, real>, s: MarketSnapshot, svc: Service, o: Sighting, anchor: int, unit: int,
                       calcType: int, calcVar: int, view: Components.TableView)
    returns (out: map<MarketKey, real>)
    requires unit > 0
    ensures out == Accumulate(result, SightingEntries(s, svc, o, anchor, unit, calcType, calcVar, view))
  {
    var key := CtxKey(o.entity, o.ctx);
    if key !in s.ctxIndex {
      return result;
    }
    var recurring := s.ctxIndex[key] >= RecurringMinCount;
    if !recurring && o.shift != 0 {
      return result;
    }
    if recurring && (o.shift < -Window || o.shift > Window) {
      return result;
    }
    var valid := Earlier(HistOf(s, key), anchor);
    if |valid| == 0 {
      return result;
    }
    var a := Admission(recurring, valid);
    assert Admit(s, o, anchor) == Some(a);
    var tDates := TDates(svc, valid, unit, o.shift);
    out := AddComponents(result, o, a, tDates, calcType, calcVar, view);
  }

  /** The two component steps of an admitted observation. */
  method AddComponents(result: map<MarketKey, real>, o: Sighting, a: Admission, tDates: seq<int>, calcType: int, calcVar: int,
                       view: Components.TableView)
    returns (out: map<MarketKey, real>)
    ensures out == Accumulate(result, T1Entries(o, a, tDates, calcType, calcVar, view) + ExtremumEntries(o, a, tDates, calcType, calcVar, view))
  {
    var t := view.table;
    out := result;
    if calcType == 0 || calcType == 1 {
      var t1 := Components.ComputeT1Value(tDates, calcVar, t.rates, t.ranges, t.avgRange);
      var wc := MarketKey(o.entity, o.ctx, 0, ShiftArg(o, a));
      out := out[wc := GetOr(out, wc) + t1];
      AccumulateOne(result, Entry(wc, t1));
    }
    var e0 := T1Entries(o, a, tDates, calcType, calcVar, view);
    assert out == Accumulate(result, e0);
    var mid := out;
    if (calcType == 0 || calcType == 2) && view.prev.Some? {
      var ext := Components.ExtremumValue(tDates, calcVar, Components.TrendSet(t, view.prev.value.isBull), t.ranges, t.avgRange,
                                          view.modification, |a.valid|);
      if ext.Some? {
        var wc := MarketKey(o.entity, o.ctx, 1, ShiftArg(o, a));
        out := out[wc := GetOr(out, wc) + ext.value];
        AccumulateOne(mid, Entry(wc, ext.value));
      }
    }
    AccumulateAppend(result, e0, ExtremumEntries(o, a, tDates, calcType, calcVar, view));
  }

  method AccumulateSightings(s: MarketSnapshot, svc: Service, obs: seq<Sighting>, anchor: int, unit: int, calcType: int, calcVar: int,
                             view: Components.TableView)
    returns (result: map<MarketKey, real>)
    requires unit > 0
    ensures result == Accumulate(map[], AllEntries(s, svc, obs, anchor, unit, calcType, calcVar, view))
  {
    result := map[];
    for i := 0 to |obs|
      invariant result == Accumulate(map[], AllEntries(s, svc, obs[..i], anchor, unit, calcType, calcVar, view))
    {
      assert obs[..i + 1][..i] == obs[..i];
      AccumulateAppend(map[], AllEntries(s, svc, obs[..i], anchor, unit, calcType, calcVar, view),
                       SightingEntries(s, svc, obs[i], anchor, unit, calcType, calcVar, view));
      result := ApplySighting(result, s, svc, obs[i], anchor, unit, calcType, calcVar, view);
    }
    assert obs[..|obs|] == obs;
  }

  /** calculate_pure_memory: the date, the observations, an empty answer without any, the loop, the rounding. */
  method CalculatePureMemory(s: MarketSnapshot, svc: Service, pair: int, day: int, dateStr: string, calcType: int, calcVar: int,
                             strptime: Strptime)
    returns (r: Response<MarketKey>)
    ensures r == MarketResponse(s, svc, pair, day, dateStr, calcType, calcVar, strptime)
  {
    var parsed := ParseDate(dateStr, strptime);
    if parsed.None? {
      return Error(InvalidDate);
    }
    var target := parsed.value;
    var obs := CollectSightings(s, svc, day, target);
    var anchor, unit := Anchor(svc, target), Unit(svc, day);
    var view := Components.ViewOf(s.tables, pair, day, target);
    ghost var w := Finalize(Accumulate(map[], AllEntries(s, svc, obs, anchor, unit, calcType, calcVar, view)));
    assert MarketResponse(s, svc, pair, day, dateStr, calcType, calcVar, strptime) == Weights(w);
    if |obs| == 0 {
      assert w == map[] by { assert AllEntries(s, svc, obs, anchor, unit, calcType, calcVar, view) == []; }
      return Weights(map[]);
    }
    var result := AccumulateSightings(s, svc, obs, anchor, unit, calcType, calcVar, view);
    return Weights(Finalize(result));
  }

  // ------------------------------------------------------------ shape of the answer

  function ShiftOr0(shift: Option<int>): int
  {
    if shift.Some? then shift.value else 0
  }

  /**
   * What a returned code says: mode 0 only for the types that ask for the
   * T1 component, mode 1 only for those that ask for the extremum and only
   * after a previous candle; the index holds the context for the
   * instrument; the code carries a shift, of at most twelve steps, exactly
   * when the context recurs; the instrument was observed in that context
   * that many steps before the target (at the target itself when no shift
   * is carried); and the context was seen before the target.
   */
  predicate KeyFits(k: MarketKey, s: MarketSnapshot, anchor: int, unit: int, calcType: int, hasPrev: bool)
  {
    (k.mode == 0 || k.mode == 1)
    && (k.mode == 0 ==> calcType == 0 || calcType == 1)
    && (k.mode == 1 ==> (calcType == 0 || calcType == 2) && hasPrev)
    && CtxKey(k.entity, k.ctx) in s.ctxIndex
    && (k.shift.Some? <==> s.ctxIndex[CtxKey(k.entity, k.ctx)] >= RecurringMinCount)
    && (k.shift.Some? ==> -Window <= k.shift.value <= Window)
    && Observed(s, k.entity, k.ctx, anchor - unit * ShiftOr0(k.shift))
    && exists d :: d in HistOf(s, CtxKey(k.entity, k.ctx)) && d < anchor
  }

  predicate AllFit(es: seq<Entry<MarketKey>>, s: MarketSnapshot, anchor: int, unit: int, calcType: int, hasPrev: bool)
  {
    forall i :: 0 <= i < |es| ==> KeyFits(es[i].key, s, anchor, unit, calcType, hasPrev)
  }

  lemma AllFitAppend(a: seq<Entry<MarketKey>>, b: seq<Entry<MarketKey>>, s: MarketSnapshot, anchor: int, unit: int, calcType: int,
                     hasPrev: bool)
    requires AllFit(a, s, anchor, unit, calcType, hasPrev) && AllFit(b, s, anchor, unit, calcType, hasPrev)
    ensures AllFit(a + b, s, anchor, unit, calcType, hasPrev)
  {
    assert forall i :: |a| <= i < |a + b| ==> (a + b)[i] == b[i - |a|];
  }

  /** The code of an admitted observation fits, for a mode the type and the candle allow. */
  lemma AdmittedKeyFits(s: MarketSnapshot, o: Sighting, a: Admission, anchor: int, unit: int, mode: int, calcType: int, hasPrev: bool)
    requires SightingFits(o, s, anchor, unit) && Admit(s, o, anchor) == Some(a)
    requires mode == 0 || mode == 1
    requires mode == 0 ==> calcType == 0 || calcType == 1
    requires mode == 1 ==> (calcType == 0 || calcType == 2) && hasPrev
    ensures KeyFits(MarketKey(o.entity, o.ctx, mode, ShiftArg(o, a)), s, anchor, unit, calcType, hasPrev)
  {
    var key := CtxKey(o.entity, o.ctx);
    EarlierEndsBelow(HistOf(s, key), anchor);
    assert a.valid[|a.valid| - 1] in HistOf(s, key);
    assert anchor - unit * ShiftOr0(ShiftArg(o, a)) == o.dt;
  }

  lemma SightingEntriesFit(s: MarketSnapshot, svc: Service, o: Sighting, anchor: int, unit: int, calcType: int, calcVar: int,
                           view: Components.TableView)
    requires unit > 0 && SightingFits(o, s, anchor, unit)
    ensures AllFit(SightingEntries(s, svc, o, anchor, unit, calcType, calcVar, view), s, anchor, unit, calcType, view.prev.Some?)
  {
    var a := Admit(s, o, anchor);
    if a.Some? {
      var tDates := TDates(svc, a.value.valid, unit, o.shift);
      var e0 := T1Entries(o, a.value, tDates, calcType, calcVar, view);
      var e1 := ExtremumEntries(o, a.value, tDates, calcType, calcVar, view);
      if |e0| > 0 {
        AdmittedKeyFits(s, o, a.value, anchor, unit, 0, calcType, view.prev.Some?);
      }
      if |e1| > 0 {
        AdmittedKeyFits(s, o, a.value, anchor, unit, 1, calcType, view.prev.Some?);
      }
      AllFitAppend(e0, e1, s, anchor, unit, calcType, view.prev.Some?);
    }
  }

  lemma {:induction false} AllEntriesFit(s: MarketSnapshot, svc: Service, obs: seq<Sighting>, anchor: int, unit: int, calcType: int,
                                         calcVar: int, view: Components.TableView)
    requires unit > 0 && AllSightingsFit(obs, s, anchor, unit)
    ensures AllFit(AllEntries(s, svc, obs, anchor, unit, calcType, calcVar, view), s, anchor, unit, calcType, view.prev.Some?)
  {
    if |obs| > 0 {
      var n := |obs| - 1;
      assert AllSightingsFit(obs[..n], s, anchor, unit);
      AllEntriesFit(s, svc, obs[..n], anchor, unit, calcType, calcVar, view);
      SightingEntriesFit(s, svc, obs[n], anchor, unit, calcType, calcVar, view);
      AllFitAppend(AllEntries(s, svc, obs[..n], anchor, unit, calcType, calcVar, view),
                   SightingEntries(s, svc, obs[n], anchor, unit, calcType, calcVar, view), s, anchor, unit, calcType, view.prev.Some?);
    }
  }

  /** Every code of an answer fits its request (see KeyFits); a type outside 0..2 therefore returns nothing. */
  lemma MarketWeightsShape(s: MarketSnapshot, svc: Service, pair: int, day: int, target: int, calcType: int, calcVar: int)
    ensures forall k :: k in MarketWeights(s, svc, pair, day, target, calcType, calcVar) ==>
              KeyFits(k, s, Anchor(svc, target), Unit(svc, day), calcType, Components.ViewOf(s.tables, pair, day, target).prev.Some?)
    ensures !(0 <= calcType <= 2) ==> MarketWeights(s, svc, pair, day, target, calcType, calcVar) == map[]
  {
    var view := Components.ViewOf(s.tables, pair, day, target);
    var anchor, unit := Anchor(svc, target), Unit(svc, day);
    var obs := WindowSightings(s, svc, day, target);
    var es := AllEntries(s, svc, obs, anchor, unit, calcType, calcVar, view);
    WindowSightingsFit(s, svc, day, target);
    AllEntriesFit(s, svc, obs, anchor, unit, calcType, calcVar, view);
    var w := MarketWeights(s, svc, pair, day, target, calcType, calcVar);
    assert w == Finalize(Accumulate(map[], es));
    forall k | k in w
      ensures KeyFits(k, s, anchor, unit, calcType, view.prev.Some?)
    {
      AccumulateSums(es, k);
      var i :| 0 <= i < |es| && es[i].key == k;
      assert KeyFits(es[i].key, s, anchor, unit, calcType, view.prev.Some?);
    }
    if !(0 <= calcType <= 2) {
      assert forall k :: k !in w;
    }
  }

  /**
   * The contexts the classifier gives: a change label, a trend label and a
   * change label for momentum. For them and for instrument names without
   * '_', distinct keys render to distinct codes, so keeping the keys
   * structured merges exactly what the services' string keys merge.
   */
  predicate WellKinded(c: Context)
  {
    IsChangeLabel(c.rcd) && IsTrendLabel(c.td) && IsChangeLabel(c.md)
  }

  lemma CodeOfInjective(k1: MarketKey, k2: MarketKey)
    requires '_' !in k1.entity && '_' !in k2.entity && WellKinded(k1.ctx) && WellKinded(k2.ctx)
    requires CodeOf(k1) == CodeOf(k2)
    ensures k1 == k2
  {
    WeightCodes.DecodeOfMarketCode(k1.entity, k1.ctx, k1.mode, k1.shift);
    WeightCodes.DecodeOfMarketCode(k2.entity, k2.ctx, k2.mode, k2.shift);
  }

  // ------------------------------------------------------------ the range variant

  predicate AllNonNegative(es: seq<Entry<MarketKey>>)
  {
    forall i :: 0 <= i < |es| ==> es[i].value >= 0.0
  }

  lemma AllNonNegativeAppend(a: seq<Entry<MarketKey>>, b: seq<Entry<MarketKey>>)
    requires AllNonNegative(a) && AllNonNegative(b)
    ensures AllNonNegative(a + b)
  {
    assert forall i :: |a| <= i < |a + b| ==> (a + b)[i] == b[i - |a|];
  }

  lemma SightingEntriesNonNegative(s: MarketSnapshot, svc: Service, o: Sighting, anchor: int, unit: int, calcType: int,
                                   view: Components.TableView)
    requires unit > 0
    ensures AllNonNegative(SightingEntries(s, svc, o, anchor, unit, calcType, 4, view))
  {
    var a := Admit(s, o, anchor);
    if a.Some? {
      var t := view.table;
      var tDates := TDates(svc, a.value.valid, unit, o.shift);
      Components.T1RangeExcess(tDates, t.rates, t.ranges, t.avgRange);
      var pool := Components.Pool(tDates, Components.VariantOf(4), t.ranges, t.avgRange);
      if view.prev.Some? {
        Components.ExcessSumSign(pool, Components.TrendSet(t, view.prev.value.isBull), t.ranges, t.avgRange);
      }
      AllNonNegativeAppend(T1Entries(o, a.value, tDates, calcType, 4, view), ExtremumEntries(o, a.value, tDates, calcType, 4, view));
    }
  }

  lemma {:induction false} AllEntriesNonNegative(s: MarketSnapshot, svc: Service, obs: seq<Sighting>, anchor: int, unit: int,
                                                 calcType: int, view: Components.TableView)
    requires unit > 0
    ensures AllNonNegative(AllEntries(s, svc, obs, anchor, unit, calcType, 4, view))
  {
    if |obs| > 0 {
      var n := |obs| - 1;
      AllEntriesNonNegative(s, svc, obs[..n], anchor, unit, calcType, view);
      SightingEntriesNonNegative(s, svc, obs[n], anchor, unit, calcType, view);
      AllNonNegativeAppend(AllEntries(s, svc, obs[..n], anchor, unit, calcType, 4, view),
                           SightingEntries(s, svc, obs[n], anchor, unit, calcType, 4, view));
    }
  }

  /** The range-delta variant (calc_var 4) sums range excesses over filtered candles: no weight is negative. */
  lemma RangeVariantNonNegative(s: MarketSnapshot, svc: Service, pair: int, day: int, target: int, calcType: int)
    ensures forall k :: k in MarketWeights(s, svc, pair, day, target, calcType, 4) ==>
              MarketWeights(s, svc, pair, day, target, calcType, 4)[k] >= 0.0
  {
    var view := Components.ViewOf(s.tables, pair, day, target);
    var es := AllEntries(s, svc, WindowSightings(s, svc, day, target), Anchor(svc, target), Unit(svc, day), calcType, 4, view);
    AllEntriesNonNegative(s, svc, WindowSightings(s, svc, day, target), Anchor(svc, target), Unit(svc, day), calcType, view);
    AccumulateNonNegative(map[], es);
    FinalizeNonNegative(Accumulate(map[], es));
  }

  // ------------------------------------------------------------ what the answer depends on

  /** Every context history in ascending order, as the preload leaves them. */
  predicate SortedHists(s: MarketSnapshot)
  {
    forall key :: key in s.ctxHist ==> SortedInts(s.ctxHist[key])
  }

  /** Snapshots that agree on everything a query can see: the window's observations, the histories before the anchor, the index and the tables. */
  ghost predicate SameSight(s1: MarketSnapshot, s2: MarketSnapshot, anchor: int, unit: int)
  {
    SortedHists(s1) && SortedHists(s2)
    && (forall key :: Calendar.ValidDates(HistOf(s1, key), anchor) == Calendar.ValidDates(HistOf(s2, key), anchor))
    && (forall dt :: anchor - unit * Window <= dt <= anchor + unit * Window ==> EntitiesAt(s1, dt) == EntitiesAt(s2, dt))
    && (forall e, dt :: anchor - unit * Window <= dt <= anchor + unit * Window ==> SeenContext(s1, e, dt) == SeenContext(s2, e, dt))
    && s1.ctxIndex == s2.ctxIndex && s1.tables == s2.tables
  }

  lemma {:induction false} SightingsAtLocal(s1: MarketSnapshot, s2: MarketSnapshot, svc: Service, anchor: int, unit: int, dt: int,
                                            entities: seq<string>)
    requires unit > 0
    requires forall e :: SeenContext(s1, e, dt) == SeenContext(s2, e, dt)
    ensures SightingsAt(s1, svc, anchor, unit, dt, entities) == SightingsAt(s2, svc, anchor, unit, dt, entities)
  {
    if |entities| > 0 {
      SightingsAtLocal(s1, s2, svc, anchor, unit, dt, entities[..|entities| - 1]);
      assert SeenContext(s1, entities[|entities| - 1], dt) == SeenContext(s2, entities[|entities| - 1], dt);
    }
  }

  lemma {:induction false} SightingsLocal(s1: MarketSnapshot, s2: MarketSnapshot, svc: Service, anchor: int, unit: int, dates: seq<int>)
    requires unit > 0 && SameSight(s1, s2, anchor, unit)
    requires forall i :: 0 <= i < |dates| ==> anchor - unit * Window <= dates[i] <= anchor + unit * Window
    ensures Sightings(s1, svc, anchor, unit, dates) == Sightings(s2, svc, anchor, unit, dates)
  {
    if |dates| > 0 {
      var dt := dates[|dates| - 1];
      SightingsLocal(s1, s2, svc, anchor, unit, dates[..|dates| - 1]);
      assert anchor - unit * Window <= dt <= anchor + unit * Window;
      assert EntitiesAt(s1, dt) == EntitiesAt(s2, dt);
      SightingsAtLocal(s1, s2, svc, anchor, unit, dt, EntitiesAt(s1, dt));
    }
  }

  lemma AdmitLocal(s1: MarketSnapshot, s2: MarketSnapshot, o: Sighting, anchor: int, unit: int)
    requires SameSight(s1, s2, anchor, unit)
    ensures Admit(s1, o, anchor) == Admit(s2, o, anchor)
  {
    var key := CtxKey(o.entity, o.ctx);
    assert SortedInts(HistOf(s1, key)) && SortedInts(HistOf(s2, key));
    Calendar.EarlierIsValidDates(HistOf(s1, key), anchor);
    Calendar.EarlierIsValidDates(HistOf(s2, key), anchor);
  }

  lemma {:induction false} AllEntriesLocal(s1: MarketSnapshot, s2: MarketSnapshot, svc: Service, obs: seq<Sighting>, anchor: int,
                                           unit: int, calcType: int, calcVar: int, view: Components.TableView)
    requires unit > 0 && SameSight(s1, s2, anchor, unit)
    ensures AllEntries(s1, svc, obs, anchor, unit, calcType, calcVar, view) == AllEntries(s2, svc, obs, anchor, unit, calcType, calcVar, view)
  {
    if |obs| > 0 {
      AllEntriesLocal(s1, s2, svc, obs[..|obs| - 1], anchor, unit, calcType, calcVar, view);
      AdmitLocal(s1, s2, obs[|obs| - 1], anchor, unit);
    }
  }

  /**
   * No look-ahead: the answer depends only on the observations inside the
   * window, the context histories before the target, the index and the
   * quote tables. Observations outside the window and history at or after
   * the target change nothing.
   */
  lemma MarketWeightsLocal(s1: MarketSnapshot, s2: MarketSnapshot, svc: Service, pair: int, day: int, target: int, calcType: int,
                           calcVar: int)
    requires SameSight(s1, s2, Anchor(svc, target), Unit(svc, day))
    ensures MarketWeights(s1, svc, pair, day, target, calcType, calcVar) == MarketWeights(s2, svc, pair, day, target, calcType, calcVar)
  {
    var anchor, unit := Anchor(svc, target), Unit(svc, day);
    var dates := WindowDates(svc, day, target);
    assert forall i :: 0 <= i < |dates| ==> anchor - unit * Window <= dates[i] <= anchor + unit * Window by {
      forall i | 0 <= i < |dates|
        ensures anchor - unit * Window <= dates[i] <= anchor + unit * Window
      {
        assert dates[i] == anchor + unit * (-Window + i);
        if unit == Hour {
          assert unit * (-Window + i) == Hour * (-Window + i);
        } else {
          assert unit * (-Window + i) == Day * (-Window + i);
        }
      }
    }
    SightingsLocal(s1, s2, svc, anchor, unit, dates);
    AllEntriesLocal(s1, s2, svc, WindowSightings(s1, svc, day, target), anchor, unit, calcType, calcVar,
                    Components.ViewOf(s1.tables, pair, day, target));
  }
}
