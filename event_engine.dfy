/**
 * The event-context memory engine of the 27 service.
 *
 * Like the event-type engine, it looks for calendar releases around the
 * target date and, for each, at the event's own earlier releases shifted
 * by the same distance. What sets it apart is the context: every code
 * carries the forecast, surprise and actual directions of the event's
 * last release before the target, and a release counts only when the
 * context index knows that context for the event. Whether the context
 * recurs (two or more occurrences) decides whether a release away from
 * the target may count, and whether the code carries the hour. The two
 * components come from the shared Components module, in the five
 * calculation variants, and are accumulated rather than assigned.
 */
module EventEngine {
  import opened Wrappers
  import opened Dates
  import opened Calendar
  import opened Rounding
  import opened Results
  import opened Sorting
  import opened Classify
  import Text
  import Candles
  import Components

  /** actual, forecast and previous of a release, each as try_float read it. */
  datatype Readings = Readings(actual: Option<real>, forecast: Option<real>, previous: Option<real>)

  /** A calendar entry of the 27 service: a numeric importance and the readings. */
  type Release = CalEntry<Option<int>, Readings>

  /** The key of GLOBAL_CTX_INDEX: an event and a context of its releases. */
  datatype CtxKey = CtxKey(eid: int, ctx: Context)

  /** RECURRING_MIN_COUNT. */
  const RecurringMinCount: int := 2

  const Window: int := 12

  /**
   * A weight code `{eid}__{fdir}__{sdir}__{adir}__{mode}[__{hour}]`, kept
   * as its fields; WeightCodes.EventCode renders it, and equal codes have
   * equal fields (WeightCodes.EventCodeInjective).
   */
  datatype EventKey = EventKey(eid: int, ctx: Context, mode: int, hour: Option<int>)

  /**
   * What the service holds in memory: calendar entries by date, sorted
   * release dates by event, the occurrence count of every indexed
   * context, and the loaded quote tables by name.
   */
  datatype EventSnapshot = EventSnapshot(
    calendar: map<int, seq<Release>>,
    history: map<int, seq<int>>,
    ctxIndex: map<CtxKey, int>,
    tables: map<string, Candles.TableData>)

  // ------------------------------------------------------------ readings

  /** try_float: a NULL stays NULL and text float() rejects becomes NULL. */
  function TryFloat(val: Option<string>): Option<real>
  {
    if val.None? then None else Text.ParseFloat(val.value)
  }

  /** NULL reads as no value, a written-out number as that number. */
  lemma TryFloatReads(i: int)
    ensures TryFloat(None) == None
    ensures TryFloat(Some(Text.IntToString(i))) == Some(i as real)
  {
    Text.ParseFloatOfIntToString(i);
  }

  /** Text float() cannot read, empty or a word, reads as no value. */
  lemma TryFloatRejects()
    ensures TryFloat(Some("")) == None
    ensures TryFloat(Some("n/a")) == None
  {
    Text.ParseFloatRejects("");
    var na := "n/a";
    assert na[0] == 'n' && na[|na| - 1] == 'a';
    Text.ParseFloatRejects(na);
  }

  /** The readings of a calendar row, as the preload stores them. */
  function ReadingsOf(actual: Option<string>, forecast: Option<string>, previous: Option<string>): Readings
  {
    Readings(TryFloat(actual), TryFloat(forecast), TryFloat(previous))
  }

  /** resolve_event_context of a release. */
  function ContextOf(e: Release): Context
  {
    ResolveEventContext(e.readings.actual, e.readings.forecast, e.readings.previous)
  }

  // ------------------------------------------------------------ the last known context

  const UnknownContext: Context := Context(UNKNOWN, UNKNOWN, UNKNOWN)

  /** The first entry of the event in one date's list. */
  function FirstOwn(entries: seq<Release>, eid: int): (r: Option<Release>)
    ensures r.None? <==> forall i :: 0 <= i < |entries| ==> entries[i].eid != eid
    ensures r.Some? ==> exists i :: 0 <= i < |entries| && entries[i] == r.value && r.value.eid == eid
                                     && forall j :: 0 <= j < i ==> entries[j].eid != eid
  {
    if |entries| == 0 then None
    else if entries[0].eid == eid then Some(entries[0])
    else
      var rest := FirstOwn(entries[1..], eid);
      assert forall i :: 0 < i < |entries| ==> entries[i] == entries[1..][i - 1];
      if rest.Some? then
        var k :| 0 <= k < |entries[1..]| && entries[1..][k] == rest.value && rest.value.eid == eid
                 && forall j :: 0 <= j < k ==> entries[1..][j].eid != eid;
        assert entries[k + 1] == rest.value;
        rest
      else rest
  }

  lemma FirstOwnAt(entries: seq<Release>, eid: int, j: int)
    requires 0 <= j < |entries| && entries[j].eid == eid
    requires forall k :: 0 <= k < j ==> entries[k].eid != eid
    ensures FirstOwn(entries, eid) == Some(entries[j])
  {
  }

  /** The inner loop of get_last_known_context: the first entry of the event on one date. */
  method FindOwn(entries: seq<Release>, eid: int) returns (r: Option<Release>)
    ensures r == FirstOwn(entries, eid)
  {
    for j := 0 to |entries|
      invariant forall k :: 0 <= k < j ==> entries[k].eid != eid
    {
      if entries[j].eid == eid {
        FirstOwnAt(entries, eid, j);
        return Some(entries[j]);
      }
    }
    return None;
  }

  /** The scan of get_last_known_context: the dates latest first, the first entry of the event on each. */
  function LastKnown(dates: seq<int>, calendar: map<int, seq<Release>>, eid: int): Option<Release>
  {
    if |dates| == 0 then None
    else
      var own := FirstOwn(Lookup(calendar, dates[|dates| - 1]), eid);
      if own.Some? then own else LastKnown(dates[..|dates| - 1], calendar, eid)
  }

  /** get_last_known_context: the context the event's history shows before a date. */
  function KnownContext(history: map<int, seq<int>>, calendar: map<int, seq<Release>>, eid: int, before: int): Context
  {
    var own := LastKnown(Earlier(DatesOf(history, eid), before), calendar, eid);
    if own.None? then UnknownContext else ContextOf(own.value)
  }

  method GetLastKnownContext(history: map<int, seq<int>>, calendar: map<int, seq<Release>>, eid: int, before: int)
    returns (c: Context)
    ensures c == KnownContext(history, calendar, eid, before)
  {
    var dates := Earlier(DatesOf(history, eid), before);
    var idx := |dates|;
    if idx == 0 {
      return UnknownContext;
    }
    assert dates[..idx] == dates;
    var i := idx - 1;
    while i >= 0
      invariant -1 <= i < idx
      invariant LastKnown(dates, calendar, eid) == LastKnown(dates[..i + 1], calendar, eid)
      decreases i
    {
      assert dates[..i + 1][..i] == dates[..i];
      var own := FindOwn(Lookup(calendar, dates[i]), eid);
      if own.Some? {
        return ContextOf(own.value);
      }
      i := i - 1;
    }
    return UnknownContext;
  }

  /** The latest of the dates that lie before a given one. */
  predicate IsLatestBefore(dates: seq<int>, before: int, d: int)
  {
    d in dates && d < before && forall x :: x in dates && x < before ==> x <= d
  }

  /** In a consistent snapshot every date of an event's history lists the event. */
  lemma OwnEntryListed(history: map<int, seq<int>>, calendar: map<int, seq<Release>>, eid: int, d: int)
    requires Consistent(history, calendar)
    requires d in DatesOf(history, eid)
    ensures FirstOwn(Lookup(calendar, d), eid).Some?
  {
    assert eid in history && d in history[eid];
    assert ListsEvent(Lookup(calendar, d), eid);
    var e :| e in Lookup(calendar, d) && e.eid == eid;
  }

  /** With no release of the event before the date, the last known context is UNKNOWN. */
  lemma KnownContextUnknown(history: map<int, seq<int>>, calendar: map<int, seq<Release>>, eid: int, before: int)
    requires SortedInts(DatesOf(history, eid))
    requires forall d :: d in DatesOf(history, eid) ==> d >= before
    ensures KnownContext(history, calendar, eid, before) == UnknownContext
  {
    var dates := DatesOf(history, eid);
    EarlierIsPrefix(dates, before);
    assert |dates| > 0 ==> dates[0] in dates;
  }

  /**
   * In a consistent snapshot with sorted histories, the last known
   * context is that of the event's entry at its latest release before
   * the date.
   */
  lemma KnownContextMeaning(history: map<int, seq<int>>, calendar: map<int, seq<Release>>, eid: int, before: int, d: int)
    requires Consistent(history, calendar)
    requires SortedInts(DatesOf(history, eid))
    requires IsLatestBefore(DatesOf(history, eid), before, d)
    ensures FirstOwn(Lookup(calendar, d), eid).Some?
    ensures KnownContext(history, calendar, eid, before) == ContextOf(FirstOwn(Lookup(calendar, d), eid).value)
  {
    OwnEntryListed(history, calendar, eid, d);
    var l := Earlier(DatesOf(history, eid), before);
    assert |l| > 0 && l[|l| - 1] == d by {
      LatestIsLast(DatesOf(history, eid), before, d);
    }
    assert LastKnown(l, calendar, eid) == FirstOwn(Lookup(calendar, d), eid);
  }

  /** On sorted dates the latest date before a bound is the last of those before it. */
  lemma LatestIsLast(dates: seq<int>, before: int, d: int)
    requires SortedInts(dates)
    requires IsLatestBefore(dates, before, d)
    ensures |Earlier(dates, before)| > 0 && Earlier(dates, before)[|Earlier(dates, before)| - 1] == d
  {
    EarlierIsPrefix(dates, before);
    var l := Earlier(dates, before);
    var k :| 0 <= k < |dates| && dates[k] == d;
    assert k < |l|;
    var d0 := l[|l| - 1];
    assert d0 == dates[|l| - 1];
    assert d0 <= d by {
      assert d0 < before && d0 in dates;
    }
    assert d <= d0 by {
      if k < |l| - 1 {
        assert dates[k] <= dates[|l| - 1];
      }
    }
  }

  // ------------------------------------------------------------ one release

  /** A release the index admits: its context, its shift, the hour its code carries, and the event's dates before the target. */
  datatype Admission = Admission(ctx: Context, shift: int, hour: Option<int>, valid: seq<int>)

  /** The gates of the release loop, in the order the service applies them. */
  function Admit(s: EventSnapshot, e: Release, target: int, day: int): Option<Admission>
  {
    var shift := Shift(day, target, e.date);
    var ctx := KnownContext(s.history, s.calendar, e.eid, target);
    var key := CtxKey(e.eid, ctx);
    if key !in s.ctxIndex then None
    else
      var recurring := s.ctxIndex[key] >= RecurringMinCount;
      if !recurring && shift != 0 then None
      else if recurring && (shift < -Window || shift > Window) then None
      else
        var valid := ValidDates(DatesOf(s.history, e.eid), target);
        if |valid| == 0 then None
        else Some(Admission(ctx, shift, if recurring then Some(shift) else None, valid))
  }

  /** The mode-0 entry of an admitted release, when the calculation type asks for it. */
  function T1Entries(eid: int, a: Admission, tDates: seq<int>, calcType: int, calcVar: int, view: Components.TableView): seq<Entry<EventKey>>
  {
    if calcType == 0 || calcType == 1 then
      var t := view.table;
      [Entry(EventKey(eid, a.ctx, 0, a.hour), Components.T1Total(tDates, Components.VariantOf(calcVar), t.rates, t.ranges, t.avgRange))]
    else []
  }

  /** The mode-1 entry, when the type asks for it, a previous candle exists and the value is not none. */
  function ExtremumEntries(eid: int, a: Admission, tDates: seq<int>, calcType: int, calcVar: int, view: Components.TableView): seq<Entry<EventKey>>
  {
    if (calcType == 0 || calcType == 2) && view.prev.Some? then
      var t := view.table;
      var ext := Components.ExtremumValue(tDates, calcVar, Components.TrendSet(t, view.prev.value.isBull), t.ranges, t.avgRange,
                                          view.modification, |a.valid|);
      if ext.Some? then [Entry(EventKey(eid, a.ctx, 1, a.hour), ext.value)] else []
    else []
  }

  /** Everything one release of the window adds to the result, in the order the loop adds it. */
  function ReleaseEntries(s: EventSnapshot, e: Release, target: int, day: int, calcType: int, calcVar: int, view: Components.TableView)
    : seq<Entry<EventKey>>
  {
    var a := Admit(s, e, target, day);
    if a.None? then []
    else
      var tDates := Shifted(a.value.valid, StepUnit(day) * a.value.shift);
      T1Entries(e.eid, a.value, tDates, calcType, calcVar, view) + ExtremumEntries(e.eid, a.value, tDates, calcType, calcVar, view)
  }

  function AllEntries(s: EventSnapshot, events: seq<Release>, target: int, day: int, calcType: int, calcVar: int, view: Components.TableView)
    : seq<Entry<EventKey>>
  {
    if |events| == 0 then []
    else AllEntries(s, events[..|events| - 1], target, day, calcType, calcVar, view)
         + ReleaseEntries(s, events[|events| - 1], target, day, calcType, calcVar, view)
  }

  /** The releases the window finds: low-importance ones only at the target itself. */
  function WindowEvents(s: EventSnapshot, target: int, day: int): seq<Release>
  {
    EventsInWindow(s.calendar, CheckDates(target, StepUnit(day), -Window, Window), target, IsLowRank)
  }

  /** The 27 weights for a readable date. */
  function EventWeights(s: EventSnapshot, pair: int, day: int, target: int, calcType: int, calcVar: int): map<EventKey, real>
  {
    var view := Components.ViewOf(s.tables, pair, day, target);
    Finalize(Accumulate(map[], AllEntries(s, WindowEvents(s, target, day), target, day, calcType, calcVar, view)))
  }

  /** calculate_pure_memory of the 27 service. */
  function EventResponse(s: EventSnapshot, pair: int, day: int, dateStr: string, calcType: int, calcVar: int, strptime: Strptime)
    : Response<EventKey>
  {
    var parsed := ParseDate(dateStr, strptime);
    if parsed.None? then Error(InvalidDate)
    else Weights(EventWeights(s, pair, day, parsed.value, calcType, calcVar))
  }

  // ------------------------------------------------------------ the loops

  /** One release's step of the result loop. */
  method ApplyRelease(result: map<EventKey, real>, s: EventSnapshot, e: Release, target: int, day: int,
                      calcType: int, calcVar: int, view: Components.TableView)
    returns (out: map<EventKey, real>)
    ensures out == Accumulate(result, ReleaseEntries(s, e, target, day, calcType, calcVar, view))
  {
    var shift := Shift(day, target, e.date);
    var ctx := GetLastKnownContext(s.history, s.calendar, e.eid, target);
    var key := CtxKey(e.eid, ctx);
    if key !in s.ctxIndex {
      return result;
    }
    var recurring := s.ctxIndex[key] >= RecurringMinCount;
    if !recurring && shift != 0 {
      return result;
    }
    if recurring && (shift < -Window || shift > Window) {
      return result;
    }
    var valid := ValidDates(DatesOf(s.history, e.eid), target);
    if |valid| == 0 {
      return result;
    }
    var tDates := Shifted(valid, StepUnit(day) * shift);
    var hour := if recurring then Some(shift) else None;
    var a := Admission(ctx, shift, hour, valid);
    assert Admit(s, e, target, day) == Some(a);
    out := AddComponents(result, e.eid, a, tDates, calcType, calcVar, view);
  }

  /** The two component steps of an admitted release. */
  method AddComponents(result: map<EventKey, real>, eid: int, a: Admission, tDates: seq<int>, calcType: int, calcVar: int,
                       view: Components.TableView)
    returns (out: map<EventKey, real>)
    ensures out == Accumulate(result, T1Entries(eid, a, tDates, calcType, calcVar, view) + ExtremumEntries(eid, a, tDates, calcType, calcVar, view))
  {
    var t := view.table;
    out := result;
    if calcType == 0 || calcType == 1 {
      var t1 := Components.ComputeT1Value(tDates, calcVar, t.rates, t.ranges, t.avgRange);
      var wc := EventKey(eid, a.ctx, 0, a.hour);
      out := out[wc := GetOr(out, wc) + t1];
      AccumulateOne(result, Entry(wc, t1));
    }
    var e0 := T1Entries(eid, a, tDates, calcType, calcVar, view);
    assert out == Accumulate(result, e0);
    var mid := out;
    if (calcType == 0 || calcType == 2) && view.prev.Some? {
      var ext := Components.ExtremumValue(tDates, calcVar, Components.TrendSet(t, view.prev.value.isBull), t.ranges, t.avgRange,
                                          view.modification, |a.valid|);
      if ext.Some? {
        var wc := EventKey(eid, a.ctx, 1, a.hour);
        out := out[wc := GetOr(out, wc) + ext.value];
        AccumulateOne(mid, Entry(wc, ext.value));
      }
    }
    AccumulateAppend(result, e0, ExtremumEntries(eid, a, tDates, calcType, calcVar, view));
  }

  method AccumulateReleases(s: EventSnapshot, events: seq<Release>, target: int, day: int, calcType: int, calcVar: int, view: Components.TableView)
    returns (result: map<EventKey, real>)
    ensures result == Accumulate(map[], AllEntries(s, events, target, day, calcType, calcVar, view))
  {
    result := map[];
    for i := 0 to |events|
      invariant result == Accumulate(map[], AllEntries(s, events[..i], target, day, calcType, calcVar, view))
    {
      assert events[..i + 1][..i] == events[..i];
      AccumulateAppend(map[], AllEntries(s, events[..i], target, day, calcType, calcVar, view),
                       ReleaseEntries(s, events[i], target, day, calcType, calcVar, view));
      result := ApplyRelease(result, s, events[i], target, day, calcType, calcVar, view);
    }
    assert events[..|events|] == events;
  }

  /** calculate_pure_memory: the date, the window, an empty answer for an empty window, the loop, the rounding. */
  method CalculatePureMemory(s: EventSnapshot, pair: int, day: int, dateStr: string, calcType: int, calcVar: int, strptime: Strptime)
    returns (r: Response<EventKey>)
    ensures r == EventResponse(s, pair, day, dateStr, calcType, calcVar, strptime)
  {
    var parsed := ParseDate(dateStr, strptime);
    if parsed.None? {
      return Error(InvalidDate);
    }
    var target := parsed.value;
    var events := CollectEvents(s.calendar, target, StepUnit(day), -Window, Window, IsLowRank);
    assert events == WindowEvents(s, target, day);
    var view := Components.ViewOf(s.tables, pair, day, target);
    ghost var w := Finalize(Accumulate(map[], AllEntries(s, events, target, day, calcType, calcVar, view)));
    assert EventResponse(s, pair, day, dateStr, calcType, calcVar, strptime) == Weights(w);
    if |events| == 0 {
      assert w == map[] by { assert AllEntries(s, events, target, day, calcType, calcVar, view) == []; }
      return Weights(map[]);
    }
    var result := AccumulateReleases(s, events, target, day, calcType, calcVar, view);
    return Weights(Finalize(result));
  }

  // ------------------------------------------------------------ shape of the answer

  /**
   * What a returned code says: mode 0 only for the types that ask for the
   * T1 component, mode 1 only for the types that ask for the extremum
   * component and only after a previous candle; the context is the
   * event's last known one and the index holds it; the code carries an
   * hour, of at most twelve steps, exactly when that context recurs; and
   * the event has releases before the target.
   */
  predicate KeyFits(k: EventKey, s: EventSnapshot, target: int, calcType: int, hasPrev: bool)
  {
    (k.mode == 0 || k.mode == 1)
    && (k.mode == 0 ==> calcType == 0 || calcType == 1)
    && (k.mode == 1 ==> (calcType == 0 || calcType == 2) && hasPrev)
    && k.ctx == KnownContext(s.history, s.calendar, k.eid, target)
    && CtxKey(k.eid, k.ctx) in s.ctxIndex
    && (k.hour.Some? <==> s.ctxIndex[CtxKey(k.eid, k.ctx)] >= RecurringMinCount)
    && (k.hour.Some? ==> -Window <= k.hour.value <= Window)
    && exists d :: d in DatesOf(s.history, k.eid) && d < target
  }

  predicate AllFit(es: seq<Entry<EventKey>>, s: EventSnapshot, target: int, calcType: int, hasPrev: bool)
  {
    forall i :: 0 <= i < |es| ==> KeyFits(es[i].key, s, target, calcType, hasPrev)
  }

  lemma AllFitAppend(a: seq<Entry<EventKey>>, b: seq<Entry<EventKey>>, s: EventSnapshot, target: int, calcType: int, hasPrev: bool)
    requires AllFit(a, s, target, calcType, hasPrev) && AllFit(b, s, target, calcType, hasPrev)
    ensures AllFit(a + b, s, target, calcType, hasPrev)
  {
    assert forall i :: |a| <= i < |a + b| ==> (a + b)[i] == b[i - |a|];
  }

  lemma ReleaseEntriesFit(s: EventSnapshot, e: Release, target: int, day: int, calcType: int, calcVar: int, view: Components.TableView)
    ensures AllFit(ReleaseEntries(s, e, target, day, calcType, calcVar, view), s, target, calcType, view.prev.Some?)
  {
    var a := Admit(s, e, target, day);
    if a.Some? {
      var valid := a.value.valid;
      assert valid[0] in valid;
      var tDates := Shifted(valid, StepUnit(day) * a.value.shift);
      var e0 := T1Entries(e.eid, a.value, tDates, calcType, calcVar, view);
      var e1 := ExtremumEntries(e.eid, a.value, tDates, calcType, calcVar, view);
      assert AllFit(e0, s, target, calcType, view.prev.Some?);
      assert AllFit(e1, s, target, calcType, view.prev.Some?);
      AllFitAppend(e0, e1, s, target, calcType, view.prev.Some?);
    }
  }

  lemma {:induction false} AllEntriesFit(s: EventSnapshot, events: seq<Release>, target: int, day: int, calcType: int, calcVar: int,
                                         view: Components.TableView)
    ensures AllFit(AllEntries(s, events, target, day, calcType, calcVar, view), s, target, calcType, view.prev.Some?)
  {
    if |events| > 0 {
      var a := AllEntries(s, events[..|events| - 1], target, day, calcType, calcVar, view);
      var b := ReleaseEntries(s, events[|events| - 1], target, day, calcType, calcVar, view);
      AllEntriesFit(s, events[..|events| - 1], target, day, calcType, calcVar, view);
      ReleaseEntriesFit(s, events[|events| - 1], target, day, calcType, calcVar, view);
      AllFitAppend(a, b, s, target, calcType, view.prev.Some?);
    }
  }

  /** Every code of a 27 answer fits its request (see KeyFits); a type outside 0..2 therefore returns nothing. */
  lemma EventWeightsShape(s: EventSnapshot, pair: int, day: int, target: int, calcType: int, calcVar: int)
    ensures forall k :: k in EventWeights(s, pair, day, target, calcType, calcVar) ==>
              KeyFits(k, s, target, calcType, Components.ViewOf(s.tables, pair, day, target).prev.Some?)
    ensures !(0 <= calcType <= 2) ==> EventWeights(s, pair, day, target, calcType, calcVar) == map[]
  {
    var view := Components.ViewOf(s.tables, pair, day, target);
    var es := AllEntries(s, WindowEvents(s, target, day), target, day, calcType, calcVar, view);
    AllEntriesFit(s, WindowEvents(s, target, day), target, day, calcType, calcVar, view);
    var w := EventWeights(s, pair, day, target, calcType, calcVar);
    assert w == Finalize(Accumulate(map[], es));
    forall k | k in w
      ensures KeyFits(k, s, target, calcType, view.prev.Some?)
    {
      AccumulateSums(es, k);
      var i :| 0 <= i < |es| && es[i].key == k;
      assert KeyFits(es[i].key, s, target, calcType, view.prev.Some?);
    }
    if !(0 <= calcType <= 2) {
      assert forall k :: k !in w;
    }
  }

  // ------------------------------------------------------------ the range variant

  predicate AllNonNegative(es: seq<Entry<EventKey>>)
  {
    forall i :: 0 <= i < |es| ==> es[i].value >= 0.0
  }

  lemma AllNonNegativeAppend(a: seq<Entry<EventKey>>, b: seq<Entry<EventKey>>)
    requires AllNonNegative(a) && AllNonNegative(b)
    ensures AllNonNegative(a + b)
  {
    assert forall i :: |a| <= i < |a + b| ==> (a + b)[i] == b[i - |a|];
  }

  lemma ReleaseEntriesNonNegative(s: EventSnapshot, e: Release, target: int, day: int, calcType: int, view: Components.TableView)
    ensures AllNonNegative(ReleaseEntries(s, e, target, day, calcType, 4, view))
  {
    var a := Admit(s, e, target, day);
    if a.Some? {
      var t := view.table;
      var tDates := Shifted(a.value.valid, StepUnit(day) * a.value.shift);
      Components.T1RangeExcess(tDates, t.rates, t.ranges, t.avgRange);
      var pool := Components.Pool(tDates, Components.VariantOf(4), t.ranges, t.avgRange);
      if view.prev.Some? {
        Components.ExcessSumSign(pool, Components.TrendSet(t, view.prev.value.isBull), t.ranges, t.avgRange);
      }
      var e0 := T1Entries(e.eid, a.value, tDates, calcType, 4, view);
      var e1 := ExtremumEntries(e.eid, a.value, tDates, calcType, 4, view);
      AllNonNegativeAppend(e0, e1);
    }
  }

  lemma {:induction false} AllEntriesNonNegative(s: EventSnapshot, events: seq<Release>, target: int, day: int, calcType: int, view: Components.TableView)
    ensures AllNonNegative(AllEntries(s, events, target, day, calcType, 4, view))
  {
    if |events| > 0 {
      AllEntriesNonNegative(s, events[..|events| - 1], target, day, calcType, view);
      ReleaseEntriesNonNegative(s, events[|events| - 1], target, day, calcType, view);
      AllNonNegativeAppend(AllEntries(s, events[..|events| - 1], target, day, calcType, 4, view),
                           ReleaseEntries(s, events[|events| - 1], target, day, calcType, 4, view));
    }
  }

  /** The range-delta variant (calc_var 4) sums range excesses over filtered candles: no weight is negative. */
  lemma RangeVariantNonNegative(s: EventSnapshot, pair: int, day: int, target: int, calcType: int)
    ensures forall k :: k in EventWeights(s, pair, day, target, calcType, 4) ==> EventWeights(s, pair, day, target, calcType, 4)[k] >= 0.0
  {
    var view := Components.ViewOf(s.tables, pair, day, target);
    var es := AllEntries(s, WindowEvents(s, target, day), target, day, calcType, 4, view);
    AllEntriesNonNegative(s, WindowEvents(s, target, day), target, day, calcType, view);
    AccumulateNonNegative(map[], es);
    FinalizeNonNegative(Accumulate(map[], es));
  }

  // ------------------------------------------------------------ what the answer depends on

  /** Every event's release dates in ascending order, as the preload leaves them. */
  predicate SortedHistory(history: map<int, seq<int>>)
  {
    forall eid :: eid in history ==> SortedInts(history[eid])
  }

  lemma {:induction false} LastKnownLocal(dates: seq<int>, c1: map<int, seq<Release>>, c2: map<int, seq<Release>>, eid: int)
    requires forall k :: 0 <= k < |dates| ==> Lookup(c1, dates[k]) == Lookup(c2, dates[k])
    ensures LastKnown(dates, c1, eid) == LastKnown(dates, c2, eid)
  {
    if |dates| > 0 {
      LastKnownLocal(dates[..|dates| - 1], c1, c2, eid);
      assert Lookup(c1, dates[|dates| - 1]) == Lookup(c2, dates[|dates| - 1]);
    }
  }

  /** Snapshots that agree on everything a query at the target can see. */
  ghost predicate SameSight(s1: EventSnapshot, s2: EventSnapshot, target: int, horizon: int)
  {
    SortedHistory(s1.history) && SortedHistory(s2.history)
    && (forall eid :: ValidDates(DatesOf(s1.history, eid), target) == ValidDates(DatesOf(s2.history, eid), target))
    && (forall dt :: dt <= horizon ==> Lookup(s1.calendar, dt) == Lookup(s2.calendar, dt))
    && s1.ctxIndex == s2.ctxIndex && s1.tables == s2.tables
  }

  lemma KnownContextLocal(s1: EventSnapshot, s2: EventSnapshot, target: int, horizon: int, eid: int)
    requires target <= horizon && SameSight(s1, s2, target, horizon)
    ensures KnownContext(s1.history, s1.calendar, eid, target) == KnownContext(s2.history, s2.calendar, eid, target)
  {
    var d1, d2 := DatesOf(s1.history, eid), DatesOf(s2.history, eid);
    assert SortedInts(d1) && SortedInts(d2);
    EarlierIsValidDates(d1, target);
    EarlierIsValidDates(d2, target);
    var v := ValidDates(d1, target);
    assert forall k :: 0 <= k < |v| ==> v[k] in v;
    LastKnownLocal(v, s1.calendar, s2.calendar, eid);
  }

  lemma {:induction false} AllEntriesLocal(s1: EventSnapshot, s2: EventSnapshot, events: seq<Release>, target: int, horizon: int,
                                           day: int, calcType: int, calcVar: int, view: Components.TableView)
    requires target <= horizon && SameSight(s1, s2, target, horizon)
    ensures AllEntries(s1, events, target, day, calcType, calcVar, view) == AllEntries(s2, events, target, day, calcType, calcVar, view)
  {
    if |events| > 0 {
      AllEntriesLocal(s1, s2, events[..|events| - 1], target, horizon, day, calcType, calcVar, view);
      var e := events[|events| - 1];
      KnownContextLocal(s1, s2, target, horizon, e.eid);
      assert Admit(s1, e, target, day) == Admit(s2, e, target, day);
    }
  }

  /**
   * The 27 answer depends only on the calendar up to the end of the
   * window, the release dates before the target, the context index and
   * the quote tables: releases scheduled after the window, and history
   * at or after the target, change nothing.
   */
  lemma EventWeightsLocal(s1: EventSnapshot, s2: EventSnapshot, pair: int, day: int, target: int, calcType: int, calcVar: int)
    requires SameSight(s1, s2, target, target + StepUnit(day) * Window)
    ensures EventWeights(s1, pair, day, target, calcType, calcVar) == EventWeights(s2, pair, day, target, calcType, calcVar)
  {
    var horizon := target + StepUnit(day) * Window;
    var dates := CheckDates(target, StepUnit(day), -Window, Window);
    assert forall i :: 0 <= i < |dates| ==> dates[i] <= horizon;
    EventsInWindowLocal(s1.calendar, s2.calendar, dates, target, IsLowRank);
    assert Components.ViewOf(s1.tables, pair, day, target) == Components.ViewOf(s2.tables, pair, day, target);
    AllEntriesLocal(s1, s2, WindowEvents(s1, target, day), target, horizon, day, calcType, calcVar, Components.ViewOf(s1.tables, pair, day, target));
  }
}
