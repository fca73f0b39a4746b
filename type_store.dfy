/**
 * The snapshot builds of the event-type services (preload_all_data of
 * 32/server.py, 25/server.py, 23/server_23.py and 23/server.py).
 *
 * All four fill the same maps: the weight codes, the event types (32 and
 * 25 only), the calendar with its per-event release dates, and per quote
 * table the t1 rates, the candles in date order and the extremum dates one
 * hour apart; the 32 service also keeps candle sizes and their percentile
 * thresholds. They differ in what is cleared and what a failure does:
 *
 *  - 32 clears every section it refills and catches nothing; here every
 *    query returns its rows;
 *  - 25 catches each section; the calendar is appended to, never cleared;
 *  - the server_23 build reads the calendar of one store and the event
 *    index of another and joins them by (name, country) in memory; if
 *    either read fails the build stops there;
 *  - the 23 build lets the database join them; its calendar is appended
 *    to as well.
 *
 * A failing calendar or index query is None. A table's rates and candles
 * are reset before its section runs, its extremum sets only once the row
 * pass is through; what a raise inside the section leaves is
 * Candles.TableQuery's to say.
 */
module TypeStore {
  import opened Wrappers
  import opened Dates
  import opened Calendar
  import Candles
  import Counts
  import opened TypeEngine

  // ------------------------------------------------------------ the sections, as state changes

  /** Sizes filed into a table's size map: a new date is added, a known one takes the new size. */
  function Merge(prev: map<int, real>, later: map<int, real>): map<int, real>
  {
    map d | d in prev.Keys + later.Keys :: (if d in later then later[d] else prev[d])
  }

  /** The calendar section on top of what the maps hold. */
  function WithCalendar<I(==,!new)>(s: Snapshot<I>, rows: seq<CalRow<I, ()>>): Snapshot<I>
  {
    s.(history := HistoryOf(s.history, rows), calendar := CalendarOf(s.calendar, rows))
  }

  function ExtremaOf(rows: seq<Candles.RateRow>): Extrema
  {
    Extrema(Candles.ExtremumSet(rows, Hour, false), Candles.ExtremumSet(rows, Hour, true))
  }

  /**
   * One table of the 25 and 23 builds. Rates and candles are reset; when
   * the rates query answers, the row pass files what it gets through.
   * Only once it is through are the extremum sets reset and refilled by
   * the queries that answer; a raise before that keeps the old sets.
   */
  function WithTable<I>(s: Snapshot<I>, name: string, q: Candles.TableQuery): Snapshot<I>
  {
    s.(rates := s.rates[name := FiledRates(q)], candles := s.candles[name := FiledCandles(q)],
       extremums := FiledExtrema(s.extremums, name, q))
  }

  function FiledRates(q: Candles.TableQuery): map<int, real>
  {
    if q.rows.None? then map[] else Candles.PassRates(Candles.ByDate(q.rows.value))
  }

  function FiledCandles(q: Candles.TableQuery): seq<Candles.Candle>
  {
    if q.rows.None? then [] else Candles.PassCandles(Candles.ByDate(q.rows.value))
  }

  function FiledExtrema(ex: map<string, Extrema>, name: string, q: Candles.TableQuery): map<string, Extrema>
  {
    if q.rows.Some? && Candles.AllPriced(q.rows.value) then ex[name := Extrema(Candles.Minima(q, Hour), Candles.Maxima(q, Hour))]
    else ex
  }

  /**
   * The queries of one 25 or 23 table section: the rates and candles the
   * row pass files, whether it got through, and then the extremum sets.
   */
  method TableSection(q: Candles.TableQuery) returns (r: map<int, real>, c: seq<Candles.Candle>, passed: bool, ex: Extrema)
    ensures r == FiledRates(q) && c == FiledCandles(q)
    ensures passed <==> q.rows.Some? && Candles.AllPriced(q.rows.value)
    ensures passed ==> ex == Extrema(Candles.Minima(q, Hour), Candles.Maxima(q, Hour))
  {
    r, c, passed, ex := map[], [], false, NoExtrema;
    if q.rows.None? {
      return;
    }
    var sorted := Candles.ByDate(q.rows.value);
    var ranges, avgRange;
    r, c, ranges, avgRange, passed := Candles.LoadRows(sorted);
    if passed {
      var minSet, maxSet := Candles.QueryExtrema(q, Hour);
      ex := Extrema(minSet, maxSet);
    }
  }

  /** A key written twice holds the second value only. */
  lemma Overwrite<K, V>(m: map<K, V>, k: K, a: V, b: V)
    ensures m[k := a][k := b] == m[k := b]
  {
  }

  /**
   * What a 25 or 23 table section leaves: the table's old extremum sets
   * unless the row pass got through every row; then exactly the sets whose
   * queries answered, the maxima lost with the minima. With every query
   * answered it is the full load.
   */
  lemma WithTableOutcomes<I>(s: Snapshot<I>, name: string, q: Candles.TableQuery)
    ensures q.rows.None? || !Candles.AllPriced(q.rows.value) ==> WithTable(s, name, q).extremums == s.extremums
    ensures q.rows.Some? && Candles.AllPriced(q.rows.value) ==>
      && WithTable(s, name, q).extremums[name].minSet == (if q.minimaRaise then {} else Candles.ExtremumSet(q.rows.value, Hour, false))
      && WithTable(s, name, q).extremums[name].maxSet == (if q.minimaRaise || q.maximaRaise then {} else Candles.ExtremumSet(q.rows.value, Hour, true))
    ensures q.rows.Some? ==> |WithTable(s, name, q).candles[name]| <= |q.rows.value|
    ensures q.rows.Some? ==> (|WithTable(s, name, q).candles[name]| == |q.rows.value| <==> Candles.AllPriced(q.rows.value))
    ensures WithTable(s, name, q).calendar == s.calendar && WithTable(s, name, q).history == s.history
  {
  }

  /**
   * One table of the 32 build, given its rows and the same rows sorted by
   * date: rates, candles and extrema replaced, the sizes of the new rows
   * merged into the ones the table already had, and the thresholds
   * recomputed from the new rows' sizes.
   */
  function SizedUpdate<I>(s: Snapshot<I>, name: string, rows: seq<Candles.RateRow>, sorted: seq<Candles.RateRow>): Snapshot<I>
  {
    TypeEngine.Snapshot(s.calendar, s.history, s.eventTypes, s.rates[name := Candles.PassRates(sorted)],
                        s.candles[name := Candles.PassCandles(sorted)], s.extremums[name := ExtremaOf(rows)],
                        s.sizes[name := Merge(TableOr(s.sizes, name, map[]), Candles.SizesOf(sorted))],
                        s.thresholds[name := Candles.Thresholds(Candles.SizeList(sorted))])
  }

  /** One table of the 32 build. */
  function WithSizedTable<I>(s: Snapshot<I>, name: string, rows: seq<Candles.RateRow>): Snapshot<I>
  {
    SizedUpdate(s, name, rows, Candles.ByDate(rows))
  }

  /** The first n of LoadedTables through WithTable. */
  function TablesUpTo<I>(s: Snapshot<I>, rows: seq<Candles.TableQuery>, n: int): Snapshot<I>
    requires 0 <= n <= |Candles.LoadedTables|
  {
    if n == 0 then s else WithTable(TablesUpTo(s, rows, n - 1), Candles.LoadedTables[n - 1], Candles.QueryAt(rows, n - 1))
  }

  /** The first n of the named tables through WithSizedTable. */
  function SizedTablesUpTo<I>(s: Snapshot<I>, names: seq<string>, rows: seq<seq<Candles.RateRow>>, n: int): (r: Snapshot<I>)
    requires 0 <= n <= |names| && n <= |rows|
    ensures r.calendar == s.calendar && r.history == s.history && r.eventTypes == s.eventTypes
  {
    if n == 0 then s else WithSizedTable(SizedTablesUpTo(s, names, rows, n - 1), names[n - 1], rows[n - 1])
  }

  // ------------------------------------------------------------ what the tables hold

  /** The table sections touch only the table maps. */
  lemma {:induction false} TablesKeepCalendar<I>(s: Snapshot<I>, rows: seq<Candles.TableQuery>, n: int)
    requires 0 <= n <= |Candles.LoadedTables|
    ensures TablesUpTo(s, rows, n).calendar == s.calendar && TablesUpTo(s, rows, n).history == s.history
    ensures TablesUpTo(s, rows, n).eventTypes == s.eventTypes
    ensures TablesUpTo(s, rows, n).sizes == s.sizes && TablesUpTo(s, rows, n).thresholds == s.thresholds
  {
    if n > 0 {
      TablesKeepCalendar(s, rows, n - 1);
    }
  }

  lemma WithTableTables<I>(s: Snapshot<I>, name: string, rows: Candles.TableQuery)
    ensures forall k :: k in WithTable(s, name, rows).rates <==> k in s.rates || k == name
    ensures forall k :: k in WithTable(s, name, rows).candles <==> k in s.candles || k == name
  {
  }

  /** Every loaded table has its rates and candles, whether or not its query succeeded. */
  lemma {:induction false} TablesPresent<I>(s: Snapshot<I>, rows: seq<Candles.TableQuery>, n: int)
    requires 0 <= n <= |Candles.LoadedTables|
    ensures forall i :: 0 <= i < n ==> Candles.LoadedTables[i] in TablesUpTo(s, rows, n).rates
                                       && Candles.LoadedTables[i] in TablesUpTo(s, rows, n).candles
  {
    if n > 0 {
      TablesPresent(s, rows, n - 1);
      WithTableTables(TablesUpTo(s, rows, n - 1), Candles.LoadedTables[n - 1], Candles.QueryAt(rows, n - 1));
    }
  }

  predicate NonNegative(th: map<int, real>)
  {
    forall pct :: pct in th ==> th[pct] >= 0.0
  }

  /** A loaded 32 table: its candles in date order, its thresholds not negative. */
  predicate TableHolds<I>(t: Snapshot<I>, name: string)
  {
    name in t.candles && name in t.thresholds && name in t.sizes
    && Candles.SortedDates(t.candles[name]) && NonNegative(t.thresholds[name])
  }

  /** One 32 table load leaves that table with candles in date order and thresholds not negative. */
  lemma SizedUpdateHolds<I>(s: Snapshot<I>, name: string, rows: seq<Candles.RateRow>)
    ensures TableHolds(SizedUpdate(s, name, rows, Candles.ByDate(rows)), name)
  {
    var sorted := Candles.ByDate(rows);
    Candles.PassSorted(sorted);
    forall pct | pct in Candles.Thresholds(Candles.SizeList(sorted))
      ensures Candles.Thresholds(Candles.SizeList(sorted))[pct] >= 0.0
    {
      Candles.ThresholdNonNegative(sorted, pct);
    }
  }

  /** One 32 table load leaves every other table as it was. */
  lemma SizedUpdateKeeps<I>(s: Snapshot<I>, other: string, name: string, rows: seq<Candles.RateRow>, sorted: seq<Candles.RateRow>)
    requires TableHolds(s, other) && other != name
    ensures TableHolds(SizedUpdate(s, name, rows, sorted), other)
  {
  }

  lemma SizedStepHolds<I>(before: Snapshot<I>, names: seq<string>, rows: seq<Candles.RateRow>, sorted: seq<Candles.RateRow>, n: int)
    requires 0 < n <= |names|
    requires forall i :: 0 <= i < n - 1 ==> TableHolds(before, names[i])
    requires TableHolds(SizedUpdate(before, names[n - 1], rows, sorted), names[n - 1])
    ensures forall i :: 0 <= i < n ==> TableHolds(SizedUpdate(before, names[n - 1], rows, sorted), names[i])
  {
    forall i | 0 <= i < n
      ensures TableHolds(SizedUpdate(before, names[n - 1], rows, sorted), names[i])
    {
      if names[i] != names[n - 1] {
        SizedUpdateKeeps(before, names[i], names[n - 1], rows, sorted);
      }
    }
  }

  // ------------------------------------------------------------ the server_23 join

  /** A row of brain_calendar. */
  datatype BrainEvent = BrainEvent(name: string, country: string, date: int)

  /** The identity of an event across the two stores. */
  datatype EventName = EventName(name: string, country: string)

  /** A row of vlad_brain_calendar_event_index. */
  datatype IndexEntry<I> = IndexEntry(name: string, country: string, eid: int, importance: I)

  datatype Indexed<I> = Indexed(eid: int, importance: I)

  /** index_map: each entry under its (name, country), a later one of the same pair winning. */
  function IndexMap<I>(rows: seq<IndexEntry<I>>): map<EventName, Indexed<I>>
  {
    if |rows| == 0 then map[]
    else
      var r := rows[|rows| - 1];
      IndexMap(rows[..|rows| - 1])[EventName(r.name, r.country) := Indexed(r.eid, r.importance)]
  }

  /** A pair is mapped exactly when an entry has it ... */
  lemma {:induction false} IndexMapDomain<I>(rows: seq<IndexEntry<I>>, key: EventName)
    ensures key in IndexMap(rows) <==> exists i :: 0 <= i < |rows| && EventName(rows[i].name, rows[i].country) == key
  {
    if |rows| > 0 {
      var n := |rows| - 1;
      var init := rows[..n];
      IndexMapDomain(init, key);
      if EventName(rows[n].name, rows[n].country) != key {
        if exists i :: 0 <= i < |rows| && EventName(rows[i].name, rows[i].country) == key {
          var i :| 0 <= i < |rows| && EventName(rows[i].name, rows[i].country) == key;
          assert init[i] == rows[i];
        }
        if exists i :: 0 <= i < n && EventName(init[i].name, init[i].country) == key {
          var i :| 0 <= i < n && EventName(init[i].name, init[i].country) == key;
          assert rows[i] == init[i];
        }
      }
    }
  }

  /** ... and then to the last entry that has it. */
  lemma {:induction false} IndexMapValue<I>(rows: seq<IndexEntry<I>>, key: EventName)
    ensures key in IndexMap(rows) ==>
              exists i :: 0 <= i < |rows| && EventName(rows[i].name, rows[i].country) == key
                          && IndexMap(rows)[key] == Indexed(rows[i].eid, rows[i].importance)
                          && forall j :: i < j < |rows| ==> EventName(rows[j].name, rows[j].country) != key
  {
    if |rows| > 0 {
      var n := |rows| - 1;
      var init := rows[..n];
      if EventName(rows[n].name, rows[n].country) == key {
        assert IndexMap(rows)[key] == Indexed(rows[n].eid, rows[n].importance);
      } else if key in IndexMap(init) {
        IndexMapValue(init, key);
        var i :| 0 <= i < n && EventName(init[i].name, init[i].country) == key
                 && IndexMap(init)[key] == Indexed(init[i].eid, init[i].importance)
                 && forall j :: i < j < n ==> EventName(init[j].name, init[j].country) != key;
        assert rows[i] == init[i];
        assert IndexMap(rows)[key] == IndexMap(init)[key];
      }
    }
  }

  method BuildIndexMap<I>(rows: seq<IndexEntry<I>>) returns (m: map<EventName, Indexed<I>>)
    ensures m == IndexMap(rows)
  {
    m := map[];
    for i := 0 to |rows|
      invariant m == IndexMap(rows[..i])
    {
      assert rows[..i + 1][..i] == rows[..i];
      m := m[EventName(rows[i].name, rows[i].country) := Indexed(rows[i].eid, rows[i].importance)];
    }
    assert rows[..|rows|] == rows;
  }

  /** The calendar rows of the join: each brain event that the index knows, with the index's event and importance. */
  function Joined<I>(events: seq<BrainEvent>, index: map<EventName, Indexed<I>>): seq<CalRow<I, ()>>
  {
    if |events| == 0 then []
    else
      var e := events[|events| - 1];
      var init := Joined(events[..|events| - 1], index);
      var key := EventName(e.name, e.country);
      if key in index then init + [CalRow(index[key].eid, e.date, index[key].importance, ())] else init
  }

  /** The join keeps an event exactly when the index knows it, with the index's event and importance. */
  lemma {:induction false} JoinedMeaning<I>(events: seq<BrainEvent>, index: map<EventName, Indexed<I>>, eid: int, date: int, imp: I)
    ensures CalRow(eid, date, imp, ()) in Joined(events, index)
            <==> exists i :: 0 <= i < |events| && events[i].date == date
                             && EventName(events[i].name, events[i].country) in index
                             && index[EventName(events[i].name, events[i].country)] == Indexed(eid, imp)
  {
    if |events| > 0 {
      var n := |events| - 1;
      var init := events[..n];
      JoinedMeaning(init, index, eid, date, imp);
      if exists i :: 0 <= i < n && init[i].date == date && EventName(init[i].name, init[i].country) in index
                     && index[EventName(init[i].name, init[i].country)] == Indexed(eid, imp) {
        var i :| 0 <= i < n && init[i].date == date && EventName(init[i].name, init[i].country) in index
                 && index[EventName(init[i].name, init[i].country)] == Indexed(eid, imp);
        assert events[i] == init[i];
      }
      if exists i :: 0 <= i < |events| && events[i].date == date && EventName(events[i].name, events[i].country) in index
                     && index[EventName(events[i].name, events[i].country)] == Indexed(eid, imp) {
        var i :| 0 <= i < |events| && events[i].date == date && EventName(events[i].name, events[i].country) in index
                 && index[EventName(events[i].name, events[i].country)] == Indexed(eid, imp);
        if i < n {
          assert init[i] == events[i];
        }
      }
    }
  }

  /** The in-memory join loop. */
  method JoinEvents<I>(events: seq<BrainEvent>, index: map<EventName, Indexed<I>>) returns (rows: seq<CalRow<I, ()>>)
    ensures rows == Joined(events, index)
  {
    rows := [];
    for i := 0 to |events|
      invariant rows == Joined(events[..i], index)
    {
      assert events[..i + 1][..i] == events[..i];
      var key := EventName(events[i].name, events[i].country);
      if key in index {
        rows := rows + [CalRow(index[key].eid, events[i].date, index[key].importance, ())];
      }
    }
    assert events[..|events|] == events;
  }

  // ------------------------------------------------------------ the stores

  /** The calendar importance of the 32 and 25 services: TINYINT, NULL as None. */
  type Rank = Option<int>

  /** The calendar importance of the 23 services: a word, NULL as None. */
  type Label = Option<string>

  /** The maps of the 32 and 25 services, whose calendar grades importance 1 to 3. */
  class RankedStore {
    var weightCodes: seq<string>
    var calendar: map<int, seq<CalEntry<Rank, ()>>>
    var history: map<int, seq<int>>
    var eventTypes: map<int, int>
    var rates: map<string, map<int, real>>
    var candles: map<string, seq<Candles.Candle>>
    var extremums: map<string, Extrema>
    var sizes: map<string, map<int, real>>
    var thresholds: map<string, map<int, real>>

    /** What a query reads. */
    function Snapshot(): Snapshot<Rank>
      reads this
    {
      TypeEngine.Snapshot(calendar, history, eventTypes, rates, candles, extremums, sizes, thresholds)
    }

    /** The shape every build keeps: calendar and history agree, and every event type is 0 or 1. */
    ghost predicate Valid()
      reads this
    {
      Consistent(history, calendar) && BinaryTypes(eventTypes)
    }

    constructor()
      ensures weightCodes == [] && Snapshot() == TypeEngine.Snapshot(map[], map[], map[], map[], map[], map[], map[], map[])
      ensures Valid()
    {
      weightCodes := [];
      calendar, history, eventTypes := map[], map[], map[];
      rates, candles, extremums := map[], map[], map[];
      sizes, thresholds := map[], map[];
      EmptyIsConsistent<Rank, ()>();
    }

    /** The weight codes, replaced when the query succeeds. */
    method LoadWeightCodes(rows: Option<seq<string>>)
      modifies this`weightCodes
      ensures weightCodes == (if rows.Some? then rows.value else old(weightCodes))
      ensures Snapshot() == old(Snapshot())
    {
      if rows.Some? {
        weightCodes := rows.value;
      }
    }

    /** The event types, cleared and refilled when the query succeeds. */
    method LoadEventTypes(rows: Option<seq<Counts.IndexRow<int>>>)
      modifies this`eventTypes
      ensures Snapshot() == (if rows.Some? then old(Snapshot()).(eventTypes := Counts.TypesOf(map[], rows.value)) else old(Snapshot()))
      ensures rows.Some? ==> BinaryTypes(eventTypes)
      ensures old(Valid()) ==> Valid()
    {
      if rows.Some? {
        var rs := rows.value;
        eventTypes := map[];
        for i := 0 to |rs|
          invariant eventTypes == Counts.TypesOf(map[], rs[..i])
          invariant Snapshot() == old(Snapshot()).(eventTypes := eventTypes)
        {
          assert rs[..i + 1][..i] == rs[..i];
          eventTypes := eventTypes[rs[i].key := Counts.TypeOfCount(Counts.CountOf(rs[i]))];
        }
        assert rs[..|rs|] == rs;
        Counts.TypesAreBinary(map[], rs);
      }
    }

    /** The calendar rows appended to calendar and history. */
    method AppendCalendar(rows: seq<CalRow<Rank, ()>>)
      modifies this`history, this`calendar
      ensures Snapshot() == WithCalendar(old(Snapshot()), rows)
      ensures old(Valid()) ==> Valid()
    {
      if Valid() {
        LoadKeepsConsistent(history, calendar, rows);
      }
      history, calendar := Calendar.LoadCalendar(rows, history, calendar);
    }

    /** One table of the 25 build (and of the 23 builds): rates and candles reset, then the section as far as it gets. */
    method LoadTable(name: string, q: Candles.TableQuery)
      modifies this`rates, this`candles, this`extremums
      ensures Snapshot() == WithTable(old(Snapshot()), name, q)
    {
      rates, candles := rates[name := map[]], candles[name := []];
      var r, c, passed, ex := TableSection(q);
      Overwrite(old(rates), name, map[], r);
      Overwrite(old(candles), name, [], c);
      rates, candles := rates[name := r], candles[name := c];
      if passed {
        extremums := extremums[name := ex];
      }
    }

    method LoadTables(rows: seq<Candles.TableQuery>)
      modifies this`rates, this`candles, this`extremums
      ensures Snapshot() == TablesUpTo(old(Snapshot()), rows, |Candles.LoadedTables|)
      ensures old(Valid()) ==> Valid()
    {
      for i := 0 to |Candles.LoadedTables|
        invariant Snapshot() == TablesUpTo(old(Snapshot()), rows, i)
      {
        LoadTable(Candles.LoadedTables[i], Candles.QueryAt(rows, i));
      }
      TablesKeepCalendar(old(Snapshot()), rows, |Candles.LoadedTables|);
    }

    /**
     * One table of the 32 build: the row pass and the size pass over the
     * date-sorted rows, then the table's entry in every per-table map
     * replaced, the sizes merged into the old ones. The 32 build catches
     * nothing, so a row without open or close ends it: every row is priced.
     */
    method LoadSizedTable(name: string, rows: seq<Candles.RateRow>)
      requires Candles.AllPriced(rows)
      modifies this`calendar, this`history, this`eventTypes, this`rates, this`candles, this`extremums, this`sizes, this`thresholds
      ensures Snapshot() == WithSizedTable(old(Snapshot()), name, rows)
    {
      var sorted := Candles.ByDate(rows);
      var r, c, rg, avg, passed := Candles.LoadRows(sorted);
      var sz, list := Candles.LoadSizes(sorted);
      var merged := Merge(TableOr(sizes, name, map[]), sz);
      var th := Candles.Thresholds(list);
      var ex := ExtremaOf(rows);
      SetMaps(TypeEngine.Snapshot(calendar, history, eventTypes, rates[name := r], candles[name := c], extremums[name := ex],
                                  sizes[name := merged], thresholds[name := th]));
    }

    /** The maps replaced by t. */
    method SetMaps(t: Snapshot<Rank>)
      modifies this`calendar, this`history, this`eventTypes, this`rates, this`candles, this`extremums, this`sizes, this`thresholds
      ensures Snapshot() == t
    {
      calendar, history, eventTypes := t.calendar, t.history, t.eventTypes;
      rates, candles, extremums := t.rates, t.candles, t.extremums;
      sizes, thresholds := t.sizes, t.thresholds;
    }

    method LoadSizedTables(rows: seq<seq<Candles.RateRow>>)
      requires |rows| == |Candles.LoadedTables|
      requires forall i :: 0 <= i < |rows| ==> Candles.AllPriced(rows[i])
      modifies this`calendar, this`history, this`eventTypes, this`rates, this`candles, this`extremums, this`sizes, this`thresholds
      ensures Snapshot() == SizedTablesUpTo(old(Snapshot()), Candles.LoadedTables, rows, |Candles.LoadedTables|)
      ensures forall j :: 0 <= j < |Candles.LoadedTables| ==> TableHolds(Snapshot(), Candles.LoadedTables[j])
      ensures old(Valid()) ==> Valid()
    {
      for i := 0 to |Candles.LoadedTables|
        invariant Snapshot() == SizedTablesUpTo(old(Snapshot()), Candles.LoadedTables, rows, i)
        invariant forall j :: 0 <= j < i ==> TableHolds(Snapshot(), Candles.LoadedTables[j])
      {
        ghost var before := Snapshot();
        LoadSizedTable(Candles.LoadedTables[i], rows[i]);
        SizedUpdateHolds(before, Candles.LoadedTables[i], rows[i]);
        SizedStepHolds(before, Candles.LoadedTables, rows[i], Candles.ByDate(rows[i]), i + 1);
      }
    }

    /**
     * The 32 build, every query succeeding and every rate row priced: types,
     * calendar and history cleared and refilled, then the tables.
     */
    method PreloadSized(codes: seq<string>, types: seq<Counts.IndexRow<int>>, cal: seq<CalRow<Rank, ()>>,
                        tableRows: seq<seq<Candles.RateRow>>)
      requires |tableRows| == |Candles.LoadedTables|
      requires forall i :: 0 <= i < |tableRows| ==> Candles.AllPriced(tableRows[i])
      modifies this
      ensures weightCodes == codes
      ensures Snapshot() == SizedTablesUpTo(WithCalendar(old(Snapshot()).(eventTypes := Counts.TypesOf(map[], types),
                                                                           calendar := map[], history := map[]), cal),
                                            Candles.LoadedTables, tableRows, |Candles.LoadedTables|)
      ensures Valid()
      ensures forall i :: 0 <= i < |Candles.LoadedTables| ==> TableHolds(Snapshot(), Candles.LoadedTables[i])
    {
      ghost var s0 := Snapshot();
      weightCodes := codes;
      assert Snapshot() == s0;
      LoadEventTypes(Some(types));
      ghost var s1 := s0.(eventTypes := Counts.TypesOf(map[], types));
      calendar, history := map[], map[];
      ghost var s2 := s1.(calendar := map[], history := map[]);
      assert Snapshot() == s2;
      EmptyIsConsistent<Rank, ()>();
      AppendCalendar(cal);
      assert Snapshot() == WithCalendar(s2, cal);
      LoadSizedTables(tableRows);
    }

    /** The 25 build: each section caught on its own; the calendar appended to. */
    method PreloadRanked(codes: Option<seq<string>>, types: Option<seq<Counts.IndexRow<int>>>,
                         cal: Option<seq<CalRow<Rank, ()>>>, tableRows: seq<Candles.TableQuery>)
      modifies this
      ensures weightCodes == (if codes.Some? then codes.value else old(weightCodes))
      ensures var typed := if types.Some? then old(Snapshot()).(eventTypes := Counts.TypesOf(map[], types.value)) else old(Snapshot());
              Snapshot() == TablesUpTo(if cal.Some? then WithCalendar(typed, cal.value) else typed, tableRows, |Candles.LoadedTables|)
      ensures old(Valid()) ==> Valid()
    {
      ghost var valid := Valid();
      LoadWeightCodes(codes);
      LoadEventTypes(types);
      ghost var typed := Snapshot();
      assert valid ==> Valid();
      if cal.Some? {
        AppendCalendar(cal.value);
      }
      ghost var dated := Snapshot();
      assert dated == if cal.Some? then WithCalendar(typed, cal.value) else typed;
      LoadTables(tableRows);
    }
  }

  /** The maps of the 23 services: no event types and no candle sizes. */
  class LabelledStore {
    var weightCodes: seq<string>
    var calendar: map<int, seq<CalEntry<Label, ()>>>
    var history: map<int, seq<int>>
    var rates: map<string, map<int, real>>
    var candles: map<string, seq<Candles.Candle>>
    var extremums: map<string, Extrema>

    /** What a query reads. */
    function Snapshot(): Snapshot<Label>
      reads this
    {
      TypeEngine.Snapshot(calendar, history, map[], rates, candles, extremums, map[], map[])
    }

    /** The shape every build keeps: calendar and history agree. */
    ghost predicate Valid()
      reads this
    {
      Consistent(history, calendar)
    }

    constructor()
      ensures weightCodes == [] && Snapshot() == TypeEngine.Snapshot(map[], map[], map[], map[], map[], map[], map[], map[])
      ensures Valid()
    {
      weightCodes := [];
      calendar, history := map[], map[];
      rates, candles, extremums := map[], map[], map[];
      EmptyIsConsistent<Label, ()>();
    }

    /** The weight codes, replaced when the query succeeds. */
    method LoadWeightCodes(rows: Option<seq<string>>)
      modifies this`weightCodes
      ensures weightCodes == (if rows.Some? then rows.value else old(weightCodes))
      ensures Snapshot() == old(Snapshot())
    {
      if rows.Some? {
        weightCodes := rows.value;
      }
    }

    /** The calendar rows appended to calendar and history. */
    method AppendCalendar(rows: seq<CalRow<Label, ()>>)
      modifies this`history, this`calendar
      ensures Snapshot() == WithCalendar(old(Snapshot()), rows)
      ensures old(Valid()) ==> Valid()
    {
      if Valid() {
        LoadKeepsConsistent(history, calendar, rows);
      }
      history, calendar := Calendar.LoadCalendar(rows, history, calendar);
    }

    /** One table, as in RankedStore.LoadTable. */
    method LoadTable(name: string, q: Candles.TableQuery)
      modifies this`rates, this`candles, this`extremums
      ensures Snapshot() == WithTable(old(Snapshot()), name, q)
    {
      rates, candles := rates[name := map[]], candles[name := []];
      var r, c, passed, ex := TableSection(q);
      Overwrite(old(rates), name, map[], r);
      Overwrite(old(candles), name, [], c);
      rates, candles := rates[name := r], candles[name := c];
      if passed {
        extremums := extremums[name := ex];
      }
    }

    method LoadTables(rows: seq<Candles.TableQuery>)
      modifies this`rates, this`candles, this`extremums
      ensures Snapshot() == TablesUpTo(old(Snapshot()), rows, |Candles.LoadedTables|)
      ensures old(Valid()) ==> Valid()
    {
      for i := 0 to |Candles.LoadedTables|
        invariant Snapshot() == TablesUpTo(old(Snapshot()), rows, i)
      {
        LoadTable(Candles.LoadedTables[i], Candles.QueryAt(rows, i));
      }
      TablesKeepCalendar(old(Snapshot()), rows, |Candles.LoadedTables|);
    }

    /**
     * The server_23 build: the weight codes, then the calendar joined with
     * the index, then the tables; a failed calendar or index read ends the
     * build before the join.
     */
    method PreloadJoined(codes: Option<seq<string>>, events: Option<seq<BrainEvent>>, index: Option<seq<IndexEntry<Label>>>,
                         tableRows: seq<Candles.TableQuery>)
      modifies this
      ensures weightCodes == (if codes.Some? then codes.value else old(weightCodes))
      ensures events.None? || index.None? ==> Snapshot() == old(Snapshot())
      ensures events.Some? && index.Some? ==>
                Snapshot() == TablesUpTo(WithCalendar(old(Snapshot()), Joined(events.value, IndexMap(index.value))),
                                         tableRows, |Candles.LoadedTables|)
      ensures old(Valid()) ==> Valid()
    {
      LoadWeightCodes(codes);
      if events.None? || index.None? {
        return;
      }
      var m := BuildIndexMap(index.value);
      var rows := JoinEvents(events.value, m);
      AppendCalendar(rows);
      LoadTables(tableRows);
    }

    /** The 23 build: the joined calendar appended to, then the tables. */
    method PreloadJoinedSql(cal: Option<seq<CalRow<Label, ()>>>, tableRows: seq<Candles.TableQuery>)
      modifies this
      ensures weightCodes == old(weightCodes)
      ensures Snapshot() == TablesUpTo(if cal.Some? then WithCalendar(old(Snapshot()), cal.value) else old(Snapshot()),
                                       tableRows, |Candles.LoadedTables|)
      ensures old(Valid()) ==> Valid()
    {
      if cal.Some? {
        AppendCalendar(cal.value);
      }
      LoadTables(tableRows);
    }
  }
}
