/**
 * The snapshot build of the 27 service (preload_all_data).
 *
 * The sections run in order: the weight codes, the context index, the
 * calendar with its per-event release dates (sorted at the end), then the
 * six quote tables with extrema one hour apart. Each map is cleared right
 * before it is refilled. Nothing is caught inside the build, so a failing
 * query or a rate row without open or close ends it; here every query
 * returns its rows and every rate row is priced.
 */
module EventStore {
  import opened Wrappers
  import opened Dates
  import opened Sorting
  import opened Calendar
  import Candles
  import Counts
  import opened EventEngine

  /** The readings of a calendar row as the query returns them: text, NULL as None. */
  datatype RawReadings = RawReadings(actual: Option<string>, forecast: Option<string>, previous: Option<string>)

  /** A row of vlad_investing_calendar (event_id is never NULL there). */
  type CalendarRow = CalRow<Option<int>, RawReadings>

  /** A calendar row with its readings passed through try_float. */
  function Read(r: CalendarRow): CalRow<Option<int>, Readings>
  {
    CalRow(r.eid, r.date, r.importance, ReadingsOf(r.readings.actual, r.readings.forecast, r.readings.previous))
  }

  function ReadAll(rows: seq<CalendarRow>): (r: seq<CalRow<Option<int>, Readings>>)
    ensures |r| == |rows|
  {
    seq(|rows|, i requires 0 <= i < |rows| => Read(rows[i]))
  }

  /** The table queries as the build sees them: every one returned its rows. */
  function Succeeded(rows: seq<seq<Candles.RateRow>>): (r: seq<Candles.TableQuery>)
    ensures |r| == |rows|
  {
    seq(|rows|, i requires 0 <= i < |rows| => Candles.Answered(rows[i]))
  }

  /** Histories holding the same dates per event, in any order, are equally consistent with a calendar. */
  lemma SameDatesStayConsistent<I(!new), R(!new)>(h: map<int, seq<int>>, h2: map<int, seq<int>>,
                                                  calendar: map<int, seq<CalEntry<I, R>>>)
    requires Consistent(h, calendar)
    requires h2.Keys == h.Keys
    requires forall eid :: eid in h ==> multiset(h2[eid]) == multiset(h[eid])
    ensures Consistent(h2, calendar)
  {
    forall eid, d | eid in h2 && d in h2[eid]
      ensures ListsEvent(Lookup(calendar, d), eid)
    {
      assert d in multiset(h2[eid]);
      assert d in h[eid];
    }
    forall dt, e | dt in calendar && e in calendar[dt]
      ensures e.eid in h2 && dt in h2[e.eid]
    {
      assert dt in multiset(h[e.eid]);
    }
  }

  /** Sorting each history keeps it consistent with the calendar. */
  lemma SortedHistoryStaysConsistent<I(!new), R(!new)>(history: map<int, seq<int>>, calendar: map<int, seq<CalEntry<I, R>>>)
    requires Consistent(history, calendar)
    ensures Consistent(SortEach(history), calendar)
    ensures SortedHistory(SortEach(history))
  {
    SameDatesStayConsistent(history, SortEach(history), calendar);
  }

  class EventStore {
    var weightCodes: seq<string>
    var ctxIndex: map<CtxKey, int>
    var calendar: map<int, seq<Release>>
    var history: map<int, seq<int>>
    var tables: map<string, Candles.TableData>

    /** What a query reads. */
    function Snapshot(): EventSnapshot
      reads this
    {
      EventSnapshot(calendar, history, ctxIndex, tables)
    }

    /** The shape a build leaves: calendar and history agree, every history ascending. */
    ghost predicate Valid()
      reads this`calendar, this`history
    {
      Consistent(history, calendar) && SortedHistory(history)
    }

    constructor()
      ensures weightCodes == [] && ctxIndex == map[] && calendar == map[] && history == map[] && tables == map[]
      ensures Valid()
    {
      weightCodes, ctxIndex := [], map[];
      calendar, history, tables := map[], map[], map[];
      EmptyIsConsistent<Option<int>, Readings>();
    }

    method LoadWeightCodes(rows: seq<string>)
      modifies this`weightCodes
      ensures weightCodes == rows
    {
      weightCodes := rows;
    }

    /** The context index, cleared and refilled. */
    method LoadIndex(rows: seq<Counts.IndexRow<CtxKey>>)
      modifies this`ctxIndex
      ensures ctxIndex == Counts.IndexOf(map[], rows)
    {
      ctxIndex := map[];
      for i := 0 to |rows|
        invariant ctxIndex == Counts.IndexOf(map[], rows[..i])
      {
        assert rows[..i + 1][..i] == rows[..i];
        ctxIndex := ctxIndex[rows[i].key := Counts.CountOf(rows[i])];
      }
      assert rows[..|rows|] == rows;
    }

    /** Calendar and history, cleared and refilled, then every history sorted. */
    method LoadCalendar(rows: seq<CalendarRow>)
      modifies this`calendar, this`history
      ensures calendar == CalendarOf(map[], ReadAll(rows))
      ensures history == SortEach(HistoryOf(map[], ReadAll(rows)))
      ensures Valid()
    {
      var h, c := Calendar.LoadCalendar(ReadAll(rows), map[], map[]);
      EmptyIsConsistent<Option<int>, Readings>();
      LoadKeepsConsistent(map[], map[], ReadAll(rows));
      SortedHistoryStaysConsistent(h, c);
      calendar := c;
      history := SortEach(h);
    }

    /** One table: reset to empty, then loaded with extrema one hour apart. */
    method LoadTable(name: string, rows: seq<Candles.RateRow>)
      modifies this`tables
      ensures tables == old(tables)[name := Candles.TableOf(Candles.Answered(rows), Hour)]
    {
      tables := tables[name := Candles.EmptyTable];
      var t := Candles.LoadTable(Candles.Answered(rows), Hour);
      tables := tables[name := t];
    }

    method LoadTables(rows: seq<seq<Candles.RateRow>>)
      requires |rows| == |Candles.LoadedTables|
      modifies this`tables
      ensures tables == Candles.TablesUpTo(old(tables), Succeeded(rows), Hour, |Candles.LoadedTables|)
    {
      for i := 0 to |Candles.LoadedTables|
        invariant tables == Candles.TablesUpTo(old(tables), Succeeded(rows), Hour, i)
      {
        LoadTable(Candles.LoadedTables[i], rows[i]);
      }
    }

    /** preload_all_data, every query succeeding and every rate row priced. */
    method Preload(codes: seq<string>, index: seq<Counts.IndexRow<CtxKey>>, cal: seq<CalendarRow>,
                   tableRows: seq<seq<Candles.RateRow>>)
      requires |tableRows| == |Candles.LoadedTables|
      requires forall i :: 0 <= i < |tableRows| ==> Candles.AllPriced(tableRows[i])
      modifies this
      ensures weightCodes == codes && ctxIndex == Counts.IndexOf(map[], index)
      ensures calendar == CalendarOf(map[], ReadAll(cal)) && history == SortEach(HistoryOf(map[], ReadAll(cal)))
      ensures tables == Candles.TablesUpTo(old(tables), Succeeded(tableRows), Hour, |Candles.LoadedTables|)
      ensures Valid()
    {
      LoadWeightCodes(codes);
      LoadIndex(index);
      LoadCalendar(cal);
      LoadTables(tableRows);
    }
  }
}
