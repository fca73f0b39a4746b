/**
 * The snapshot build of the 31 and 30 services (preload_all_data).
 *
 * Every in-memory table is cleared, then filled section by section from
 * the rows of its query: the weight codes, the context index, the
 * classified observations and the six quote tables. A section whose query
 * fails keeps its cleared state and the others still load; a failed query
 * is a None input here. A quote table's section is one try around the
 * rates query, the row pass and the two extremum queries, so a raise
 * part-way leaves the table as far as it got (Candles.TableQuery).
 *
 * The observation section differs between the services. The 31 service
 * splits its wide history table into one close series per instrument
 * column and classifies each with the instrument's threshold and windows
 * of 24 and 168 points; the 30 service groups its rate rows by currency
 * and classifies each with one threshold and windows of 5 and 20. Both
 * then file every classified point three ways (its context by instrument
 * and timestamp, the instruments seen at each timestamp, the timestamps
 * of each instrument and context) and sort the last lists.
 */
module MarketStore {
  import opened Wrappers
  import opened Sorting
  import opened Classify
  import opened Dates
  import Candles
  import Counts
  import opened MarketEngine

  // ------------------------------------------------------------ rows

  /** The instruments of vlad_market_history, in column order. */
  const Instruments: seq<string> := ["EURUSD", "BTC", "ETH", "DXY", "GOLD", "OIL"]

  /** One row of vlad_market_history: its timestamp and each instrument's close (NULL as None), in column order. */
  datatype HistoryRow = HistoryRow(dt: int, closes: seq<Option<real>>)

  /** One row of vlad_ecb_exchange_rates, as the query orders them: by currency, then date. */
  datatype EcbRow = EcbRow(currency: string, date: int, rate: real)

  /** The observation rows of a service: the 31 market history or the 30 ECB rates. */
  datatype Source = MarketRows(history: seq<HistoryRow>) | EcbRates(rates: seq<EcbRow>)

  predicate Distinct(s: seq<string>)
  {
    forall i, j :: 0 <= i < j < |s| ==> s[i] != s[j]
  }

  // ------------------------------------------------------------ the market series

  function CloseAt(r: HistoryRow, i: int): Option<real>
  {
    if 0 <= i < |r.closes| then r.closes[i] else None
  }

  /** by_instr of column i: the timestamps and non-NULL closes, in row order. */
  function ColumnSeries(rows: seq<HistoryRow>, i: int): (series: seq<(int, real)>)
    ensures |series| <= |rows|
  {
    if |rows| == 0 then []
    else
      var r := rows[|rows| - 1];
      var init := ColumnSeries(rows[..|rows| - 1], i);
      if CloseAt(r, i).Some? then init + [(r.dt, CloseAt(r, i).value)] else init
  }

  lemma InstrumentsDistinct()
    ensures Distinct(Instruments)
  {
    assert Instruments[0] == "EURUSD" && Instruments[1] == "BTC" && Instruments[2] == "ETH";
    assert Instruments[3] == "DXY" && Instruments[4] == "GOLD" && Instruments[5] == "OIL";
  }

  /** Every instrument's series so far. */
  predicate ColumnsUpTo(bySeries: map<string, seq<(int, real)>>, rows: seq<HistoryRow>, lo: int, hi: int)
  {
    forall k :: lo <= k < hi && 0 <= k < |Instruments| ==> Instruments[k] in bySeries && bySeries[Instruments[k]] == ColumnSeries(rows, k)
  }

  /** The split loop of the market section: one series per instrument column. */
  method SplitColumns(rows: seq<HistoryRow>) returns (bySeries: map<string, seq<(int, real)>>)
    ensures ColumnsUpTo(bySeries, rows, 0, |Instruments|)
  {
    InstrumentsDistinct();
    bySeries := map[];
    for i := 0 to |Instruments|
      invariant ColumnsUpTo(bySeries, [], 0, i)
    {
      bySeries := bySeries[Instruments[i] := []];
    }
    for r := 0 to |rows|
      invariant ColumnsUpTo(bySeries, rows[..r], 0, |Instruments|)
    {
      assert rows[..r + 1][..r] == rows[..r];
      var row := rows[r];
      for i := 0 to |Instruments|
        invariant ColumnsUpTo(bySeries, rows[..r + 1], 0, i)
        invariant ColumnsUpTo(bySeries, rows[..r], i, |Instruments|)
      {
        var val := CloseAt(row, i);
        if val.Some? {
          bySeries := bySeries[Instruments[i] := bySeries[Instruments[i]] + [(row.dt, val.value)]];
        }
      }
    }
    assert rows[..|rows|] == rows;
  }

  // ------------------------------------------------------------ the ECB series

  /** The currencies in the order they first appear: the key order of by_ccy. */
  function Currencies(rows: seq<EcbRow>): (cs: seq<string>)
    ensures Distinct(cs)
    ensures forall c :: c in cs <==> exists i :: 0 <= i < |rows| && rows[i].currency == c
  {
    if |rows| == 0 then []
    else
      var init := Currencies(rows[..|rows| - 1]);
      var c := rows[|rows| - 1].currency;
      var r := if c in init then init else init + [c];
      forall x | x in r
        ensures exists i :: 0 <= i < |rows| && rows[i].currency == x
      {
        if x in init {
          var i :| 0 <= i < |rows| - 1 && rows[..|rows| - 1][i].currency == x;
          assert rows[i] == rows[..|rows| - 1][i];
        } else {
          assert rows[|rows| - 1].currency == x;
        }
      }
      forall x, i | 0 <= i < |rows| && rows[i].currency == x
        ensures x in r
      {
        if i < |rows| - 1 {
          assert rows[..|rows| - 1][i] == rows[i];
        }
      }
      r
  }

  /** by_ccy of one currency: its dates and rates, in row order. */
  function CurrencySeries(rows: seq<EcbRow>, c: string): seq<(int, real)>
  {
    if |rows| == 0 then []
    else
      var r := rows[|rows| - 1];
      var init := CurrencySeries(rows[..|rows| - 1], c);
      if r.currency == c then init + [(r.date, r.rate)] else init
  }

  lemma {:induction false} CurrencySeriesOfAbsent(rows: seq<EcbRow>, c: string)
    requires c !in Currencies(rows)
    ensures CurrencySeries(rows, c) == []
  {
    if |rows| > 0 {
      CurrencySeriesOfAbsent(rows[..|rows| - 1], c);
    }
  }

  ghost predicate GroupedUpTo(order: seq<string>, bySeries: map<string, seq<(int, real)>>, rows: seq<EcbRow>)
  {
    order == Currencies(rows) && (forall c :: c in bySeries <==> c in order)
    && (forall c :: c in order ==> bySeries[c] == CurrencySeries(rows, c))
  }

  /** The grouping loop of the ECB section. */
  method GroupByCurrency(rows: seq<EcbRow>) returns (order: seq<string>, bySeries: map<string, seq<(int, real)>>)
    ensures GroupedUpTo(order, bySeries, rows)
  {
    order, bySeries := [], map[];
    for i := 0 to |rows|
      invariant GroupedUpTo(order, bySeries, rows[..i])
    {
      assert rows[..i + 1][..i] == rows[..i];
      var r := rows[i];
      assert forall c :: CurrencySeries(rows[..i + 1], c)
                         == CurrencySeries(rows[..i], c) + (if c == r.currency then [(r.date, r.rate)] else []);
      if r.currency !in bySeries {
        CurrencySeriesOfAbsent(rows[..i], r.currency);
        order := order + [r.currency];
        bySeries := bySeries[r.currency := []];
      }
      bySeries := bySeries[r.currency := bySeries[r.currency] + [(r.date, r.rate)]];
    }
    assert rows[..|rows|] == rows;
  }

  // ------------------------------------------------------------ classification

  /** The (entity, series) pairs in the order the section walks them. */
  function Groups(src: Source): seq<(string, seq<(int, real)>)>
  {
    match src
    case MarketRows(rows) => seq(|Instruments|, i requires 0 <= i < |Instruments| => (Instruments[i], ColumnSeries(rows, i)))
    case EcbRates(rates) =>
      var cs := Currencies(rates);
      seq(|cs|, i requires 0 <= i < |cs| => (cs[i], CurrencySeries(rates, cs[i])))
  }

  /** The classifier parameters: threshold, short and long window. */
  datatype Params = Params(threshold: real, shortW: int, longW: int)

  function ParamsOf(src: Source, entity: string): (p: Params)
    ensures p.shortW >= 1 && p.longW >= 1
  {
    if src.MarketRows? then Params(MarketThreshold(entity), MarketSmaShort, MarketSmaLong)
    else Params(EcbThreshold, EcbSmaShort, EcbSmaLong)
  }

  /** The classifier's output for a series: one labelled point per input point. */
  function Labels(series: seq<(int, real)>, p: Params): (ls: seq<Labelled>)
    requires p.shortW >= 1 && p.longW >= 1
    ensures |ls| == |series|
  {
    seq(|series|, k requires 0 <= k < |series| => Labelled(series[k].0, ContextAt(series, k, p.threshold, p.shortW, p.longW)))
  }

  // ------------------------------------------------------------ filing the observations

  /** The three maps the observations are filed in. */
  datatype Observations = Observations(context: map<(string, int), Context>, observed: map<int, seq<string>>,
                                       ctxHist: map<CtxKey, seq<int>>)

  const NoObservations: Observations := Observations(map[], map[], map[])

  function ObservedAt(o: Observations, dt: int): seq<string>
  {
    if dt in o.observed then o.observed[dt] else []
  }

  function HistAt(o: Observations, key: CtxKey): seq<int>
  {
    if key in o.ctxHist then o.ctxHist[key] else []
  }

  /** One classified point: its context, the instrument added to its timestamp's set, its timestamp appended to the context's list. */
  function Record(o: Observations, entity: string, l: Labelled): Observations
  {
    var at := ObservedAt(o, l.dt);
    var key := CtxKey(entity, l.ctx);
    Observations(o.context[(entity, l.dt) := l.ctx],
                 o.observed[l.dt := if entity in at then at else at + [entity]],
                 o.ctxHist[key := HistAt(o, key) + [l.dt]])
  }

  function RecordSeries(o: Observations, entity: string, ls: seq<Labelled>): Observations
  {
    if |ls| == 0 then o else Record(RecordSeries(o, entity, ls[..|ls| - 1]), entity, ls[|ls| - 1])
  }

  function RecordGroups(o: Observations, src: Source, groups: seq<(string, seq<(int, real)>)>): Observations
  {
    if |groups| == 0 then o
    else
      var g := groups[|groups| - 1];
      RecordSeries(RecordGroups(o, src, groups[..|groups| - 1]), g.0, Labels(g.1, ParamsOf(src, g.0)))
  }

  /** The closing pass of the section: every context history sorted. */
  function SortHists(o: Observations): Observations
  {
    o.(ctxHist := SortEach(o.ctxHist))
  }

  /** The observation section on top of the given maps. */
  function ObservationsOf(o: Observations, src: Source): Observations
  {
    SortHists(RecordGroups(o, src, Groups(src)))
  }

  /** GLOBAL_MKT_BY_INSTR / GLOBAL_ECB_BY_CCY: the non-empty series by entity. */
  function SeriesOf(bySeries: map<string, seq<(int, real)>>, groups: seq<(string, seq<(int, real)>)>): map<string, seq<(int, real)>>
  {
    if |groups| == 0 then bySeries
    else
      var g := groups[|groups| - 1];
      var m := SeriesOf(bySeries, groups[..|groups| - 1]);
      if |g.1| == 0 then m else m[g.0 := g.1]
  }

  /**
   * The three maps agree: every filed context has its instrument in its
   * timestamp's set and its timestamp in its context's list; every
   * instrument of a set has a context there; no set lists an instrument twice.
   */
  ghost predicate Coherent(o: Observations)
  {
    (forall p :: p in o.context ==> p.0 in ObservedAt(o, p.1) && p.1 in HistAt(o, CtxKey(p.0, o.context[p])))
    && (forall dt, e :: e in ObservedAt(o, dt) ==> (e, dt) in o.context)
    && (forall dt :: Distinct(ObservedAt(o, dt)))
  }

  lemma EmptyIsCoherent()
    ensures Coherent(NoObservations)
  {
  }

  lemma RecordKeepsCoherent(o: Observations, entity: string, l: Labelled)
    requires Coherent(o)
    ensures Coherent(Record(o, entity, l))
  {
    var r := Record(o, entity, l);
    forall p | p in r.context
      ensures p.0 in ObservedAt(r, p.1) && p.1 in HistAt(r, CtxKey(p.0, r.context[p]))
    {
      if p != (entity, l.dt) {
        assert p in o.context && r.context[p] == o.context[p];
        assert p.0 in ObservedAt(o, p.1);
        assert p.1 in HistAt(o, CtxKey(p.0, o.context[p]));
      }
    }
    forall dt, e | e in ObservedAt(r, dt)
      ensures (e, dt) in r.context
    {
      if dt != l.dt || e != entity {
        assert e in ObservedAt(o, dt);
      }
    }
    forall dt
      ensures Distinct(ObservedAt(r, dt))
    {
      assert Distinct(ObservedAt(o, dt));
    }
  }

  lemma {:induction false} RecordSeriesKeepsCoherent(o: Observations, entity: string, ls: seq<Labelled>)
    requires Coherent(o)
    ensures Coherent(RecordSeries(o, entity, ls))
  {
    if |ls| > 0 {
      RecordSeriesKeepsCoherent(o, entity, ls[..|ls| - 1]);
      RecordKeepsCoherent(RecordSeries(o, entity, ls[..|ls| - 1]), entity, ls[|ls| - 1]);
    }
  }

  lemma {:induction false} RecordGroupsKeepsCoherent(o: Observations, src: Source, groups: seq<(string, seq<(int, real)>)>)
    requires Coherent(o)
    ensures Coherent(RecordGroups(o, src, groups))
  {
    if |groups| > 0 {
      var g := groups[|groups| - 1];
      RecordGroupsKeepsCoherent(o, src, groups[..|groups| - 1]);
      RecordSeriesKeepsCoherent(RecordGroups(o, src, groups[..|groups| - 1]), g.0, Labels(g.1, ParamsOf(src, g.0)));
    }
  }

  /** Sorting keeps the maps coherent and leaves every list in ascending order. */
  lemma SortHistsFacts(o: Observations)
    requires Coherent(o)
    ensures Coherent(SortHists(o))
    ensures forall k :: k in SortHists(o).ctxHist ==> SortedInts(SortHists(o).ctxHist[k])
  {
    var r := SortHists(o);
    assert r.observed == o.observed && r.context == o.context;
    forall dt
      ensures Distinct(ObservedAt(r, dt))
    {
      assert ObservedAt(r, dt) == ObservedAt(o, dt);
    }
    forall p | p in r.context
      ensures p.1 in HistAt(r, CtxKey(p.0, r.context[p]))
    {
      var k := CtxKey(p.0, o.context[p]);
      assert p.1 in HistAt(o, k);
      SortIntsMembers(o.ctxHist[k]);
    }
  }

  /** The observation section, from any coherent start, leaves coherent maps and sorted lists. */
  lemma ObservationsOfFacts(o: Observations, src: Source)
    requires Coherent(o)
    ensures Coherent(ObservationsOf(o, src))
    ensures forall k :: k in ObservationsOf(o, src).ctxHist ==> SortedInts(ObservationsOf(o, src).ctxHist[k])
  {
    RecordGroupsKeepsCoherent(o, src, Groups(src));
    SortHistsFacts(RecordGroups(o, src, Groups(src)));
  }

  /** A point of a series: some entry has that timestamp. */
  ghost predicate HasPointAt(series: seq<(int, real)>, dt: int)
  {
    exists k :: 0 <= k < |series| && series[k].0 == dt
  }

  /** The entity gets a context at exactly the timestamps of its labelled points. */
  lemma {:induction false} RecordSeriesContexts(o: Observations, entity: string, ls: seq<Labelled>, p: (string, int))
    ensures p in RecordSeries(o, entity, ls).context
            <==> p in o.context || (p.0 == entity && exists k :: 0 <= k < |ls| && ls[k].dt == p.1)
  {
    if |ls| > 0 {
      var init := ls[..|ls| - 1];
      RecordSeriesContexts(o, entity, init, p);
      if exists k :: 0 <= k < |init| && init[k].dt == p.1 {
        var k :| 0 <= k < |init| && init[k].dt == p.1;
        assert ls[k] == init[k];
      }
      if exists k :: 0 <= k < |ls| && ls[k].dt == p.1 {
        var k :| 0 <= k < |ls| && ls[k].dt == p.1;
        if k < |init| {
          assert init[k] == ls[k];
        }
      }
    }
  }

  /** Some group of the entity has a point at the timestamp. */
  ghost predicate GroupsHavePoint(groups: seq<(string, seq<(int, real)>)>, p: (string, int))
  {
    exists j :: 0 <= j < |groups| && groups[j].0 == p.0 && HasPointAt(groups[j].1, p.1)
  }

  lemma GroupsHavePointSnoc(groups: seq<(string, seq<(int, real)>)>, p: (string, int))
    requires |groups| > 0
    ensures GroupsHavePoint(groups, p)
            <==> GroupsHavePoint(groups[..|groups| - 1], p)
                 || (groups[|groups| - 1].0 == p.0 && HasPointAt(groups[|groups| - 1].1, p.1))
  {
    var init := groups[..|groups| - 1];
    if GroupsHavePoint(init, p) {
      var j :| 0 <= j < |init| && init[j].0 == p.0 && HasPointAt(init[j].1, p.1);
      assert groups[j] == init[j];
    }
    if GroupsHavePoint(groups, p) {
      var j :| 0 <= j < |groups| && groups[j].0 == p.0 && HasPointAt(groups[j].1, p.1);
      if j < |init| {
        assert init[j] == groups[j];
      }
    }
  }

  /** The labels of a series sit at the series' own timestamps. */
  lemma LabelsAtPoints(series: seq<(int, real)>, params: Params, dt: int)
    requires params.shortW >= 1 && params.longW >= 1
    ensures (exists k :: 0 <= k < |Labels(series, params)| && Labels(series, params)[k].dt == dt) <==> HasPointAt(series, dt)
  {
    var ls := Labels(series, params);
    if HasPointAt(series, dt) {
      var k :| 0 <= k < |series| && series[k].0 == dt;
      assert ls[k].dt == dt;
    }
  }

  /** Filing the groups gives a context to exactly the (entity, timestamp) pairs of their points. */
  lemma {:induction false} RecordGroupsContexts(o: Observations, src: Source, groups: seq<(string, seq<(int, real)>)>,
                                                 p: (string, int))
    ensures p in RecordGroups(o, src, groups).context <==> p in o.context || GroupsHavePoint(groups, p)
  {
    if |groups| > 0 {
      var init := groups[..|groups| - 1];
      var g := groups[|groups| - 1];
      var ls := Labels(g.1, ParamsOf(src, g.0));
      assert RecordGroups(o, src, groups) == RecordSeries(RecordGroups(o, src, init), g.0, ls);
      RecordGroupsContexts(o, src, init, p);
      RecordSeriesContexts(RecordGroups(o, src, init), g.0, ls, p);
      LabelsAtPoints(g.1, ParamsOf(src, g.0), p.1);
      GroupsHavePointSnoc(groups, p);
    }
  }

  /** Column i of the history has a point at dt exactly when some row at dt has a close in that column. */
  lemma {:induction false} ColumnSeriesPoints(rows: seq<HistoryRow>, i: int, dt: int)
    ensures HasPointAt(ColumnSeries(rows, i), dt) <==> exists r :: 0 <= r < |rows| && rows[r].dt == dt && CloseAt(rows[r], i).Some?
  {
    if |rows| > 0 {
      var init := rows[..|rows| - 1];
      var last := rows[|rows| - 1];
      var s0 := ColumnSeries(init, i);
      ColumnSeriesPoints(init, i, dt);
      if HasPointAt(s0, dt) {
        var k :| 0 <= k < |s0| && s0[k].0 == dt;
        assert ColumnSeries(rows, i)[k] == s0[k];
        var r :| 0 <= r < |init| && init[r].dt == dt && CloseAt(init[r], i).Some?;
        assert rows[r] == init[r];
      }
      if HasPointAt(ColumnSeries(rows, i), dt) && !HasPointAt(s0, dt) {
        assert last.dt == dt && CloseAt(last, i).Some?;
      }
      if exists r :: 0 <= r < |rows| && rows[r].dt == dt && CloseAt(rows[r], i).Some? {
        var r :| 0 <= r < |rows| && rows[r].dt == dt && CloseAt(rows[r], i).Some?;
        if r < |init| {
          assert init[r] == rows[r];
        } else {
          assert ColumnSeries(rows, i)[|s0|].0 == dt;
        }
      }
    }
  }

  /**
   * After the 31 build an instrument has a context at a timestamp exactly
   * when some history row at that timestamp has a close for it.
   */
  lemma MarketContextsAreCloses(rows: seq<HistoryRow>, i: int, dt: int)
    requires 0 <= i < |Instruments|
    ensures (Instruments[i], dt) in ObservationsOf(NoObservations, MarketRows(rows)).context
            <==> exists r :: 0 <= r < |rows| && rows[r].dt == dt && CloseAt(rows[r], i).Some?
  {
    var gs := Groups(MarketRows(rows));
    InstrumentsDistinct();
    RecordGroupsContexts(NoObservations, MarketRows(rows), gs, (Instruments[i], dt));
    ColumnSeriesPoints(rows, i, dt);
    assert gs[i] == (Instruments[i], ColumnSeries(rows, i));
    if GroupsHavePoint(gs, (Instruments[i], dt)) {
      var j :| 0 <= j < |gs| && gs[j].0 == Instruments[i] && HasPointAt(gs[j].1, dt);
      assert j == i;
    }
  }

  // ------------------------------------------------------------ the store

  /** The observations a preload leaves: coherent, with every history sorted. */
  function Preloaded(src: Option<Source>): Observations
  {
    if src.Some? then ObservationsOf(NoObservations, src.value) else NoObservations
  }

  lemma PreloadedValid(src: Option<Source>)
    ensures Coherent(Preloaded(src))
    ensures forall key :: key in Preloaded(src).ctxHist ==> SortedInts(Preloaded(src).ctxHist[key])
  {
    EmptyIsCoherent();
    if src.Some? {
      ObservationsOfFacts(NoObservations, src.value);
    }
  }

  /** One more group on the left of the filing loop's invariant. */
  lemma GroupsSnoc(o: Observations, s: map<string, seq<(int, real)>>, src: Source, gs: seq<(string, seq<(int, real)>)>, i: nat)
    requires i < |gs|
    ensures RecordGroups(o, src, gs[..i + 1])
            == RecordSeries(RecordGroups(o, src, gs[..i]), gs[i].0, Labels(gs[i].1, ParamsOf(src, gs[i].0)))
    ensures SeriesOf(s, gs[..i + 1]) == (if |gs[i].1| == 0 then SeriesOf(s, gs[..i]) else SeriesOf(s, gs[..i])[gs[i].0 := gs[i].1])
  {
    assert gs[..i + 1][..i] == gs[..i];
  }

  class MarketStore {
    var weightCodes: seq<string>
    var ctxIndex: map<CtxKey, int>
    var series: map<string, seq<(int, real)>>
    var context: map<(string, int), Context>
    var observed: map<int, seq<string>>
    var ctxHist: map<CtxKey, seq<int>>
    var tables: map<string, Candles.TableData>

    function Filed(): Observations
      reads this`context, this`observed, this`ctxHist
    {
      Observations(context, observed, ctxHist)
    }

    /** What a query reads. */
    function Snapshot(): MarketSnapshot
      reads this
    {
      MarketSnapshot(context, observed, ctxHist, ctxIndex, tables)
    }

    /** The shape every build leaves: coherent observation maps and sorted context histories. */
    ghost predicate Valid()
      reads this`context, this`observed, this`ctxHist
    {
      Coherent(Filed()) && forall key :: key in ctxHist ==> SortedInts(ctxHist[key])
    }

    constructor()
      ensures weightCodes == [] && ctxIndex == map[] && series == map[] && Filed() == NoObservations && tables == map[]
      ensures Valid()
    {
      weightCodes, ctxIndex, series := [], map[], map[];
      context, observed, ctxHist := map[], map[], map[];
      tables := map[];
    }

    /** The clear() calls at the start of a build. */
    method Clear()
      modifies this
      ensures weightCodes == [] && ctxIndex == map[] && series == map[] && Filed() == NoObservations && tables == map[]
    {
      weightCodes, ctxIndex, series := [], map[], map[];
      context, observed, ctxHist := map[], map[], map[];
      tables := map[];
    }

    method LoadWeightCodes(rows: Option<seq<string>>)
      modifies this`weightCodes
      ensures weightCodes == (if rows.Some? then rows.value else old(weightCodes))
    {
      if rows.Some? {
        weightCodes := rows.value;
      }
    }

    method LoadIndex(rows: Option<seq<Counts.IndexRow<CtxKey>>>)
      modifies this`ctxIndex
      ensures ctxIndex == (if rows.Some? then Counts.IndexOf(old(ctxIndex), rows.value) else old(ctxIndex))
    {
      if rows.Some? {
        var rs := rows.value;
        for i := 0 to |rs|
          invariant ctxIndex == Counts.IndexOf(old(ctxIndex), rs[..i])
        {
          assert rs[..i + 1][..i] == rs[..i];
          var r := rs[i];
          ctxIndex := ctxIndex[r.key := Counts.CountOf(r)];
        }
        assert rs[..|rs|] == rs;
      }
    }

    /** The classify-and-file loop over one series. */
    method FileSeries(entity: string, ls: seq<Labelled>)
      modifies this`context, this`observed, this`ctxHist
      ensures Filed() == RecordSeries(old(Filed()), entity, ls)
    {
      for i := 0 to |ls|
        invariant Filed() == RecordSeries(old(Filed()), entity, ls[..i])
      {
        assert ls[..i + 1][..i] == ls[..i];
        var l := ls[i];
        var at := if l.dt in observed then observed[l.dt] else [];
        var key := CtxKey(entity, l.ctx);
        context := context[(entity, l.dt) := l.ctx];
        if entity !in at {
          observed := observed[l.dt := at + [entity]];
        } else {
          observed := observed[l.dt := at];
        }
        ctxHist := ctxHist[key := (if key in ctxHist then ctxHist[key] else []) + [l.dt]];
      }
      assert ls[..|ls|] == ls;
    }

    /** One (entity, series) pair: the series kept when it is not empty, then its points classified and filed. */
    method FileGroup(src: Source, g: (string, seq<(int, real)>))
      modifies this`context, this`observed, this`ctxHist, this`series
      ensures Filed() == RecordSeries(old(Filed()), g.0, Labels(g.1, ParamsOf(src, g.0)))
      ensures series == (if |g.1| == 0 then old(series) else old(series)[g.0 := g.1])
    {
      if |g.1| == 0 {
        assert Labels(g.1, ParamsOf(src, g.0)) == [];
        return;
      }
      var p := ParamsOf(src, g.0);
      var ls := ClassifyMarketObservations(g.1, p.threshold, p.shortW, p.longW);
      assert ls == Labels(g.1, p);
      series := series[g.0 := g.1];
      FileSeries(g.0, ls);
    }

    /** The observation section: the series split or grouped, every group filed, the histories sorted. */
    method LoadObservations(src: Option<Source>)
      modifies this`context, this`observed, this`ctxHist, this`series
      ensures src.Some? ==> Filed() == ObservationsOf(old(Filed()), src.value)
                            && series == SeriesOf(old(series), Groups(src.value))
      ensures src.None? ==> Filed() == old(Filed()) && series == old(series)
    {
      if src.None? {
        return;
      }
      var gs := GroupsOf(src.value);
      FileGroups(src.value, gs);
      ctxHist := SortEach(ctxHist);
    }

    /** The loop over the groups. */
    method FileGroups(src: Source, gs: seq<(string, seq<(int, real)>)>)
      modifies this`context, this`observed, this`ctxHist, this`series
      ensures Filed() == RecordGroups(old(Filed()), src, gs) && series == SeriesOf(old(series), gs)
    {
      ghost var o0, s0 := Filed(), series;
      for i := 0 to |gs|
        invariant Filed() == RecordGroups(o0, src, gs[..i]) && series == SeriesOf(s0, gs[..i])
      {
        GroupsSnoc(o0, s0, src, gs, i);
        FileGroup(src, gs[i]);
      }
      assert gs[..|gs|] == gs;
    }

    /** The six tables, each reset and then loaded from its query's rows. */
    method LoadTables(rows: seq<Candles.TableQuery>)
      modifies this`tables
      ensures tables == Candles.TablesUpTo(old(tables), rows, Day, |Candles.LoadedTables|)
    {
      for i := 0 to |Candles.LoadedTables|
        invariant tables == Candles.TablesUpTo(old(tables), rows, Day, i)
      {
        LoadTable(Candles.LoadedTables[i], Candles.QueryAt(rows, i));
      }
    }

    /** One table: reset to empty, then loaded as far as its section gets. */
    method LoadTable(name: string, q: Candles.TableQuery)
      modifies this`tables
      ensures tables == old(tables)[name := Candles.TableOf(q, Day)]
    {
      tables := tables[name := Candles.EmptyTable];
      var t := Candles.LoadTable(q, Day);
      tables := tables[name := t];
    }

    /** preload_all_data: clear everything, then the sections in order. */
    method Preload(codes: Option<seq<string>>, index: Option<seq<Counts.IndexRow<CtxKey>>>, src: Option<Source>,
                   tableRows: seq<Candles.TableQuery>)
      modifies this
      ensures weightCodes == (if codes.Some? then codes.value else [])
      ensures ctxIndex == (if index.Some? then Counts.IndexOf(map[], index.value) else map[])
      ensures Filed() == Preloaded(src)
      ensures series == (if src.Some? then SeriesOf(map[], Groups(src.value)) else map[])
      ensures tables == Candles.TablesUpTo(map[], tableRows, Day, |Candles.LoadedTables|)
      ensures Valid()
    {
      Clear();
      LoadWeightCodes(codes);
      LoadIndex(index);
      LoadObservations(src);
      PreloadedValid(src);
      LoadTables(tableRows);
    }
  }

  /** The groups as the section builds them: the column split or the currency grouping. */
  method GroupsOf(src: Source) returns (gs: seq<(string, seq<(int, real)>)>)
    ensures gs == Groups(src)
  {
    match src
    case MarketRows(rows) =>
      var bySeries := SplitColumns(rows);
      gs := seq(|Instruments|, i requires 0 <= i < |Instruments| => (Instruments[i], bySeries[Instruments[i]]));
    case EcbRates(rates) =>
      var order, bySeries := GroupByCurrency(rates);
      gs := seq(|order|, i requires 0 <= i < |order| => (order[i], bySeries[order[i]]));
  }
}
