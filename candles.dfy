/**
 * The quote tables the services read (brain_rates_*): their names, the
 * per-instrument modification factor, and the in-memory data built from
 * one table's rows: t1 by date, the candle list with its bull flag, the
 * candle ranges and their mean, and the sets of local maxima and minima.
 * Timestamps are whole seconds; the extremum queries compare dates one
 * unit apart, an hour or a day.
 */
module Candles {
  import opened Wrappers
  import opened Sorting

  // ------------------------------------------------------- table names

  const EurUsd: string := "brain_rates_eur_usd"
  const BtcUsd: string := "brain_rates_btc_usd"
  const EthUsd: string := "brain_rates_eth_usd"

  /** The base table of a pair: 1, 3 and 4 are known, any other pair reads EUR/USD. */
  function PairTable(pair: int): (t: string)
    ensures t == EurUsd || t == BtcUsd || t == EthUsd
    ensures t == BtcUsd <==> pair == 3
    ensures t == EthUsd <==> pair == 4
  {
    if pair == 3 then BtcUsd else if pair == 4 then EthUsd else EurUsd
  }

  /** get_rates_table_name: the base table, with "_day" for the daily flag 1. */
  function RatesTableName(pair: int, day: int): (name: string)
  {
    PairTable(pair) + (if day == 1 then "_day" else "")
  }

  /** The six tables every loader reads. */
  const LoadedTables: seq<string> := [EurUsd, EurUsd + "_day", BtcUsd, BtcUsd + "_day", EthUsd, EthUsd + "_day"]

  /** Every pair and flag names one of the loaded tables; a flag other than 1 reads the hourly table. */
  lemma RatesTableIsLoaded(pair: int, day: int)
    ensures RatesTableName(pair, day) in LoadedTables
    ensures day != 1 ==> RatesTableName(pair, day) == PairTable(pair)
    ensures RatesTableName(pair, day) == RatesTableName(if pair == 3 || pair == 4 then pair else 1, if day == 1 then 1 else 0)
  {
  }

  /** get_modification_factor. */
  function ModificationFactor(pair: int): (m: real)
    ensures m > 0.0
    ensures pair != 1 && pair != 3 && pair != 4 ==> m == 1.0
  {
    if pair == 1 then 0.001 else if pair == 3 then 1000.0 else if pair == 4 then 100.0 else 1.0
  }

  // ------------------------------------------------------------ candles

  /** A candle as the services keep it: its date and whether it closed above its open. */
  datatype Candle = Candle(date: int, isBull: bool)

  predicate SortedDates(c: seq<Candle>)
  {
    forall i, j :: 0 <= i < j < |c| ==> c[i].date <= c[j].date
  }

  /** Python's order on booleans: False < True. */
  predicate BoolLess(a: bool, b: bool) { !a && b }

  /** Python's order on (date, is_bull) tuples: candle c comes before (target, False). */
  predicate Before(c: Candle, target: int)
  {
    c.date < target || (c.date == target && BoolLess(c.isBull, false))
  }

  /** No tuple (target, b) is below (target, False): the comparison is by date alone. */
  lemma BeforeMeansEarlier(c: Candle, target: int)
    ensures Before(c, target) <==> c.date < target
  {
  }

  /** The last candle sorting before (target, False), none when no candle does. */
  function PrevCandle(c: seq<Candle>, target: int): (r: Option<Candle>)
    ensures r.Some? ==> r.value in c
  {
    if |c| == 0 then None
    else
      var idx := Bisect(c, d => Before(d, target));
      if idx > 0 then Some(c[idx - 1]) else None
  }

  /**
   * find_prev_candle_trend on date-sorted candles: the last candle dated
   * strictly before the target, none exactly when no candle is.
   */
  lemma PrevCandleMeaning(c: seq<Candle>, target: int)
    requires SortedDates(c)
    ensures PrevCandle(c, target).None? <==> forall k :: 0 <= k < |c| ==> c[k].date >= target
    ensures PrevCandle(c, target).Some? ==> PrevCandle(c, target).value.date < target
    ensures PrevCandle(c, target).Some? ==> forall k :: 0 <= k < |c| && c[k].date < target ==> c[k].date <= PrevCandle(c, target).value.date
  {
    var below := (d: Candle) => Before(d, target);
    assert Partitioned(c, below);
    BisectSplits(c, below);
  }

  // ------------------------------------------------------------ table rows

  /** One row of a quote table; every column but the date may be NULL. */
  datatype RateRow = RateRow(date: int, open: Option<real>, close: Option<real>, max: Option<real>, min: Option<real>, t1: Option<real>)

  /** The row pass compares close with open, which raises TypeError when either is NULL. */
  predicate Priced(r: RateRow)
  {
    r.open.Some? && r.close.Some?
  }

  predicate AllPriced(rows: seq<RateRow>)
  {
    forall i :: 0 <= i < |rows| ==> Priced(rows[i])
  }

  /** close > open. */
  function Bull(r: RateRow): bool
    requires Priced(r)
  {
    r.close.value > r.open.value
  }

  /** How far the row pass gets: the position of the first row without an open or a close, or every row. */
  function PricedPrefix(rows: seq<RateRow>): (k: nat)
    ensures k <= |rows|
    ensures forall i :: 0 <= i < k ==> Priced(rows[i])
    ensures k < |rows| ==> !Priced(rows[k])
  {
    if |rows| == 0 || !Priced(rows[0]) then 0
    else
      assert forall i :: 1 <= i < |rows| ==> rows[i] == rows[1..][i - 1];
      1 + PricedPrefix(rows[1..])
  }

  /** The rows whose t1 the row pass files: it files a row's t1 before it compares the row's prices. */
  function RatedRows(rows: seq<RateRow>): (n: nat)
    ensures n <= |rows|
  {
    if PricedPrefix(rows) < |rows| then PricedPrefix(rows) + 1 else |rows|
  }

  function DateKey(r: RateRow): real { r.date as real }

  /** The rows as the loaders walk them: sorted by date. */
  function ByDate(rows: seq<RateRow>): (s: seq<RateRow>)
    ensures SortedBy(s, DateKey) && multiset(s) == multiset(rows) && |s| == |rows|
    ensures AllPriced(s) <==> AllPriced(rows)
  {
    var s := SortBy(rows, DateKey);
    assert forall i :: 0 <= i < |s| ==> s[i] in multiset(rows) by {
      forall i | 0 <= i < |s| ensures s[i] in multiset(rows) { assert s[i] in multiset(s); }
    }
    assert forall i :: 0 <= i < |rows| ==> rows[i] in multiset(s) by {
      forall i | 0 <= i < |rows| ensures rows[i] in multiset(s) { assert rows[i] in multiset(rows); }
    }
    s
  }

  /** float(max or 0) - float(min or 0). */
  function Range(r: RateRow): real
  {
    (if r.max.Some? then r.max.value else 0.0) - (if r.min.Some? then r.min.value else 0.0)
  }

  /** The t1 of every date that has one; a later row of the same date wins. */
  function RatesOf(rows: seq<RateRow>): map<int, real>
  {
    if |rows| == 0 then map[]
    else
      var m := RatesOf(rows[..|rows| - 1]);
      var r := rows[|rows| - 1];
      if r.t1.Some? then m[r.date := r.t1.value] else m
  }

  function RangesOf(rows: seq<RateRow>): map<int, real>
  {
    if |rows| == 0 then map[] else RangesOf(rows[..|rows| - 1])[rows[|rows| - 1].date := Range(rows[|rows| - 1])]
  }

  function CandlesOf(rows: seq<RateRow>): (c: seq<Candle>)
    requires AllPriced(rows)
    ensures |c| == |rows|
    ensures forall i :: 0 <= i < |rows| ==> c[i] == Candle(rows[i].date, Bull(rows[i]))
  {
    seq(|rows|, i requires 0 <= i < |rows| => Candle(rows[i].date, Bull(rows[i])))
  }

  /** The t1 rates the row pass files before it ends or raises. */
  function PassRates(sorted: seq<RateRow>): map<int, real>
  {
    RatesOf(sorted[..RatedRows(sorted)])
  }

  /** The candles the row pass appends before it ends or raises. */
  function PassCandles(sorted: seq<RateRow>): seq<Candle>
  {
    var k := PricedPrefix(sorted);
    assert forall i :: 0 <= i < k ==> sorted[..k][i] == sorted[i];
    CandlesOf(sorted[..k])
  }

  /** The ranges the row pass files before it ends or raises. */
  function PassRanges(sorted: seq<RateRow>): map<int, real>
  {
    RangesOf(sorted[..PricedPrefix(sorted)])
  }

  function SumRanges(rows: seq<RateRow>): real
  {
    if |rows| == 0 then 0.0 else SumRanges(rows[..|rows| - 1]) + Range(rows[|rows| - 1])
  }

  /** sum(ranges) / len(ranges), or 0.0 for an empty table. */
  function AvgRange(rows: seq<RateRow>): real
  {
    if |rows| == 0 then 0.0 else SumRanges(rows) / (|rows| as real)
  }

  /** A date has t1 exactly when some row of that date has one, and then it is the last such row's. */
  lemma {:induction false} RatesOfMeaning(rows: seq<RateRow>, d: int)
    ensures d in RatesOf(rows) <==> exists i :: 0 <= i < |rows| && rows[i].date == d && rows[i].t1.Some?
    ensures d in RatesOf(rows) ==> exists i :: 0 <= i < |rows| && rows[i].date == d && rows[i].t1 == Some(RatesOf(rows)[d])
  {
    if |rows| > 0 {
      var init := rows[..|rows| - 1];
      RatesOfMeaning(init, d);
      if d in RatesOf(init) {
        var i :| 0 <= i < |init| && init[i].date == d && init[i].t1 == Some(RatesOf(init)[d]);
        assert rows[i] == init[i];
      }
      if exists i :: 0 <= i < |rows| && rows[i].date == d && rows[i].t1.Some? {
        var i :| 0 <= i < |rows| && rows[i].date == d && rows[i].t1.Some?;
        if i < |init| {
          assert init[i] == rows[i];
        }
      }
    }
  }

  /** Every date of the table has a range, and only those. */
  lemma {:induction false} RangesOfDomain(rows: seq<RateRow>, d: int)
    ensures d in RangesOf(rows) <==> exists i :: 0 <= i < |rows| && rows[i].date == d
  {
    if |rows| > 0 {
      var init := rows[..|rows| - 1];
      RangesOfDomain(init, d);
      if d in RangesOf(init) {
        var i :| 0 <= i < |init| && init[i].date == d;
        assert rows[i] == init[i];
      }
      if exists i :: 0 <= i < |rows| && rows[i].date == d {
        var i :| 0 <= i < |rows| && rows[i].date == d;
        if i < |init| {
          assert init[i] == rows[i];
        }
      }
    }
  }

  lemma {:induction false} SumRangesBounds(rows: seq<RateRow>, lo: real, hi: real)
    requires forall i :: 0 <= i < |rows| ==> lo <= Range(rows[i]) <= hi
    ensures lo * (|rows| as real) <= SumRanges(rows) <= hi * (|rows| as real)
  {
    if |rows| > 0 {
      SumRangesBounds(rows[..|rows| - 1], lo, hi);
    }
  }

  /** The average range lies between the smallest and the largest range; it is 0.0 for an empty table. */
  lemma AvgRangeBounds(rows: seq<RateRow>, lo: real, hi: real)
    requires forall i :: 0 <= i < |rows| ==> lo <= Range(rows[i]) <= hi
    ensures |rows| == 0 ==> AvgRange(rows) == 0.0
    ensures |rows| > 0 ==> lo <= AvgRange(rows) <= hi
  {
    if |rows| > 0 {
      SumRangesBounds(rows, lo, hi);
      var n := |rows| as real;
      assert (SumRanges(rows) / n) * n == SumRanges(rows);
    }
  }

  // ------------------------------------------------------------ extrema

  /** The SQL comparison `t1.col > other.col` (`<` for minima); false when either side is NULL. */
  predicate Exceeds(a: Option<real>, b: Option<real>, isMax: bool)
  {
    a.Some? && b.Some? && (if isMax then a.value > b.value else a.value < b.value)
  }

  function Column(r: RateRow, isMax: bool): Option<real>
  {
    if isMax then r.max else r.min
  }

  /** Row i beats some row dated d in the compared column. */
  predicate Beats(rows: seq<RateRow>, i: int, d: int, isMax: bool)
    requires 0 <= i < |rows|
  {
    exists j :: 0 <= j < |rows| && rows[j].date == d && Exceeds(Column(rows[i], isMax), Column(rows[j], isMax), isMax)
  }

  /**
   * The self-join that finds local extrema: the dates of rows that beat a
   * row dated exactly one unit before and a row dated exactly one unit
   * after (a larger maximum, or a smaller minimum).
   */
  function ExtremumSet(rows: seq<RateRow>, unit: int, isMax: bool): set<int>
  {
    set i | 0 <= i < |rows| && Beats(rows, i, rows[i].date - unit, isMax) && Beats(rows, i, rows[i].date + unit, isMax)
      :: rows[i].date
  }

  predicate UniqueDates(rows: seq<RateRow>)
  {
    forall i, j :: 0 <= i < |rows| && 0 <= j < |rows| && rows[i].date == rows[j].date ==> i == j
  }

  /** With one row per date, two dates one unit apart are never both strict local maxima (or minima). */
  lemma NoAdjacentExtrema(rows: seq<RateRow>, unit: int, isMax: bool, d: int)
    requires UniqueDates(rows) && unit > 0
    requires d in ExtremumSet(rows, unit, isMax)
    ensures d + unit !in ExtremumSet(rows, unit, isMax)
  {
    var i :| 0 <= i < |rows| && rows[i].date == d && Beats(rows, i, d + unit, isMax);
    var j :| 0 <= j < |rows| && rows[j].date == d + unit && Exceeds(Column(rows[i], isMax), Column(rows[j], isMax), isMax);
    forall i2 | 0 <= i2 < |rows| && rows[i2].date == d + unit
      ensures !Beats(rows, i2, d, isMax)
    {
      assert i2 == j;
    }
  }

  /** A local extremum is the date of a row that beats rows dated one unit before and after it. */
  lemma ExtremumHasNeighbours(rows: seq<RateRow>, unit: int, isMax: bool, d: int)
    requires d in ExtremumSet(rows, unit, isMax)
    ensures exists i :: 0 <= i < |rows| && rows[i].date == d
    ensures exists j :: 0 <= j < |rows| && rows[j].date == d - unit
    ensures exists k :: 0 <= k < |rows| && rows[k].date == d + unit
  {
    var i :| 0 <= i < |rows| && rows[i].date == d && Beats(rows, i, d - unit, isMax) && Beats(rows, i, d + unit, isMax);
  }

  // ------------------------------------------------------------ the loaded table

  /** What a loader keeps of one quote table. */
  datatype TableData = TableData(rates: map<int, real>, candles: seq<Candle>, ranges: map<int, real>,
                                 avgRange: real, maxSet: set<int>, minSet: set<int>)

  /** The state every section is reset to before it is loaded. */
  const EmptyTable: TableData := TableData(map[], [], map[], 0.0, {}, {})

  /**
   * What the queries of one table section gave: the rows of the rates
   * query, None when it raised, and whether the minima query and the
   * maxima query raised. The minima query runs first, so when it raises
   * the maxima query never runs.
   */
  datatype TableQuery = TableQuery(rows: Option<seq<RateRow>>, minimaRaise: bool, maximaRaise: bool)

  /** A section whose three queries all answered. */
  function Answered(rows: seq<RateRow>): TableQuery
  {
    TableQuery(Some(rows), false, false)
  }

  /** The minima once the row pass is through: none when their query raised. */
  function Minima(q: TableQuery, unit: int): set<int>
    requires q.rows.Some?
  {
    if q.minimaRaise then {} else ExtremumSet(q.rows.value, unit, false)
  }

  /** The maxima: none when their query, or the minima query before it, raised. */
  function Maxima(q: TableQuery, unit: int): set<int>
    requires q.rows.Some?
  {
    if q.minimaRaise || q.maximaRaise then {} else ExtremumSet(q.rows.value, unit, true)
  }

  /** The candles of a date-sorted row pass are in date order. */
  lemma PassSorted(sorted: seq<RateRow>)
    requires SortedBy(sorted, DateKey)
    ensures SortedDates(PassCandles(sorted))
  {
    var c := PassCandles(sorted);
    forall i, j | 0 <= i < j < |c| ensures c[i].date <= c[j].date {
      assert DateKey(sorted[i]) <= DateKey(sorted[j]);
    }
  }

  /**
   * One table of a build that resets the whole table and catches what the
   * section raises (31, 30; 27 when every query answers): empty when the
   * rates query raised; when the row pass raised, what it had filed by
   * then, with no mean and no extrema; otherwise the row pass, the mean,
   * and the extremum sets whose queries answered.
   */
  function TableOf(q: TableQuery, unit: int): (t: TableData)
    ensures SortedDates(t.candles)
  {
    if q.rows.None? then EmptyTable
    else
      var sorted := ByDate(q.rows.value);
      PassSorted(sorted);
      if PricedPrefix(sorted) < |sorted| then
        TableData(PassRates(sorted), PassCandles(sorted), PassRanges(sorted), 0.0, {}, {})
      else
        TableData(PassRates(sorted), PassCandles(sorted), PassRanges(sorted), AvgRange(sorted), Maxima(q, unit), Minima(q, unit))
  }

  /**
   * The outcomes of a section: reset when the rates query raised; every
   * row a candle, the mean taken and each answered extremum query's set
   * when every row has its prices; fewer candles than rows, no mean and
   * no extrema when some row lacks one; a raise of the minima query
   * leaves both sets empty, one of the maxima query only the maxima.
   */
  lemma TableOutcomes(q: TableQuery, unit: int)
    ensures q.rows.None? ==> TableOf(q, unit) == EmptyTable
    ensures q.rows.Some? && AllPriced(q.rows.value) ==>
      && |TableOf(q, unit).candles| == |q.rows.value|
      && TableOf(q, unit).avgRange == AvgRange(ByDate(q.rows.value))
      && TableOf(q, unit).minSet == (if q.minimaRaise then {} else ExtremumSet(q.rows.value, unit, false))
      && TableOf(q, unit).maxSet == (if q.minimaRaise || q.maximaRaise then {} else ExtremumSet(q.rows.value, unit, true))
    ensures q.rows.Some? && !AllPriced(q.rows.value) ==>
      && |TableOf(q, unit).candles| < |q.rows.value|
      && TableOf(q, unit).avgRange == 0.0 && TableOf(q, unit).maxSet == {} && TableOf(q, unit).minSet == {}
  {
    if q.rows.Some? {
      var sorted := ByDate(q.rows.value);
      assert AllPriced(sorted) <==> PricedPrefix(sorted) == |sorted|;
    }
  }

  /**
   * The row pass over rows sorted by date: t1 filed by date, a candle and
   * a range per row, and their mean. It raises at the first row without
   * an open or a close, once that row's t1 is filed; `passed` says whether
   * it got through every row.
   */
  method LoadRows(sorted: seq<RateRow>) returns (rates: map<int, real>, candles: seq<Candle>, ranges: map<int, real>,
                                                 avgRange: real, passed: bool)
    ensures passed <==> AllPriced(sorted)
    ensures rates == PassRates(sorted) && candles == PassCandles(sorted) && ranges == PassRanges(sorted)
    ensures avgRange == (if passed then AvgRange(sorted) else 0.0)
  {
    rates, candles, ranges, avgRange, passed := map[], [], map[], 0.0, true;
    ghost var k := PricedPrefix(sorted);
    var total := 0.0;
    var i := 0;
    while i < |sorted|
      invariant i <= k
      invariant rates == RatesOf(sorted[..i]) && ranges == RangesOf(sorted[..i])
      invariant AllPriced(sorted[..i]) && candles == CandlesOf(sorted[..i]) && total == SumRanges(sorted[..i])
    {
      var r := sorted[i];
      assert sorted[..i + 1][..i] == sorted[..i];
      if r.t1.Some? {
        rates := rates[r.date := r.t1.value];
      }
      if !Priced(r) {
        passed := false;
        break;
      }
      candles := candles + [Candle(r.date, Bull(r))];
      var rng := Range(r);
      ranges := ranges[r.date := rng];
      total := total + rng;
      i := i + 1;
    }
    if passed {
      assert sorted[..|sorted|] == sorted;
      avgRange := if |sorted| > 0 then total / (|sorted| as real) else 0.0;
    }
  }

  /** One table section: the rates query, the row pass, then the minima and the maxima queries, until one raises. */
  method LoadTable(q: TableQuery, unit: int) returns (t: TableData)
    ensures t == TableOf(q, unit)
  {
    t := EmptyTable;
    if q.rows.None? {
      return;
    }
    var sorted := ByDate(q.rows.value);
    var rates, candles, ranges, avgRange, passed := LoadRows(sorted);
    t := TableData(rates, candles, ranges, 0.0, {}, {});
    if !passed {
      return;
    }
    t := t.(avgRange := avgRange);
    if q.minimaRaise {
      return;
    }
    t := t.(minSet := ExtremumSet(q.rows.value, unit, false));
    if q.maximaRaise {
      return;
    }
    t := t.(maxSet := ExtremumSet(q.rows.value, unit, true));
  }

  /** The extremum queries of a table whose row pass got through: minima, then maxima. */
  method QueryExtrema(q: TableQuery, unit: int) returns (minSet: set<int>, maxSet: set<int>)
    requires q.rows.Some?
    ensures minSet == Minima(q, unit) && maxSet == Maxima(q, unit)
  {
    minSet, maxSet := {}, {};
    if q.minimaRaise {
      return;
    }
    minSet := ExtremumSet(q.rows.value, unit, false);
    if q.maximaRaise {
      return;
    }
    maxSet := ExtremumSet(q.rows.value, unit, true);
  }

  /** The query of the i-th table; a missing one reads as a raised rates query. */
  function QueryAt(qs: seq<TableQuery>, i: int): TableQuery
  {
    if 0 <= i < |qs| then qs[i] else TableQuery(None, false, false)
  }

  /** The first n of LoadedTables, the i-th from the i-th section's queries. */
  function TablesUpTo(tables: map<string, TableData>, qs: seq<TableQuery>, unit: int, n: int): map<string, TableData>
    requires 0 <= n <= |LoadedTables|
  {
    if n == 0 then tables
    else TablesUpTo(tables, qs, unit, n - 1)[LoadedTables[n - 1] := TableOf(QueryAt(qs, n - 1), unit)]
  }

  lemma {:induction false} TablesUpToHolds(tables: map<string, TableData>, qs: seq<TableQuery>, unit: int, n: int)
    requires 0 <= n <= |LoadedTables|
    ensures forall i :: 0 <= i < n ==> LoadedTables[i] in TablesUpTo(tables, qs, unit, n)
  {
    if n > 0 {
      TablesUpToHolds(tables, qs, unit, n - 1);
      StillNamed(TablesUpTo(tables, qs, unit, n - 1), LoadedTables, n, TableOf(QueryAt(qs, n - 1), unit));
    }
  }

  /** Writing the n-th name keeps the first n - 1 present. */
  lemma StillNamed<V>(m: map<string, V>, names: seq<string>, n: int, v: V)
    requires 0 < n <= |names|
    requires forall i :: 0 <= i < n - 1 ==> names[i] in m
    ensures forall i :: 0 <= i < n ==> names[i] in m[names[n - 1] := v]
  {
  }

  /** After the table section every table a query can name is present. */
  lemma RequestedTableLoaded(tables: map<string, TableData>, qs: seq<TableQuery>, unit: int, pair: int, day: int)
    ensures RatesTableName(pair, day) in TablesUpTo(tables, qs, unit, |LoadedTables|)
  {
    RatesTableIsLoaded(pair, day);
    TablesUpToHolds(tables, qs, unit, |LoadedTables|);
  }

  // ------------------------------------------------------------ candle sizes

  /** A price as the size pass reads it: `float(p) if p else 0`, so NULL (and zero) reads as 0. */
  function PriceOr0(p: Option<real>): real
  {
    if p.Some? then p.value else 0.0
  }

  /** abs(c - o) of those readings. */
  function Size(r: RateRow): (sz: real)
    ensures sz >= 0.0
    ensures sz == PriceOr0(r.close) - PriceOr0(r.open) || sz == PriceOr0(r.open) - PriceOr0(r.close)
  {
    var o, c := PriceOr0(r.open), PriceOr0(r.close);
    if c >= o then c - o else o - c
  }

  function SizesOf(rows: seq<RateRow>): map<int, real>
  {
    if |rows| == 0 then map[] else SizesOf(rows[..|rows| - 1])[rows[|rows| - 1].date := Size(rows[|rows| - 1])]
  }

  function SizeList(rows: seq<RateRow>): (l: seq<real>)
    ensures |l| == |rows|
    ensures forall i :: 0 <= i < |rows| ==> l[i] == Size(rows[i])
  {
    seq(|rows|, i requires 0 <= i < |rows| => Size(rows[i]))
  }

  /** The percentiles the size filter knows. */
  const Percentiles: set<int> := {25, 50, 75, 90}

  /** min(int(n * pct / 100), n - 1). */
  function PercentileIndex(n: int, pct: int): (idx: int)
    requires n > 0 && 0 <= pct
    ensures 0 <= idx < n
  {
    var q := n * pct / 100;
    if q < n - 1 then q else n - 1
  }

  function Identity(x: real): real { x }

  /** The size thresholds of one table: none for an empty table, else the sorted sizes at the four indices. */
  function Thresholds(sizes: seq<real>): (th: map<int, real>)
    ensures |sizes| == 0 ==> th == map[]
    ensures |sizes| > 0 ==> th.Keys == Percentiles
  {
    if |sizes| == 0 then map[]
    else
      var sorted := SortBy(sizes, Identity);
      map pct | pct in Percentiles :: sorted[PercentileIndex(|sizes|, pct)]
  }

  lemma {:induction false} IndexMonotone(n: int, p: int, q: int)
    requires n > 0 && 0 <= p <= q
    ensures PercentileIndex(n, p) <= PercentileIndex(n, q)
  {
    assert n * p <= n * q;
  }

  /** A threshold is the sorted size at its percentile's index. */
  lemma ThresholdAt(sizes: seq<real>, pct: int)
    requires pct in Thresholds(sizes)
    ensures |sizes| > 0 && pct in Percentiles
    ensures Thresholds(sizes)[pct] == SortBy(sizes, Identity)[PercentileIndex(|sizes|, pct)]
  {
  }

  /** Each threshold is one of the sizes. */
  lemma ThresholdIsASize(sizes: seq<real>, pct: int)
    requires pct in Thresholds(sizes)
    ensures Thresholds(sizes)[pct] in multiset(sizes)
  {
    ThresholdAt(sizes, pct);
    SortedElementIn(sizes, PercentileIndex(|sizes|, pct));
  }

  lemma SortedElementIn(sizes: seq<real>, i: int)
    requires 0 <= i < |sizes|
    ensures SortBy(sizes, Identity)[i] in multiset(sizes)
  {
    var sorted := SortBy(sizes, Identity);
    assert sorted[i] in multiset(sorted);
  }

  /** A higher percentile never has a lower threshold. */
  lemma ThresholdMonotone(sizes: seq<real>, pct: int, pct2: int)
    requires pct in Thresholds(sizes) && pct2 in Thresholds(sizes) && pct <= pct2
    ensures Thresholds(sizes)[pct] <= Thresholds(sizes)[pct2]
  {
    var sorted := SortBy(sizes, Identity);
    var i := PercentileIndex(|sizes|, pct);
    var j := PercentileIndex(|sizes|, pct2);
    IndexMonotone(|sizes|, pct, pct2);
    ThresholdAt(sizes, pct);
    ThresholdAt(sizes, pct2);
    if i < j {
      assert Identity(sorted[i]) <= Identity(sorted[j]);
    }
  }

  /** Thresholds of a table's candle sizes are never negative. */
  lemma ThresholdNonNegative(rows: seq<RateRow>, pct: int)
    requires pct in Thresholds(SizeList(rows))
    ensures Thresholds(SizeList(rows))[pct] >= 0.0
  {
    var sizes := SizeList(rows);
    ThresholdIsASize(sizes, pct);
    var th := Thresholds(sizes)[pct];
    assert th in sizes;
    var i :| 0 <= i < |sizes| && sizes[i] == th;
  }

  /** The sizes map and the list of sizes, built by one pass over the date-sorted rows. */
  method LoadSizes(sorted: seq<RateRow>) returns (sizes: map<int, real>, list: seq<real>)
    ensures sizes == SizesOf(sorted) && list == SizeList(sorted)
  {
    sizes, list := map[], [];
    for i := 0 to |sorted|
      invariant sizes == SizesOf(sorted[..i]) && list == SizeList(sorted[..i])
    {
      assert sorted[..i + 1][..i] == sorted[..i];
      var sz := Size(sorted[i]);
      sizes := sizes[sorted[i].date := sz];
      list := list + [sz];
    }
    assert sorted[..|sorted|] == sorted;
  }
}
