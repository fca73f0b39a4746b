/**
 * The two weight components the 27, 30 and 31 services compute over the
 * dates a context's history maps to (t_dates): the T1 sum and the
 * extremum value, each in five calculation variants.
 *
 *   calc_var 0  plain T1 sum; extremum over every date
 *   calc_var 1  only candles whose range exceeds the table's average range
 *   calc_var 2  signed squares t1 * |t1|; extremum over every date
 *   calc_var 3  signed squares, range filter
 *   calc_var 4  range excess (range - average) instead of T1, range filter
 */
module Components {
  import opened Wrappers
  import opened Results
  import Candles

  datatype Variant = Variant(needFilter: bool, useSquare: bool, useRange: bool)

  function VariantOf(calcVar: int): (v: Variant)
    ensures v.useRange ==> v.needFilter
    ensures calcVar == 0 ==> !v.needFilter && !v.useSquare && !v.useRange
  {
    Variant(calcVar == 1 || calcVar == 3 || calcVar == 4, calcVar == 2 || calcVar == 3, calcVar == 4)
  }

  function Abs(x: real): (a: real)
    ensures a >= 0.0 && (a == x || a == -x)
  {
    if x >= 0.0 then x else -x
  }

  /** t1 * abs(t1): the square, keeping the sign. */
  function SignedSquare(x: real): real
  {
    x * Abs(x)
  }

  /** A date passes the range filter: always when the variant does not filter. */
  predicate Kept(v: Variant, ranges: map<int, real>, avg: real, d: int)
  {
    !v.needFilter || GetOr(ranges, d) > avg
  }

  /** What one kept date adds to the T1 component. */
  function Term(v: Variant, rates: map<int, real>, ranges: map<int, real>, avg: real, d: int): real
  {
    if v.useRange then GetOr(ranges, d) - avg
    else
      var t1 := GetOr(rates, d);
      if v.useSquare then SignedSquare(t1) else t1
  }

  /** The T1 component: the terms of the kept dates, summed. */
  function T1Total(tDates: seq<int>, v: Variant, rates: map<int, real>, ranges: map<int, real>, avg: real): real
  {
    if |tDates| == 0 then 0.0
    else
      var d := tDates[|tDates| - 1];
      T1Total(tDates[..|tDates| - 1], v, rates, ranges, avg) + (if Kept(v, ranges, avg, d) then Term(v, rates, ranges, avg, d) else 0.0)
  }

  /** compute_t1_value. */
  method ComputeT1Value(tDates: seq<int>, calcVar: int, rates: map<int, real>, ranges: map<int, real>, avg: real)
    returns (total: real)
    ensures total == T1Total(tDates, VariantOf(calcVar), rates, ranges, avg)
  {
    var v := VariantOf(calcVar);
    total := 0.0;
    for i := 0 to |tDates|
      invariant total == T1Total(tDates[..i], v, rates, ranges, avg)
    {
      var d := tDates[i];
      assert tDates[..i + 1][..i] == tDates[..i];
      assert T1Total(tDates[..i + 1], v, rates, ranges, avg)
          == total + (if Kept(v, ranges, avg, d) then Term(v, rates, ranges, avg, d) else 0.0);
      var rng := GetOr(ranges, d);
      if v.needFilter && rng <= avg {
        continue;
      }
      if v.useRange {
        total := total + (rng - avg);
      } else {
        var t1 := GetOr(rates, d);
        total := total + (if v.useSquare then SignedSquare(t1) else t1);
      }
    }
    assert tDates[..|tDates|] == tDates;
  }

  /** The dates the extremum component looks at: the kept ones, in order. */
  function Pool(tDates: seq<int>, v: Variant, ranges: map<int, real>, avg: real): (p: seq<int>)
    ensures |p| <= |tDates|
    ensures forall d :: d in p <==> d in tDates && Kept(v, ranges, avg, d)
  {
    if |tDates| == 0 then []
    else
      var d := tDates[|tDates| - 1];
      var init := Pool(tDates[..|tDates| - 1], v, ranges, avg);
      assert forall e :: e in tDates <==> e in tDates[..|tDates| - 1] || e == d;
      if Kept(v, ranges, avg, d) then init + [d] else init
  }

  /** Without the filter the pool is every date. */
  lemma {:induction false} PoolUnfiltered(tDates: seq<int>, v: Variant, ranges: map<int, real>, avg: real)
    requires !v.needFilter
    ensures Pool(tDates, v, ranges, avg) == tDates
  {
    if |tDates| > 0 {
      PoolUnfiltered(tDates[..|tDates| - 1], v, ranges, avg);
      assert tDates == tDates[..|tDates| - 1] + [tDates[|tDates| - 1]];
    }
  }

  /** How many pool dates are in the extremum set. */
  function Matches(pool: seq<int>, ext: set<int>): (n: nat)
    ensures n <= |pool|
    ensures n == 0 <==> forall d :: d in pool ==> d !in ext
  {
    if |pool| == 0 then 0
    else
      var d := pool[|pool| - 1];
      assert forall e :: e in pool <==> e in pool[..|pool| - 1] || e == d;
      Matches(pool[..|pool| - 1], ext) + (if d in ext then 1 else 0)
  }

  /** Range excess of the pool dates that are extrema (calc_var 4). */
  function ExcessSum(pool: seq<int>, ext: set<int>, ranges: map<int, real>, avg: real): real
  {
    if |pool| == 0 then 0.0
    else
      var d := pool[|pool| - 1];
      ExcessSum(pool[..|pool| - 1], ext, ranges, avg) + (if d in ext then GetOr(ranges, d) - avg else 0.0)
  }

  /** (matches / total) * 2 - 1, scaled by the instrument's modification factor. */
  function Ratio(matches: nat, totalHist: nat, modification: real): real
    requires totalHist > 0
  {
    ((matches as real / totalHist as real) * 2.0 - 1.0) * modification
  }

  /** compute_extremum_value: none for an empty pool, no history, or a zero value. */
  function ExtremumValue(tDates: seq<int>, calcVar: int, ext: set<int>, ranges: map<int, real>, avg: real,
                         modification: real, totalHist: nat): (r: Option<real>)
    ensures r.Some? ==> r.value != 0.0
    ensures |Pool(tDates, VariantOf(calcVar), ranges, avg)| == 0 ==> r.None?
  {
    var v := VariantOf(calcVar);
    var pool := Pool(tDates, v, ranges, avg);
    if |pool| == 0 then None
    else if v.useRange then
      var val := ExcessSum(pool, ext, ranges, avg);
      if val != 0.0 then Some(val) else None
    else if totalHist == 0 then None
    else
      var val := Ratio(Matches(pool, ext), totalHist, modification);
      if val != 0.0 then Some(val) else None
  }

  // ------------------------------------------------------------ properties

  /** T1 over several date lists is the sum over each: the order of dates does not matter for a split. */
  lemma {:induction false} T1Append(a: seq<int>, b: seq<int>, v: Variant, rates: map<int, real>, ranges: map<int, real>, avg: real)
    ensures T1Total(a + b, v, rates, ranges, avg) == T1Total(a, v, rates, ranges, avg) + T1Total(b, v, rates, ranges, avg)
  {
    if |b| > 0 {
      var b0 := b[..|b| - 1];
      T1Append(a, b0, v, rates, ranges, avg);
      assert (a + b)[..|a + b| - 1] == a + b0;
    } else {
      assert a + b == a;
    }
  }

  lemma T1Snoc(s: seq<int>, d: int, v: Variant, rates: map<int, real>, ranges: map<int, real>, avg: real)
    ensures T1Total(s + [d], v, rates, ranges, avg)
            == T1Total(s, v, rates, ranges, avg) + (if Kept(v, ranges, avg, d) then Term(v, rates, ranges, avg, d) else 0.0)
  {
    assert (s + [d])[..|s + [d]| - 1] == s;
  }

  /** The filtered variants sum the same terms as their unfiltered form over the pool. */
  lemma {:induction false} T1OverPool(tDates: seq<int>, v: Variant, rates: map<int, real>, ranges: map<int, real>, avg: real)
    ensures T1Total(tDates, v, rates, ranges, avg) == T1Total(Pool(tDates, v, ranges, avg), v.(needFilter := false), rates, ranges, avg)
  {
    var u := v.(needFilter := false);
    if |tDates| > 0 {
      var init := tDates[..|tDates| - 1];
      var d := tDates[|tDates| - 1];
      T1OverPool(init, v, rates, ranges, avg);
      var p := Pool(init, v, ranges, avg);
      assert Term(u, rates, ranges, avg, d) == Term(v, rates, ranges, avg, d);
      if Kept(v, ranges, avg, d) {
        assert Pool(tDates, v, ranges, avg) == p + [d];
        T1Snoc(p, d, u, rates, ranges, avg);
      } else {
        assert Pool(tDates, v, ranges, avg) == p;
      }
    }
  }

  /** The plain variant adds every rate, a date without one counting 0. */
  lemma {:induction false} T1PlainIsRateSum(tDates: seq<int>, rates: map<int, real>, ranges: map<int, real>, avg: real)
    ensures T1Total(tDates, VariantOf(0), rates, ranges, avg) == T1Total(tDates, VariantOf(0), rates, map[], 0.0)
    ensures (forall i :: 0 <= i < |tDates| ==> tDates[i] !in rates) ==> T1Total(tDates, VariantOf(0), rates, ranges, avg) == 0.0
  {
    if |tDates| > 0 {
      T1PlainIsRateSum(tDates[..|tDates| - 1], rates, ranges, avg);
    }
  }

  /**
   * The range variant never goes negative, and it is positive exactly when
   * some date's range exceeds the average.
   */
  lemma {:induction false} T1RangeExcess(tDates: seq<int>, rates: map<int, real>, ranges: map<int, real>, avg: real)
    ensures T1Total(tDates, VariantOf(4), rates, ranges, avg) >= 0.0
    ensures T1Total(tDates, VariantOf(4), rates, ranges, avg) > 0.0 <==> exists i :: 0 <= i < |tDates| && GetOr(ranges, tDates[i]) > avg
  {
    if |tDates| > 0 {
      var init := tDates[..|tDates| - 1];
      T1RangeExcess(init, rates, ranges, avg);
      if exists i :: 0 <= i < |init| && GetOr(ranges, init[i]) > avg {
        var i :| 0 <= i < |init| && GetOr(ranges, init[i]) > avg;
        assert tDates[i] == init[i];
      }
      if exists i :: 0 <= i < |tDates| && GetOr(ranges, tDates[i]) > avg {
        var i :| 0 <= i < |tDates| && GetOr(ranges, tDates[i]) > avg;
        if i < |init| {
          assert init[i] == tDates[i];
        }
      }
    }
  }

  /** The squared variants keep each rate's sign. */
  lemma {:induction false} T1SquareSign(tDates: seq<int>, calcVar: int, rates: map<int, real>, ranges: map<int, real>, avg: real)
    requires calcVar == 2 || calcVar == 3
    requires forall i :: 0 <= i < |tDates| ==> GetOr(rates, tDates[i]) >= 0.0
    ensures T1Total(tDates, VariantOf(calcVar), rates, ranges, avg) >= 0.0
  {
    if |tDates| > 0 {
      T1SquareSign(tDates[..|tDates| - 1], calcVar, rates, ranges, avg);
      var t1 := GetOr(rates, tDates[|tDates| - 1]);
      assert t1 * Abs(t1) >= 0.0;
    }
  }

  /** The range excess of the extrema in a filtered pool is never negative; it is zero exactly when no pool date is an extremum. */
  lemma {:induction false} ExcessSumSign(pool: seq<int>, ext: set<int>, ranges: map<int, real>, avg: real)
    requires forall d :: d in pool ==> GetOr(ranges, d) > avg
    ensures ExcessSum(pool, ext, ranges, avg) >= 0.0
    ensures ExcessSum(pool, ext, ranges, avg) == 0.0 <==> Matches(pool, ext) == 0
  {
    if |pool| > 0 {
      var init := pool[..|pool| - 1];
      assert forall d :: d in init ==> d in pool;
      ExcessSumSign(init, ext, ranges, avg);
    }
  }

  /** For calc_var 4 the extremum value is positive, and it is absent exactly when no kept date is an extremum. */
  lemma RangeExtremum(tDates: seq<int>, ext: set<int>, ranges: map<int, real>, avg: real, modification: real, totalHist: nat)
    ensures var r := ExtremumValue(tDates, 4, ext, ranges, avg, modification, totalHist);
            (r.Some? ==> r.value > 0.0)
            && (r.None? <==> forall d :: d in tDates && GetOr(ranges, d) > avg ==> d !in ext)
  {
    var pool := Pool(tDates, VariantOf(4), ranges, avg);
    ExcessSumSign(pool, ext, ranges, avg);
  }

  lemma RatioBounds(matches: nat, totalHist: nat, modification: real)
    requires 0 < totalHist && matches <= totalHist
    ensures -Abs(modification) <= Ratio(matches, totalHist, modification) <= Abs(modification)
  {
    var x := matches as real / totalHist as real;
    UnitFraction(matches as real, totalHist as real);
    ScaledBound(x * 2.0 - 1.0, modification);
  }

  lemma UnitFraction(m: real, t: real)
    requires 0.0 <= m <= t && 0.0 < t
    ensures 0.0 <= m / t <= 1.0
  {
    var x := m / t;
    assert x * t == m;
    assert (1.0 - x) * t == t - m;
    assert 0.0 <= 1.0 - x by {
      ProductSign(1.0 - x, t);
    }
    assert 0.0 <= x by {
      ProductSign(x, t);
    }
  }

  /** A product with a positive factor has the sign of the other factor. */
  lemma ProductSign(a: real, t: real)
    requires 0.0 < t
    ensures a * t >= 0.0 ==> a >= 0.0
  {
    if a < 0.0 {
      assert a * t < 0.0;
    }
  }

  lemma NonNegProduct(p: real, q: real)
    requires 0.0 <= p && 0.0 <= q
    ensures p * q >= 0.0
  {
  }

  lemma ScaledBound(y: real, k: real)
    requires -1.0 <= y <= 1.0
    ensures -Abs(k) <= y * k <= Abs(k)
  {
    var a := Abs(k);
    assert y * k == (if k >= 0.0 then y * a else -(y * a));
    NonNegProduct(1.0 - y, a);
    NonNegProduct(1.0 + y, a);
    assert (1.0 - y) * a == a - y * a && (1.0 + y) * a == a + y * a;
  }

  /** The ratio has the sign of the factor when most of the history matched, the opposite sign when fewer than half did. */
  lemma RatioSign(matches: nat, totalHist: nat, modification: real)
    requires 0 < totalHist && modification > 0.0
    ensures Ratio(matches, totalHist, modification) > 0.0 <==> 2 * matches > totalHist
    ensures Ratio(matches, totalHist, modification) == 0.0 <==> 2 * matches == totalHist
  {
    var x := matches as real / totalHist as real;
    assert x * (totalHist as real) == matches as real;
    var y := x * 2.0 - 1.0;
    assert y * (totalHist as real) == 2.0 * (matches as real) - totalHist as real;
    assert y > 0.0 ==> y * (totalHist as real) > 0.0;
    assert y < 0.0 ==> y * (totalHist as real) < 0.0;
    assert y * modification > 0.0 <==> y > 0.0;
    assert y * modification == 0.0 <==> y == 0.0;
  }

  /**
   * When the history counted is at least the number of dates, the match
   * ratio variants stay within the modification factor in absolute value.
   */
  lemma ExtremumBounded(tDates: seq<int>, calcVar: int, ext: set<int>, ranges: map<int, real>, avg: real,
                        modification: real, totalHist: nat)
    requires calcVar != 4 && |tDates| <= totalHist
    ensures var r := ExtremumValue(tDates, calcVar, ext, ranges, avg, modification, totalHist);
            r.Some? ==> -Abs(modification) <= r.value <= Abs(modification)
  {
    var pool := Pool(tDates, VariantOf(calcVar), ranges, avg);
    if |pool| > 0 && totalHist > 0 {
      RatioBounds(Matches(pool, ext), totalHist, modification);
    }
  }

  /**
   * For the match ratio variants with a positive factor, the value is
   * present exactly when the pool is non-empty, history exists and the
   * matches are not exactly half of it, and it is positive exactly when
   * more than half matched.
   */
  lemma ExtremumMajority(tDates: seq<int>, calcVar: int, ext: set<int>, ranges: map<int, real>, avg: real,
                         modification: real, totalHist: nat)
    requires calcVar != 4 && modification > 0.0
    ensures var pool := Pool(tDates, VariantOf(calcVar), ranges, avg);
            var r := ExtremumValue(tDates, calcVar, ext, ranges, avg, modification, totalHist);
            (r.Some? <==> |pool| > 0 && totalHist > 0 && 2 * Matches(pool, ext) != totalHist)
            && (r.Some? ==> (r.value > 0.0 <==> 2 * Matches(pool, ext) > totalHist))
  {
    var pool := Pool(tDates, VariantOf(calcVar), ranges, avg);
    if |pool| > 0 && totalHist > 0 {
      RatioSign(Matches(pool, ext), totalHist, modification);
    }
  }

  // ------------------------------------------------------------ the table a query reads

  /** What the engine reads of the requested rates table, with the pair's factor. */
  datatype TableView = TableView(table: Candles.TableData, prev: Option<Candles.Candle>, modification: real)

  /** The rates table of the pair and timeframe (empty when it is not loaded) and the candle before the target. */
  function ViewOf(tables: map<string, Candles.TableData>, pair: int, day: int, target: int): TableView
  {
    var name := Candles.RatesTableName(pair, day);
    var t := if name in tables then tables[name] else Candles.EmptyTable;
    TableView(t, Candles.PrevCandle(t.candles, target), Candles.ModificationFactor(pair))
  }

  /** The maxima after a bullish candle, the minima after a bearish one. */
  function TrendSet(t: Candles.TableData, isBull: bool): set<int>
  {
    if isBull then t.maxSet else t.minSet
  }
}
