/**
 * The context indexes of the market and ECB services: every classified
 * observation is filed under (entity, rate change, trend, momentum); each
 * key keeps its number of occurrences, the first and last timestamps and
 * the sums of closes, of defined changes and of their absolute values.
 * Optionally only recurring keys (more than one occurrence) are kept, and
 * each stored row carries the averages sum / count.
 */
module ContextIndex {
  import opened Wrappers
  import opened Classify

  /** The key of the index: entity (instrument or currency) and labels. */
  datatype Key = Key(entity: string, ctx: Context)

  datatype Aggregate = Aggregate(count: nat, firstDt: int, lastDt: int, sumClose: real, sumChange: real, sumAbs: real)

  /** One classified observation of one entity, in processing order. */
  datatype Tagged = Tagged(entity: string, obs: Observation)

  function KeyAt(s: seq<Tagged>, i: int): Key
    requires 0 <= i < |s|
  {
    Key(s[i].entity, s[i].obs.ctx)
  }

  /** The aggregate after one more observation: a new key starts at count 0 with both timestamps at dt. */
  function Step(m: map<Key, Aggregate>, t: Tagged): map<Key, Aggregate>
  {
    var k := Key(t.entity, t.obs.ctx);
    var a := if k in m then m[k] else Aggregate(0, t.obs.dt, t.obs.dt, 0.0, 0.0, 0.0);
    var ch := t.obs.change;
    m[k := Aggregate(a.count + 1, a.firstDt, t.obs.dt, a.sumClose + t.obs.close,
                     if ch.Some? then a.sumChange + ch.value else a.sumChange,
                     if ch.Some? then a.sumAbs + Abs(ch.value) else a.sumAbs)]
  }

  /** The aggregation loop of the index builders, as a fold over the observations. */
  function AggregateAll(s: seq<Tagged>): map<Key, Aggregate>
  {
    if |s| == 0 then map[] else Step(AggregateAll(s[..|s| - 1]), s[|s| - 1])
  }

  // ------------------------------------------------- reference definitions

  /** How many observations carry key k. */
  function CountKey(s: seq<Tagged>, k: Key): nat
  {
    if |s| == 0 then 0 else CountKey(s[..|s| - 1], k) + (if KeyAt(s, |s| - 1) == k then 1 else 0)
  }

  /** The defined changes of the observations with key k, in order. */
  function ChangesOf(s: seq<Tagged>, k: Key): seq<real>
  {
    if |s| == 0 then []
    else
      var t := s[|s| - 1];
      ChangesOf(s[..|s| - 1], k) + (if KeyAt(s, |s| - 1) == k && t.obs.change.Some? then [t.obs.change.value] else [])
  }

  /** The closes of the observations with key k, in order. */
  function ClosesOf(s: seq<Tagged>, k: Key): seq<real>
  {
    if |s| == 0 then []
    else ClosesOf(s[..|s| - 1], k) + (if KeyAt(s, |s| - 1) == k then [s[|s| - 1].obs.close] else [])
  }

  function Sum(xs: seq<real>): real
  {
    if |xs| == 0 then 0.0 else Sum(xs[..|xs| - 1]) + xs[|xs| - 1]
  }

  function SumAbs(xs: seq<real>): real
  {
    if |xs| == 0 then 0.0 else SumAbs(xs[..|xs| - 1]) + Abs(xs[|xs| - 1])
  }

  predicate HasKey(s: seq<Tagged>, k: Key)
  {
    exists i :: 0 <= i < |s| && KeyAt(s, i) == k
  }

  // ------------------------------------------------------------ properties

  /** Observation i is the first one with key k. */
  predicate IsFirst(s: seq<Tagged>, k: Key, i: int)
  {
    0 <= i < |s| && KeyAt(s, i) == k && forall j :: 0 <= j < i ==> KeyAt(s, j) != k
  }

  /** Observation i is the last one with key k. */
  predicate IsLast(s: seq<Tagged>, k: Key, i: int)
  {
    0 <= i < |s| && KeyAt(s, i) == k && forall j :: i < j < |s| ==> KeyAt(s, j) != k
  }

  /** A key has an occurrence exactly when its count is positive. */
  lemma {:induction false} HasKeyCount(s: seq<Tagged>, k: Key)
    ensures HasKey(s, k) <==> CountKey(s, k) > 0
  {
    if |s| > 0 {
      var init := s[..|s| - 1];
      HasKeyCount(init, k);
      if HasKey(init, k) {
        var i :| 0 <= i < |init| && KeyAt(init, i) == k;
        assert KeyAt(s, i) == k;
      }
      if HasKey(s, k) && KeyAt(s, |s| - 1) != k {
        var i :| 0 <= i < |s| && KeyAt(s, i) == k;
        assert KeyAt(init, i) == k;
      }
    }
  }

  /** The index holds exactly the keys seen, each with the number of its observations. */
  lemma {:induction false} AggregateCounts(s: seq<Tagged>, k: Key)
    ensures k in AggregateAll(s) <==> CountKey(s, k) > 0
    ensures k in AggregateAll(s) ==> AggregateAll(s)[k].count == CountKey(s, k)
  {
    if |s| > 0 {
      AggregateCounts(s[..|s| - 1], k);
    }
  }

  /** The index holds exactly the keys that occur. */
  lemma AggregateDomain(s: seq<Tagged>, k: Key)
    ensures k in AggregateAll(s) <==> HasKey(s, k)
  {
    AggregateCounts(s, k);
    HasKeyCount(s, k);
  }

  /** The keys of a prefix are those of the whole sequence. */
  lemma KeysOfPrefix(s: seq<Tagged>)
    requires |s| > 0
    ensures forall j :: 0 <= j < |s| - 1 ==> KeyAt(s[..|s| - 1], j) == KeyAt(s, j) && s[..|s| - 1][j] == s[j]
  {
  }

  /** sum_close is the sum of the closes of the key's observations. */
  lemma {:induction false} AggregateSumClose(s: seq<Tagged>, k: Key)
    ensures k in AggregateAll(s) ==> AggregateAll(s)[k].sumClose == Sum(ClosesOf(s, k))
    ensures k !in AggregateAll(s) ==> ClosesOf(s, k) == []
  {
    if |s| > 0 {
      var init := s[..|s| - 1];
      AggregateSumClose(init, k);
      var cs := ClosesOf(s, k);
      if KeyAt(s, |s| - 1) == k {
        assert cs[..|cs| - 1] == ClosesOf(init, k);
        assert Sum(cs) == Sum(ClosesOf(init, k)) + s[|s| - 1].obs.close;
      } else {
        assert cs == ClosesOf(init, k);
      }
    }
  }

  /** sum_change is the sum of the key's defined changes. */
  lemma {:induction false} AggregateSumChange(s: seq<Tagged>, k: Key)
    ensures k in AggregateAll(s) ==> AggregateAll(s)[k].sumChange == Sum(ChangesOf(s, k))
    ensures k !in AggregateAll(s) ==> ChangesOf(s, k) == []
  {
    if |s| > 0 {
      var init := s[..|s| - 1];
      AggregateSumChange(init, k);
      var xs := ChangesOf(s, k);
      if KeyAt(s, |s| - 1) == k && s[|s| - 1].obs.change.Some? {
        assert xs[..|xs| - 1] == ChangesOf(init, k);
        assert Sum(xs) == Sum(ChangesOf(init, k)) + s[|s| - 1].obs.change.value;
      } else {
        assert xs == ChangesOf(init, k);
      }
    }
  }

  /** sum_abs_change is the sum of the absolute values of the key's defined changes. */
  lemma {:induction false} AggregateSumAbs(s: seq<Tagged>, k: Key)
    ensures k in AggregateAll(s) ==> AggregateAll(s)[k].sumAbs == SumAbs(ChangesOf(s, k))
    ensures k !in AggregateAll(s) ==> ChangesOf(s, k) == []
  {
    if |s| > 0 {
      var init := s[..|s| - 1];
      AggregateSumAbs(init, k);
      var xs := ChangesOf(s, k);
      if KeyAt(s, |s| - 1) == k && s[|s| - 1].obs.change.Some? {
        assert xs[..|xs| - 1] == ChangesOf(init, k);
        assert SumAbs(xs) == SumAbs(ChangesOf(init, k)) + Abs(s[|s| - 1].obs.change.value);
      } else {
        assert xs == ChangesOf(init, k);
      }
    }
  }

  /** first_dt is the timestamp of the key's first observation. */
  lemma {:induction false} AggregateFirst(s: seq<Tagged>, k: Key)
    ensures k in AggregateAll(s) ==> exists i :: IsFirst(s, k, i) && AggregateAll(s)[k].firstDt == s[i].obs.dt
    ensures k !in AggregateAll(s) ==> forall j :: 0 <= j < |s| ==> KeyAt(s, j) != k
  {
    if |s| > 0 {
      var init := s[..|s| - 1];
      AggregateFirst(init, k);
      KeysOfPrefix(s);
      if k in AggregateAll(init) {
        var i :| IsFirst(init, k, i) && AggregateAll(init)[k].firstDt == init[i].obs.dt;
        assert IsFirst(s, k, i);
      } else if KeyAt(s, |s| - 1) == k {
        assert IsFirst(s, k, |s| - 1);
      }
    }
  }

  /** last_dt is the timestamp of the key's last observation. */
  lemma {:induction false} AggregateLast(s: seq<Tagged>, k: Key)
    ensures k in AggregateAll(s) ==> exists i :: IsLast(s, k, i) && AggregateAll(s)[k].lastDt == s[i].obs.dt
  {
    if |s| > 0 {
      var init := s[..|s| - 1];
      AggregateLast(init, k);
      KeysOfPrefix(s);
      if KeyAt(s, |s| - 1) == k {
        assert IsLast(s, k, |s| - 1);
      } else if k in AggregateAll(init) {
        var i :| IsLast(init, k, i) && AggregateAll(init)[k].lastDt == init[i].obs.dt;
        assert IsLast(s, k, i);
      }
    }
  }

  /** For input in timestamp order within each key, first_dt <= last_dt. */
  lemma FirstNotAfterLast(s: seq<Tagged>, k: Key)
    requires forall i, j :: 0 <= i < j < |s| && KeyAt(s, i) == KeyAt(s, j) ==> s[i].obs.dt <= s[j].obs.dt
    requires k in AggregateAll(s)
    ensures AggregateAll(s)[k].firstDt <= AggregateAll(s)[k].lastDt
  {
    AggregateFirst(s, k);
    AggregateLast(s, k);
    var a := AggregateAll(s)[k];
    var i :| IsFirst(s, k, i) && a.firstDt == s[i].obs.dt;
    var l :| IsLast(s, k, l) && a.lastDt == s[l].obs.dt;
    if i < l {
      assert KeyAt(s, i) == KeyAt(s, l);
    }
  }

  /** ONLY_RECURRING: the keys that occurred more than once. */
  function OnlyRecurring(m: map<Key, Aggregate>): (r: map<Key, Aggregate>)
    ensures forall k :: k in r <==> k in m && m[k].count > 1
    ensures forall k :: k in r ==> r[k] == m[k]
  {
    map k | k in m && m[k].count > 1 :: m[k]
  }

  /** After the filter exactly the keys with more than one observation survive. */
  lemma OnlyRecurringMeaning(s: seq<Tagged>, k: Key)
    ensures k in OnlyRecurring(AggregateAll(s)) <==> CountKey(s, k) > 1
  {
    AggregateCounts(s, k);
  }

  /** The stored averages; `None` for a zero count. */
  datatype Averages = Averages(avgClose: Option<real>, avgChange: Option<real>, avgAbs: Option<real>)

  function AveragesOf(a: Aggregate): (r: Averages)
    ensures a.count == 0 <==> r.avgClose.None?
    ensures a.count == 0 <==> r.avgChange.None?
    ensures a.count == 0 <==> r.avgAbs.None?
  {
    if a.count == 0 then Averages(None, None, None)
    else
      var n := a.count as real;
      Averages(Some(a.sumClose / n), Some(a.sumChange / n), Some(a.sumAbs / n))
  }

  /** Each average times the count gives back its sum. */
  lemma AveragesTimesCount(a: Aggregate)
    requires a.count > 0
    ensures AveragesOf(a).avgClose.value * (a.count as real) == a.sumClose
    ensures AveragesOf(a).avgChange.value * (a.count as real) == a.sumChange
    ensures AveragesOf(a).avgAbs.value * (a.count as real) == a.sumAbs
  {
    var n := a.count as real;
    assert (a.sumClose / n) * n == a.sumClose;
    assert (a.sumChange / n) * n == a.sumChange;
    assert (a.sumAbs / n) * n == a.sumAbs;
  }

  lemma {:induction false} SumBounds(xs: seq<real>, lo: real, hi: real)
    requires forall i :: 0 <= i < |xs| ==> lo <= xs[i] <= hi
    ensures lo * (|xs| as real) <= Sum(xs) <= hi * (|xs| as real)
  {
    if |xs| > 0 {
      SumBounds(xs[..|xs| - 1], lo, hi);
    }
  }

  lemma {:induction false} ClosesCount(s: seq<Tagged>, k: Key)
    ensures |ClosesOf(s, k)| == CountKey(s, k)
  {
    if |s| > 0 {
      ClosesCount(s[..|s| - 1], k);
    }
  }

  lemma {:induction false} ClosesWithin(s: seq<Tagged>, k: Key, lo: real, hi: real)
    requires forall i :: 0 <= i < |s| && KeyAt(s, i) == k ==> lo <= s[i].obs.close <= hi
    ensures forall i :: 0 <= i < |ClosesOf(s, k)| ==> lo <= ClosesOf(s, k)[i] <= hi
  {
    if |s| > 0 {
      var init := s[..|s| - 1];
      KeysOfPrefix(s);
      ClosesWithin(init, k, lo, hi);
    }
  }

  /** The mean of values within [lo, hi] is within [lo, hi]. */
  lemma MeanWithin(xs: seq<real>, lo: real, hi: real)
    requires |xs| > 0
    requires forall i :: 0 <= i < |xs| ==> lo <= xs[i] <= hi
    ensures lo <= Sum(xs) / (|xs| as real) <= hi
  {
    SumBounds(xs, lo, hi);
    MeanBounds(Sum(xs), |xs| as real, lo, hi);
  }

  /** Every stored row's average close lies between the smallest and the largest close of its key. */
  lemma AverageCloseWithinCloses(s: seq<Tagged>, k: Key, lo: real, hi: real)
    requires k in AggregateAll(s)
    requires forall i :: 0 <= i < |s| && KeyAt(s, i) == k ==> lo <= s[i].obs.close <= hi
    ensures AveragesOf(AggregateAll(s)[k]).avgClose.Some?
    ensures lo <= AveragesOf(AggregateAll(s)[k]).avgClose.value <= hi
  {
    AggregateCounts(s, k);
    AggregateSumClose(s, k);
    ClosesCount(s, k);
    ClosesWithin(s, k, lo, hi);
    MeanWithin(ClosesOf(s, k), lo, hi);
  }

  // ------------------------------------------------------------ the builder

  /** Thresholds and windows of one index builder. */
  datatype IndexConfig = IndexConfig(thresholds: map<string, real>, defaultThreshold: real, shortW: int, longW: int)

  /** The hourly market index: thresholds per instrument, windows 24 and 168. */
  const MarketIndexConfig: IndexConfig := IndexConfig(MarketThresholds, MarketDefaultThreshold, MarketSmaShort, MarketSmaLong)

  /** The daily ECB index: one threshold for every currency, windows 5 and 20. */
  const EcbIndexConfig: IndexConfig := IndexConfig(map[], EcbThreshold, EcbSmaShort, EcbSmaLong)

  function ThresholdOf(cfg: IndexConfig, entity: string): real
  {
    Get(cfg.thresholds, entity, cfg.defaultThreshold)
  }

  /** The date-ordered series of one entity. */
  datatype EntitySeries = EntitySeries(entity: string, points: seq<(int, real)>)

  function Classified(series: seq<(int, real)>, threshold: real, shortW: int, longW: int): seq<Observation>
    requires shortW >= 1 && longW >= 1
  {
    seq(|series|, k requires 0 <= k < |series| =>
      Observation(series[k].0, series[k].1, ContextAt(series, k, threshold, shortW, longW), ChangeAt(series, k)))
  }

  function Tag(entity: string, obs: seq<Observation>): (r: seq<Tagged>)
    ensures |r| == |obs| && forall i :: 0 <= i < |r| ==> r[i] == Tagged(entity, obs[i])
  {
    if |obs| == 0 then [] else Tag(entity, obs[..|obs| - 1]) + [Tagged(entity, obs[|obs| - 1])]
  }

  /** The observations of all entities, entity after entity, each classified on its own. */
  function Stream(inputs: seq<EntitySeries>, cfg: IndexConfig): seq<Tagged>
    requires cfg.shortW >= 1 && cfg.longW >= 1
  {
    if |inputs| == 0 then []
    else
      var e := inputs[|inputs| - 1];
      Stream(inputs[..|inputs| - 1], cfg) + Tag(e.entity, Classified(e.points, ThresholdOf(cfg, e.entity), cfg.shortW, cfg.longW))
  }

  lemma AggregateAllAppend(s: seq<Tagged>, t: seq<Tagged>)
    ensures AggregateAll(s + t) == AggregateAllFrom(AggregateAll(s), t)
    decreases |t|
  {
    if |t| > 0 {
      assert (s + t)[..|s + t| - 1] == s + t[..|t| - 1];
      AggregateAllAppend(s, t[..|t| - 1]);
    } else {
      assert s + t == s;
    }
  }

  /** Folding further observations into an existing aggregate. */
  function AggregateAllFrom(m: map<Key, Aggregate>, t: seq<Tagged>): map<Key, Aggregate>
  {
    if |t| == 0 then m else Step(AggregateAllFrom(m, t[..|t| - 1]), t[|t| - 1])
  }

  /** The stream of the first e + 1 entities extends that of the first e by the classified series of entity e. */
  lemma StreamOfPrefix(inputs: seq<EntitySeries>, cfg: IndexConfig, e: int)
    requires cfg.shortW >= 1 && cfg.longW >= 1 && 0 <= e < |inputs|
    ensures Stream(inputs[..e + 1], cfg) ==
      Stream(inputs[..e], cfg) + Tag(inputs[e].entity, Classified(inputs[e].points, ThresholdOf(cfg, inputs[e].entity), cfg.shortW, cfg.longW))
  {
    assert inputs[..e + 1][..e] == inputs[..e];
  }

  /** The inner aggregation loop over one entity's classified observations. */
  method FoldObservations(aggs: map<Key, Aggregate>, entity: string, observations: seq<Observation>)
    returns (r: map<Key, Aggregate>)
    ensures r == AggregateAllFrom(aggs, Tag(entity, observations))
  {
    r := aggs;
    ghost var tagged := Tag(entity, observations);
    for i := 0 to |observations|
      invariant r == AggregateAllFrom(aggs, tagged[..i])
    {
      assert tagged[..i + 1][..i] == tagged[..i];
      r := Step(r, Tagged(entity, observations[i]));
    }
    assert tagged[..|observations|] == tagged;
  }

  /**
   * The builder's main loop: classify each entity's series (an entity
   * without data is skipped), fold every observation into the aggregates,
   * then apply the ONLY_RECURRING filter when it is set.
   */
  method BuildContextIndex(inputs: seq<EntitySeries>, cfg: IndexConfig, onlyRecurring: bool)
    returns (index: map<Key, Aggregate>)
    requires cfg.shortW >= 1 && cfg.longW >= 1
    ensures index == if onlyRecurring then OnlyRecurring(AggregateAll(Stream(inputs, cfg))) else AggregateAll(Stream(inputs, cfg))
  {
    var aggs: map<Key, Aggregate> := map[];
    for e := 0 to |inputs|
      invariant aggs == AggregateAll(Stream(inputs[..e], cfg))
    {
      var entity, points := inputs[e].entity, inputs[e].points;
      var threshold := ThresholdOf(cfg, entity);
      StreamOfPrefix(inputs, cfg, e);
      AggregateAllAppend(Stream(inputs[..e], cfg), Tag(entity, Classified(points, threshold, cfg.shortW, cfg.longW)));
      if |points| == 0 {
        continue;
      }
      var observations := ClassifyObservations(points, threshold, cfg.shortW, cfg.longW);
      assert observations == Classified(points, threshold, cfg.shortW, cfg.longW);
      aggs := FoldObservations(aggs, entity, observations);
    }
    assert inputs[..|inputs|] == inputs;
    if onlyRecurring {
      aggs := OnlyRecurring(aggs);
    }
    index := aggs;
  }
}
