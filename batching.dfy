/**
 * The weight builders' insert loop: rows are collected into a batch, the
 * batch is written (one executemany call) as soon as it holds BATCH_SIZE
 * rows, the remainder is written at the end, and the number of rows
 * written is returned.
 */
module Batching {

  /** The batches one after another. */
  function Flatten<T>(batches: seq<seq<T>>): seq<T>
  {
    if |batches| == 0 then [] else Flatten(batches[..|batches| - 1]) + batches[|batches| - 1]
  }

  /** The size a batch is written at: `len(batch) >= BATCH_SIZE` fires at one row when BATCH_SIZE <= 1. */
  function Capacity(batchSize: int): (c: int)
    ensures c >= 1
  {
    if batchSize < 1 then 1 else batchSize
  }

  lemma FlattenAppend<T>(batches: seq<seq<T>>, b: seq<T>)
    ensures Flatten(batches + [b]) == Flatten(batches) + b
  {
    assert (batches + [b])[..|batches|] == batches;
  }

  /**
   * insert_rows: the executemany calls in order, and the total.  Every row
   * is written exactly once and in order, every call writes at least one
   * row and at most a full batch, and every call but the last writes a
   * full batch.
   */
  method InsertRows<T>(rows: seq<T>, batchSize: int) returns (total: int, batches: seq<seq<T>>)
    ensures total == |rows|
    ensures Flatten(batches) == rows
    ensures forall k :: 0 <= k < |batches| ==> 1 <= |batches[k]| <= Capacity(batchSize)
    ensures forall k :: 0 <= k < |batches| - 1 ==> |batches[k]| == Capacity(batchSize)
    ensures |rows| == 0 <==> |batches| == 0
  {
    total := 0;
    batches := [];
    var batch: seq<T> := [];
    for i := 0 to |rows|
      invariant Flatten(batches) + batch == rows[..i]
      invariant total == |Flatten(batches)|
      invariant |batch| < Capacity(batchSize)
      invariant forall k :: 0 <= k < |batches| ==> |batches[k]| == Capacity(batchSize)
    {
      batch := batch + [rows[i]];
      assert Flatten(batches) + batch == rows[..i + 1] by {
        assert rows[..i + 1] == rows[..i] + [rows[i]];
      }
      if |batch| >= batchSize {
        FlattenAppend(batches, batch);
        batches := batches + [batch];
        total := total + |batch|;
        batch := [];
      }
    }
    assert rows[..|rows|] == rows;
    if |batch| > 0 {
      FlattenAppend(batches, batch);
      batches := batches + [batch];
      total := total + |batch|;
    }
  }

  /**
   * The number of executemany calls is the number of rows divided by the
   * batch size, rounded up: all calls but the last are full and the last
   * is not empty.
   */
  lemma {:induction false} BatchCount<T>(batches: seq<seq<T>>, cap: int)
    requires cap >= 1
    requires forall k :: 0 <= k < |batches| ==> 1 <= |batches[k]| <= cap
    requires forall k :: 0 <= k < |batches| - 1 ==> |batches[k]| == cap
    ensures |batches| > 0 ==> (|batches| - 1) * cap < |Flatten(batches)| <= |batches| * cap
    ensures |batches| == 0 ==> |Flatten(batches)| == 0
  {
    if |batches| > 0 {
      var init := batches[..|batches| - 1];
      FullBatches(init, cap);
      assert |Flatten(batches)| == |Flatten(init)| + |batches[|batches| - 1]|;
      assert (|batches| - 1) * cap + cap == |batches| * cap;
    }
  }

  lemma {:induction false} FullBatches<T>(batches: seq<seq<T>>, cap: int)
    requires forall k :: 0 <= k < |batches| ==> |batches[k]| == cap
    ensures |Flatten(batches)| == |batches| * cap
  {
    if |batches| > 0 {
      var init := batches[..|batches| - 1];
      FullBatches(init, cap);
      assert (|batches| - 1) * cap + cap == |batches| * cap;
    }
  }
}
