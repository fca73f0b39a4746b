/**
 * The occurrence counts the services load from their index tables: the
 * context index of the 27, 30 and 31 services (count by context) and
 * the event index of the 32 and 25 services, which keeps only whether an
 * event recurs. A NULL count reads as 0 (`occurrence_count or 0`), and a
 * later row of the same key replaces an earlier one.
 */
module Counts {
  import opened Wrappers

  /** One row of an index table: its key and occurrence_count, NULL as None. */
  datatype IndexRow<K> = IndexRow(key: K, occ: Option<int>)

  /** `occurrence_count or 0`. */
  function CountOf<K>(r: IndexRow<K>): int
  {
    if r.occ.Some? then r.occ.value else 0
  }

  /** The index after the rows, on top of what it held. */
  function IndexOf<K>(m: map<K, int>, rows: seq<IndexRow<K>>): map<K, int>
  {
    if |rows| == 0 then m
    else
      var r := rows[|rows| - 1];
      IndexOf(m, rows[..|rows| - 1])[r.key := CountOf(r)]
  }

  /** A key is indexed exactly when some row has it, and its count is the last such row's. */
  lemma {:induction false} IndexOfMeaning<K>(rows: seq<IndexRow<K>>, k: K)
    ensures k in IndexOf(map[], rows) <==> exists i :: 0 <= i < |rows| && rows[i].key == k
    ensures k in IndexOf(map[], rows) ==>
              exists i :: 0 <= i < |rows| && rows[i].key == k && IndexOf(map[], rows)[k] == CountOf(rows[i])
                          && forall j :: i < j < |rows| ==> rows[j].key != k
  {
    if |rows| > 0 {
      var n := |rows| - 1;
      var init := rows[..n];
      IndexOfMeaning(init, k);
      if rows[n].key != k {
        if exists i :: 0 <= i < n && init[i].key == k {
          var i :| 0 <= i < n && init[i].key == k && IndexOf(map[], init)[k] == CountOf(init[i])
                   && forall j :: i < j < n ==> init[j].key != k;
          assert rows[i] == init[i];
        }
        if exists i :: 0 <= i < |rows| && rows[i].key == k {
          var i :| 0 <= i < |rows| && rows[i].key == k;
          assert init[i] == rows[i];
        }
      }
    }
  }

  /** With no negative count in the rows, no indexed count is negative. */
  lemma {:induction false} IndexOfNonNegative<K>(rows: seq<IndexRow<K>>)
    requires forall i :: 0 <= i < |rows| && rows[i].occ.Some? ==> rows[i].occ.value >= 0
    ensures forall k :: k in IndexOf(map[], rows) ==> IndexOf(map[], rows)[k] >= 0
  {
    if |rows| > 0 {
      IndexOfNonNegative(rows[..|rows| - 1]);
    }
  }

  /** event_type: 1 for an event indexed more than once, 0 otherwise. */
  function TypeOfCount(c: int): int
  {
    if c > 1 then 1 else 0
  }

  /** GLOBAL_EVENT_TYPES after the rows, on top of what it held. */
  function TypesOf<K>(m: map<K, int>, rows: seq<IndexRow<K>>): map<K, int>
  {
    if |rows| == 0 then m
    else
      var r := rows[|rows| - 1];
      TypesOf(m, rows[..|rows| - 1])[r.key := TypeOfCount(CountOf(r))]
  }

  function Classified<K>(m: map<K, int>): map<K, int>
  {
    map k | k in m :: TypeOfCount(m[k])
  }

  /** The types are the index's counts, each reduced to recurring or not. */
  lemma {:induction false} TypesAreClassifiedCounts<K>(m: map<K, int>, rows: seq<IndexRow<K>>)
    ensures TypesOf(Classified(m), rows) == Classified(IndexOf(m, rows))
  {
    if |rows| > 0 {
      var r := rows[|rows| - 1];
      TypesAreClassifiedCounts(m, rows[..|rows| - 1]);
      var before := IndexOf(m, rows[..|rows| - 1]);
      assert Classified(before[r.key := CountOf(r)]) == Classified(before)[r.key := TypeOfCount(CountOf(r))];
    }
  }

  /** Every loaded type is 0 or 1 when the start was. */
  lemma {:induction false} TypesAreBinary<K>(m: map<K, int>, rows: seq<IndexRow<K>>)
    requires forall k :: k in m ==> m[k] == 0 || m[k] == 1
    ensures forall k :: k in TypesOf(m, rows) ==> TypesOf(m, rows)[k] == 0 || TypesOf(m, rows)[k] == 1
  {
    if |rows| > 0 {
      TypesAreBinary(m, rows[..|rows| - 1]);
    }
  }
}
