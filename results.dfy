/**
 * How the engines build their answer: a list of (weight key, value)
 * contributions folded into a dictionary, either by assignment
 * (`result[k] = v`, the 32, 25 and 23 services) or by accumulation
 * (`result[k] = result.get(k, 0.0) + v`, the 27, 30 and 31 services),
 * then finalised by Rounding.Finalize. An unreadable request is an error
 * response instead.
 */
module Results {
  import opened Rounding

  datatype Entry<K> = Entry(key: K, value: real)

  /** The response body: {"error": message} or the weights dictionary. */
  datatype Response<K> = Error(message: string) | Weights(weights: map<K, real>)

  const InvalidDate: string := "Invalid date format"

  function GetOr<K>(m: map<K, real>, k: K): real
  {
    if k in m then m[k] else 0.0
  }

  /** result[k] = v for each entry in turn. */
  function Assign<K>(m: map<K, real>, es: seq<Entry<K>>): map<K, real>
  {
    if |es| == 0 then m
    else
      var last := es[|es| - 1];
      Assign(m, es[..|es| - 1])[last.key := last.value]
  }

  /** result[k] = result.get(k, 0.0) + v for each entry in turn. */
  function Accumulate<K>(m: map<K, real>, es: seq<Entry<K>>): map<K, real>
  {
    if |es| == 0 then m
    else
      var last := es[|es| - 1];
      var prev := Accumulate(m, es[..|es| - 1]);
      prev[last.key := GetOr(prev, last.key) + last.value]
  }

  lemma AssignOne<K>(m: map<K, real>, e: Entry<K>)
    ensures Assign(m, [e]) == m[e.key := e.value]
  {
    assert [e][..0] == [];
  }

  lemma AssignTwo<K>(m: map<K, real>, e0: Entry<K>, e1: Entry<K>)
    ensures Assign(m, [e0, e1]) == m[e0.key := e0.value][e1.key := e1.value]
  {
    assert [e0, e1][..1] == [e0];
    AssignOne(m, e0);
  }

  lemma AccumulateOne<K>(m: map<K, real>, e: Entry<K>)
    ensures Accumulate(m, [e]) == m[e.key := GetOr(m, e.key) + e.value]
  {
    assert [e][..0] == [];
  }

  lemma {:induction false} AssignAppend<K>(m: map<K, real>, a: seq<Entry<K>>, b: seq<Entry<K>>)
    ensures Assign(m, a + b) == Assign(Assign(m, a), b)
  {
    if |b| == 0 {
      assert a + b == a;
    } else {
      AssignAppend(m, a, b[..|b| - 1]);
      assert (a + b)[..|a + b| - 1] == a + b[..|b| - 1];
    }
  }

  lemma {:induction false} AccumulateAppend<K>(m: map<K, real>, a: seq<Entry<K>>, b: seq<Entry<K>>)
    ensures Accumulate(m, a + b) == Accumulate(Accumulate(m, a), b)
  {
    if |b| == 0 {
      assert a + b == a;
    } else {
      AccumulateAppend(m, a, b[..|b| - 1]);
      assert (a + b)[..|a + b| - 1] == a + b[..|b| - 1];
    }
  }

  /** The keys written are the keys of the entries, added to those already there. */
  lemma {:induction false} AssignKeys<K>(m: map<K, real>, es: seq<Entry<K>>, k: K)
    ensures k in Assign(m, es) <==> k in m || exists i :: 0 <= i < |es| && es[i].key == k
  {
    if |es| > 0 {
      var init := es[..|es| - 1];
      AssignKeys(m, init, k);
      if exists i :: 0 <= i < |init| && init[i].key == k {
        var i :| 0 <= i < |init| && init[i].key == k;
        assert es[i] == init[i];
      }
      if exists i :: 0 <= i < |es| && es[i].key == k {
        var i :| 0 <= i < |es| && es[i].key == k;
        if i < |init| {
          assert init[i] == es[i];
        }
      }
    }
  }

  /** The value assigned last to a key is the one that stays. */
  lemma {:induction false} AssignLastWins<K>(m: map<K, real>, es: seq<Entry<K>>, i: int)
    requires 0 <= i < |es|
    requires forall j :: i < j < |es| ==> es[j].key != es[i].key
    ensures es[i].key in Assign(m, es) && Assign(m, es)[es[i].key] == es[i].value
  {
    if i < |es| - 1 {
      var init := es[..|es| - 1];
      AssignLastWins(m, init, i);
    }
  }

  /** Every value in the assigned map is one some entry wrote, or one that was there before. */
  lemma {:induction false} AssignValueFrom<K>(m: map<K, real>, es: seq<Entry<K>>, k: K)
    requires k in Assign(m, es)
    ensures (k in m && Assign(m, es)[k] == m[k]) || exists i :: 0 <= i < |es| && es[i] == Entry(k, Assign(m, es)[k])
  {
    if |es| > 0 {
      var init := es[..|es| - 1];
      if es[|es| - 1].key != k {
        AssignValueFrom(m, init, k);
        if exists i :: 0 <= i < |init| && init[i] == Entry(k, Assign(m, init)[k]) {
          var i :| 0 <= i < |init| && init[i] == Entry(k, Assign(m, init)[k]);
          assert es[i] == init[i];
        }
      }
    }
  }

  function SumOf<K(==)>(es: seq<Entry<K>>, k: K): real
  {
    if |es| == 0 then 0.0
    else
      var last := es[|es| - 1];
      SumOf(es[..|es| - 1], k) + (if last.key == k then last.value else 0.0)
  }

  /** Accumulating from empty gives every key the sum of its entries' values. */
  lemma {:induction false} AccumulateSums<K>(es: seq<Entry<K>>, k: K)
    ensures k in Accumulate(map[], es) <==> exists i :: 0 <= i < |es| && es[i].key == k
    ensures GetOr(Accumulate(map[], es), k) == SumOf(es, k)
  {
    if |es| > 0 {
      var init := es[..|es| - 1];
      AccumulateSums(init, k);
      if exists i :: 0 <= i < |init| && init[i].key == k {
        var i :| 0 <= i < |init| && init[i].key == k;
        assert es[i] == init[i];
      }
      if exists i :: 0 <= i < |es| && es[i].key == k {
        var i :| 0 <= i < |es| && es[i].key == k;
        if i < |init| {
          assert init[i] == es[i];
        }
      }
    }
  }

  /** Adding only non-negative values to a non-negative map keeps every value non-negative. */
  lemma {:induction false} AccumulateNonNegative<K>(m: map<K, real>, es: seq<Entry<K>>)
    requires forall k :: k in m ==> m[k] >= 0.0
    requires forall i :: 0 <= i < |es| ==> es[i].value >= 0.0
    ensures forall k :: k in Accumulate(m, es) ==> Accumulate(m, es)[k] >= 0.0
  {
    if |es| > 0 {
      AccumulateNonNegative(m, es[..|es| - 1]);
    }
  }
}
