/**
 * The last step of every query engine: entries whose accumulated value is
 * exactly zero are dropped, and the others are rounded to six decimal
 * places.  The filter looks at the value before rounding.
 */
module Rounding {

  const Scale: real := 1000000.0

  /** The integer nearest to x, ties to the even one (Python's round). */
  function RoundHalfEven(x: real): (n: int)
    ensures x - 0.5 <= n as real <= x + 0.5
    ensures x - (n as real) == 0.5 || (n as real) - x == 0.5 ==> n % 2 == 0
  {
    var f := x.Floor;
    var frac := x - f as real;
    if frac < 0.5 then f
    else if frac > 0.5 then f + 1
    else if f % 2 == 0 then f
    else f + 1
  }

  /** round(v, 6) on exact reals. */
  function Round6(v: real): real
  {
    RoundHalfEven(v * Scale) as real / Scale
  }

  /** Rounding moves a value by at most half a unit of the sixth decimal. */
  lemma Round6Error(v: real)
    ensures v - 0.0000005 <= Round6(v) <= v + 0.0000005
  {
    var n := RoundHalfEven(v * Scale);
    assert (n as real / Scale) * Scale == n as real;
  }

  lemma RoundHalfEvenOfInt(n: int)
    ensures RoundHalfEven(n as real) == n
  {
    assert (n as real).Floor == n;
  }

  /** A rounded value is kept by a second rounding. */
  lemma Round6Idempotent(v: real)
    ensures Round6(Round6(v)) == Round6(v)
  {
    var n := RoundHalfEven(v * Scale);
    assert Round6(v) * Scale == n as real;
    RoundHalfEvenOfInt(n);
  }

  /** The dictionary the engines return: non-zero entries, rounded. */
  function Finalize<K(!new)>(raw: map<K, real>): (out: map<K, real>)
    ensures forall k :: k in out <==> k in raw && raw[k] != 0.0
  {
    map k | k in raw && raw[k] != 0.0 :: Round6(raw[k])
  }

  /** Every returned value is within rounding error of the accumulated one. */
  lemma FinalizeClose<K(!new)>(raw: map<K, real>, k: K)
    requires k in Finalize(raw)
    ensures raw[k] - 0.0000005 <= Finalize(raw)[k] <= raw[k] + 0.0000005
    ensures Finalize(raw)[k] == Round6(raw[k])
  {
    Round6Error(raw[k]);
  }

  /** Rounding never makes a non-negative value negative. */
  lemma FinalizeNonNegative<K(!new)>(raw: map<K, real>)
    requires forall k :: k in raw ==> raw[k] >= 0.0
    ensures forall k :: k in Finalize(raw) ==> Finalize(raw)[k] >= 0.0
  {
    forall k | k in Finalize(raw)
      ensures Finalize(raw)[k] >= 0.0
    {
      assert raw[k] * Scale >= 0.0;
    }
  }

  /**
   * The filter is applied before rounding: a tiny non-zero value survives
   * it and is then returned as 0.0.
   */
  lemma ZeroAfterRounding()
    ensures Finalize(map[0 := 0.0000001]) == map[0 := 0.0]
  {
    var raw := map[0 := 0.0000001];
    assert RoundHalfEven(0.0000001 * Scale) == 0;
    assert Finalize(raw)[0] == 0.0;
  }
}
