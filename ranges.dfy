/** Python's `range(start, stop, step)` for a positive step, as the list it enumerates. */
module Ranges {

  function Range(start: int, stop: int, step: nat): seq<int>
    requires step > 0
    decreases stop - start
  {
    if start >= stop then [] else [start] + Range(start + step, stop, step)
  }

  /** The number of values is the number of steps that start below `stop`. */
  lemma {:induction false} RangeLength(start: int, stop: int, step: nat, n: nat)
    requires step > 0
    requires start + step * n >= stop
    requires n > 0 ==> start + step * (n - 1) < stop
    ensures |Range(start, stop, step)| == n
    decreases n
  {
    if n > 0 {
      assert step * (n - 1) + step == step * n;
      assert n - 1 > 0 ==> step * (n - 2) + step == step * (n - 1);
      RangeLength(start + step, stop, step, n - 1);
    }
  }

  /** The i-th value is `start + step * i`, and every value lies in [start, stop). */
  lemma {:induction false} RangeAt(start: int, stop: int, step: nat, i: nat)
    requires step > 0 && i < |Range(start, stop, step)|
    ensures Range(start, stop, step)[i] == start + step * i
    ensures start <= start + step * i < stop
    decreases stop - start
  {
    if i > 0 {
      RangeAt(start + step, stop, step, i - 1);
    }
  }
}
