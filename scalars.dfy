/** The scalar helpers of the ray marcher: its own `min`, `max`, `abs` and the
    saturating `clamp`, all over exact reals. */
module Scalars {

  /** `min(v1, v2)`: returns `v2` when `v1 > v2`, otherwise `v1`. */
  function Min(v1: real, v2: real): (r: real)
    ensures r <= v1 && r <= v2
    ensures r == v1 || r == v2
  {
    if v1 > v2 then v2 else v1
  }

  /** `max(v1, v2)`: returns `v2` when `v1 < v2`, otherwise `v1`. */
  function Max(v1: real, v2: real): (r: real)
    ensures r >= v1 && r >= v2
    ensures r == v1 || r == v2
  {
    if v1 < v2 then v2 else v1
  }

  /** `abs(v)`: negates negative values. */
  function Abs(v: real): (r: real)
    ensures r >= 0.0
    ensures r >= v && r >= -v
    ensures r == v || r == -v
  {
    if v < 0.0 then -v else v
  }

  /** `clamp(value, lo, hi)` is `min(max(value, lo), hi)`: never above `hi`,
      inside `[lo, hi]` when that interval is non-empty, and the identity on it. */
  function Clamp(value: real, lo: real, hi: real): (r: real)
    ensures r <= hi
    ensures lo <= hi ==> lo <= r
    ensures lo <= value <= hi ==> r == value
    ensures value <= lo <= hi ==> r == lo
    ensures lo <= hi <= value ==> r == hi
  {
    Min(Max(value, lo), hi)
  }

  /** `Math.ceil` over reals: the least integer not below `x`. */
  function Ceil(x: real): (c: int)
    ensures (c - 1) as real < x <= c as real
  {
    if x.Floor as real == x then x.Floor else x.Floor + 1
  }

  /** The number of iterations of a loop `for (i = from; i < bound; i++)`
      whose bound is a real: `n` counters `from .. from + n - 1` pass the
      test and `from + n` fails it. */
  function CountBelow(from: int, bound: real): (n: nat)
    ensures n == 0 || ((from + n - 1) as real) < bound
    ensures bound <= (from + n) as real
  {
    if bound <= from as real then 0 else Ceil(bound) - from
  }

  /** Against an integer bound `k` the loop from 1 runs `max(0, k - 1)` times. */
  lemma CountBelowInteger(k: int)
    ensures CountBelow(1, k as real) == if k <= 1 then 0 else k - 1
  {
  }

  /** Against a real bound `t` the loop from 1 runs `max(0, ceil(t) - 1)` times. */
  lemma CountBelowCeil(t: real)
    ensures CountBelow(1, t) == if Ceil(t) <= 1 then 0 else Ceil(t) - 1
  {
  }
}
