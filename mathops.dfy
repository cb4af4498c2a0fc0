/** Math.max, Math.min and the clamp idiom `Math.max(lo, Math.min(hi, x))`
    that the rotation and overlay code use, over real numbers. */
module MathOps {

  function Max(a: real, b: real): (r: real)
    ensures r >= a && r >= b
    ensures r == a || r == b
  {
    if a >= b then a else b
  }

  function Min(a: real, b: real): (r: real)
    ensures r <= a && r <= b
    ensures r == a || r == b
  {
    if a <= b then a else b
  }

  function Abs(x: real): (r: real)
    ensures r >= 0.0
    ensures r == x || r == -x
  {
    if x >= 0.0 then x else -x
  }

  /** `Math.max(lo, Math.min(hi, x))`: never below `lo`; for a proper
      interval it is `x` pulled into `[lo, hi]`. */
  function Clamp(lo: real, hi: real, x: real): (r: real)
    ensures r >= lo
    ensures lo <= hi ==> r <= hi
    ensures lo <= x <= hi ==> r == x
    ensures lo <= hi && x > hi ==> r == hi
    ensures x < lo ==> r == lo
  {
    Max(lo, Min(hi, x))
  }
}
