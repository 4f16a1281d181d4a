/** Small numeric and sequence helpers shared by the modules below. */
module Common {

  /** The `Field(ge=0.0, le=1.0)` constraint of the source's records. */
  predicate InUnit(x: real)
  {
    0.0 <= x <= 1.0
  }

  /** Python's `min(a, b)` on numbers. */
  function Min(a: real, b: real): (r: real)
    ensures r <= a && r <= b
    ensures r == a || r == b
  {
    if a <= b then a else b
  }

  /** Python's `abs`. */
  function Abs(x: real): (r: real)
    ensures r >= 0.0
    ensures r == x || r == -x
  {
    if x < 0.0 then -x else x
  }

  /** Python's slice `s[-n:]` for n > 0: the last n elements, or all of s when it is shorter. */
  function LastN<T>(s: seq<T>, n: nat): (r: seq<T>)
    requires n > 0
    ensures |r| == if |s| < n then |s| else n
    ensures r == s[|s| - |r|..]
  {
    if |s| > n then s[|s| - n..] else s
  }
}
