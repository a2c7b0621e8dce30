/** Datatypes and the library search routine that the other modules share. */
module Basics {
  datatype Option<+T> = None | Some(value: T)

  type Positive = r: real | r > 0.0 witness 1.0

  function Abs(x: real): real {
    if x < 0.0 then -x else x
  }

  function MaxInt(a: int, b: int): int {
    if a < b then b else a
  }

  function MinInt(a: int, b: int): int {
    if a < b then a else b
  }

  ghost predicate Increasing(s: seq<int>) {
    forall i, j :: 0 <= i < j < |s| ==> s[i] < s[j]
  }

  /** The library's `bisect_right`: the position just after the last element that is at most x. */
  function BisectRight(s: seq<int>, x: int): (n: nat)
    ensures n <= |s|
    ensures n > 0 ==> s[n - 1] <= x
    ensures forall i :: n <= i < |s| ==> s[i] > x
  {
    if s == [] || s[|s| - 1] <= x then |s| else BisectRight(s[..|s| - 1], x)
  }

  /** The library's `bisect_left`, on integers. */
  function BisectLeft(s: seq<int>, x: int): (n: nat)
    ensures n <= |s|
    ensures n > 0 ==> s[n - 1] < x
    ensures forall i :: n <= i < |s| ==> s[i] >= x
  {
    BisectRight(s, x - 1)
  }

  /** Python's `round` to an integer: nearest, ties to even. */
  function RoundHalfEven(x: real): (n: int)
    ensures -0.5 <= n as real - x <= 0.5
    ensures n as real - x == 0.5 || n as real - x == -0.5 ==> n % 2 == 0
  {
    var n := (x + 0.5).Floor;
    if n as real == x + 0.5 && n % 2 != 0 then n - 1 else n
  }
}
