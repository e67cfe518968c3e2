/** Small shared vocabulary: the optional value that stands for JavaScript's
    `null` / `undefined`. */
module Prelude {

  datatype Option<+T> = None | Some(value: T)

  /** The larger of two integers, as `Math.max`. */
  function Max(a: int, b: int): int
  {
    if a < b then b else a
  }

  /** The smaller of two integers, as `Math.min`. */
  function Min(a: int, b: int): int
  {
    if a < b then a else b
  }

  /** The elements of `s` in the opposite order. */
  function Reverse<T>(s: seq<T>): (r: seq<T>)
    ensures |r| == |s|
    ensures forall i :: 0 <= i < |s| ==> r[i] == s[|s| - 1 - i]
  {
    if s == [] then [] else Reverse(s[1..]) + [s[0]]
  }

  /** Dividing by a positive number keeps the order (Dafny's `/` is floor
      division for a positive divisor). */
  lemma DivMonotone(a: int, b: int, c: int)
    requires a <= b && c > 0
    ensures a / c <= b / c
  {
    var q1, q2 := a / c, b / c;
    assert a == q1 * c + a % c;
    assert b == q2 * c + b % c;
    var x := q2 - q1 + 1;
    assert x * c == q2 * c - q1 * c + c;
    assert x * c > 0;
  }
}
