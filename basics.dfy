/** Small value types shared by the optimizer and the tuner. */
module Basics {

  /** A value that may be absent (Python's None). */
  datatype Option<T> = None | Some(value: T)

  /**
   * A cost bound that may still be infinite: the optimizer's incumbent cost and the
   * tuner's best score for a key both start at float('inf') and are lowered only by
   * strictly smaller integer costs.
   */
  datatype Bound = Infinite | Finite(value: int)

  /** `c < b`, where every integer is below infinity. */
  predicate Below(c: int, b: Bound) {
    b.Infinite? || c < b.value
  }

  function Min(x: int, y: int): (m: int)
    ensures m <= x && m <= y && (m == x || m == y)
  {
    if x <= y then x else y
  }

  function Max(x: int, y: int): (m: int)
    ensures m >= x && m >= y && (m == x || m == y)
  {
    if x >= y then x else y
  }

  /** Every entry is at most the one before it. */
  ghost predicate NonIncreasing(s: seq<int>) {
    forall i, j :: 0 <= i < j < |s| ==> s[j] <= s[i]
  }

  /** Appending a value no larger than the last entry keeps a sequence non-increasing. */
  lemma AppendKeepsNonIncreasing(s: seq<int>, x: int)
    requires NonIncreasing(s) && (s != [] ==> x <= s[|s| - 1])
    ensures NonIncreasing(s + [x])
  {
  }
}
