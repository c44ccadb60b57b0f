/** Shared vocabulary: optional values, the distance oracle and small numeric helpers. */
module Basics {

  /** An optional value; `None` stands for a CSV field that is absent or empty. */
  datatype Option<+T> = None | Some(value: T) {
    /** The value, or `default` when there is none (Python's `x or default`). */
    function GetOr(default: T): T
    {
      match this
      case Some(v) => v
      case None => default
    }
  }

  /** A great-circle distance in kilometres; never negative. */
  type Km = r: real | 0.0 <= r

  /**
   * The haversine distance between (lat1, lon1) and (lat2, lon2).  The trigonometry
   * is not modelled: every operation that needs a distance receives this oracle.
   */
  type Distance = (real, real, real, real) -> Km

  function Min(a: int, b: int): int
  {
    if a <= b then a else b
  }

  /** Python's `max(a, b)` on numbers. */
  function MaxReal(a: real, b: real): real
  {
    if a >= b then a else b
  }

  /** Concatenation is associative; stated once so that proofs about output lists can cite it. */
  lemma AppendAssoc<T>(a: seq<T>, b: seq<T>, c: seq<T>)
    ensures a + (b + c) == (a + b) + c
  {
  }

  /** Entry `j` of the middle part of `a + b + c`. */
  lemma IndexMiddle<T>(a: seq<T>, b: seq<T>, c: seq<T>, j: int)
    requires 0 <= j < |b|
    ensures |a| + j < |a + b + c| && (a + b + c)[|a| + j] == b[j]
  {
    assert (a + b + c)[|a| + j] == (a + b)[|a| + j];
  }

  /** The whole of a sequence is its longest prefix. */
  lemma TakeAll<T>(s: seq<T>)
    ensures s[..|s|] == s
  {
  }

  /** The prefix of length `i + 1` is the prefix of length `i` and then entry `i`. */
  lemma TakeSnoc<T>(s: seq<T>, i: int)
    requires 0 <= i < |s|
    ensures s[..i + 1][..i] == s[..i] && s[..i + 1] == s[..i] + [s[i]]
  {
  }
}
