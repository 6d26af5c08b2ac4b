/** Shared vocabulary: optional values and Python's total slicing. */
module Prelude {

  datatype Option<+T> = None | Some(value: T)

  /** Where Python clips index `i` of a sequence of length `n`: a negative
      index counts from the end, and nothing leaves `0..n`. */
  function Norm(i: int, n: nat): (r: nat)
    ensures r <= n
    ensures 0 <= i <= n ==> r == i
  {
    if i > n then n
    else if i >= 0 then i
    else if n + i >= 0 then n + i
    else 0
  }

  /** `s[:i]` */
  function Before<T>(s: seq<T>, i: int): seq<T> {
    s[..Norm(i, |s|)]
  }

  /** `s[i:]` */
  function After<T>(s: seq<T>, i: int): seq<T> {
    s[Norm(i, |s|)..]
  }

  /** `s[i:j]` */
  function Slice<T>(s: seq<T>, i: int, j: int): seq<T> {
    var lo, hi := Norm(i, |s|), Norm(j, |s|);
    if lo <= hi then s[lo..hi] else []
  }

  /** `s[:start] + replacement + s[start + length:]`, the one shape every
      text-changing command builds. */
  function Splice<T>(s: seq<T>, start: int, length: int, replacement: seq<T>): seq<T> {
    Before(s, start) + replacement + After(s, start + length)
  }

  ghost predicate NoDuplicates<T>(s: seq<T>) {
    forall i, j :: 0 <= i < j < |s| ==> s[i] != s[j]
  }
}
