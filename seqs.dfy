/** Order-preserving selection from a sequence, as `Array.prototype.filter` produces it. */
module Seqs {

  /** `a` is `b` with some elements dropped and the rest kept in their order. */
  ghost predicate IsSubsequence<T>(a: seq<T>, b: seq<T>)
    decreases |b|
  {
    if a == [] then true
    else if b == [] then false
    else (a[0] == b[0] && IsSubsequence(a[1..], b[1..])) || IsSubsequence(a, b[1..])
  }

}
