/** Order-preserving selection from a sequence. */
module Seqs {

  /** `xs` is obtained from `ys` by deleting elements, keeping the order. */
  predicate IsSubseq<T(==)>(xs: seq<T>, ys: seq<T>)
    decreases |ys|
  {
    if xs == [] then true
    else if ys == [] then false
    else if xs[0] == ys[0] then IsSubseq(xs[1..], ys[1..])
    else IsSubseq(xs, ys[1..])
  }

  lemma {:induction false} IsSubseqReflexive<T>(xs: seq<T>)
    ensures IsSubseq(xs, xs)
    decreases |xs|
  {
    if xs != [] { IsSubseqReflexive(xs[1..]); }
  }
}
