/** Facts about sequence concatenation that the filter proofs use, stated once for any element type. */
module Seqs {
  lemma ConcatAssociative<T>(a: seq<T>, b: seq<T>, c: seq<T>)
    ensures (a + b) + c == a + (b + c)
  {
  }

  /** `b` split into everything but its last element, and that element. */
  lemma LastSplit<T>(a: seq<T>, b: seq<T>)
    requires b != []
    ensures b == b[..|b| - 1] + [b[|b| - 1]]
    ensures a + b == (a + b[..|b| - 1]) + [b[|b| - 1]]
  {
    ConcatAssociative(a, b[..|b| - 1], [b[|b| - 1]]);
  }

  /** `a + b` split into the first element of `a`, and the rest. */
  lemma FirstSplit<T>(a: seq<T>, b: seq<T>)
    requires a != []
    ensures (a + b)[0] == a[0] && (a + b)[1..] == a[1..] + b
  {
  }
}
