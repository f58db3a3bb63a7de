/** Option and Result values shared by the modules of the model. */
module Wrappers {

  /** A value that may be absent (JavaScript `undefined`, a missing field). */
  datatype Option<+T> = None | Some(value: T)

  /** The outcome of an operation that can fail with an error of type E. */
  datatype Result<+T, +E> = Ok(value: T) | Err(error: E)
}

/** Facts about sequences that the scanners' and parsers' loops share. */
module Seqs {

  /** A slice is the slice one shorter followed by its last element. */
  lemma SliceSnoc<T>(s: seq<T>, a: nat, b: nat)
    requires a < b <= |s|
    ensures s[a..b] == s[a..b - 1] + [s[b - 1]]
  {
  }

  /** A non-empty sequence is its front followed by its last element. */
  lemma InitLast<T>(s: seq<T>)
    requires s != []
    ensures s[..|s| - 1] + [s[|s| - 1]] == s
  {
  }

  /** Appending one element and then the rest is appending both at once. */
  lemma AppendShift<T>(d: seq<T>, t: T, r: seq<T>)
    ensures d + ([t] + r) == (d + [t]) + r
  {
  }

  /** Two elements put in front one at a time are the pair put in front. */
  lemma ConsPair<T>(a: T, b: T, r: seq<T>)
    ensures [a] + ([b] + r) == [a, b] + r
  {
  }

  /** An element put in front of a pair and the rest is the triple put in front. */
  lemma ConsTriple<T>(a: T, b: T, c: T, r: seq<T>)
    ensures [a] + ([b, c] + r) == [a, b, c] + r
  {
  }
}
