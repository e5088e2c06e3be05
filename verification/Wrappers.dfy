/** An optional value: std::optional, a lookup that may fail, or a call that may throw. */
module Wrappers {
  datatype Option<T> = None | Some(value: T)
}

/** Concatenation. */
module Sequences {
  lemma {:induction false} Associate<T>(a: seq<T>, b: seq<T>, c: seq<T>)
    ensures a + (b + c) == a + b + c
  {
  }
}
