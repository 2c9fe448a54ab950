/** What several modules need. */
module Basics {

  datatype Option<T> = None | Some(value: T)

  /** A second in the nanoseconds of Go durations. */
  const SECOND := 1_000_000_000

  lemma {:induction false} Assoc<T>(a: seq<T>, b: seq<T>, c: seq<T>)
    ensures a + b + c == a + (b + c)
  {}
}
