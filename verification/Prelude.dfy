/** Shared vocabulary: optional values and a few facts about sequences and sets. */
module Prelude {

  datatype Option<+T> = None | Some(value: T)

  /** Instants are epoch milliseconds; ids are abstract but comparable. */
  type Instant = int
  type Owner = nat

  function Max(a: int, b: int): int {
    if a < b then b else a
  }

  function Min(a: int, b: int): int {
    if a < b then a else b
  }

  /** A deadline that is absent or not after `at` protects nothing. */
  predicate Expired(deadline: Option<Instant>, at: Instant) {
    deadline.None? || deadline.value <= at
  }

  predicate NoDuplicates<T(==)>(s: seq<T>) {
    forall i, j | 0 <= i < j < |s| :: s[i] != s[j]
  }
}
