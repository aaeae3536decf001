/** Branded identifiers and the small result types that every component shares. */
module Basics {

  /** Names one revision on every device (packages/core/src/types.ts). */
  datatype RevisionId = RevisionId(text: string)

  datatype VaultId = VaultId(text: string)

  datatype Option<+T> = None | Some(value: T)

  datatype Result<+T, +E> = Ok(value: T) | Err(error: E)

  /** A sequence that stands for a JavaScript Set, in insertion order. */
  predicate NoDuplicates<T(==)>(s: seq<T>) {
    forall i, j :: 0 <= i < j < |s| ==> s[i] != s[j]
  }

  function Max(a: int, b: int): int {
    if a >= b then a else b
  }

  function SeqToSet<T>(s: seq<T>): set<T> {
    set x | x in s
  }

  lemma NoDuplicatesAppend<T>(s: seq<T>, x: T)
    requires NoDuplicates(s) && x !in s
    ensures NoDuplicates(s + [x])
  {
  }
}
