/** Shared by several parts of the system. */
module Wrappers {

  datatype Option<+T> = None | Some(value: T)
}

module Names {

  /** Identifiers, boot ids and tags, compared as values. */
  datatype Name = Name(text: string)
}

module Sequences {

  ghost predicate Distinct<T>(s: seq<T>) {
    forall i, j | 0 <= i < j < |s| :: s[i] != s[j]
  }
}
