/** The usual optional value. */
module Options {
  datatype Option<+T> = None | Some(value: T)
}

/** Definitions that stay folded in proofs. A predicate guarded by a quantifier over `Unfold` is a name to
    the verifier until a proof mentions `Unfold`, which opens it. */
module Folding {
  predicate Unfold(key: int) {
    true
  }
}
