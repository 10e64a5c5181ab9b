/** The optional value used throughout the models. */
module Common {
  datatype Option<+T> = None | Some(value: T)

  // A predicate that is folded this many times hides its body from the verifier where it is
  // only passed on; the number means nothing else.
  const FOLDS: nat := 20

  function Max(a: int, b: int): int { if a < b then b else a }

  function Min(a: int, b: int): int { if a < b then a else b }
}
