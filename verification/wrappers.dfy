/** What every part of the model shares. */
module Wrappers {
  /** A value that may be absent. */
  datatype Option<+T> = None | Some(value: T)

  /** What stands behind `Look`, as in `forall b {:trigger Look(b)} :: Look(b) ==> P`, is looked into only
      where a proof mentions it. */
  predicate Look(b: bool) { true }
}
