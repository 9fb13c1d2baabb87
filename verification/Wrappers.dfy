/** Optional values and the outcome of a call during which the process may die. */
module Wrappers {
  datatype Option<+T> = None | Some(value: T)

  /** A call either returns, or the process ends before it does. */
  datatype Outcome<+T> = Done(value: T) | Crashed {
    predicate IsFailure() { Crashed? }
    function PropagateFailure<U>(): Outcome<U> requires Crashed? { Crashed }
    function Extract(): T requires Done? { value }
  }

  predicate Yes(r: Outcome<bool>) { r.Done? && r.value }
  predicate No(r: Outcome<bool>) { r.Done? && !r.value }
}
