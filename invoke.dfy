/** Continuations: a continuation over values of type `T` is a function `T -> R`. */
module Invoke {

  /** The continuation used by builders driven standalone: it hands back what it is given. */
  function Identity<T(!new)>(): (k: T -> T)
    ensures forall x :: k(x) == x
  {
    x => x
  }
}
