/** Option and Result values for the lookups and parses that raise in the original code. */
module Wrappers {

  /** `None` stands for a failed dictionary lookup (Python's KeyError). */
  datatype Option<+T> = None | Some(value: T)

  /** A computation that either yields a value or fails with an error. */
  datatype Result<+T, +E> = Ok(value: T) | Err(error: E) {

    predicate IsFailure() {
      Err?
    }

    function PropagateFailure<U>(): Result<U, E>
      requires Err?
    {
      Err(error)
    }

    function Extract(): T
      requires Ok?
    {
      value
    }
  }
}

/** The extended reals that numpy produces by division by zero and uses as the identity of minimum. */
module ExtendedReals {

  datatype ExtReal = Finite(value: real) | PlusInfinity

  /** `x > bound` for a possibly infinite `x`. */
  predicate Above(x: ExtReal, bound: real) {
    x.PlusInfinity? || x.value > bound
  }

  /** `x < bound` for a possibly infinite `x`. */
  predicate Below(x: ExtReal, bound: real) {
    x.Finite? && x.value < bound
  }

  /** The smaller of two extended reals (numpy's `minimum`). */
  function Min(x: ExtReal, y: ExtReal): (m: ExtReal)
    ensures m == x || m == y
    ensures y.Finite? ==> m.Finite? && m.value <= y.value
    ensures x.Finite? ==> m.Finite? && m.value <= x.value
    ensures m.PlusInfinity? <==> x.PlusInfinity? && y.PlusInfinity?
  {
    match (x, y)
    case (PlusInfinity, _) => y
    case (_, PlusInfinity) => x
    case (Finite(a), Finite(b)) => if a <= b then x else y
  }

  lemma MinAssociative(x: ExtReal, y: ExtReal, z: ExtReal)
    ensures Min(Min(x, y), z) == Min(x, Min(y, z))
  {
  }
}
