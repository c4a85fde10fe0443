/** Java's nullable references and thrown exceptions, as values. */
module Wrappers {

  /** A Java reference that may be null: `None` stands for null. */
  datatype Option<+T> = None | Some(value: T)

  /** The outcome of a call that either returns a value or throws. */
  datatype Result<+T, +E> = Ok(value: T) | Err(error: E)
}

/** Choosing an element of a non-empty set. */
module Sets {

  lemma NoElementsEmpty<T>(s: set<T>)
    requires forall x :: x !in s
    ensures s == {}
  {
  }

  /** Some element of `s`. */
  method Pick<T>(s: set<T>) returns (x: T)
    requires s != {}
    ensures x in s
  {
    if !(exists y :: y in s) {
      NoElementsEmpty(s);
    }
    x :| x in s;
  }
}
