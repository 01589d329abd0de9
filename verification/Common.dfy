/** What several modules share. */
module Common {
  datatype Option<+T> = None | Some(value: T)

  /** With the members that let `:-` return early. */
  datatype Result<+T, +E> = Ok(value: T) | Err(error: E) {
    predicate IsFailure() {
      Err?
    }

    function PropagateFailure<U>(): (r: Result<U, E>)
      requires Err?
      ensures r.Err? && r.error == error
    {
      Err(error)
    }

    function Extract(): (r: T)
      requires Ok?
      ensures r == value
    {
      value
    }
  }

  const U32_MAX: nat := 0xFFFF_FFFF

  const U64_MAX: nat := 0xFFFF_FFFF_FFFF_FFFF

  function Min(a: nat, b: nat): nat {
    if a <= b then a else b
  }
}
