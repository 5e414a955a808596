/** The outcome types every module shares. */
module Results {
  datatype Option<+T> = None | Some(value: T)

  /** A computed value, or the refusal the program raises as an exception. */
  datatype Result<+T> = Ok(value: T) | Refused {
    predicate IsFailure() { Refused? }

    function PropagateFailure<U>(): Result<U>
      requires Refused?
    {
      Refused
    }

    function Extract(): T
      requires Ok?
    {
      value
    }
  }

  datatype Check = Pass | Fail {
    predicate IsFailure() { Fail? }

    function PropagateFailure<U>(): Result<U>
      requires Fail?
    {
      Refused
    }
  }

  function Need(condition: bool): Check {
    if condition then Pass else Fail
  }
}
