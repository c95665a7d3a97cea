/** Failure-compatible wrappers shared by every module of the model. */
module Wrappers {

  /** An optional value: a Python attribute or key that may be absent. */
  datatype Option<+T> = None | Some(value: T) {
    function GetOr(default: T): T {
      match this
      case Some(v) => v
      case None => default
    }
  }

  /** The result of a Python call that either returns a value or raises. */
  datatype Result<+T, +E> = Success(value: T) | Failure(error: E) {
    predicate IsFailure() {
      Failure?
    }

    function PropagateFailure<U>(): Result<U, E>
      requires Failure?
    {
      Failure(error)
    }

    function Extract(): T
      requires Success?
    {
      value
    }
  }

  /** The result of a Python call run only for its effect. */
  datatype Outcome<+E> = Pass | Fail(error: E)

  /**
   * A call that changed state in place agrees with the function that specifies it: it fails
   * with the same error, or it passes and the new state is the specified one.
   */
  predicate Follows<S(==), E(==)>(r: Outcome<E>, expected: Result<S, E>, now: S) {
    match expected
    case Success(s) => r.Pass? && now == s
    case Failure(e) => r == Fail(e)
  }
}

/** The exceptions the modelled Python code can raise, one constructor per cause. */
module Errors {

  datatype Error =
    | InvalidName(name: string)            // ValueError from name validation
    | InvalidValue(value: string)          // ValueError from value validation
    | MissingAttribute(attribute: string)  // AttributeError
    | MissingKey(key: string)              // KeyError
    | EmptyModeHistory                     // IndexError: pop from an empty mode history
    | MissingSplitPiece(line: string)      // IndexError: a split produced too few pieces
    | VariableOutsideBlock(line: string)   // ValueError: a type line outside config/menuconfig/choice
    | TemplateNotFound(path: string)       // FileNotFoundError for a template file
}
