/** Result and error values shared by every module of the model.

    The source reports failures by raising Python exceptions; the model returns
    them as values: `Err(e)` is "the call raised e". */
module Base {

  datatype Option<+T> = None | Some(value: T)

  /** The cloud failures the source tells apart (the `ClientError` codes and
      botocore's `WaiterError`), as an explicit kind. */
  datatype Fault =
    | Throttling        // ClientError with code ThrottlingException
    | NotFound          // the service or rule does not exist
    | WaiterTimeout     // botocore WaiterError
    | OtherClientError  // any other ClientError

  /** The exceptions the core raises, one constructor per exception class.
      The argument names the missing or invalid key, parameter or attribute;
      for the built-in TypeError and ValueError it is a short label of the
      failing operation, not Python's full message. */
  datatype Error =
    | EnvironmentValueNotFound(key: string)  // "" when the environment list itself is missing
    | ParameterNotFound(param: string)
    | ParameterInvalid(param: string)
    | VariableNotFound(param: string)
    | KeyError(key: string)
    | TypeError(what: string)
    | ValueError(what: string)
    | AttributeError(attr: string)
    | NameError(name: string)
    | TemplateError(what: string)            // a bare `Exception(...)` about a template
    | DuplicateFamily(family: string)
    | DuplicateName(name: string)            // a service or task listed twice
    | TargetNotFound                         // a bare `Exception`: nothing left to deploy
    | UnknownState(state: string)            // a bare `Exception`: no such CloudWatch Event state
    | CloudFailure(fault: Fault)
    | SystemExit(code: int)                  // `sys.exit(code)`

  /** `ProcessStatus`: whether a deploy target has failed. */
  datatype ProcessStatus = Normal | Error

  datatype Result<+T> = Ok(value: T) | Err(error: Error) {
    predicate IsFailure() { Err? }
    function PropagateFailure<U>(): Result<U> requires Err? { Err(error) }
    function Extract(): T requires Ok? { value }
  }

  /** A `Result<bool>` is one of three values. The verifier sees the
      boolean inside only once the split is spelled out. */
  lemma BoolResultCases(x: Result<bool>)
    ensures x == Ok(true) || x == Ok(false) || x.Err?
  {
    if x.Ok? {
      if x.value { assert x == Ok(true); } else { assert x == Ok(false); }
    }
  }

  /** A check that either passes or raises. */
  datatype Outcome = Pass | Fail(error: Error) {
    predicate IsFailure() { Fail? }
    function PropagateFailure<U>(): Result<U> requires Fail? { Err(error) }
  }
}
