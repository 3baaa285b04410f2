/** The `Status` returned by every fallible operation, and the fail-fast
    `RETURN_IF_NOT_OK` chain that propagates the first failure. */
module Status {

  /** Failure kinds a collaborator may report. */
  datatype StatusCode =
    | ValidationError
    | NotFoundError
    | PermissionError
    | NullCapabilityError
    | LoweringError
    | UnexpectedError

  datatype Error = Error(code: StatusCode, message: string)

  /** `Status::OK()` or a failure. */
  datatype Status = Ok | Err(error: Error)

  /** A status together with a value produced on success. */
  datatype Result<+T> = Success(value: T) | Failure(error: Error)

  /** The status a sequence of `RETURN_IF_NOT_OK` steps ends with: the first
      step that is not OK, or OK when every step is. */
  function FirstError(steps: seq<Status>): (r: Status)
    ensures r == Ok <==> forall i :: 0 <= i < |steps| ==> steps[i] == Ok
    ensures r != Ok ==>
      exists i :: 0 <= i < |steps| && steps[i] == r && forall j :: 0 <= j < i ==> steps[j] == Ok
  {
    if steps == [] then Ok
    else if steps[0] != Ok then steps[0]
    else
      var rest := FirstError(steps[1..]);
      assert forall i :: 1 <= i < |steps| ==> steps[i] == steps[1..][i - 1];
      rest
  }

  /** One step of the chain: a failing head stops it, an OK head passes on to the rest. */
  lemma FirstErrorCons(head: Status, rest: seq<Status>)
    ensures FirstError([head] + rest) == if head != Ok then head else FirstError(rest)
  {
  }
}
