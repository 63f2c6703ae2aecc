/** The exceptions the simulator raises, and the result of an operation that
    may raise one. */
module Errors {

  /** Why a `ValueError` is raised. */
  datatype Reason =
    | UnknownState          // an initial-state label outside '0', '1', '+', '-'
    | UnknownGate           // a gate name outside H, X, Z, S, T
    | TooFewQubits          // a CNOT on a list of fewer than two qubits
    | UnsupportedOperation  // an operation that is neither (index, gate) nor ('CNOT', c, t)

  datatype Error =
    | ValueError(reason: Reason)  // raised by the simulator itself
    | IndexError                  // a qubit index outside the list, even after wrap-around

  datatype Result<+T> = Ok(value: T) | Err(error: Error)

  /** Python list indexing: -n <= i < 0 counts from the end of a list of
      length n, and anything outside [-n, n) raises IndexError. */
  function PyIndex(i: int, n: nat): (r: Result<nat>)
    ensures r.Ok? <==> -(n as int) <= i < n
    ensures r.Ok? ==> r.value < n && (r.value == i || r.value == i + n)
    ensures r.Err? ==> r.error == IndexError
  {
    if 0 <= i < n then Ok(i)
    else if -(n as int) <= i < 0 then Ok(i + n)
    else Err(IndexError)
  }
}
