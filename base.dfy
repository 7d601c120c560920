/** Value types shared by every layer of the model: optional values, the
    exception kinds the services throw, and the result of an operation that
    either returns a value or throws one of them. */
module Base {

  datatype Option<+T> = None | Some(value: T)

  /** The exception kinds thrown by the services. `Unexpected` stands for any
      other runtime exception (unboxing a null, a query with a non-unique
      result); its message is never shown to the client. */
  datatype Error =
    | ResourceNotFound(message: string)
    | AccessDenied(message: string)
    | BadRequest(message: string)
    | IllegalArgument(message: string)
    | Unexpected(message: string)

  datatype Result<+T> = Ok(value: T) | Err(error: Error)

  /** The outcome of a check or of an operation that returns nothing. */
  datatype Outcome = Pass | Fail(error: Error)

  /** The index of the first element at or after `from` that satisfies `pred`
      (a stream's `filter(..).findFirst()`). */
  function FirstWhere<T>(s: seq<T>, pred: T -> bool, from: nat): (r: Option<nat>)
    requires from <= |s|
    ensures r.Some? ==> from <= r.value < |s| && pred(s[r.value])
    ensures r.Some? ==> forall j :: from <= j < r.value ==> !pred(s[j])
    ensures r.None? ==> forall j :: from <= j < |s| ==> !pred(s[j])
    decreases |s| - from
  {
    if from == |s| then None
    else if pred(s[from]) then Some(from)
    else FirstWhere(s, pred, from + 1)
  }
}
