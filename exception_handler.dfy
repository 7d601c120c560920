/** The advice that turns every exception escaping a controller into an HTTP
    error response with a JSON body: the status code, a message, the time of
    the failure and, for request validation, the message of each field. */
module ExceptionHandler {
  import opened Base
  import opened Requests

  /** The HTTP statuses the handler answers with. */
  datatype HttpStatus = BadRequestStatus | Forbidden | NotFound | InternalServerError

  /** The numeric code of a status. */
  function Code(status: HttpStatus): (r: int)
    ensures 400 <= r < 600
    ensures r >= 500 <==> status == InternalServerError
    ensures status == BadRequestStatus <==> r == 400
    ensures status == Forbidden <==> r == 403
    ensures status == NotFound <==> r == 404
  {
    match status
    case BadRequestStatus => 400
    case Forbidden => 403
    case NotFound => 404
    case InternalServerError => 500
  }

  const ValidationFailedMessage := "Validation failed"
  const UnexpectedErrorMessage := "An unexpected error occurred"

  /** The JSON body; `fieldErrors` is null except for a failed validation. */
  datatype ErrorResponse = ErrorResponse(
    status: int,
    message: string,
    timestamp: int,
    fieldErrors: Option<map<string, string>>)

  /** A response: the status line and the body. */
  datatype Response = Response(status: HttpStatus, body: ErrorResponse)

  function Build(status: HttpStatus, message: string, fieldErrors: Option<map<string, string>>, now: int): Response {
    Response(status, ErrorResponse(Code(status), message, now, fieldErrors))
  }

  /** The handlers for the service exceptions. Not-found is 404, access
      denied 403, bad request and illegal argument 400, each with the
      exception's own message; any other exception is 500 with a generic
      message that hides what went wrong. */
  function Handle(e: Error, now: int): (r: Response)
    ensures r.body.status == Code(r.status)
    ensures r.body.timestamp == now && r.body.fieldErrors.None?
    ensures e.ResourceNotFound? <==> r.status == NotFound
    ensures e.AccessDenied? <==> r.status == Forbidden
    ensures e.BadRequest? || e.IllegalArgument? <==> r.status == BadRequestStatus
    ensures e.Unexpected? <==> r.status == InternalServerError
    ensures !e.Unexpected? ==> r.body.message == e.message
    ensures e.Unexpected? ==> r.body.message == UnexpectedErrorMessage
  {
    match e
    case ResourceNotFound(m) => Build(NotFound, m, None, now)
    case AccessDenied(m) => Build(Forbidden, m, None, now)
    case BadRequest(m) => Build(BadRequestStatus, m, None, now)
    case IllegalArgument(m) => Build(BadRequestStatus, m, None, now)
    case Unexpected(_) => Build(InternalServerError, UnexpectedErrorMessage, None, now)
  }

  /** The map from field to message that results from putting the errors into
      a hash map in order: a later error on the same field replaces an
      earlier one. */
  function FieldErrorMap(errors: seq<FieldError>): (r: map<string, string>)
    ensures forall f :: f in r ==> exists e :: e in errors && e.field == f && e.message == r[f]
  {
    if |errors| == 0 then map[]
    else FieldErrorMap(errors[..|errors| - 1])[errors[|errors| - 1].field := errors[|errors| - 1].message]
  }

  /** Every field with an error, and only those, is a key of the map. */
  lemma {:induction false} FieldErrorMapKeys(errors: seq<FieldError>)
    ensures FieldErrorMap(errors).Keys == set e | e in errors :: e.field
  {
    if |errors| > 0 {
      var init := errors[..|errors| - 1];
      FieldErrorMapKeys(init);
      assert errors == init + [errors[|errors| - 1]];
    }
  }

  /** The message kept for a field is that of its last error. */
  lemma {:induction false} FieldErrorMapLastWins(errors: seq<FieldError>, k: int)
    requires 0 <= k < |errors|
    requires forall j :: k < j < |errors| ==> errors[j].field != errors[k].field
    ensures errors[k].field in FieldErrorMap(errors)
    ensures FieldErrorMap(errors)[errors[k].field] == errors[k].message
  {
    if k < |errors| - 1 {
      var init := errors[..|errors| - 1];
      FieldErrorMapLastWins(init, k);
    }
  }

  /** With one error per field, the map holds every error: nothing is lost. */
  lemma DistinctFieldsAllKept(errors: seq<FieldError>)
    requires forall i, j :: 0 <= i < j < |errors| ==> errors[i].field != errors[j].field
    ensures forall k :: 0 <= k < |errors| ==>
      errors[k].field in FieldErrorMap(errors) && FieldErrorMap(errors)[errors[k].field] == errors[k].message
  {
    forall k | 0 <= k < |errors|
      ensures errors[k].field in FieldErrorMap(errors) && FieldErrorMap(errors)[errors[k].field] == errors[k].message
    {
      FieldErrorMapLastWins(errors, k);
    }
  }

  /** The handler for a request body that failed validation: 400, a fixed
      message and the field errors collected in a hash map. */
  method HandleValidation(errors: seq<FieldError>, now: int) returns (r: Response)
    ensures r.status == BadRequestStatus && r.body.status == 400
    ensures r.body.message == ValidationFailedMessage && r.body.timestamp == now
    ensures r.body.fieldErrors == Some(FieldErrorMap(errors))
  {
    var fields: map<string, string> := map[];
    var i := 0;
    while i < |errors|
      invariant 0 <= i <= |errors|
      invariant fields == FieldErrorMap(errors[..i])
    {
      assert errors[..i + 1][..i] == errors[..i];
      fields := fields[errors[i].field := errors[i].message];
      i := i + 1;
    }
    assert errors[..|errors|] == errors;
    r := Build(BadRequestStatus, ValidationFailedMessage, Some(fields), now);
  }

  /** A booking request that fails validation gets one entry per violated
      field, each with its message. */
  lemma BookingValidationReportsEveryViolation(req: BookingRequest, today: int)
    ensures var errors := BookingRequestViolations(req, today);
      forall k :: 0 <= k < |errors| ==>
        errors[k].field in FieldErrorMap(errors) && FieldErrorMap(errors)[errors[k].field] == errors[k].message
  {
    BookingViolationFieldsDistinct(req, today);
    DistinctFieldsAllKept(BookingRequestViolations(req, today));
  }
}
