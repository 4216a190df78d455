/**
 * What a request to the REST API can come back with, and the two shapes in
 * which `ApiService` turns that into a value or a thrown error: the mutation
 * shape (error text taken from the JSON error body) and the authenticated
 * shape (a `Bearer` header when a token is held, a fixed error text).
 */
module Http {
  import opened Wrappers

  /**
   * The body of a non-2xx response: a JSON object, read through the fields
   * the client looks at (an absent field is `""`), or text that is not JSON,
   * in which case `response.json()` throws a SyntaxError with `parseError`.
   */
  datatype ErrorBody =
    | JsonBody(detail: string, message: string, error: string, nonFieldErrors: seq<string>)
    | NotJson(parseError: string)

  /**
   * The outcome of one `fetch`: a 2xx response whose JSON body is `value`,
   * a non-2xx response, or a rejected `fetch` (a TypeError with `message`).
   */
  datatype Outcome<T> = Ok(value: T) | HttpError(status: int, body: ErrorBody) | NetworkError(message: string)

  /** An `Error` thrown to the caller, with its `message`. */
  datatype ApiError = ApiError(message: string)

  /** The error-body field a mutation reads its message from. */
  datatype ErrorField = DetailField | ErrorTextField

  function FieldOf(body: ErrorBody, field: ErrorField): string
    requires body.JsonBody?
  {
    match field
    case DetailField => body.detail
    case ErrorTextField => body.error
  }

  /**
   * The mutation shape (`createOrder`, `uploadPaymentProof`, `register`,
   * `forgotPassword`, `resetPassword`): the parsed body on success; on a
   * non-2xx response `new Error(error.<field> || fallback)`; a failed `fetch`
   * or an error body that is not JSON propagates its own error. Never a
   * substitute value.
   */
  function Mutation<T>(outcome: Outcome<T>, field: ErrorField, fallback: string): (r: Result<T, ApiError>)
    ensures r.Success? <==> outcome.Ok?
    ensures outcome.Ok? ==> r.value == outcome.value
    ensures outcome.NetworkError? ==> r.error.message == outcome.message
    ensures outcome.HttpError? && outcome.body.JsonBody? ==>
              r.error.message == (if FieldOf(outcome.body, field) != "" then FieldOf(outcome.body, field) else fallback)
    ensures outcome.HttpError? && outcome.body.NotJson? ==> r.error.message == outcome.body.parseError
  {
    match outcome
    case Ok(v) => Success(v)
    case NetworkError(m) => Failure(ApiError(m))
    case HttpError(_, body) =>
      if body.NotJson? then Failure(ApiError(body.parseError))
      else
        var text := FieldOf(body, field);
        Failure(ApiError(if text != "" then text else fallback))
  }

  /**
   * The `Authorization` header an authenticated request carries:
   * `Bearer <token>` when the token is truthy (section 2.1 of RFC 6750), none otherwise.
   */
  function AuthorizationHeader(token: Option<string>): (h: Option<string>)
    ensures h.Some? <==> token.Some? && token.value != ""
    ensures h.Some? ==> h.value == "Bearer " + token.value
  {
    if token.Some? && token.value != "" then Some("Bearer " + token.value) else None
  }

  /** A request as it leaves the client, with the result the caller sees. */
  datatype Sent<T> = Sent(authorization: Option<string>, result: Result<T, ApiError>)

  /**
   * The authenticated-request shape shared by the admin, integration and
   * address endpoints: the header from the token, the parsed body on success,
   * a fixed `Failed to ...` message on a non-2xx response (the body is not
   * read), and the `fetch` error when the request could not be sent.
   */
  function Authenticated<T>(token: Option<string>, outcome: Outcome<T>, failMessage: string): (s: Sent<T>)
    ensures s.authorization.Some? <==> token.Some? && token.value != ""
    ensures s.result.Success? <==> outcome.Ok?
    ensures outcome.Ok? ==> s.result.value == outcome.value
    ensures outcome.HttpError? ==> s.result.error.message == failMessage
    ensures outcome.NetworkError? ==> s.result.error.message == outcome.message
  {
    var result := match outcome
      case Ok(v) => Success(v)
      case HttpError(_, _) => Failure(ApiError(failMessage))
      case NetworkError(m) => Failure(ApiError(m));
    Sent(AuthorizationHeader(token), result)
  }
}
