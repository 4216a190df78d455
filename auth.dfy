/**
 * The authentication and order endpoints of `ApiService`: `login`, which
 * never reports a failure and falls back to a demo identity, and the
 * mutations `register` and `createOrder`, which always report one, and
 * the profile read.
 */
module Auth {
  import opened Wrappers
  import opened Text
  import opened Entities
  import opened Http

  datatype Credentials = Credentials(usernameOrEmail: string, password: string)

  /** The body of a successful `login` or `register` response. */
  datatype AuthResponse = AuthResponse(user: User, tokens: AuthTokens, message: string)

  const MockTokens := AuthTokens("mock_access_token", "mock_refresh_token")

  /** `credentials.username_or_email.toLowerCase() === 'admin'` */
  predicate IsAdminLogin(identifier: string) {
    ToLower(identifier) == "admin"
  }

  /** The identifiers the demo fallback treats as the administrator: "admin" in any letter case. */
  lemma AdminLoginIsCaseInsensitive(identifier: string)
    ensures IsAdminLogin(identifier) <==>
              |identifier| == 5 && forall i :: 0 <= i < 5 ==> identifier[i] == "admin"[i] || identifier[i] == "ADMIN"[i]
  {
    if |identifier| == 5 {
      forall i | 0 <= i < 5
        ensures ToLower(identifier)[i] == "admin"[i] <==> identifier[i] == "admin"[i] || identifier[i] == "ADMIN"[i]
      {
      }
      assert IsAdminLogin(identifier) <==> forall i :: 0 <= i < 5 ==> ToLower(identifier)[i] == "admin"[i];
    }
  }

  /** The demo identity built when the login request fails. */
  function MockUser(identifier: string): (u: User)
    ensures u.username == identifier
    ensures u.isStaff == u.isSuperuser == IsAdminLogin(identifier)
    ensures u.isActive
  {
    var admin := IsAdminLogin(identifier);
    User(
      1,
      identifier,
      if admin then "admin@yuvakart.com" else identifier + "@example.com",
      if admin then "Admin" else "John",
      if admin then "User" else "Doe",
      "+91 9876543210",
      "1990-01-01",
      "123 Admin Street, City, State - 123456",
      admin,
      admin,
      true)
  }

  /**
   * The message `login` derives from a non-2xx response before it throws:
   * `detail`, else `message`, else `error`, else the first non-field error,
   * else "Login failed". When the body is not JSON the code goes on to call
   * `response.text()`, but `response.json()` has already consumed the body,
   * so that call rejects too and the message is "Login failed - server error".
   */
  function LoginErrorMessage(body: ErrorBody): (m: string)
    ensures m != ""
    ensures body.JsonBody? && body.detail != "" ==> m == body.detail
    ensures body.JsonBody? && body.detail == "" && body.message != "" ==> m == body.message
    ensures body.JsonBody? && body.detail == "" && body.message == "" && body.error != "" ==> m == body.error
    ensures body.JsonBody? && body.detail == "" && body.message == "" && body.error == "" ==>
              m == (if |body.nonFieldErrors| > 0 && body.nonFieldErrors[0] != "" then body.nonFieldErrors[0] else "Login failed")
    ensures body.NotJson? ==> m == "Login failed - server error"
  {
    match body
    case NotJson(_) => "Login failed - server error"
    case JsonBody(detail, message, error, nonField) =>
      if detail != "" then detail
      else if message != "" then message
      else if error != "" then error
      else if |nonField| > 0 && nonField[0] != "" then nonField[0]
      else "Login failed"
  }

  /**
   * `login`: the server's response on success; on any failure (the thrown
   * `LoginErrorMessage` included) the catch discards the error and answers
   * with the demo identity and the mock tokens.
   */
  function Login(credentials: Credentials, outcome: Outcome<AuthResponse>): (r: AuthResponse)
    ensures outcome.Ok? ==> r == outcome.value
    ensures !outcome.Ok? ==> r.user.username == credentials.usernameOrEmail
    ensures !outcome.Ok? ==> r.user.isStaff == r.user.isSuperuser == IsAdminLogin(credentials.usernameOrEmail)
    ensures !outcome.Ok? ==> r.tokens == MockTokens && r.message == "Login successful"
  {
    match outcome
    case Ok(response) => response
    case HttpError(_, body) =>
      var _ := LoginErrorMessage(body);
      AuthResponse(MockUser(credentials.usernameOrEmail), MockTokens, "Login successful")
    case NetworkError(_) =>
      AuthResponse(MockUser(credentials.usernameOrEmail), MockTokens, "Login successful")
  }

  /** The error message computed on a non-2xx login never reaches the caller. */
  lemma LoginIgnoresFailureDetail(credentials: Credentials, a: Outcome<AuthResponse>, b: Outcome<AuthResponse>)
    requires !a.Ok? && !b.Ok?
    ensures Login(credentials, a) == Login(credentials, b)
  {
  }

  /** An administrator's identifier typed in capitals still yields an administrator in the demo fallback. */
  lemma UpperCaseAdminIsAdmin(outcome: Outcome<AuthResponse>)
    requires !outcome.Ok?
    ensures Login(Credentials("ADMIN", "x"), outcome).user.isStaff
    ensures Login(Credentials("ADMIN", "x"), outcome).user.isSuperuser
  {
    AdminLoginIsCaseInsensitive("ADMIN");
  }

  /** The registration payload sent to `/auth/register/`. */
  datatype RegisterPayload = RegisterPayload(
    username: string,
    email: string,
    firstName: string,
    lastName: string,
    phone: string,
    password: string,
    passwordConfirm: string)

  /** `register`: a mutation whose error text is the body's `detail`. */
  function Register(outcome: Outcome<AuthResponse>): (r: Result<AuthResponse, ApiError>)
    ensures r.Success? <==> outcome.Ok?
    ensures outcome.HttpError? && outcome.body.JsonBody? && outcome.body.detail == "" ==>
              r.error.message == "Registration failed"
  {
    Mutation(outcome, DetailField, "Registration failed")
  }

  /** What `createOrder` returns on success (the server's order record). */
  datatype Order = Order(id: int, customerName: string, totalAmount: int, orderStatus: string, paymentStatus: string)

  /** `createOrder`: a mutation whose error text is the body's `error`. */
  function CreateOrder(outcome: Outcome<Order>): (r: Result<Order, ApiError>)
    ensures r.Success? <==> outcome.Ok?
    ensures outcome.HttpError? && outcome.body.JsonBody? ==>
              r.error.message == if outcome.body.error != "" then outcome.body.error else "Failed to create order"
  {
    Mutation(outcome, ErrorTextField, "Failed to create order")
  }

  /**
   * `getProfile(token?)`: the profile read, sending a `Bearer` header only
   * when it is given a token; a non-2xx response becomes
   * "Failed to fetch profile", with no fallback.
   */
  function GetProfile(token: Option<string>, outcome: Outcome<User>): (s: Sent<User>)
    ensures s.authorization == AuthorizationHeader(token)
    ensures s.result.Success? <==> outcome.Ok?
    ensures outcome.Ok? ==> s.result.value == outcome.value
    ensures outcome.HttpError? ==> s.result.error.message == "Failed to fetch profile"
  {
    Authenticated(token, outcome, "Failed to fetch profile")
  }
}
