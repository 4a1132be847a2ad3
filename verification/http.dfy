/** The request and response shapes the handlers exchange with the HTTP framework, and
    the framework's JSON binding with its `binding:"..."` validation tags. */
module Http {
  import opened Models

  const StatusOK := 200
  const StatusCreated := 201
  const StatusBadRequest := 400
  const StatusUnauthorized := 401
  const StatusForbidden := 403
  const StatusNotFound := 404
  const StatusInternalServerError := 500

  /** A request body. JSON decoding into a Go struct leaves absent fields at "", so one
      record with every field any handler reads stands for every well-formed body. */
  datatype Payload =
    | Unparsable
    | Json(username: string, email: string, password: string, role: string)

  datatype Body =
    | ErrorBody(error: string)
    /** The binder's own message, whose text is not modelled. */
    | BindErrorBody
    | MessageBody(message: string)
    | TokenBody(token: string)
    | UserBody(user: User)
    | UsersBody(users: seq<User>)
    /** The static content of the placeholder post handlers. */
    | PostsBody
    /** What the framework writes when a handler panics or no route matches. */
    | EmptyBody

  datatype Response = Response(status: int, body: Body)

  /** A handler that may write to the store: the store afterwards and the response. */
  datatype Exchange = Exchange(store: Store, response: Response)

  function Error(status: int, message: string): Response
  {
    Response(status, ErrorBody(message))
  }

  datatype LoginRequest = LoginRequest(username: string, password: string)
  datatype RegisterRequest = RegisterRequest(username: string, email: string, password: string)
  datatype CreateUserRequest = CreateUserRequest(username: string, email: string, password: string, role: string)

  /** `binding:"required"` on both fields. */
  function BindLogin(p: Payload): (r: Option<LoginRequest>)
    ensures r.Some? <==> p.Json? && p.username != "" && p.password != ""
    ensures r.Some? ==> r.value.username == p.username && r.value.password == p.password
  {
    if p.Json? && p.username != "" && p.password != "" then Some(LoginRequest(p.username, p.password))
    else None
  }

  /** The checks shared by every sign-up form: `required` username, `required,email`
      email, `required,min=6` password (six runes). */
  function SignupFieldsValid(p: Payload, isEmail: string -> bool): (r: bool)
    ensures r ==> p.Json? && |p.password| >= 6 && isEmail(p.email)
    ensures r ==> BindLogin(p) == Some(LoginRequest(p.username, p.password))
  {
    p.Json? && p.username != "" && p.email != "" && isEmail(p.email) && p.password != "" && |p.password| >= 6
  }

  function BindRegister(p: Payload, isEmail: string -> bool): (r: Option<RegisterRequest>)
    ensures r.Some? <==> SignupFieldsValid(p, isEmail)
    ensures r.Some? ==> r.value.username == p.username && r.value.email == p.email && r.value.password == p.password
  {
    if SignupFieldsValid(p, isEmail) then Some(RegisterRequest(p.username, p.email, p.password))
    else None
  }

  /** As `BindRegister`, plus the optional, unvalidated `role` field. */
  function BindCreateUser(p: Payload, isEmail: string -> bool): (r: Option<CreateUserRequest>)
    ensures r.Some? <==> BindRegister(p, isEmail).Some?
    ensures r.Some? ==>
      && r.value.role == p.role
      && RegisterRequest(r.value.username, r.value.email, r.value.password) == BindRegister(p, isEmail).value
  {
    if SignupFieldsValid(p, isEmail) then Some(CreateUserRequest(p.username, p.email, p.password, p.role))
    else None
  }
}
