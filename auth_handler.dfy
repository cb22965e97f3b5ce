/**
 * The authentication HTTP handlers (backend/internal/handlers/auth_handler.go) and the response shapes of
 * backend/internal/utils/response.go. Each handler maps the outcome of binding, validation and the service
 * to one status and body; gin's context writes are represented by the returned Response.
 */
module AuthHandler {
  import opened Base
  import opened Models
  import opened AuthValidators
  import opened AuthService

  /** The user fields a response exposes: never the password hash. */
  datatype UserView = UserView(id: string, name: string, username: string, email: string)

  datatype Payload =
    | AuthPayload(token: string, user: UserView)
    | ProfilePayload(user: UserView, createdAt: int)

  /** ErrorResponse (an empty code or details is omitted from the JSON) or SuccessResponse. */
  datatype Body =
    | ErrorBody(error: string, code: string, details: string)
    | SuccessBody(message: string, data: Option<Payload>)

  datatype Response = Response(status: int, body: Body)

  /** The outcome of ShouldBindJSON: the decoded request, or the text of the binding error. */
  datatype Bound<T> = Decoded(request: T) | BindFailed(details: string)

  function View(u: User): (v: UserView)
    ensures v.id == u.id && v.name == u.name && v.username == u.username && v.email == u.email
  {
    UserView(u.id, u.name, u.username, u.email)
  }

  /** RespondWithValidationError. */
  function BindErrorResponse(details: string): (r: Response)
    ensures r.status == 400 && r.body == ErrorBody("Validation failed", "VALIDATION_ERROR", details)
  {
    Response(400, ErrorBody("Validation failed", "VALIDATION_ERROR", details))
  }

  /** A custom-validation failure: the validator's message with code VALIDATION_ERROR. */
  function ValidationErrorResponse(message: string): (r: Response)
    ensures r.status == 400 && r.body == ErrorBody(message, "VALIDATION_ERROR", "")
  {
    Response(400, ErrorBody(message, "VALIDATION_ERROR", ""))
  }

  /** The switch on the error Register returns. */
  function RegisterErrorResponse(message: string): (r: Response)
    ensures r.body.ErrorBody?
    ensures r.status == 409 <==> message == EmailTaken || message == UsernameTaken
    ensures r.body.code == "EMAIL_EXISTS" <==> message == EmailTaken
    ensures r.body.code == "USERNAME_EXISTS" <==> message == UsernameTaken
    ensures r.status != 409 ==> r == Response(500, ErrorBody("Failed to create account", "", ""))
  {
    if message == EmailTaken then
      Response(409, ErrorBody("An account with this email already exists", "EMAIL_EXISTS", ""))
    else if message == UsernameTaken then
      Response(409, ErrorBody("This username is already taken", "USERNAME_EXISTS", ""))
    else
      Response(500, ErrorBody("Failed to create account", "", ""))
  }

  /** The switch on the error Login returns. */
  function LoginErrorResponse(message: string): (r: Response)
    ensures r.status == 401 <==> message == InvalidCredentials
    ensures r.status == 401 ==> r.body == ErrorBody("Invalid username or password", "INVALID_CREDENTIALS", "")
    ensures r.status != 401 ==> r == Response(500, ErrorBody("Login failed", "", ""))
  {
    if message == InvalidCredentials then
      Response(401, ErrorBody("Invalid username or password", "INVALID_CREDENTIALS", ""))
    else
      Response(500, ErrorBody("Login failed", "", ""))
  }

  /** The switch on the error GetUserByID returns. */
  function ProfileErrorResponse(message: string): (r: Response)
    ensures r.status == 400 <==> message == InvalidUserId
    ensures r.status == 404 <==> message == UserNotFound
    ensures r.status == 400 ==> r.body == ErrorBody("Invalid user ID", "INVALID_USER_ID", "")
    ensures r.status == 404 ==> r.body == ErrorBody("User not found", "USER_NOT_FOUND", "")
    ensures r.status !in {400, 404} ==> r == Response(500, ErrorBody("Failed to retrieve profile", "", ""))
  {
    if message == InvalidUserId then Response(400, ErrorBody("Invalid user ID", "INVALID_USER_ID", ""))
    else if message == UserNotFound then Response(404, ErrorBody("User not found", "USER_NOT_FOUND", ""))
    else Response(500, ErrorBody("Failed to retrieve profile", "", ""))
  }

  /** Logout: always 200, with no data. */
  function Logout(): (r: Response)
    ensures r.status == 200 && r.body == SuccessBody("Logout successful", None)
  {
    Response(200, SuccessBody("Logout successful", None))
  }

  class Handler {
    const service: Service

    constructor (service: Service)
      ensures this.service == service
    {
      this.service := service;
    }

    /** POST /register. A request that fails binding or validation never reaches the service. */
    method Register(input: Bound<RegisterRequest>, env: Environment) returns (resp: Response)
      requires service.repo.Valid()
      modifies service.repo
      ensures service.repo.Valid()
      ensures input.BindFailed? ==> resp == BindErrorResponse(input.details) && unchanged(service.repo)
      ensures input.Decoded? && ValidateRegisterRequest(input.request).Some? ==>
        resp == ValidationErrorResponse(ValidateRegisterRequest(input.request).value) && unchanged(service.repo)
      ensures resp.status in {201, 400, 409, 500}
      // A taken email, then a taken username, is a conflict with its own code.
      ensures input.Decoded? && ValidateRegisterRequest(input.request) == None &&
              EmailExistsOp !in service.repo.failing && input.request.email in old(service.repo.byEmail) ==>
        resp == Response(409, ErrorBody("An account with this email already exists", "EMAIL_EXISTS", ""))
      ensures input.Decoded? && ValidateRegisterRequest(input.request) == None &&
              EmailExistsOp !in service.repo.failing && input.request.email !in old(service.repo.byEmail) &&
              UsernameExistsOp !in service.repo.failing && input.request.username in old(service.repo.byUsername) ==>
        resp == Response(409, ErrorBody("This username is already taken", "USERNAME_EXISTS", ""))
      ensures resp.status == 409 <==>
        input.Decoded? && ValidateRegisterRequest(input.request) == None && EmailExistsOp !in service.repo.failing &&
        (input.request.email in old(service.repo.byEmail) ||
         (UsernameExistsOp !in service.repo.failing && input.request.username in old(service.repo.byUsername)))
      // Created: every repository step succeeds on a free email and username, and the token is signed.
      ensures resp.status == 201 <==>
        input.Decoded? && ValidateRegisterRequest(input.request) == None &&
        EmailExistsOp !in service.repo.failing && input.request.email !in old(service.repo.byEmail) &&
        UsernameExistsOp !in service.repo.failing && input.request.username !in old(service.repo.byUsername) &&
        !env.hashFails && CreateOp !in service.repo.failing && env.newId !in old(service.repo.byId) && !env.signFails
      ensures resp.status == 201 ==>
        var req := input.request;
        var u := User(env.newId, req.name, req.username, req.email, BcryptHash(req.password), env.now);
        resp.body == SuccessBody("Account created successfully",
                                 Some(AuthPayload(SignJwt(service.jwtSecret, env.newId), View(u)))) &&
        service.repo.byId == old(service.repo.byId)[env.newId := u]
      // Every other service failure, including a signing failure after the user was stored, is a 500.
      ensures input.Decoded? && ValidateRegisterRequest(input.request) == None && resp.status !in {201, 409} ==>
        resp == Response(500, ErrorBody("Failed to create account", "", ""))
    {
      if input.BindFailed? {
        return BindErrorResponse(input.details);
      }
      var req := input.request;
      var invalid := ValidateRegisterRequest(req);
      if invalid.Some? {
        return ValidationErrorResponse(invalid.value);
      }
      var out := service.Register(req, env);
      if out.err.Some? {
        return RegisterErrorResponse(out.err.value);
      }
      var user := out.user.value;
      return Response(201, SuccessBody("Account created successfully", Some(AuthPayload(out.token, View(user)))));
    }

    /** POST /login. */
    function Login(input: Bound<LoginRequest>, signFails: bool): (resp: Response)
      reads service.repo
      ensures input.BindFailed? ==> resp == BindErrorResponse(input.details)
      ensures input.Decoded? && ValidateLoginRequest(input.request).Some? ==>
        resp == ValidationErrorResponse(ValidateLoginRequest(input.request).value)
      ensures resp.status in {200, 400, 401, 500}
      ensures resp.status == 401 <==>
        input.Decoded? && ValidateLoginRequest(input.request) == None &&
        service.Login(input.request, signFails).err == Some(InvalidCredentials)
      ensures resp.status == 200 <==>
        input.Decoded? && ValidateLoginRequest(input.request) == None && service.Login(input.request, signFails).err == None
      ensures input.Decoded? && ValidateLoginRequest(input.request) == None && resp.status !in {200, 401} ==>
        resp == Response(500, ErrorBody("Login failed", "", ""))
      ensures resp.status == 200 ==>
        var user := service.repo.GetByUsername(input.request.username).value;
        resp.body == SuccessBody("Login successful", Some(AuthPayload(SignJwt(service.jwtSecret, user.id), View(user))))
    {
      match input
      case BindFailed(details) => BindErrorResponse(details)
      case Decoded(req) =>
        match ValidateLoginRequest(req)
        case Some(message) => ValidationErrorResponse(message)
        case None =>
          var out := service.Login(req, signFails);
          if out.err.Some? then LoginErrorResponse(out.err.value)
          else Response(200, SuccessBody("Login successful", Some(AuthPayload(out.token, View(out.user.value)))))
    }

    /** GET /profile; `userId` is what the authentication middleware stored, if anything. */
    function GetProfile(userId: Option<string>): (resp: Response)
      reads service.repo
      ensures userId == None ==> resp == Response(401, ErrorBody("User not authenticated", "NOT_AUTHENTICATED", ""))
      ensures resp.status in {200, 400, 401, 404}
      ensures resp.status == 401 <==> userId == None
      ensures resp.status == 200 <==> userId.Some? && service.GetUserById(userId.value).err == None
      ensures resp.status == 400 <==> userId.Some? && service.GetUserById(userId.value).err == Some(InvalidUserId)
      ensures resp.status == 404 <==> userId.Some? && service.GetUserById(userId.value).err == Some(UserNotFound)
      ensures resp.status == 200 ==>
        var user := service.GetUserById(userId.value).user.value;
        resp.body == SuccessBody("Profile retrieved successfully", Some(ProfilePayload(View(user), user.createdAt)))
    {
      match userId
      case None => Response(401, ErrorBody("User not authenticated", "NOT_AUTHENTICATED", ""))
      case Some(id) =>
        var out := service.GetUserById(id);
        if out.err.Some? then ProfileErrorResponse(out.err.value)
        else Response(200, SuccessBody("Profile retrieved successfully",
                                       Some(ProfilePayload(View(out.user.value), out.user.value.createdAt))))
    }
  }
}
