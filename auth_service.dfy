/**
 * The authentication service (backend/internal/services/auth_service.go) over a user repository.
 * The repository is the database behind the GORM repository: three indexes of one set of users, a set of
 * operations that currently fail with a database error, and the log of calls the service makes (what the
 * unit tests pin with AssertExpectations). bcrypt and JWT signing are stand-in functions; whether they
 * fail, the identifier uuid.New draws and the clock are inputs.
 */
module AuthService {
  import opened Base
  import opened Models
  import Uuid

  const EmailCheckFailed := "failed to check email existence"
  const EmailTaken := "email already exists"
  const UsernameCheckFailed := "failed to check username existence"
  const UsernameTaken := "username already exists"
  const HashFailed := "failed to hash password"
  const CreateFailed := "failed to create user"
  const TokenFailed := "failed to generate token"
  const InvalidCredentials := "invalid credentials"
  const InvalidUserId := "invalid user ID"
  const UserNotFound := "user not found"

  /** Stand-in for bcrypt.GenerateFromPassword: a hash that is never the plaintext. */
  function BcryptHash(password: string): (hash: string)
    ensures hash != password
  {
    "$2a$10$" + password
  }

  /** Stand-in for bcrypt.CompareHashAndPassword succeeding. */
  predicate BcryptMatches(hash: string, password: string) {
    hash == BcryptHash(password)
  }

  /** A stored hash matches exactly the password it was made from. */
  lemma BcryptMatchesOnlyItsPassword(password: string, attempt: string)
    ensures BcryptMatches(BcryptHash(password), attempt) <==> attempt == password
  {
    if BcryptMatches(BcryptHash(password), attempt) {
      assert BcryptHash(password)[7..] == password;
      assert BcryptHash(attempt)[7..] == attempt;
    }
  }

  /** Stand-in for the signed HS256 token carrying the user's id (claims and signature not modelled). */
  function SignJwt(secret: string, userId: string): (token: string)
    ensures token != ""
  {
    "eyJhbGciOiJIUzI1NiIsInR5cCI6IkpXVCJ9." + userId
  }

  datatype RepoOp = EmailExistsOp | UsernameExistsOp | CreateOp | GetByUsernameOp | GetByIdOp

  datatype RepoCall = EmailExistsCall(email: string) | UsernameExistsCall(username: string) | CreateCall(user: User)

  /** What the service gives back: Go's (*User, string, error). */
  datatype AuthOutcome = AuthOutcome(user: Option<User>, token: string, err: Option<string>)

  /** What GetUserByID gives back: Go's (*User, error). */
  datatype LookupOutcome = LookupOutcome(user: Option<User>, err: Option<string>)

  /** Inputs Register draws from outside: the id uuid.New yields, the clock, and whether bcrypt or signing fails. */
  datatype Environment = Environment(newId: string, now: int, hashFails: bool, signFails: bool)

  /** The user Register asks the repository to create: no id yet, hashed password. */
  function NewUser(req: RegisterRequest): (u: User)
    ensures u.name == req.name && u.username == req.username && u.email == req.email
    ensures u.password != req.password && BcryptMatches(u.password, req.password)
  {
    User(Uuid.Nil, req.name, req.username, req.email, BcryptHash(req.password), 0)
  }

  /** Three indexes of one set of users, by id, by email and by username, each user under its own keys. */
  ghost predicate Indexed(byId: map<string, User>, byEmail: map<string, User>, byUsername: map<string, User>) {
    (forall k :: k in byId ==>
      byId[k].id == k && byId[k].email in byEmail && byEmail[byId[k].email] == byId[k] &&
      byId[k].username in byUsername && byUsername[byId[k].username] == byId[k]) &&
    (forall e :: e in byEmail ==> byEmail[e].email == e && byEmail[e].id in byId && byId[byEmail[e].id] == byEmail[e]) &&
    (forall n :: n in byUsername ==>
      byUsername[n].username == n && byUsername[n].id in byId && byId[byUsername[n].id] == byUsername[n])
  }

  /** Adding a user whose id, email and username are all new keeps the indexes in step. */
  lemma InsertKeepsIndexed(byId: map<string, User>, byEmail: map<string, User>, byUsername: map<string, User>, u: User)
    requires Indexed(byId, byEmail, byUsername)
    requires u.id !in byId && u.email !in byEmail && u.username !in byUsername
    ensures Indexed(byId[u.id := u], byEmail[u.email := u], byUsername[u.username := u])
  {
  }

  class UserRepository {
    var byId: map<string, User>
    var byEmail: map<string, User>
    var byUsername: map<string, User>
    var failing: set<RepoOp>
    var calls: seq<RepoCall>

    /** The three indexes hold the same users, each under its own key: ids, emails and usernames are unique. */
    ghost predicate Valid()
      reads this
    {
      Indexed(byId, byEmail, byUsername)
    }

    constructor (failing: set<RepoOp>)
      ensures Valid()
      ensures byId == map[] && byEmail == map[] && byUsername == map[]
      ensures this.failing == failing && calls == []
    {
      byId, byEmail, byUsername := map[], map[], map[];
      this.failing := failing;
      calls := [];
    }

    method EmailExists(email: string) returns (found: bool, failed: bool)
      modifies this`calls
      ensures calls == old(calls) + [EmailExistsCall(email)]
      ensures failed <==> EmailExistsOp in failing
      ensures found <==> !failed && email in byEmail
    {
      calls := calls + [EmailExistsCall(email)];
      failed := EmailExistsOp in failing;
      found := !failed && email in byEmail;
    }

    method UsernameExists(username: string) returns (found: bool, failed: bool)
      modifies this`calls
      ensures calls == old(calls) + [UsernameExistsCall(username)]
      ensures failed <==> UsernameExistsOp in failing
      ensures found <==> !failed && username in byUsername
    {
      calls := calls + [UsernameExistsCall(username)];
      failed := UsernameExistsOp in failing;
      found := !failed && username in byUsername;
    }

    /**
     * Create with GORM's BeforeCreate hook: a nil id is replaced by `newId` and the creation time is set.
     * A database error, or a clash on any unique key, fails and stores nothing.
     */
    method Create(user: User, newId: string, now: int) returns (stored: User, failed: bool)
      requires Valid()
      modifies this
      ensures Valid() && failing == old(failing)
      ensures calls == old(calls) + [CreateCall(user)]
      ensures stored == user.(id := if user.id == Uuid.Nil then newId else user.id, createdAt := now)
      ensures failed <==>
        CreateOp in failing || stored.id in old(byId) || user.email in old(byEmail) || user.username in old(byUsername)
      ensures failed ==> byId == old(byId) && byEmail == old(byEmail) && byUsername == old(byUsername)
      ensures !failed ==>
        byId == old(byId)[stored.id := stored] && byEmail == old(byEmail)[user.email := stored] &&
        byUsername == old(byUsername)[user.username := stored]
    {
      calls := calls + [CreateCall(user)];
      stored := user.(id := if user.id == Uuid.Nil then newId else user.id, createdAt := now);
      failed := CreateOp in failing || stored.id in byId || user.email in byEmail || user.username in byUsername;
      if !failed {
        InsertKeepsIndexed(byId, byEmail, byUsername, stored);
        byId := byId[stored.id := stored];
        byEmail := byEmail[user.email := stored];
        byUsername := byUsername[user.username := stored];
      }
    }

    /** GetByUsername: the user, or an error (not found or a database error). */
    function GetByUsername(username: string): (r: Option<User>)
      reads this
      ensures r.Some? <==> GetByUsernameOp !in failing && username in byUsername
      ensures r.Some? ==> r.value.username == username || !Valid()
    {
      if GetByUsernameOp in failing || username !in byUsername then None else Some(byUsername[username])
    }

    /** GetByID: the user, or an error (not found or a database error). */
    function GetById(id: string): (r: Option<User>)
      reads this
      ensures r.Some? <==> GetByIdOp !in failing && id in byId
      ensures r.Some? ==> r.value.id == id || !Valid()
    {
      if GetByIdOp in failing || id !in byId then None else Some(byId[id])
    }
  }

  class Service {
    const repo: UserRepository
    const jwtSecret: string

    constructor (repo: UserRepository, jwtSecret: string)
      ensures this.repo == repo && this.jwtSecret == jwtSecret
    {
      this.repo := repo;
      this.jwtSecret := jwtSecret;
    }

    /**
     * Register: email check, then username check, then hashing, creation and signing. Each failure returns
     * no user and an empty token and stops before the next repository call.
     */
    method Register(req: RegisterRequest, env: Environment) returns (out: AuthOutcome)
      requires repo.Valid()
      modifies repo
      ensures repo.Valid() && repo.failing == old(repo.failing)
      ensures out.err.Some? ==> out.user == None && out.token == ""
      // The email check.
      ensures EmailExistsOp in repo.failing ==>
        out.err == Some(EmailCheckFailed) && repo.calls == old(repo.calls) + [EmailExistsCall(req.email)]
      ensures EmailExistsOp !in repo.failing && req.email in old(repo.byEmail) ==>
        out.err == Some(EmailTaken) && repo.calls == old(repo.calls) + [EmailExistsCall(req.email)]
      // The username check, reached only with a free email.
      ensures EmailExistsOp !in repo.failing && req.email !in old(repo.byEmail) ==>
        |repo.calls| >= |old(repo.calls)| + 2 && repo.calls[..|old(repo.calls)| + 2] ==
        old(repo.calls) + [EmailExistsCall(req.email), UsernameExistsCall(req.username)]
      ensures EmailExistsOp !in repo.failing && req.email !in old(repo.byEmail) && UsernameExistsOp in repo.failing ==>
        out.err == Some(UsernameCheckFailed) && |repo.calls| == |old(repo.calls)| + 2
      ensures EmailExistsOp !in repo.failing && req.email !in old(repo.byEmail) && UsernameExistsOp !in repo.failing &&
              req.username in old(repo.byUsername) ==>
        out.err == Some(UsernameTaken) && |repo.calls| == |old(repo.calls)| + 2
      // Hashing and creation, reached only with a free email and a free username.
      ensures EmailExistsOp !in repo.failing && req.email !in old(repo.byEmail) && UsernameExistsOp !in repo.failing &&
              req.username !in old(repo.byUsername) ==>
        if env.hashFails then
          out.err == Some(HashFailed) && |repo.calls| == |old(repo.calls)| + 2
        else
          repo.calls == old(repo.calls) +
            [EmailExistsCall(req.email), UsernameExistsCall(req.username), CreateCall(NewUser(req))]
      // Nothing is stored unless creation is reached and succeeds.
      ensures out.err in {Some(EmailCheckFailed), Some(EmailTaken), Some(UsernameCheckFailed), Some(UsernameTaken),
                          Some(HashFailed), Some(CreateFailed)} ==>
        repo.byId == old(repo.byId) && repo.byEmail == old(repo.byEmail) && repo.byUsername == old(repo.byUsername)
      // Success: the new user carries the request's name, username and email and a hash of the password.
      ensures out.err == None <==>
        EmailExistsOp !in repo.failing && req.email !in old(repo.byEmail) &&
        UsernameExistsOp !in repo.failing && req.username !in old(repo.byUsername) &&
        !env.hashFails && CreateOp !in repo.failing && env.newId !in old(repo.byId) && !env.signFails
      ensures out.err == None ==>
        var u := User(env.newId, req.name, req.username, req.email, BcryptHash(req.password), env.now);
        out.user == Some(u) && u.password != req.password && out.token == SignJwt(jwtSecret, env.newId) &&
        repo.byId == old(repo.byId)[env.newId := u] && repo.byEmail == old(repo.byEmail)[req.email := u] &&
        repo.byUsername == old(repo.byUsername)[req.username := u]
      // Past both checks and hashing: creation fails exactly on a database error or a reused id; signing
      // fails only after a successful creation, which stays stored.
      ensures EmailExistsOp !in repo.failing && req.email !in old(repo.byEmail) && UsernameExistsOp !in repo.failing &&
              req.username !in old(repo.byUsername) && !env.hashFails ==>
        (out.err == Some(CreateFailed) <==> CreateOp in repo.failing || env.newId in old(repo.byId)) &&
        (out.err == Some(TokenFailed) <==> CreateOp !in repo.failing && env.newId !in old(repo.byId) && env.signFails)
      ensures out.err == Some(TokenFailed) ==>
        var u := User(env.newId, req.name, req.username, req.email, BcryptHash(req.password), env.now);
        repo.byId == old(repo.byId)[env.newId := u] && repo.byEmail == old(repo.byEmail)[req.email := u] &&
        repo.byUsername == old(repo.byUsername)[req.username := u]
      ensures out.err in {None, Some(EmailCheckFailed), Some(EmailTaken), Some(UsernameCheckFailed), Some(UsernameTaken),
                          Some(HashFailed), Some(CreateFailed), Some(TokenFailed)}
    {
      var emailExists, emailFailed := repo.EmailExists(req.email);
      if emailFailed {
        return AuthOutcome(None, "", Some(EmailCheckFailed));
      }
      if emailExists {
        return AuthOutcome(None, "", Some(EmailTaken));
      }

      var usernameExists, usernameFailed := repo.UsernameExists(req.username);
      if usernameFailed {
        return AuthOutcome(None, "", Some(UsernameCheckFailed));
      }
      if usernameExists {
        return AuthOutcome(None, "", Some(UsernameTaken));
      }

      ghost var checked := repo.calls;
      assert checked == old(repo.calls) + [EmailExistsCall(req.email), UsernameExistsCall(req.username)];
      out := Store(req, env);
      assert repo.calls[..|checked|] == checked;
    }

    /** The second half of Register, once both checks have passed: hashing, creation, then signing. */
    method Store(req: RegisterRequest, env: Environment) returns (out: AuthOutcome)
      requires repo.Valid()
      modifies repo
      ensures repo.Valid() && repo.failing == old(repo.failing)
      ensures out.err.Some? ==> out.user == None && out.token == ""
      ensures out.err in {None, Some(HashFailed), Some(CreateFailed), Some(TokenFailed)}
      ensures env.hashFails ==> out.err == Some(HashFailed) && repo.calls == old(repo.calls)
      ensures !env.hashFails ==> repo.calls == old(repo.calls) + [CreateCall(NewUser(req))]
      ensures out.err in {Some(HashFailed), Some(CreateFailed)} ==>
        repo.byId == old(repo.byId) && repo.byEmail == old(repo.byEmail) && repo.byUsername == old(repo.byUsername)
      ensures out.err == None <==>
        !env.hashFails && CreateOp !in repo.failing && env.newId !in old(repo.byId) &&
        req.email !in old(repo.byEmail) && req.username !in old(repo.byUsername) && !env.signFails
      ensures out.err == None ==>
        var u := User(env.newId, req.name, req.username, req.email, BcryptHash(req.password), env.now);
        out.user == Some(u) && out.token == SignJwt(jwtSecret, env.newId) &&
        repo.byId == old(repo.byId)[env.newId := u] && repo.byEmail == old(repo.byEmail)[req.email := u] &&
        repo.byUsername == old(repo.byUsername)[req.username := u]
      // Creation fails exactly on a database error or a clash on a unique key; signing fails only after it.
      ensures !env.hashFails ==>
        (out.err == Some(CreateFailed) <==>
           CreateOp in repo.failing || env.newId in old(repo.byId) ||
           req.email in old(repo.byEmail) || req.username in old(repo.byUsername))
      ensures out.err == Some(TokenFailed) <==>
        !env.hashFails && CreateOp !in repo.failing && env.newId !in old(repo.byId) &&
        req.email !in old(repo.byEmail) && req.username !in old(repo.byUsername) && env.signFails
      // A signing failure leaves the created user stored.
      ensures out.err == Some(TokenFailed) ==>
        var u := User(env.newId, req.name, req.username, req.email, BcryptHash(req.password), env.now);
        repo.byId == old(repo.byId)[env.newId := u] && repo.byEmail == old(repo.byEmail)[req.email := u] &&
        repo.byUsername == old(repo.byUsername)[req.username := u]
    {
      if env.hashFails {
        return AuthOutcome(None, "", Some(HashFailed));
      }

      var user, createFailed := repo.Create(NewUser(req), env.newId, env.now);
      if createFailed {
        return AuthOutcome(None, "", Some(CreateFailed));
      }

      if env.signFails {
        return AuthOutcome(None, "", Some(TokenFailed));
      }
      return AuthOutcome(Some(user), SignJwt(jwtSecret, user.id), None);
    }

    /** Login: an unknown user, a database error and a wrong password all become "invalid credentials". */
    function Login(req: LoginRequest, signFails: bool): (out: AuthOutcome)
      reads repo
      ensures out.err.Some? ==> out.user == None && out.token == ""
      ensures out.err == Some(InvalidCredentials) <==>
        repo.GetByUsername(req.username) == None || !BcryptMatches(repo.GetByUsername(req.username).value.password, req.password)
      // Signing is reached, and its failure reported, only for a stored user whose password matches.
      ensures out.err == Some(TokenFailed) <==>
        repo.GetByUsername(req.username).Some? &&
        BcryptMatches(repo.GetByUsername(req.username).value.password, req.password) && signFails
      ensures out.err == None <==>
        repo.GetByUsername(req.username).Some? &&
        BcryptMatches(repo.GetByUsername(req.username).value.password, req.password) && !signFails
      ensures out.err == None ==>
        out.user == repo.GetByUsername(req.username) && out.token == SignJwt(jwtSecret, out.user.value.id)
      ensures out.err in {None, Some(InvalidCredentials), Some(TokenFailed)}
    {
      match repo.GetByUsername(req.username)
      case None => AuthOutcome(None, "", Some(InvalidCredentials))
      case Some(user) =>
        if !BcryptMatches(user.password, req.password) then AuthOutcome(None, "", Some(InvalidCredentials))
        else if signFails then AuthOutcome(None, "", Some(TokenFailed))
        else AuthOutcome(Some(user), SignJwt(jwtSecret, user.id), None)
    }

    /** GetUserByID: an unparsable id is "invalid user ID"; any failed lookup is "user not found". */
    function GetUserById(userId: string): (out: LookupOutcome)
      reads repo
      ensures out.err.Some? ==> out.user == None
      ensures out.err == Some(InvalidUserId) <==> Uuid.Parse(userId) == None
      ensures out.err == Some(UserNotFound) <==>
        Uuid.Parse(userId).Some? && repo.GetById(Uuid.Parse(userId).value) == None
      ensures out.err == None ==> out.user == repo.GetById(Uuid.Parse(userId).value) && out.user.Some?
      ensures out.err in {None, Some(InvalidUserId), Some(UserNotFound)}
      // A parsable id of a stored user is found.
      ensures out.err == None <==> Uuid.Parse(userId).Some? && repo.GetById(Uuid.Parse(userId).value).Some?
    {
      match Uuid.Parse(userId)
      case None => LookupOutcome(None, Some(InvalidUserId))
      case Some(id) =>
        match repo.GetById(id)
        case None => LookupOutcome(None, Some(UserNotFound))
        case Some(user) => LookupOutcome(Some(user), None)
    }
  }

  /**
   * A successful registration is followed by a successful login with the same username and password,
   * which returns the user just stored (given that lookups work and signing succeeds).
   */
  method RegisterThenLogin(service: Service, req: RegisterRequest, env: Environment)
    returns (registered: AuthOutcome, loggedIn: AuthOutcome)
    requires service.repo.Valid() && GetByUsernameOp !in service.repo.failing
    modifies service.repo
    ensures registered.err == None ==> loggedIn.err == None && loggedIn.user == registered.user
  {
    registered := service.Register(req, env);
    loggedIn := service.Login(LoginRequest(req.username, req.password), false);
    if registered.err == None {
      BcryptMatchesOnlyItsPassword(req.password, req.password);
    }
  }
}
