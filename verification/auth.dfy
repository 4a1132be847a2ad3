/** The `auth` package: the login and registration handlers as transitions of the store. */
module Auth {
  import opened Models
  import opened Collaborators
  import opened Http

  /** The name of the role registration attaches when it exists. */
  const DefaultRoleName := "user"

  /** The one body both login failures answer with. */
  const InvalidCredentials := Error(StatusUnauthorized, "invalid credentials")

  /** The response to a login whose user was found under id `uid`. */
  function LoginAs(cfg: Config, x: Services, s: Store, password: string, uid: Id): (r: Response)
    requires uid in s.users
    ensures !x.checkPasswordHash(password, s.users[uid].passwordHash) ==> r == InvalidCredentials
    ensures r.status == StatusOK <==>
      x.checkPasswordHash(password, s.users[uid].passwordHash) && x.generateJwt(cfg.jwtSecret, cfg.jwtHours, uid).Issued?
    ensures r.status == StatusOK ==> r.body == TokenBody(x.generateJwt(cfg.jwtSecret, cfg.jwtHours, uid).token)
    ensures r.status != StatusOK ==> r == InvalidCredentials || r == Error(StatusInternalServerError, "couldn't create token")
  {
    if !x.checkPasswordHash(password, s.users[uid].passwordHash) then InvalidCredentials
    else match x.generateJwt(cfg.jwtSecret, cfg.jwtHours, uid)
      case Issued(token) => Response(StatusOK, TokenBody(token))
      case IssueFailed => Error(StatusInternalServerError, "couldn't create token")
  }

  /** `auth.Login`. It only reads the store, so it returns no new store. */
  function Login(s: Store, cfg: Config, x: Services, p: Payload): (r: Response)
    requires Valid(s)
    ensures BindLogin(p).None? ==> r == Error(StatusBadRequest, "invalid payload")
    ensures BindLogin(p).Some? && (!s.online || !HasUserNamed(s, p.username)) ==> r == InvalidCredentials
    ensures forall uid :: BindLogin(p).Some? && s.online && uid in s.users && s.users[uid].username == p.username ==>
      r == LoginAs(cfg, x, s, p.password, uid)
    ensures r.status == StatusOK <==>
      exists uid :: && BindLogin(p).Some? && s.online && uid in s.users && s.users[uid].username == p.username
                    && x.checkPasswordHash(p.password, s.users[uid].passwordHash)
                    && x.generateJwt(cfg.jwtSecret, cfg.jwtHours, uid).Issued?
    ensures r.status == StatusUnauthorized ==> r == InvalidCredentials
  {
    match BindLogin(p)
    case None => Error(StatusBadRequest, "invalid payload")
    case Some(req) =>
      match FindUserByUsername(s, req.username)
      case Err(_) => InvalidCredentials
      case Ok(uid) => LoginAs(cfg, x, s, req.password, uid)
  }

  /** `auth.Register`. The configuration is accepted and not read. */
  function Register(s: Store, cfg: Config, x: Services, p: Payload): (e: Exchange)
    requires Valid(s)
    ensures Valid(e.store)
    ensures !SignupFieldsValid(p, x.isEmail) ==> e == Exchange(s, Response(StatusBadRequest, BindErrorBody))
    ensures SignupFieldsValid(p, x.isEmail) && x.hashPassword(p.password).failed ==>
      e == Exchange(s, Error(StatusInternalServerError, "couldn't hash password"))
    ensures (&& SignupFieldsValid(p, x.isEmail) && !x.hashPassword(p.password).failed
             && (!s.online || HasUserNamed(s, p.username) || HasUserWithEmail(s, p.email))) ==>
      e == Exchange(s, Error(StatusBadRequest, "couldn't create user"))
    ensures e.response.status == StatusCreated <==>
      && SignupFieldsValid(p, x.isEmail) && !x.hashPassword(p.password).failed
      && s.online && !HasUserNamed(s, p.username) && !HasUserWithEmail(s, p.email)
    ensures e.response.status != StatusCreated ==> e.store == s
    ensures e.response.status == StatusCreated ==>
      && e.response.body == MessageBody("user created")
      && Enrolled(s, e.store, UserRecord(p.username, p.email, x.hashPassword(p.password).digest), RolesNamed(s, DefaultRoleName))
  {
    match BindRegister(p, x.isEmail)
    case None => Exchange(s, Response(StatusBadRequest, BindErrorBody))
    case Some(req) =>
      var hash := x.hashPassword(req.password);
      if hash.failed then Exchange(s, Error(StatusInternalServerError, "couldn't hash password"))
      else
        match InsertUser(s, UserRecord(req.username, req.email, hash.digest))
        case Err(_) => Exchange(s, Error(StatusBadRequest, "couldn't create user"))
        case Ok(created) =>
          var t := GrantRoleNamed(created.0, created.1, DefaultRoleName);
          assert RolesNamed(created.0, DefaultRoleName) == RolesNamed(s, DefaultRoleName);
          Exchange(t, Response(StatusCreated, MessageBody("user created")))
  }

  /** Look the role up by name and, when found, append it to the user's roles; a missing
      role is skipped silently. Role names are unique, so the user gains every role of
      that name. */
  function GrantRoleNamed(s: Store, uid: Id, name: string): (t: Store)
    requires Valid(s)
    ensures Valid(t)
    ensures s.online && uid in s.users ==>
      t == s.(userRoles := s.userRoles + (set rid | rid in RolesNamed(s, name) :: UserRole(uid, rid)))
    ensures !s.online ==> t == s
  {
    match FindRoleByName(s, name)
    case Ok(rid) =>
      assert s.online ==> RolesNamed(s, name) == {rid};
      AppendUserRole(s, uid, rid)
    case Err(_) => s
  }

  /** An unknown username and a wrong password produce the same response. */
  lemma UniformInvalidCredentials(s1: Store, s2: Store, cfg: Config, x: Services, p: Payload, uid: Id)
    requires Valid(s1) && Valid(s2) && BindLogin(p).Some?
    requires !HasUserNamed(s1, p.username)
    requires s2.online && uid in s2.users && s2.users[uid].username == p.username
    requires !x.checkPasswordHash(p.password, s2.users[uid].passwordHash)
    ensures Login(s1, cfg, x, p) == Login(s2, cfg, x, p) == InvalidCredentials
  {
  }

  /** Registering and then logging in with the same password yields the token issued for
      the new user's id, assuming the hash verifies against its own password and the
      token is issued; a password that does not verify gets the uniform 401. */
  lemma {:induction false} RegisterThenLogin(s: Store, cfg: Config, x: Services, username: string, email: string, password: string, other: string)
    requires Valid(s) && s.online
    requires var p := Json(username, email, password, "");
      Register(s, cfg, x, p).response.status == StatusCreated
    requires x.checkPasswordHash(password, x.hashPassword(password).digest)
    requires x.generateJwt(cfg.jwtSecret, cfg.jwtHours, s.nextUserId).Issued?
    requires !x.checkPasswordHash(other, x.hashPassword(password).digest) && other != ""
    ensures var t := Register(s, cfg, x, Json(username, email, password, "")).store;
      && Login(t, cfg, x, Json(username, "", password, ""))
           == Response(StatusOK, TokenBody(x.generateJwt(cfg.jwtSecret, cfg.jwtHours, s.nextUserId).token))
      && Login(t, cfg, x, Json(username, "", other, "")) == InvalidCredentials
  {
    var t := Register(s, cfg, x, Json(username, email, password, "")).store;
    assert t.users[s.nextUserId] == UserRecord(username, email, x.hashPassword(password).digest);
    assert t.online;
  }
}
