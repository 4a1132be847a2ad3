/** The `controllers` package: the handlers the router actually mounts. */
module Controllers {
  import opened Models
  import opened Collaborators
  import opened Http
  import opened Middleware
  import Auth

  // ---------------------------------------------------------------------------
  // AuthController

  /** `AuthController.Register`, step for step as the controller writes it. */
  function Register(s: Store, cfg: Config, x: Services, p: Payload): (e: Exchange)
    requires Valid(s)
    ensures e == Auth.Register(s, cfg, x, p)
  {
    match BindRegister(p, x.isEmail)
    case None => Exchange(s, Response(StatusBadRequest, BindErrorBody))
    case Some(req) =>
      var hash := x.hashPassword(req.password);
      if hash.failed then Exchange(s, Error(StatusInternalServerError, "couldn't hash password"))
      else
        match InsertUser(s, UserRecord(req.username, req.email, hash.digest))
        case Err(_) => Exchange(s, Error(StatusBadRequest, "couldn't create user"))
        case Ok(created) =>
          var (s1, uid) := created;
          var t := match FindRoleByName(s1, "user")
            case Ok(rid) => AppendUserRole(s1, uid, rid)
            case Err(_) => s1;
          Exchange(t, Response(StatusCreated, MessageBody("user created")))
  }

  /** `AuthController.Login`, step for step as the controller writes it. */
  function Login(s: Store, cfg: Config, x: Services, p: Payload): (r: Response)
    requires Valid(s)
    ensures r == Auth.Login(s, cfg, x, p)
  {
    match BindLogin(p)
    case None => Error(StatusBadRequest, "invalid payload")
    case Some(req) =>
      match FindUserByUsername(s, req.username)
      case Err(_) => Error(StatusUnauthorized, "invalid credentials")
      case Ok(uid) =>
        if !x.checkPasswordHash(req.password, s.users[uid].passwordHash) then Error(StatusUnauthorized, "invalid credentials")
        else match x.generateJwt(cfg.jwtSecret, cfg.jwtHours, uid)
          case IssueFailed => Error(StatusInternalServerError, "couldn't create token")
          case Issued(token) => Response(StatusOK, TokenBody(token))
  }

  // ---------------------------------------------------------------------------
  // UserController

  /** `UserController.Me`. The type assertion on the context value panics when the slot
      is unset or holds something else; the framework's recovery answers 500. */
  function Me(current: ContextValue): (r: Response)
    ensures r.status == StatusOK <==> current.Holds?
    ensures current.Holds? ==> r.body.UserBody? && r.body.user.passwordHash == ""
                               && ToJson(r.body.user) == ToJson(current.user)
    ensures !current.Holds? ==> r == Response(StatusInternalServerError, EmptyBody)
  {
    match current
    case Holds(user) => Response(StatusOK, UserBody(Sanitize(user)))
    case _ => Response(StatusInternalServerError, EmptyBody)
  }

  /** The listing with every hash cleared. */
  function SanitizeAll(users: seq<User>): (r: seq<User>)
    ensures |r| == |users|
    ensures forall i :: 0 <= i < |r| ==>
      && r[i].id == users[i].id && r[i].passwordHash == ""
      && ToJson(r[i]) == ToJson(users[i])
      && r[i].(passwordHash := users[i].passwordHash) == users[i]
  {
    seq(|users|, i requires 0 <= i < |users| => Sanitize(users[i]))
  }

  /** `UserController.ListUsers`. The error of `Find` is not checked, so an unreachable
      store yields an empty listing with status 200. */
  function ListUsers(s: Store): (r: Response)
    requires Valid(s)
    ensures r.status == StatusOK && r.body.UsersBody?
    ensures !s.online ==> r.body.users == []
    ensures s.online ==> forall id :: id in s.users <==> exists i :: 0 <= i < |r.body.users| && r.body.users[i].id == id
    ensures forall i, j :: 0 <= i < j < |r.body.users| ==> r.body.users[i].id < r.body.users[j].id
    ensures forall i :: 0 <= i < |r.body.users| ==>
      && r.body.users[i].id in s.users
      && r.body.users[i].passwordHash == ""
      && ToJson(r.body.users[i]) == ToJson(LoadUser(s, r.body.users[i].id))
  {
    Response(StatusOK, UsersBody(SanitizeAll(LoadAllUsers(s))))
  }

  /** The roles a sign-up form asks for: none when the field is empty, otherwise the role
      of that name if there is one. */
  function RequestedRoles(s: Store, role: string): set<Id>
  {
    if role == "" then {} else RolesNamed(s, role)
  }

  /** `user` as the response shows it after the optional append: GORM's `Append` also
      appends the role, as `First` loaded it, to the user's `Roles` field. */
  function AttachRole(s1: Store, uid: Id, role: string): (r: (Store, seq<Role>))
    requires Valid(s1)
    ensures Valid(r.0)
    ensures s1.online && uid in s1.users ==>
      r.0 == s1.(userRoles := s1.userRoles + (set rid | rid in RequestedRoles(s1, role) :: UserRole(uid, rid)))
    ensures s1.online ==>
      forall x :: x in r.1 <==> exists rid :: rid in RequestedRoles(s1, role) && x == LoadBareRole(s1, rid)
  {
    if role == "" then (s1, [])
    else match FindRoleByName(s1, role)
      case Ok(rid) =>
        assert s1.online ==> RolesNamed(s1, role) == {rid};
        (AppendUserRole(s1, uid, rid), [LoadBareRole(s1, rid)])
      case Err(_) => (s1, [])
  }

  /** `UserController.CreateUser`. Unlike registration, a hashing error is discarded and
      the digest returned with it is stored anyway. */
  function CreateUser(s: Store, x: Services, p: Payload): (e: Exchange)
    requires Valid(s)
    ensures Valid(e.store)
    ensures !SignupFieldsValid(p, x.isEmail) ==> e == Exchange(s, Response(StatusBadRequest, BindErrorBody))
    ensures (SignupFieldsValid(p, x.isEmail) && (!s.online || HasUserNamed(s, p.username) || HasUserWithEmail(s, p.email))) ==>
      e == Exchange(s, Error(StatusBadRequest, "couldn't create user"))
    ensures e.response.status == StatusCreated <==>
      SignupFieldsValid(p, x.isEmail) && s.online && !HasUserNamed(s, p.username) && !HasUserWithEmail(s, p.email)
    ensures e.response.status != StatusCreated ==> e.store == s
    ensures e.response.status == StatusCreated ==>
      && p.Json?
      && Enrolled(s, e.store, UserRecord(p.username, p.email, x.hashPassword(p.password).digest), RequestedRoles(s, p.role))
      && e.response.body.UserBody?
      && e.response.body.user.id == s.nextUserId
      && e.response.body.user.username == p.username && e.response.body.user.email == p.email
      && e.response.body.user.passwordHash == ""
      && (forall r :: r in e.response.body.user.roles <==>
            exists rid :: rid in RequestedRoles(s, p.role) && r == LoadBareRole(s, rid))
  {
    match BindCreateUser(p, x.isEmail)
    case None => Exchange(s, Response(StatusBadRequest, BindErrorBody))
    case Some(req) =>
      var hash := x.hashPassword(req.password).digest;
      match InsertUser(s, UserRecord(req.username, req.email, hash))
      case Err(_) => Exchange(s, Error(StatusBadRequest, "couldn't create user"))
      case Ok(created) =>
        var (s1, uid) := created;
        var (t, roles) := AttachRole(s1, uid, req.role);
        assert RequestedRoles(s1, req.role) == RequestedRoles(s, req.role);
        Exchange(t, Response(StatusCreated, UserBody(Sanitize(User(uid, req.username, req.email, hash, roles)))))
  }

  // ---------------------------------------------------------------------------
  // Properties across handlers

  /** What `Me` shows for the user the middleware resolved is that user as stored, hash
      cleared, carrying exactly the grants of its roles. */
  lemma MeShowsResolvedUser(cfg: Config, x: Services, s: Store, h: string)
    requires Valid(s) && MiddlewareFunc(cfg, x, s, h).Resolved?
    ensures var u := MiddlewareFunc(cfg, x, s, h).user;
      && u.id in s.users
      && Me(Holds(u)) == Response(StatusOK, UserBody(Sanitize(LoadUser(s, u.id))))
      && EffectivePermissions(Me(Holds(u)).body.user) == GrantedNames(s, u.id)
  {
    var t, uid :| Presents(h, t) && x.parseJwt(cfg.jwtSecret, t) == Claims(uid) && s.online && uid in s.users;
    LoadedGrantsMatchStore(s, uid);
  }

  /** An enrolled user appears in the listing of the store it was enrolled into, shown as
      stored with its hash hidden, and it holds exactly the roles it was enrolled with. */
  lemma EnrolledUserIsListed(s: Store, t: Store, rec: UserRecord, roleIds: set<Id>)
    requires Valid(s) && Valid(t) && s.online && Enrolled(s, t, rec, roleIds)
    ensures s.nextUserId in t.users && t.users[s.nextUserId] == rec
    ensures RoleIdsOf(t, s.nextUserId) == roleIds
    ensures exists i :: && 0 <= i < |ListUsers(t).body.users|
                        && ListUsers(t).body.users[i].id == s.nextUserId
                        && ListUsers(t).body.users[i].passwordHash == ""
                        && ToJson(ListUsers(t).body.users[i]) == ToJson(LoadUser(t, s.nextUserId))
  {
    EnrolledRoles(s, t, rec, roleIds);
    assert t.online by {
      assert t.(users := s.users, nextUserId := s.nextUserId, userRoles := s.userRoles).online == s.online;
    }
    assert s.nextUserId in t.users;
    var users := ListUsers(t).body.users;
    assert exists i :: 0 <= i < |users| && users[i].id == s.nextUserId;
    var i :| 0 <= i < |users| && users[i].id == s.nextUserId;
  }

  /** A user created through the admin endpoint appears in the next listing, shown as
      stored with its hash hidden, holding exactly the roles it was created with. */
  lemma CreatedUserIsListed(s: Store, x: Services, p: Payload)
    requires Valid(s) && CreateUser(s, x, p).response.status == StatusCreated
    ensures p.Json?
    ensures var t := CreateUser(s, x, p).store;
      && s.nextUserId in t.users && t.users[s.nextUserId] == UserRecord(p.username, p.email, x.hashPassword(p.password).digest)
      && RoleIdsOf(t, s.nextUserId) == RequestedRoles(s, p.role)
      && exists i :: && 0 <= i < |ListUsers(t).body.users|
                     && ListUsers(t).body.users[i].id == s.nextUserId
                     && ListUsers(t).body.users[i].passwordHash == ""
                     && ToJson(ListUsers(t).body.users[i]) == ToJson(LoadUser(t, s.nextUserId))
  {
    EnrolledUserIsListed(s, CreateUser(s, x, p).store, UserRecord(p.username, p.email, x.hashPassword(p.password).digest), RequestedRoles(s, p.role));
  }

  /** Creating a user with role "user" stores what self-registration stores, provided the
      hash succeeds. */
  lemma CreateUserAsUserRoleIsRegister(s: Store, cfg: Config, x: Services, p: Payload)
    requires Valid(s) && p.Json? && p.role == Auth.DefaultRoleName
    requires !x.hashPassword(p.password).failed
    ensures CreateUser(s, x, p).store == Auth.Register(s, cfg, x, p).store
    ensures CreateUser(s, x, p).response.status == StatusCreated <==> Auth.Register(s, cfg, x, p).response.status == StatusCreated
  {
    var a := CreateUser(s, x, p);
    var b := Auth.Register(s, cfg, x, p);
    if a.response.status == StatusCreated {
      assert Enrolled(s, a.store, UserRecord(p.username, p.email, x.hashPassword(p.password).digest), RolesNamed(s, Auth.DefaultRoleName));
      assert Enrolled(s, b.store, UserRecord(p.username, p.email, x.hashPassword(p.password).digest), RolesNamed(s, Auth.DefaultRoleName));
    }
  }

  /** A failed hash stops registration with 500, yet the admin endpoint stores the user
      with whatever digest came back. */
  lemma CreateUserIgnoresHashFailure(s: Store, cfg: Config, x: Services, p: Payload)
    requires Valid(s) && SignupFieldsValid(p, x.isEmail) && x.hashPassword(p.password).failed
    requires s.online && !HasUserNamed(s, p.username) && !HasUserWithEmail(s, p.email)
    ensures Auth.Register(s, cfg, x, p) == Exchange(s, Error(StatusInternalServerError, "couldn't hash password"))
    ensures CreateUser(s, x, p).response.status == StatusCreated
    ensures CreateUser(s, x, p).store.users[s.nextUserId].passwordHash == x.hashPassword(p.password).digest
  {
  }
}
