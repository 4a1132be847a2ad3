/** The `handlers` package: a second, closure-style copy of the user handlers. Its
    `Register` and `Login` return the `auth` package's handlers unchanged, so
    `Auth.Register` and `Auth.Login` model them directly. */
module Handlers {
  import opened Models
  import opened Collaborators
  import opened Http
  import opened Middleware
  import Controllers

  /** `handlers.Me`: answers as the controller does. */
  function Me(current: ContextValue): (r: Response)
    ensures r == Controllers.Me(current)
  {
    match current
    case Holds(user) => Response(StatusOK, UserBody(user.(passwordHash := "")))
    case _ => Response(StatusInternalServerError, EmptyBody)
  }

  /** `handlers.ListUsers`: answers as the controller does. */
  function ListUsers(s: Store): (r: Response)
    requires Valid(s)
    ensures r == Controllers.ListUsers(s)
  {
    var users := LoadAllUsers(s);
    var shown := seq(|users|, i requires 0 <= i < |users| => users[i].(passwordHash := ""));
    assert shown == Controllers.SanitizeAll(users);
    Response(StatusOK, UsersBody(shown))
  }

  /** `handlers.CreateUser`: writes and answers as the controller does. */
  function CreateUser(s: Store, x: Services, p: Payload): (e: Exchange)
    requires Valid(s)
    ensures e == Controllers.CreateUser(s, x, p)
  {
    match BindCreateUser(p, x.isEmail)
    case None => Exchange(s, Response(StatusBadRequest, BindErrorBody))
    case Some(req) =>
      var hash := x.hashPassword(req.password).digest;
      match InsertUser(s, UserRecord(req.username, req.email, hash))
      case Err(_) => Exchange(s, Error(StatusBadRequest, "couldn't create user"))
      case Ok(created) =>
        var (s1, uid) := created;
        var user := User(uid, req.username, req.email, hash, []);
        var (t, shown) :=
          if req.role == "" then (s1, user)
          else match FindRoleByName(s1, req.role)
            case Ok(rid) => (AppendUserRole(s1, uid, rid), user.(roles := [LoadBareRole(s1, rid)]))
            case Err(_) => (s1, user);
        Exchange(t, Response(StatusCreated, UserBody(shown.(passwordHash := ""))))
  }
}
