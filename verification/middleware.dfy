/** The request pipeline in front of every `/api` route: the identity-resolution middleware
    (header parse, token check, user load) and the per-route permission gate. */
module Middleware {
  import opened Strings
  import opened Models
  import opened Collaborators
  import opened Http

  // ---------------------------------------------------------------------------
  // The Authorization header

  /** The header after `strings.SplitN(h, " ", 2)` and the scheme check. */
  datatype Credential = MissingHeader | InvalidHeader | BearerToken(token: string)

  /** `h` presents `token` under the Bearer scheme: some case variant of "Bearer", one
      space, then the token verbatim (which may be empty or hold further spaces). */
  ghost predicate Presents(h: string, token: string)
  {
    exists scheme :: EqualFold(scheme, "Bearer") && h == scheme + " " + token
  }

  /** A case variant of "Bearer" has six characters and no space, so the first space of a
      header presenting a token is its seventh character. */
  lemma PresentsSplitsAtSix(h: string, token: string)
    requires Presents(h, token)
    ensures |h| >= 7 && IndexOf(h, ' ', 0) == 6 && EqualFold(h[..6], "Bearer") && token == h[7..]
  {
    var scheme :| EqualFold(scheme, "Bearer") && h == scheme + " " + token;
    assert h[..6] == scheme;
    forall j | 0 <= j < 6 ensures h[j] != ' ' {
      assert LowerAscii(scheme[j]) == LowerAscii("Bearer"[j]);
    }
    assert h[6] == ' ';
  }

  function ParseAuthorization(h: string): (c: Credential)
    ensures c.MissingHeader? <==> h == ""
    ensures c.BearerToken? ==> Presents(h, c.token)
    ensures forall t :: Presents(h, t) ==> c == BearerToken(t)
  {
    if h == "" then MissingHeader
    else
      var i := IndexOf(h, ' ', 0);
      assert forall t :: Presents(h, t) ==> i == 6 < |h| && EqualFold(h[..i], "Bearer") && t == h[i + 1..] by {
        forall t | Presents(h, t) ensures i == 6 < |h| && EqualFold(h[..i], "Bearer") && t == h[i + 1..] {
          PresentsSplitsAtSix(h, t);
        }
      }
      if i == |h| then InvalidHeader
      else if !EqualFold(h[..i], "Bearer") then InvalidHeader
      else
        assert h == h[..i] + " " + h[i + 1..];
        BearerToken(h[i + 1..])
  }

  /** Composing a header from a Bearer scheme in any letter case and any token, then
      parsing it, gives the token back. */
  lemma {:induction false} BearerRoundTrip(scheme: string, token: string)
    requires EqualFold(scheme, "Bearer")
    ensures ParseAuthorization(scheme + " " + token) == BearerToken(token)
  {
    assert Presents(scheme + " " + token, token);
  }

  /** A non-empty header without a space, or whose part before the first space is not a
      case variant of "Bearer", presents no token. */
  lemma MalformedHeaders(h: string)
    requires h != ""
    requires (forall j :: 0 <= j < |h| ==> h[j] != ' ') || !EqualFold(h[..IndexOf(h, ' ', 0)], "Bearer")
    ensures ParseAuthorization(h) == InvalidHeader
  {
    if ParseAuthorization(h).BearerToken? {
      PresentsSplitsAtSix(h, ParseAuthorization(h).token);
    }
  }

  // ---------------------------------------------------------------------------
  // MiddlewareFunc

  /** Either the loaded user is stored under "currentUser" and the chain goes on, or the
      request is aborted with `response`. */
  datatype Resolution = Resolved(user: User) | Abort(response: Response)

  /** What the middleware does with the outcome of the token parse. */
  function ResolveClaims(s: Store, check: TokenCheck): (r: Resolution)
    requires Valid(s)
    ensures r.Resolved? <==> check.Claims? && s.online && check.userId in s.users
    ensures r.Resolved? ==> r.user.id == check.userId && EffectivePermissions(r.user) == GrantedNames(s, check.userId)
    ensures r.Abort? ==> r.response.status == if check.Claims? && !s.online then StatusInternalServerError else StatusUnauthorized
  {
    match check
    case InvalidToken => Abort(Error(StatusUnauthorized, "invalid token"))
    case ForeignClaims => Abort(Error(StatusUnauthorized, "invalid token claims"))
    case Claims(uid) =>
      match FindUserById(s, uid)
      case Ok(user) => Resolved(user)
      case Err(NotFound) => Abort(Error(StatusUnauthorized, "user not found"))
      case Err(_) => Abort(Error(StatusInternalServerError, "server error"))
  }

  /** The identity-resolution middleware. It reads the store once and never writes it. */
  function MiddlewareFunc(cfg: Config, x: Services, s: Store, h: string): (r: Resolution)
    requires Valid(s)
    ensures h == "" ==> r == Abort(Error(StatusUnauthorized, "missing auth header"))
    ensures h != "" && (forall t :: !Presents(h, t)) ==> r == Abort(Error(StatusUnauthorized, "invalid auth header"))
    ensures forall t :: Presents(h, t) && x.parseJwt(cfg.jwtSecret, t).InvalidToken? ==>
      r == Abort(Error(StatusUnauthorized, "invalid token"))
    ensures forall t :: Presents(h, t) && x.parseJwt(cfg.jwtSecret, t).ForeignClaims? ==>
      r == Abort(Error(StatusUnauthorized, "invalid token claims"))
    ensures forall t, uid :: Presents(h, t) && x.parseJwt(cfg.jwtSecret, t) == Claims(uid) ==>
      r == (if !s.online then Abort(Error(StatusInternalServerError, "server error"))
            else if uid !in s.users then Abort(Error(StatusUnauthorized, "user not found"))
            else Resolved(LoadUser(s, uid)))
    ensures r.Resolved? <==> exists t, uid :: Presents(h, t) && x.parseJwt(cfg.jwtSecret, t) == Claims(uid) && s.online && uid in s.users
    ensures r.Abort? ==> r.response.body.ErrorBody?
    ensures r.Abort? ==> r.response.status == StatusUnauthorized || r.response.status == StatusInternalServerError
  {
    match ParseAuthorization(h)
    case MissingHeader => Abort(Error(StatusUnauthorized, "missing auth header"))
    case InvalidHeader => Abort(Error(StatusUnauthorized, "invalid auth header"))
    case BearerToken(token) => ResolveClaims(s, x.parseJwt(cfg.jwtSecret, token))
  }

  /** The user handed downstream carries exactly the grants the join tables give its id. */
  lemma ResolvedUserHasStoreGrants(cfg: Config, x: Services, s: Store, h: string)
    requires Valid(s) && MiddlewareFunc(cfg, x, s, h).Resolved?
    ensures var u := MiddlewareFunc(cfg, x, s, h).user;
      u.id in s.users && EffectivePermissions(u) == GrantedNames(s, u.id)
  {
    var t, uid :| Presents(h, t) && x.parseJwt(cfg.jwtSecret, t) == Claims(uid) && s.online && uid in s.users;
    LoadedGrantsMatchStore(s, uid);
  }

  // ---------------------------------------------------------------------------
  // RequirePermission

  /** The "currentUser" context slot: never set, a `models.User`, or a value of another type. */
  datatype ContextValue = Unset | Holds(user: User) | Foreign

  /** `c.Next()` or an abort with `response`. */
  datatype Verdict = Next | Deny(response: Response)

  function Forbidden(permName: string): Response
  {
    Error(StatusForbidden, "permission '" + permName + "' required")
  }

  /** The inner loop: some permission of the list has exactly this name. */
  function ScanPermissions(ps: seq<Permission>, permName: string): (found: bool)
    ensures found <==> exists p :: p in ps && p.name == permName
  {
    if |ps| == 0 then false
    else if ps[0].name == permName then true
    else
      assert forall p :: p in ps[1..] ==> p in ps;
      ScanPermissions(ps[1..], permName)
  }

  /** The outer loop over the roles, in slice order. */
  function ScanRoles(roles: seq<Role>, permName: string): (found: bool)
    ensures found <==> permName in Grants(roles)
  {
    if |roles| == 0 then false
    else
      assert roles == [roles[0]] + roles[1..];
      GrantsOfConcatenation([roles[0]], roles[1..]);
      ScanPermissions(roles[0].permissions, permName) || ScanRoles(roles[1..], permName)
  }

  /** The gate. The store argument is accepted and never read. */
  function RequirePermission(db: Store, permName: string, current: ContextValue): (v: Verdict)
    ensures current.Unset? ==> v == Deny(Error(StatusUnauthorized, "not authenticated"))
    ensures current.Foreign? ==> v == Deny(Error(StatusInternalServerError, "server error"))
    ensures current.Holds? ==> (v == Next <==> permName in EffectivePermissions(current.user))
    ensures current.Holds? && v != Next ==> v == Deny(Forbidden(permName))
  {
    match current
    case Unset => Deny(Error(StatusUnauthorized, "not authenticated"))
    case Foreign => Deny(Error(StatusInternalServerError, "server error"))
    case Holds(user) => if ScanRoles(user.roles, permName) then Next else Deny(Forbidden(permName))
  }

  /** Reordering or duplicating roles, or the permissions inside them, never changes the
      decision: it depends only on which roles appear. */
  lemma GateIgnoresOrderAndDuplicates(db: Store, permName: string, u: User, roles: seq<Role>)
    requires forall r :: r in u.roles <==> r in roles
    ensures RequirePermission(db, permName, Holds(u.(roles := roles))) == RequirePermission(db, permName, Holds(u))
  {
    assert Grants(roles) == Grants(u.roles);
  }

  /** The permissions of one role are read as a set as well. */
  lemma GateIgnoresPermissionOrder(db: Store, permName: string, u: User, i: nat, ps: seq<Permission>)
    requires i < |u.roles|
    requires forall p :: p in u.roles[i].permissions <==> p in ps
    ensures RequirePermission(db, permName, Holds(u.(roles := u.roles[i := u.roles[i].(permissions := ps)])))
         == RequirePermission(db, permName, Holds(u))
  {
    var roles := u.roles[i := u.roles[i].(permissions := ps)];
    forall n | n in Grants(roles) ensures n in Grants(u.roles) {
      var r, p :| r in roles && p in r.permissions && p.name == n;
      var k :| 0 <= k < |roles| && roles[k] == r;
      if k == i {
        assert u.roles[i] in u.roles && p in u.roles[i].permissions;
      } else {
        assert u.roles[k] == r;
      }
    }
    forall n | n in Grants(u.roles) ensures n in Grants(roles) {
      var r, p :| r in u.roles && p in r.permissions && p.name == n;
      var k :| 0 <= k < |u.roles| && u.roles[k] == r;
      if k == i {
        assert roles[i] in roles && p in roles[i].permissions;
      } else {
        assert roles[k] == r;
      }
    }
  }

  /** Giving a user more roles never turns an allow into a deny. */
  lemma {:induction false} GateMonotoneInRoles(db: Store, permName: string, u: User, roles: seq<Role>)
    requires forall r :: r in u.roles ==> r in roles
    requires RequirePermission(db, permName, Holds(u)) == Next
    ensures RequirePermission(db, permName, Holds(u.(roles := roles))) == Next
  {
    var r, p :| r in u.roles && p in r.permissions && p.name == permName;
    assert permName in Grants(roles);
  }

  /** The decision is the same whatever store the gate was built with. */
  lemma GateIgnoresStore(db1: Store, db2: Store, permName: string, current: ContextValue)
    ensures RequirePermission(db1, permName, current) == RequirePermission(db2, permName, current)
  {
  }
}
