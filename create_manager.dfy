/**
 * The `create-manager` server function
 * (supabase/functions/create-manager/index.ts): an admin, identified by the
 * bearer token, creates an auth user and gives it the `manager` role; a
 * failed role insert deletes the user again. The auth service's answers
 * (the token's claims, the outcome of `createUser`, of the role insert and of
 * `deleteUser`) are parameters.
 */
module CreateManager {
  import opened Seqs
  import opened Domain
  import opened Text

  /** A user of the auth service, as `createUser` leaves it. */
  datatype AuthUser = AuthUser(id: Uuid, email: string, password: string, fullName: string, emailConfirmed: bool)

  /** The JSON body, `{ email, password, fullName }`; a missing property is `None`. */
  datatype RequestBody = RequestBody(email: Option<string>, password: Option<string>, fullName: Option<string>)

  /** The request: its method, its `Authorization` header, and its body, which may fail to parse. */
  datatype Request = Request(httpMethod: string, authorization: Option<string>, body: Result<RequestBody, string>)

  datatype ResponseBody =
    | NoBody
    | CreatedBody(id: Uuid, email: string)
    | ErrorBody(error: string)

  /** A response; every response carries the CORS headers, `json` says whether it is also JSON. */
  datatype Response = Response(status: nat, body: ResponseBody, json: bool)

  /** What `createUser` answers: an error, no user, or the new user. */
  datatype CreateOutcome = CreateError(message: string) | NoUserReturned | UserCreated

  const BearerPrefix: string := "Bearer "

  /** Every failure: status 400 and `{ error: message }`. */
  function Failed(message: string): (r: Response)
    ensures r.status == 400 && r.body.ErrorBody? && r.body.error == message && r.json
  {
    Response(400, ErrorBody(message), true)
  }

  /**
   * The token of a header that starts with `"Bearer "`: `replace` removes
   * the first occurrence of the prefix, which is the leading one.
   */
  function BearerToken(authorization: Option<string>): (token: Option<string>)
    ensures token.Some? <==> authorization.Some? && StartsWith(authorization.value, BearerPrefix)
    ensures token.Some? ==> authorization.value == BearerPrefix + token.value
  {
    if authorization.Some? && StartsWith(authorization.value, BearerPrefix) then
      var header := authorization.value;
      assert header == header[..|BearerPrefix|] + header[|BearerPrefix|..];
      Some(header[|BearerPrefix|..])
    else None
  }

  /** The caller's user id, the `sub` claim of a token the auth service accepts. */
  function Caller(req: Request, claims: string -> Option<Uuid>): Option<Uuid>
  {
    var token := BearerToken(req.authorization);
    if token.None? then None else claims(token.value)
  }

  function AdminRowsOf(roles: seq<RoleRow>, userId: Uuid): seq<RoleRow>
  {
    Filter(roles, (r: RoleRow) => r.userId == userId && r.role == Admin)
  }

  /** The `maybeSingle` admin lookup gives a row: exactly one admin row for the user. */
  predicate IsAdmin(roles: seq<RoleRow>, userId: Uuid)
  {
    MaybeSingle(AdminRowsOf(roles, userId)) == Ok(Some(RoleRow(userId, Admin)))
  }

  /** The admin check holds exactly when the user has one admin row. */
  lemma IsAdminMeaning(roles: seq<RoleRow>, userId: Uuid)
    ensures IsAdmin(roles, userId) <==> |AdminRowsOf(roles, userId)| == 1
    ensures IsAdmin(roles, userId) ==> RoleRow(userId, Admin) in roles
  {
    var rows := AdminRowsOf(roles, userId);
    if |rows| == 1 {
      assert rows[0] in rows;
    }
  }

  /** Adding a `manager` row changes nobody's admin check. */
  lemma ManagerRowKeepsAdmins(roles: seq<RoleRow>, newId: Uuid, userId: Uuid)
    ensures IsAdmin(roles + [RoleRow(newId, Manager)], userId) <==> IsAdmin(roles, userId)
  {
    FilterSnoc(roles, RoleRow(newId, Manager), (r: RoleRow) => r.userId == userId && r.role == Admin);
  }

  /** `!email || !password || !fullName`: the three values, when all are non-empty. */
  function RequiredFields(body: RequestBody): (r: Option<(string, string, string)>)
    ensures r.Some? <==> Truthy(body.email) && Truthy(body.password) && Truthy(body.fullName)
    ensures r.Some? ==> r.value == (body.email.value, body.password.value, body.fullName.value)
    ensures r.Some? ==> r.value.0 != "" && r.value.1 != "" && r.value.2 != ""
  {
    if Truthy(body.email) && Truthy(body.password) && Truthy(body.fullName) then
      Some((body.email.value, body.password.value, body.fullName.value))
    else None
  }

  /** The auth service's users and the `user_roles` table. */
  class Backend {
    var users: seq<AuthUser>
    var roles: seq<RoleRow>

    constructor (users0: seq<AuthUser>, roles0: seq<RoleRow>)
      ensures users == users0 && roles == roles0
    {
      users := users0;
      roles := roles0;
    }

    predicate HasUser(id: Uuid)
      reads this
    {
      exists u :: u in users && u.id == id
    }

    /** `auth.admin.createUser`, confirmed e-mail and the full name as metadata. */
    method CreateUser(email: string, password: string, fullName: string, outcome: CreateOutcome, newId: Uuid)
      returns (created: Result<Option<AuthUser>, string>)
      modifies this
      ensures roles == old(roles)
      ensures outcome.CreateError? ==> created == Err(outcome.message) && users == old(users)
      ensures outcome.NoUserReturned? ==> created == Ok(None) && users == old(users)
      ensures outcome.UserCreated? ==>
        created == Ok(Some(AuthUser(newId, email, password, fullName, true))) &&
        users == old(users) + [created.value.value]
    {
      match outcome
      case CreateError(message) =>
        created := Err(message);
      case NoUserReturned =>
        created := Ok(None);
      case UserCreated =>
        var user := AuthUser(newId, email, password, fullName, true);
        users := users + [user];
        created := Ok(Some(user));
    }

    /** The role insert; `fails` is the store's refusal. */
    method InsertRole(row: RoleRow, fails: bool) returns (error: bool)
      modifies this
      ensures users == old(users) && error == fails
      ensures roles == if fails then old(roles) else old(roles) + [row]
    {
      error := fails;
      if !fails {
        roles := roles + [row];
      }
    }

    /** `auth.admin.deleteUser`; `fails` is the auth service's refusal, which the handler never looks at. */
    method DeleteUser(id: Uuid, fails: bool)
      modifies this
      ensures roles == old(roles)
      ensures users == if fails then old(users) else Filter(old(users), (u: AuthUser) => u.id != id)
    {
      if !fails {
        users := Filter(users, (u: AuthUser) => u.id != id);
      }
    }

    /**
     * The handler. `claims` answers `getClaims` for a token, `create` is the
     * outcome of `createUser` with `newId` the id it issues, and
     * `roleInsertFails`/`deleteFails` the outcomes of the role insert and of
     * the rollback. `bodyRead` says whether `req.json()` was reached.
     */
    method HandleRequest(req: Request, claims: string -> Option<Uuid>, create: CreateOutcome, newId: Uuid,
                         roleInsertFails: bool, deleteFails: bool)
      returns (resp: Response, bodyRead: bool)
      requires !HasUser(newId)
      modifies this
      // OPTIONS: the CORS preflight, and nothing else
      ensures req.httpMethod == "OPTIONS" ==>
        resp == Response(200, NoBody, false) && !bodyRead && users == old(users) && roles == old(roles)
      // every failure is a 400 carrying its message, and every 400 is a failure
      ensures resp.status == 400 <==> resp.body.ErrorBody?
      ensures resp.body.ErrorBody? ==> resp == Failed(resp.body.error) && roles == old(roles)
      ensures req.httpMethod != "OPTIONS" && BearerToken(req.authorization).None? ==>
        resp == Failed("No authorization header") && users == old(users)
      ensures req.httpMethod != "OPTIONS" && BearerToken(req.authorization).Some? && Caller(req, claims).None? ==>
        resp == Failed("Invalid token") && users == old(users)
      // the admin check comes before the body is read
      ensures bodyRead <==> req.httpMethod != "OPTIONS" && Caller(req, claims).Some? && IsAdmin(old(roles), Caller(req, claims).value)
      ensures req.httpMethod != "OPTIONS" && Caller(req, claims).Some? && !IsAdmin(old(roles), Caller(req, claims).value) ==>
        resp == Failed("Only admins can create managers") && users == old(users)
      ensures bodyRead && req.body.Err? ==> resp == Failed(req.body.error) && users == old(users)
      ensures bodyRead && req.body.Ok? && RequiredFields(req.body.value).None? ==>
        resp == Failed("Email, password and fullName are required") && users == old(users)
      ensures bodyRead && req.body.Ok? && RequiredFields(req.body.value).Some? ==>
        match create
        case CreateError(message) => resp == Failed(message) && users == old(users)
        case NoUserReturned => resp == Failed("Failed to create user") && users == old(users)
        case UserCreated =>
          var (email, password, fullName) := RequiredFields(req.body.value).value;
          var user := AuthUser(newId, email, password, fullName, true);
          if roleInsertFails then
            // the rollback: the new user is deleted again unless the deletion itself fails
            resp == Failed("Failed to assign manager role") &&
            users == if deleteFails then old(users) + [user] else old(users)
          else
            resp == Response(200, CreatedBody(newId, email), true) &&
            users == old(users) + [user] && roles == old(roles) + [RoleRow(newId, Manager)]
    {
      bodyRead := false;
      if req.httpMethod == "OPTIONS" {
        resp := Response(200, NoBody, false);
        return;
      }
      var token := BearerToken(req.authorization);
      if token.None? {
        resp := Failed("No authorization header");
        return;
      }
      var caller := claims(token.value);
      if caller.None? {
        resp := Failed("Invalid token");
        return;
      }
      if MaybeSingle(AdminRowsOf(roles, caller.value)) != Ok(Some(RoleRow(caller.value, Admin))) {
        resp := Failed("Only admins can create managers");
        return;
      }
      bodyRead := true;
      if req.body.Err? {
        resp := Failed(req.body.error);
        return;
      }
      var fields := RequiredFields(req.body.value);
      if fields.None? {
        resp := Failed("Email, password and fullName are required");
        return;
      }
      var (email, password, fullName) := fields.value;
      var created := CreateUser(email, password, fullName, create, newId);
      if created.Err? {
        resp := Failed(created.error);
        return;
      }
      if created.value.None? {
        resp := Failed("Failed to create user");
        return;
      }
      var user := created.value.value;
      var roleError := InsertRole(RoleRow(user.id, Manager), roleInsertFails);
      if roleError {
        DeleteUser(user.id, deleteFails);
        if !deleteFails {
          RemoveFreshUser(old(users), user);
        }
        resp := Failed("Failed to assign manager role");
        return;
      }
      resp := Response(200, CreatedBody(user.id, user.email), true);
    }
  }

  /** Deleting a user that was appended to users without its id gives the old users back. */
  lemma RemoveFreshUser(users: seq<AuthUser>, user: AuthUser)
    requires forall u :: u in users ==> u.id != user.id
    ensures Filter(users + [user], (u: AuthUser) => u.id != user.id) == users
  {
    var keep := (u: AuthUser) => u.id != user.id;
    FilterSnoc(users, user, keep);
    FilterAll(users, keep);
  }
}
