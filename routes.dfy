/** The route tables of routes/userRoutes.js (mounted at `/api/users`) and
    routes/authRoutes.js (mounted at `/api/auth`): for each method and path
    the ordered middleware — guards, body validators and the `validate`
    short-circuit — and the handler they lead to; and the dispatcher that
    runs a request through them and on into the controllers. */
module Routes {
  import opened Common
  import opened UserModel
  import opened Http
  import opened AuthMiddleware
  import opened AuthController
  import opened UserController

  datatype Verb = Get | Post | Put | Delete

  /** A path below the mount point, as its segments: `/` is `[]`, `/me` is
      `["me"]`. */
  type Path = seq<string>

  /** `/`, a literal one-segment path, or `/:id`. */
  datatype Pattern = Root | Literal(name: string) | IdParam

  datatype Field = Username | Fullname | Email | Password | RoleField

  /** The express-validator rules used by the routes. */
  datatype Rule = NotEmpty | IsEmail | MinLength(n: nat) | IsIn(options: seq<string>)

  /** `body(field)[.optional()].rule()[.withMessage(msg)]`. */
  datatype Check = Check(field: Field, optional: bool, rule: Rule, msg: string)

  datatype Guard = AdminOnly | SelfOrAdmin

  datatype Stage = Guarded(g: Guard) | Validator(c: Check) | Validate

  /** The controllers of userController.js that `/api/users` leads to. */
  datatype UsersAction = ListUsers | MyProfile | UserById | NewUser | EditUser | RemoveUser

  /** The controllers of authController.js that `/api/auth` leads to. */
  datatype AuthAction = SignUp | LogIn | RefreshSession | LogOut

  /** A route of a table whose handlers are of type `H`: each table can
      lead only to its own controllers. */
  datatype Route<H> = Route(verb: Verb, pattern: Pattern, stages: seq<Stage>, handler: H)

  /** What the routing layer does with a request: answer it itself, hand
      it to a handler, or find no route for it. */
  datatype Outcome<H> = Respond(response: Response) | Invoke(handler: H, who: Option<Identity>, pathId: string) | Unrouted

  /** express-validator's message when `withMessage` is not used. */
  const DefaultMessage: string := "Invalid value"

  /** The global error handler of the application, reached when a guard
      runs on a request that carries no identity. */
  const Crash: string := "Something went wrong!"

  // ---------------------------------------------------------------------
  // Validators

  function FieldName(f: Field): string {
    match f
    case Username => "username"
    case Fullname => "fullname"
    case Email => "email"
    case Password => "password"
    case RoleField => "role"
  }

  function FieldValue(b: UserFields, f: Field): Option<string> {
    match f
    case Username => b.username
    case Fullname => b.fullname
    case Email => b.email
    case Password => b.password
    case RoleField => b.role
  }

  /** A stand-in for validator.js's `isEmail`: one `@` with text before it
      and a dotted domain after it. */
  predicate LooksLikeEmail(x: string) {
    var parts := Split(x, '@');
    |parts| == 2 && parts[0] != "" && '.' in parts[1] && parts[1][0] != '.' && parts[1][|parts[1]| - 1] != '.'
  }

  /** A check passes when an optional field is absent; otherwise its rule
      is applied to the field's text, a missing field reading as "". */
  predicate Passes(c: Check, b: UserFields) {
    var v := FieldValue(b, c.field);
    if c.optional && v.None? then true
    else
      var x := if v.Some? then v.value else "";
      match c.rule
      case NotEmpty => x != ""
      case IsEmail => LooksLikeEmail(x)
      case MinLength(n) => |x| >= n
      case IsIn(options) => x in options
  }

  /** `validationResult(req).array()` after running `cs`: one entry per
      failing check, in order. */
  function Issues(cs: seq<Check>, b: UserFields): (r: seq<Issue>)
    ensures |r| <= |cs|
    ensures r == [] <==> forall i | 0 <= i < |cs| :: Passes(cs[i], b)
  {
    if cs == [] then []
    else
      var rest := Issues(cs[1..], b);
      assert forall i | 1 <= i < |cs| :: cs[i] == cs[1..][i - 1];
      if Passes(cs[0], b) then rest else [IssueOf(cs[0])] + rest
  }

  /** The issue a failing check records. */
  function IssueOf(c: Check): Issue {
    Issue(FieldName(c.field), c.msg)
  }

  /** A single check yields its own issue exactly when it fails. */
  lemma IssuesOne(c: Check, b: UserFields)
    ensures Issues([c], b) == if Passes(c, b) then [] else [IssueOf(c)]
  {
    assert [c][1..] == [];
  }

  /** The checks are independent: the issues of two runs of checks, one
      after the other, are the first run's issues followed by the second's.
      With `IssuesOne` this pins the list down as one issue per failing
      check, in the order the checks were declared. */
  lemma {:induction false} IssuesAppend(cs: seq<Check>, ds: seq<Check>, b: UserFields)
    ensures Issues(cs + ds, b) == Issues(cs, b) + Issues(ds, b)
    decreases |cs|
  {
    if cs == [] {
      assert cs + ds == ds;
    } else {
      assert (cs + ds)[0] == cs[0];
      assert (cs + ds)[1..] == cs[1..] + ds;
      IssuesAppend(cs[1..], ds, b);
    }
  }

  function Validators(cs: seq<Check>): seq<Stage> {
    if cs == [] then [] else [Validator(cs[0])] + Validators(cs[1..])
  }

  // ---------------------------------------------------------------------
  // The tables

  const CreateChecks: seq<Check> := [
    Check(Username, false, NotEmpty, "Username is required"),
    Check(Fullname, false, NotEmpty, "Full name is required"),
    Check(Email, false, IsEmail, "Valid email is required"),
    Check(Password, false, MinLength(6), "Password must be at least 6 characters"),
    Check(RoleField, true, IsIn(["user", "admin"]), "Role must be either user or admin")
  ]

  const UpdateChecks: seq<Check> := [
    Check(Email, true, IsEmail, "Invalid email format"),
    Check(Password, true, MinLength(6), "Password must be at least 6 characters"),
    Check(Username, true, NotEmpty, "Username cannot be empty"),
    Check(Fullname, true, NotEmpty, "Full name cannot be empty"),
    Check(RoleField, true, IsIn(["user", "admin"]), "Role must be either user or admin")
  ]

  const SignupChecks: seq<Check> := [
    Check(Username, false, NotEmpty, DefaultMessage),
    Check(Fullname, false, NotEmpty, DefaultMessage),
    Check(Email, false, IsEmail, DefaultMessage),
    Check(Password, false, MinLength(6), DefaultMessage)
  ]

  const LoginChecks: seq<Check> := [
    Check(Email, false, IsEmail, DefaultMessage),
    Check(Password, false, NotEmpty, DefaultMessage)
  ]

  /** routes/userRoutes.js, in registration order; every one of them sits
      behind `verifyToken`. */
  const UserRoutes: seq<Route<UsersAction>> := [
    Route(Get, Root, [Guarded(AdminOnly)], ListUsers),
    Route(Get, Literal("me"), [], MyProfile),
    Route(Get, IdParam, [Guarded(SelfOrAdmin)], UserById),
    Route(Post, Root, [Guarded(AdminOnly)] + Validators(CreateChecks) + [Validate], NewUser),
    Route(Put, IdParam, [Guarded(SelfOrAdmin)] + Validators(UpdateChecks) + [Validate], EditUser),
    Route(Delete, IdParam, [Guarded(SelfOrAdmin)], RemoveUser)
  ]

  /** routes/authRoutes.js, in registration order. */
  const AuthRoutes: seq<Route<AuthAction>> := [
    Route(Post, Literal("signup"), Validators(SignupChecks) + [Validate], SignUp),
    Route(Post, Literal("login"), Validators(LoginChecks) + [Validate], LogIn),
    Route(Post, Literal("refresh"), [], RefreshSession),
    Route(Post, Literal("logout"), [], LogOut)
  ]

  // ---------------------------------------------------------------------
  // Dispatch

  predicate Matches<H>(r: Route<H>, verb: Verb, path: Path) {
    r.verb == verb &&
    match r.pattern
    case Root => path == []
    case Literal(name) => path == [name]
    case IdParam => |path| == 1 && path[0] != ""
  }

  /** `req.params.id` of a matched route. */
  function PathId<H>(r: Route<H>, path: Path): string {
    if r.pattern.IdParam? && |path| == 1 then path[0] else ""
  }

  /** Express tries the routes in the order they were registered and takes
      the first that matches. */
  function FirstMatch<H>(table: seq<Route<H>>, verb: Verb, path: Path): (i: Option<nat>)
    ensures i.Some? ==> i.value < |table| && Matches(table[i.value], verb, path)
    ensures i.Some? ==> forall j | 0 <= j < i.value :: !Matches(table[j], verb, path)
    ensures i.None? ==> forall j | 0 <= j < |table| :: !Matches(table[j], verb, path)
  {
    FirstMatchFrom(table, verb, path, 0)
  }

  /** The first route at or after position `k` that matches. */
  function FirstMatchFrom<H>(table: seq<Route<H>>, verb: Verb, path: Path, k: nat): (i: Option<nat>)
    requires k <= |table|
    ensures i.Some? ==> k <= i.value < |table| && Matches(table[i.value], verb, path)
    ensures i.Some? ==> forall j | k <= j < i.value :: !Matches(table[j], verb, path)
    ensures i.None? ==> forall j | k <= j < |table| :: !Matches(table[j], verb, path)
    decreases |table| - k
  {
    if k == |table| then None
    else if Matches(table[k], verb, path) then Some(k)
    else FirstMatchFrom(table, verb, path, k + 1)
  }

  /** The route at `i` is taken when it matches and nothing before it does. */
  lemma FirstMatchIs<H>(table: seq<Route<H>>, verb: Verb, path: Path, i: nat)
    requires i < |table| && Matches(table[i], verb, path)
    requires forall j | 0 <= j < i :: !Matches(table[j], verb, path)
    ensures FirstMatch(table, verb, path) == Some(i)
  {
  }

  function GuardVerdict(g: Guard, who: Identity, pathId: string): Verdict {
    match g
    case AdminOnly => RequireAdmin(who)
    case SelfOrAdmin => RequireSelfOrAdmin(who, pathId)
  }

  /** Runs the middleware of a route in order. A refusing guard answers and
      stops; a validator only records its issue; `validate` answers 400
      with every recorded issue, if there is one. `None`: the request
      reached the handler. */
  function Run(stages: seq<Stage>, who: Option<Identity>, pathId: string, b: UserFields, acc: seq<Issue>): Option<Response>
  {
    if stages == [] then None
    else
      match stages[0]
      case Guarded(g) =>
        (match who
         case None => Some(Reply(500, Crash))
         case Some(w) =>
           match GuardVerdict(g, w, pathId)
           case Refuse(status, message) => Some(Reply(status, message))
           case Allow => Run(stages[1..], who, pathId, b, acc))
      case Validator(c) =>
        Run(stages[1..], who, pathId, b, if Passes(c, b) then acc else acc + [IssueOf(c)])
      case Validate =>
        if acc != [] then Some(Response(400, Errors(acc), NoCookie)) else Run(stages[1..], who, pathId, b, acc)
  }

  /** `validate` answers 400 when an issue has been recorded and otherwise
      passes the request on. */
  lemma RunValidate(rest: seq<Stage>, who: Option<Identity>, pathId: string, b: UserFields, acc: seq<Issue>)
    ensures Run([Validate] + rest, who, pathId, b, acc) ==
            if acc != [] then Some(Response(400, Errors(acc), NoCookie)) else Run(rest, who, pathId, b, acc)
  {
    assert ([Validate] + rest)[1..] == rest;
  }

  /** A validator never answers; it only records its issue. */
  lemma RunValidator(c: Check, rest: seq<Stage>, who: Option<Identity>, pathId: string, b: UserFields, acc: seq<Issue>)
    ensures Run([Validator(c)] + rest, who, pathId, b, acc) ==
            Run(rest, who, pathId, b, if Passes(c, b) then acc else acc + [IssueOf(c)])
  {
    assert ([Validator(c)] + rest)[1..] == rest;
  }

  /** A run of validators followed by `validate` answers 400 with exactly
      the failing checks' issues, and lets the request through when there
      are none. */
  lemma {:induction false} RunValidated(cs: seq<Check>, rest: seq<Stage>, who: Option<Identity>, pathId: string, b: UserFields, acc: seq<Issue>)
    ensures Run(Validators(cs) + [Validate] + rest, who, pathId, b, acc) ==
            if acc + Issues(cs, b) != [] then Some(Response(400, Errors(acc + Issues(cs, b)), NoCookie))
            else Run(rest, who, pathId, b, acc)
    decreases |cs|
  {
    if cs == [] {
      assert Validators(cs) + [Validate] + rest == [Validate] + rest;
      assert acc + Issues(cs, b) == acc;
      RunValidate(rest, who, pathId, b, acc);
    } else {
      var tail := Validators(cs[1..]) + [Validate] + rest;
      assert Validators(cs) + [Validate] + rest == [Validator(cs[0])] + tail;
      RunValidator(cs[0], tail, who, pathId, b, acc);
      var acc' := if Passes(cs[0], b) then acc else acc + [IssueOf(cs[0])];
      RunValidated(cs[1..], rest, who, pathId, b, acc');
      assert acc' + Issues(cs[1..], b) == acc + Issues(cs, b);
    }
  }

  /** The route layer of `/api/users` behind `verifyToken`: the first
      matching route's middleware, run for the identity the token named. */
  function UsersOutcome(who: Identity, verb: Verb, path: Path, b: UserFields): (o: Outcome<UsersAction>)
    ensures o.Unrouted? <==> forall j | 0 <= j < |UserRoutes| :: !Matches(UserRoutes[j], verb, path)
    ensures o.Respond? ==> o.response.status == 400 || o.response.status == 403
    ensures o.Invoke? ==> o.who == Some(who)
    ensures o.Invoke? ==> FirstMatch(UserRoutes, verb, path).Some? &&
                          o.handler == UserRoutes[FirstMatch(UserRoutes, verb, path).value].handler
  {
    match FirstMatch(UserRoutes, verb, path)
    case None => Unrouted
    case Some(i) =>
      var route := UserRoutes[i];
      RunAnswers(route.stages, who, PathId(route, path), b, []);
      match Run(route.stages, Some(who), PathId(route, path), b, [])
      case Some(response) => Respond(response)
      case None => Invoke(route.handler, Some(who), PathId(route, path))
  }

  /** With an identity present, the middleware answers only with a guard's
      403 or the `validate` step's 400. */
  lemma {:induction false} RunAnswers(stages: seq<Stage>, who: Identity, pathId: string, b: UserFields, acc: seq<Issue>)
    ensures Run(stages, Some(who), pathId, b, acc).Some? ==>
            Run(stages, Some(who), pathId, b, acc).value.status == 400 || Run(stages, Some(who), pathId, b, acc).value.status == 403
    decreases |stages|
  {
    if stages != [] {
      match stages[0]
      case Guarded(g) => RunAnswers(stages[1..], who, pathId, b, acc);
      case Validator(c) =>
        RunAnswers(stages[1..], who, pathId, b, if Passes(c, b) then acc else acc + [IssueOf(c)]);
      case Validate => RunAnswers(stages[1..], who, pathId, b, acc);
    }
  }

  /** The route layer of `/api/auth`: no token check, no guards. */
  function AuthOutcome(verb: Verb, path: Path, b: UserFields): Outcome<AuthAction> {
    match FirstMatch(AuthRoutes, verb, path)
    case None => Unrouted
    case Some(i) =>
      var route := AuthRoutes[i];
      match Run(route.stages, None, PathId(route, path), b, [])
      case Some(response) => Respond(response)
      case None => Invoke(route.handler, None, PathId(route, path))
  }

  function TextOf(v: Option<string>): string {
    if v.Some? then v.value else ""
  }

  /** A request to `/api/users` end to end: `verifyToken` first, for every
      request, then the routes. */
  function ServeUsers(s: Store, header: Option<string>, now: nat, verb: Verb, path: Path, b: UserFields, newId: UserId): (r: Option<Step>)
    ensures r.Some? && r.value.response.status != 200 && r.value.response.status != 201 ==> r.value.store == s
    ensures Inv(s) && IsObjectId(newId) && r.Some? ==> Inv(r.value.store)
  {
    match VerifyToken(header, now)
    case Deny(status, message) => Some(Step(Reply(status, message), s))
    case Pass(who) => ServeAs(s, who, verb, path, b, newId)
  }

  /** A request to `/api/users` from the caller `who` that `verifyToken`
      let through. `None`: no route matched, and the request falls through
      to the framework's own 404. */
  function ServeAs(s: Store, who: Identity, verb: Verb, path: Path, b: UserFields, newId: UserId): (r: Option<Step>)
    ensures r.Some? && r.value.response.status != 200 && r.value.response.status != 201 ==> r.value.store == s
    ensures Inv(s) && IsObjectId(newId) && r.Some? ==> Inv(r.value.store)
  {
    match UsersOutcome(who, verb, path, b)
    case Unrouted => None
    case Respond(response) => Some(Step(response, s))
    case Invoke(handler, _, pathId) => Some(UsersHandler(s, handler, who, pathId, b, newId))
  }

  /** The controller a route of `/api/users` leads to. */
  function UsersHandler(s: Store, handler: UsersAction, who: Identity, pathId: string, b: UserFields, newId: UserId): (r: Step)
    ensures r.response.status != 200 && r.response.status != 201 ==> r.store == s
    ensures Inv(s) && IsObjectId(newId) ==> Inv(r.store)
  {
    match handler
    case ListUsers => Step(GetAllUsers(s), s)
    case MyProfile => Step(GetMyProfile(s, who), s)
    case UserById => Step(GetUserById(s, pathId), s)
    case NewUser => CreateUserSpec(s, b, newId)
    case EditUser => UpdateUserSpec(s, who, pathId, b)
    case RemoveUser => DeleteUserSpec(s, pathId)
  }

  /** A request to `/api/auth` end to end; `cookie` is the `jwt` cookie. */
  function ServeAuth(s: Store, cookie: Option<string>, now: nat, production: bool, verb: Verb, path: Path, b: UserFields, newId: UserId): (r: Option<Step>)
    requires Inv(s)
    ensures IsObjectId(newId) && r.Some? ==> Inv(r.value.store)
  {
    match AuthOutcome(verb, path, b)
    case Unrouted => None
    case Respond(response) => Some(Step(response, s))
    case Invoke(handler, _, _) => Some(AuthHandler(s, handler, cookie, now, production, b, newId))
  }

  /** The controller a route of `/api/auth` leads to. */
  function AuthHandler(s: Store, handler: AuthAction, cookie: Option<string>, now: nat, production: bool, b: UserFields, newId: UserId): (r: Step)
    requires Inv(s)
    ensures IsObjectId(newId) ==> Inv(r.store)
  {
    match handler
    case SignUp => RegisterSpec(s, SignupBody(TextOf(b.username), TextOf(b.fullname), TextOf(b.email), TextOf(b.password), b.role), newId)
    case LogIn => LoginSpec(s, TextOf(b.email), TextOf(b.password), now, production)
    case RefreshSession => RefreshSpec(s, cookie, now, production)
    case LogOut => LogoutSpec(s, cookie, production)
  }

  // ---------------------------------------------------------------------
  // Route policy

  /** What `POST /api/users` accepts, read off routes/userRoutes.js:24-28. */
  predicate ValidNewUser(b: UserFields) {
    && Truthy(b.username) && Truthy(b.fullname)
    && b.email.Some? && LooksLikeEmail(b.email.value)
    && b.password.Some? && |b.password.value| >= 6
    && (b.role.None? || b.role.value == "user" || b.role.value == "admin")
  }

  /** What `PUT /api/users/:id` accepts: every field optional, each present
      one held to the same rule. */
  predicate ValidUpdate(b: UserFields) {
    && (b.email.None? || LooksLikeEmail(b.email.value))
    && (b.password.None? || |b.password.value| >= 6)
    && (b.username.None? || b.username.value != "")
    && (b.fullname.None? || b.fullname.value != "")
    && (b.role.None? || b.role.value == "user" || b.role.value == "admin")
  }

  /** What `POST /api/auth/signup` accepts; `role` is not checked. */
  predicate ValidSignup(b: UserFields) {
    && Truthy(b.username) && Truthy(b.fullname)
    && b.email.Some? && LooksLikeEmail(b.email.value)
    && b.password.Some? && |b.password.value| >= 6
  }

  /** What `POST /api/auth/login` accepts. */
  predicate ValidLogin(b: UserFields) {
    b.email.Some? && LooksLikeEmail(b.email.value) && Truthy(b.password)
  }

  lemma LooksLikeEmailNotEmpty(x: string)
    ensures LooksLikeEmail(x) ==> x != ""
  {
    if x == "" {
      assert Split(x, '@') == [""];
    }
  }

  lemma CreateChecksPass(b: UserFields)
    ensures Issues(CreateChecks, b) == [] <==> ValidNewUser(b)
  {
    LooksLikeEmailNotEmpty("");
    assert Passes(CreateChecks[2], b) <==> b.email.Some? && LooksLikeEmail(b.email.value);
    assert Passes(CreateChecks[3], b) <==> b.password.Some? && |b.password.value| >= 6;
    assert Passes(CreateChecks[4], b) <==> b.role.None? || b.role.value == "user" || b.role.value == "admin";
    assert (forall i | 0 <= i < |CreateChecks| :: Passes(CreateChecks[i], b)) <==>
      Passes(CreateChecks[0], b) && Passes(CreateChecks[1], b) && Passes(CreateChecks[2], b) &&
      Passes(CreateChecks[3], b) && Passes(CreateChecks[4], b);
  }

  lemma UpdateChecksPass(b: UserFields)
    ensures Issues(UpdateChecks, b) == [] <==> ValidUpdate(b)
  {
    assert Passes(UpdateChecks[0], b) <==> b.email.None? || LooksLikeEmail(b.email.value);
    assert Passes(UpdateChecks[1], b) <==> b.password.None? || |b.password.value| >= 6;
    assert Passes(UpdateChecks[2], b) <==> b.username.None? || b.username.value != "";
    assert Passes(UpdateChecks[3], b) <==> b.fullname.None? || b.fullname.value != "";
    assert Passes(UpdateChecks[4], b) <==> b.role.None? || b.role.value == "user" || b.role.value == "admin";
    assert (forall i | 0 <= i < |UpdateChecks| :: Passes(UpdateChecks[i], b)) <==>
      Passes(UpdateChecks[0], b) && Passes(UpdateChecks[1], b) && Passes(UpdateChecks[2], b) &&
      Passes(UpdateChecks[3], b) && Passes(UpdateChecks[4], b);
  }

  lemma SignupChecksPass(b: UserFields)
    ensures Issues(SignupChecks, b) == [] <==> ValidSignup(b)
  {
    LooksLikeEmailNotEmpty("");
    assert Passes(SignupChecks[2], b) <==> b.email.Some? && LooksLikeEmail(b.email.value);
    assert Passes(SignupChecks[3], b) <==> b.password.Some? && |b.password.value| >= 6;
  }

  lemma LoginChecksPass(b: UserFields)
    ensures Issues(LoginChecks, b) == [] <==> ValidLogin(b)
  {
    LooksLikeEmailNotEmpty("");
    assert Passes(LoginChecks[0], b) <==> b.email.Some? && LooksLikeEmail(b.email.value);
  }

  /** A guard at the head of a route either refuses with its own answer or
      passes the request on to the rest of the route. */
  lemma RunGuardFirst(g: Guard, rest: seq<Stage>, w: Identity, pathId: string, b: UserFields)
    ensures Run([Guarded(g)] + rest, Some(w), pathId, b, []) ==
            match GuardVerdict(g, w, pathId)
            case Refuse(status, message) => Some(Reply(status, message))
            case Allow => Run(rest, Some(w), pathId, b, [])
  {
    assert ([Guarded(g)] + rest)[1..] == rest;
  }

  /** The outcome of a request to `/api/users` that route `i` is the first
      to match. */
  lemma UsersRoute(who: Identity, verb: Verb, path: Path, b: UserFields, i: nat)
    requires i < |UserRoutes| && Matches(UserRoutes[i], verb, path)
    requires forall j | 0 <= j < i :: !Matches(UserRoutes[j], verb, path)
    ensures var route := UserRoutes[i];
            UsersOutcome(who, verb, path, b) ==
            match Run(route.stages, Some(who), PathId(route, path), b, [])
            case Some(response) => Respond(response)
            case None => Invoke(route.handler, Some(who), PathId(route, path))
  {
    FirstMatchIs(UserRoutes, verb, path, i);
  }

  /** Without a live access token no route of `/api/users` is reached,
      matched or not: 401 without a token, 403 with a bad one, and the
      collection is untouched. */
  lemma UsersNeedAccessToken(s: Store, header: Option<string>, now: nat, verb: Verb, path: Path, b: UserFields, newId: UserId)
    requires VerifyToken(header, now).Deny?
    ensures ServeUsers(s, header, now, verb, path, b, newId) ==
            Some(Step(Reply(if BearerToken(header).None? then 401 else 403, VerifyToken(header, now).message), s))
  {
  }

  /** `GET /` and `POST /` are for admins only: anyone else gets 403 before
      any validation, and nothing changes. */
  lemma RootIsAdminOnly(s: Store, who: Identity, verb: Verb, b: UserFields, newId: UserId)
    requires who.role != Some(AdminRole)
    requires verb == Get || verb == Post
    ensures ServeAs(s, who, verb, [], b, newId) == Some(Step(Reply(403, "Access denied: Admins only"), s))
  {
    var i := if verb == Get then 0 else 3;
    UsersRoute(who, verb, [], b, i);
    var rest := UserRoutes[i].stages[1..];
    assert UserRoutes[i].stages == [Guarded(AdminOnly)] + rest;
    RunGuardFirst(AdminOnly, rest, who, "", b);
    assert UsersOutcome(who, verb, [], b) == Respond(Reply(403, "Access denied: Admins only"));
  }

  /** `GET`, `PUT` and `DELETE /:id` are for the user named by the path or
      an admin (`GET /me` excepted, which `/me` takes first): anyone else
      gets 403 and nothing changes. */
  lemma IdRoutesAreSelfOrAdmin(s: Store, who: Identity, verb: Verb, id: string, b: UserFields, newId: UserId)
    requires who.role != Some(AdminRole) && who.id != id
    requires id != "" && (verb == Put || verb == Delete || (verb == Get && id != "me"))
    ensures ServeAs(s, who, verb, [id], b, newId) == Some(Step(Reply(403, "Access denied"), s))
  {
    var i := if verb == Get then 2 else if verb == Put then 4 else 5;
    var rest := UserRoutes[i].stages[1..];
    assert UserRoutes[i].stages == [Guarded(SelfOrAdmin)] + rest;
    assert PathId(UserRoutes[i], [id]) == id;
    RunGuardFirst(SelfOrAdmin, rest, who, id, b);
    if verb == Get {
      UsersRoute(who, Get, [id], b, 2);
    } else if verb == Put {
      UsersRoute(who, Put, [id], b, 4);
    } else {
      UsersRoute(who, Delete, [id], b, 5);
    }
    assert UsersOutcome(who, verb, [id], b) == Respond(Reply(403, "Access denied"));
  }

  /** `GET /me` is matched before `/:id` and needs no guard: every
      authenticated caller gets `getMyProfile`. */
  lemma MeBeforeId(s: Store, who: Identity, b: UserFields, newId: UserId)
    ensures ServeAs(s, who, Get, ["me"], b, newId) == Some(Step(GetMyProfile(s, who), s))
  {
    UsersRoute(who, Get, ["me"], b, 1);
    assert UserRoutes[1].stages == [];
    assert UsersOutcome(who, Get, ["me"], b) == Invoke(MyProfile, Some(who), "");
  }

  /** For an admin, `POST /` reaches `createUser` exactly when the body
      passes its validators; otherwise 400 with the issues. */
  lemma CreateRoute(who: Identity, b: UserFields)
    requires who.role == Some(AdminRole)
    ensures UsersOutcome(who, Post, [], b) ==
            if ValidNewUser(b) then Invoke(NewUser, Some(who), "")
            else Respond(Response(400, Errors(Issues(CreateChecks, b)), NoCookie))
  {
    UsersRoute(who, Post, [], b, 3);
    var rest := Validators(CreateChecks) + [Validate];
    assert UserRoutes[3].stages == [Guarded(AdminOnly)] + rest;
    assert PathId(UserRoutes[3], []) == "";
    RunGuardFirst(AdminOnly, rest, who, "", b);
    assert rest == Validators(CreateChecks) + [Validate] + [];
    RunValidated(CreateChecks, [], Some(who), "", b, []);
    assert [] + Issues(CreateChecks, b) == Issues(CreateChecks, b);
    assert Run([], Some(who), "", b, []) == None;
    CreateChecksPass(b);
  }

  lemma CreateValidated(s: Store, who: Identity, b: UserFields, newId: UserId)
    requires who.role == Some(AdminRole)
    ensures ServeAs(s, who, Post, [], b, newId) ==
            Some(if ValidNewUser(b) then CreateUserSpec(s, b, newId)
                 else Step(Response(400, Errors(Issues(CreateChecks, b)), NoCookie), s))
  {
    CreateRoute(who, b);
    if ValidNewUser(b) {
      assert ServeAs(s, who, Post, [], b, newId) == Some(UsersHandler(s, NewUser, who, "", b, newId));
    } else {
      var o := UsersOutcome(who, Post, [], b);
      assert o.Respond?;
      assert ServeAs(s, who, Post, [], b, newId) == Some(Step(o.response, s));
    }
  }

  /** For the user named by the path or an admin, `PUT /:id` reaches
      `updateUser` exactly when every supplied field passes its validator. */
  lemma UpdateRoute(who: Identity, id: string, b: UserFields)
    requires id != ""
    requires who.role == Some(AdminRole) || who.id == id
    ensures UsersOutcome(who, Put, [id], b) ==
            if ValidUpdate(b) then Invoke(EditUser, Some(who), id)
            else Respond(Response(400, Errors(Issues(UpdateChecks, b)), NoCookie))
  {
    UsersRoute(who, Put, [id], b, 4);
    var rest := Validators(UpdateChecks) + [Validate];
    assert UserRoutes[4].stages == [Guarded(SelfOrAdmin)] + rest;
    assert PathId(UserRoutes[4], [id]) == id;
    RunGuardFirst(SelfOrAdmin, rest, who, id, b);
    assert rest == Validators(UpdateChecks) + [Validate] + [];
    RunValidated(UpdateChecks, [], Some(who), id, b, []);
    assert [] + Issues(UpdateChecks, b) == Issues(UpdateChecks, b);
    assert Run([], Some(who), id, b, []) == None;
    UpdateChecksPass(b);
  }

  lemma UpdateValidated(s: Store, who: Identity, id: string, b: UserFields, newId: UserId)
    requires id != ""
    requires who.role == Some(AdminRole) || who.id == id
    ensures ServeAs(s, who, Put, [id], b, newId) ==
            Some(if ValidUpdate(b) then UpdateUserSpec(s, who, id, b)
                 else Step(Response(400, Errors(Issues(UpdateChecks, b)), NoCookie), s))
  {
    UpdateRoute(who, id, b);
  }

  /** The outcome of a request to `/api/auth` that route `i` is the first
      to match. */
  lemma AuthRoute(verb: Verb, path: Path, b: UserFields, i: nat)
    requires i < |AuthRoutes| && Matches(AuthRoutes[i], verb, path)
    requires forall j | 0 <= j < i :: !Matches(AuthRoutes[j], verb, path)
    ensures var route := AuthRoutes[i];
            AuthOutcome(verb, path, b) ==
            match Run(route.stages, None, PathId(route, path), b, [])
            case Some(response) => Respond(response)
            case None => Invoke(route.handler, None, PathId(route, path))
  {
    FirstMatchIs(AuthRoutes, verb, path, i);
  }

  /** Signup reaches `register` exactly when the body passes its validators;
      an unchecked role goes through to the controller. */
  lemma SignupValidated(s: Store, cookie: Option<string>, now: nat, production: bool, b: UserFields, newId: UserId)
    requires Inv(s)
    ensures ServeAuth(s, cookie, now, production, Post, ["signup"], b, newId) ==
            Some(if ValidSignup(b) then RegisterSpec(s, SignupBody(b.username.value, b.fullname.value, b.email.value, b.password.value, b.role), newId)
                 else Step(Response(400, Errors(Issues(SignupChecks, b)), NoCookie), s))
  {
    AuthRoute(Post, ["signup"], b, 0);
    assert AuthRoutes[0].stages == Validators(SignupChecks) + [Validate] + [];
    assert PathId(AuthRoutes[0], ["signup"]) == "";
    RunValidated(SignupChecks, [], None, "", b, []);
    assert [] + Issues(SignupChecks, b) == Issues(SignupChecks, b);
    assert Run([], None, "", b, []) == None;
    SignupChecksPass(b);
    assert AuthOutcome(Post, ["signup"], b) ==
           if ValidSignup(b) then Invoke(AuthRoutes[0].handler, None, "")
           else Respond(Response(400, Errors(Issues(SignupChecks, b)), NoCookie));
  }

  /** Login reaches `login` exactly when the body passes its validators. */
  lemma LoginValidated(s: Store, cookie: Option<string>, now: nat, production: bool, b: UserFields, newId: UserId)
    requires Inv(s)
    ensures ServeAuth(s, cookie, now, production, Post, ["login"], b, newId) ==
            Some(if ValidLogin(b) then LoginSpec(s, b.email.value, b.password.value, now, production)
                 else Step(Response(400, Errors(Issues(LoginChecks, b)), NoCookie), s))
  {
    AuthRoute(Post, ["login"], b, 1);
    assert AuthRoutes[1].stages == Validators(LoginChecks) + [Validate] + [];
    assert PathId(AuthRoutes[1], ["login"]) == "";
    RunValidated(LoginChecks, [], None, "", b, []);
    assert [] + Issues(LoginChecks, b) == Issues(LoginChecks, b);
    assert Run([], None, "", b, []) == None;
    LoginChecksPass(b);
    assert AuthOutcome(Post, ["login"], b) ==
           if ValidLogin(b) then Invoke(AuthRoutes[1].handler, None, "")
           else Respond(Response(400, Errors(Issues(LoginChecks, b)), NoCookie));
  }

  /** Refresh has no validators: whatever the body, it goes straight to
      the controller. */
  lemma RefreshUnvalidated(s: Store, cookie: Option<string>, now: nat, production: bool, b: UserFields, newId: UserId)
    requires Inv(s)
    ensures ServeAuth(s, cookie, now, production, Post, ["refresh"], b, newId) == Some(RefreshSpec(s, cookie, now, production))
  {
    AuthRoute(Post, ["refresh"], b, 2);
    assert AuthRoutes[2].stages == [];
    assert AuthOutcome(Post, ["refresh"], b) == Invoke(RefreshSession, None, "");
  }

  /** Neither has logout. */
  lemma LogoutUnvalidated(s: Store, cookie: Option<string>, now: nat, production: bool, b: UserFields, newId: UserId)
    requires Inv(s)
    ensures ServeAuth(s, cookie, now, production, Post, ["logout"], b, newId) == Some(LogoutSpec(s, cookie, production))
  {
    AuthRoute(Post, ["logout"], b, 3);
    assert AuthRoutes[3].stages == [];
    assert AuthOutcome(Post, ["logout"], b) == Invoke(LogOut, None, "");
  }

  /** Only an admin's request reaches `createUser`. */
  lemma CreateNeedsAdmin(who: Identity, verb: Verb, path: Path, b: UserFields)
    requires UsersOutcome(who, verb, path, b).Invoke?
    requires UsersOutcome(who, verb, path, b).handler == NewUser
    ensures who.role == Some(AdminRole)
  {
    var i := FirstMatch(UserRoutes, verb, path).value;
    assert UserRoutes[i].handler == NewUser;
    assert i == 3;
    RunGuardFirst(AdminOnly, Validators(CreateChecks) + [Validate], who, "", b);
  }

  /** No handler but `createUser` lets a caller who is not an admin add a
      user or change a role. */
  lemma HandlerKeepsRoles(s: Store, handler: UsersAction, who: Identity, pathId: string, b: UserFields, newId: UserId)
    requires handler != NewUser && !IsAdmin(who)
    ensures var t := UsersHandler(s, handler, who, pathId, b, newId).store;
            forall id | id in t :: id in s && t[id].role == s[id].role
  {
    if handler == EditUser {
      UpdateTouchesOneRecord(s, who, pathId, b);
    }
  }

  /** No request to `/api/users` from a caller who is not an admin changes
      anyone's role or adds a user. */
  lemma NoEscalationThroughUsers(s: Store, header: Option<string>, now: nat, verb: Verb, path: Path, b: UserFields, newId: UserId)
    requires VerifyToken(header, now).Deny? || VerifyToken(header, now).who.role != Some(AdminRole)
    requires ServeUsers(s, header, now, verb, path, b, newId).Some?
    ensures var t := ServeUsers(s, header, now, verb, path, b, newId).value.store;
            forall id | id in t :: id in s && t[id].role == s[id].role
  {
    if VerifyToken(header, now).Pass? {
      var who := VerifyToken(header, now).who;
      var o := UsersOutcome(who, verb, path, b);
      if o.Invoke? {
        if o.handler == NewUser {
          CreateNeedsAdmin(who, verb, path, b);
        }
        HandlerKeepsRoles(s, o.handler, who, o.pathId, b, newId);
      }
    }
  }
}
