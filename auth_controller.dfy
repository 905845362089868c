/** The session manager of controllers/authController.js: `register`,
    `login`, `refresh` and `logout` over the user collection.

    Each handler is a method on the collection (`Db`) that loads, changes
    and saves a document as the controller does; each is proved equal to a
    function from the collection before the request to the response and the
    collection after it (`RegisterSpec`, `LoginSpec`, `RefreshSpec`,
    `LogoutSpec`). The lemmas at the end chain those functions: rotation,
    reuse detection, revocation on logout and idempotent logout. */
module AuthController {
  import opened Common
  import opened Tokens
  import Passwords
  import opened UserModel
  import opened Http

  /** The signup body once its route validators have passed: the four
      required fields are present; `role` is optional and not validated. */
  datatype SignupBody = SignupBody(username: string, fullname: string, email: string, password: string, role: Option<string>)

  const RefreshCookieMaxAgeMs: nat := 7 * 24 * 60 * 60 * 1000
  const InvalidCredentials: string := "Invalid credentials"

  /** The options of the `jwt` cookie: HTTP-only always; `Secure` and
      `SameSite=None` in production, `SameSite=Lax` otherwise. */
  function CookieFlags(production: bool, maxAgeMs: Option<nat>): (o: CookieOptions)
    ensures o.httpOnly && o.maxAgeMs == maxAgeMs
    ensures o.secure == production
    ensures o.sameSite == SameSiteNone <==> production
    ensures !production ==> o.sameSite == SameSiteLax
  {
    CookieOptions(true, production, if production then SameSiteNone else SameSiteLax, maxAgeMs)
  }

  function SetRefreshCookie(token: string, production: bool): CookieEffect {
    SetJwt(token, CookieFlags(production, Some(RefreshCookieMaxAgeMs)))
  }

  function SignupDraft(b: SignupBody, newId: UserId): Draft {
    NewDraft(newId, b.username, b.fullname, b.email, b.password, RequestedRole(b.role))
  }

  // ---------------------------------------------------------------------
  // register

  /** `register` (controllers/authController.js:10-27). */
  function RegisterSpec(s: Store, b: SignupBody, newId: UserId): (r: Step)
    ensures r.response.cookie == NoCookie
    ensures r.response.status == 201 || r.response.status == 400 || r.response.status == 500
    ensures r.response.status == 400 <==> Taken(s, b.email, b.username)
    ensures r.response.status == 201 <==> !Taken(s, b.email, b.username) && SchemaValid(SignupDraft(b, newId)) && newId !in s
    ensures r.response.status != 201 ==> r.store == s
    ensures r.response.status == 201 ==>
      && r.store.Keys == s.Keys + {newId}
      && (forall id | id in s :: r.store[id] == s[id])
      && r.store[newId] == Record(b.username, b.fullname, b.email, Passwords.Hash(b.password),
                                  if Truthy(b.role) then ParseRole(b.role.value).value else UserRole, None)
    ensures Inv(s) && IsObjectId(newId) ==> Inv(r.store)
  {
    if Taken(s, b.email, b.username) then Step(Reply(400, InUse), s)
    else
      match Persist(s, SignupDraft(b, newId))
      case Saved(s') => Step(Reply(201, "User registered successfully"), s')
      case _ => Step(Reply(500, ServerError), s)
  }

  method Register(db: Db, b: SignupBody, newId: UserId) returns (res: Response)
    modifies db
    ensures Step(res, db.users) == RegisterSpec(old(db.users), b, newId)
  {
    if exists id | id in db.users :: db.users[id].email == b.email || db.users[id].username == b.username {
      return Reply(400, InUse);
    }
    var user := new UserDocument.Create(newId, b.username, b.fullname, b.email, b.password, RequestedRole(b.role));
    var saved := user.Save(db);
    if saved.Saved? {
      res := Reply(201, "User registered successfully");
    } else {
      res := Reply(500, ServerError);
    }
  }

  // ---------------------------------------------------------------------
  // login

  /** The step of a successful login of `id` at second `now`: a fresh
      access/refresh pair, the refresh token written over the user's slot
      and sent as the `jwt` cookie. */
  function LoginStep(s: Store, id: UserId, now: nat, production: bool): Step
    requires id in s
  {
    var access := Sign(Access, Claims(id, Some(s[id].role)), now);
    var refresh := Sign(Tokens.Refresh, Claims(id, None), now);
    Step(Response(200, LoginResult("Login successful", access, ToJson(id, s[id])), SetRefreshCookie(refresh, production)),
         s[id := s[id].(refreshToken := Some(refresh))])
  }

  /** `login` (controllers/authController.js:30-81). An unknown email and a
      wrong password get the same answer. */
  function LoginSpec(s: Store, email: string, password: string, now: nat, production: bool): (r: Step)
    requires Inv(s)
    ensures r.response.status == 200 || r.response == Reply(401, InvalidCredentials)
    ensures r.response.status == 200 <==>
      exists id | id in s :: s[id].email == email && Passwords.Compare(password, s[id].password)
    ensures r.response.status != 200 ==> r.store == s
    ensures r.response.status == 200 ==> ByEmail(s, email).Some? && r == LoginStep(s, ByEmail(s, email).value, now, production)
    ensures Inv(r.store)
  {
    match ByEmail(s, email)
    case None => Step(Reply(401, InvalidCredentials), s)
    case Some(id) =>
      if !Passwords.Compare(password, s[id].password) then Step(Reply(401, InvalidCredentials), s)
      else
        IssueKeepsInv(s, id, now);
        LoginStep(s, id, now, production)
  }

  method Login(db: Db, email: string, password: string, now: nat, production: bool) returns (res: Response)
    requires Inv(db.users)
    modifies db
    ensures Step(res, db.users) == LoginSpec(old(db.users), email, password, now, production)
  {
    var found := ByEmail(db.users, email);
    if found.None? {
      return Reply(401, InvalidCredentials);
    }
    var user := new UserDocument.Load(found.value, db.users[found.value]);
    var isMatch := user.MatchPassword(password);
    if !isMatch {
      return Reply(401, InvalidCredentials);
    }
    ParseRoleName(db.users[user.id].role);
    var role := ParseRole(user.role).value;
    var accessToken := Sign(Access, Claims(user.id, Some(role)), now);
    var refreshToken := Sign(Tokens.Refresh, Claims(user.id, None), now);
    user.refreshToken := Some(refreshToken);
    ResaveWithToken(db.users, user.id, Some(refreshToken));
    var saved := user.Save(db);
    res := Response(200, LoginResult("Login successful", accessToken, PublicUser(user.id, user.username, user.fullname, user.email, role)),
                    SetRefreshCookie(refreshToken, production));
  }

  // ---------------------------------------------------------------------
  // refresh

  /** The reuse check: a refresh token is honoured only if it verifies with
      the refresh secret AND is the very text stored in its user's slot. */
  predicate Honoured(s: Store, t: string, now: nat) {
    match Verify(Tokens.Refresh, t, now)
    case None => false
    case Some(c) => c.userId in s && s[c.userId].refreshToken == Some(t)
  }

  /** The step of a successful refresh for `id`: new pair, slot rotated. */
  function RotateStep(s: Store, id: UserId, now: nat, production: bool): Step
    requires id in s
  {
    var access := Sign(Access, Claims(id, Some(s[id].role)), now);
    var rotated := Sign(Tokens.Refresh, Claims(id, None), now);
    Step(Response(200, AccessResult(access), SetRefreshCookie(rotated, production)),
         s[id := s[id].(refreshToken := Some(rotated))])
  }

  /** `refresh` (controllers/authController.js:84-135). */
  function RefreshSpec(s: Store, cookie: Option<string>, now: nat, production: bool): (r: Step)
    ensures r.response.status == 200 || r.response.status == 401 || r.response.status == 403
    ensures r.response.status == 401 <==> !Truthy(cookie)
    ensures r.response.status == 200 <==> Truthy(cookie) && Honoured(s, cookie.value, now)
    ensures r.response.status != 200 ==> r.store == s && r.response.cookie == NoCookie
    ensures r.response.status == 200 ==>
      r == RotateStep(s, Verify(Tokens.Refresh, cookie.value, now).value.userId, now, production)
    ensures Inv(s) ==> Inv(r.store)
  {
    if !Truthy(cookie) then Step(Reply(401, "Refresh token not found"), s)
    else
      match Verify(Tokens.Refresh, cookie.value, now)
      case None => Step(Reply(403, "Invalid refresh token"), s)
      case Some(decoded) =>
        if decoded.userId !in s || !Truthy(s[decoded.userId].refreshToken) then
          Step(Reply(403, "User not found or refresh token not valid"), s)
        else if s[decoded.userId].refreshToken.value != cookie.value then
          Step(Reply(403, "Refresh token mismatch"), s)
        else
          assert Inv(s) ==> Inv(RotateStep(s, decoded.userId, now, production).store) by {
            if Inv(s) {
              IssueKeepsInv(s, decoded.userId, now);
            }
          }
          RotateStep(s, decoded.userId, now, production)
  }

  /** A refresh changes nothing but the token slot of the user it
      rotates. */
  lemma RefreshOnlyRotates(s: Store, cookie: Option<string>, now: nat, production: bool)
    ensures var t := RefreshSpec(s, cookie, now, production).store;
            && t.Keys == s.Keys
            && forall id | id in s :: t[id] == s[id].(refreshToken := t[id].refreshToken)
  {
    var r := RefreshSpec(s, cookie, now, production);
    if r.response.status == 200 {
      var id := Verify(Tokens.Refresh, cookie.value, now).value.userId;
      RotateOnlyWritesToken(s, id, now, production);
    }
  }

  lemma RotateOnlyWritesToken(s: Store, id: UserId, now: nat, production: bool)
    requires id in s
    ensures var t := RotateStep(s, id, now, production).store;
            && t.Keys == s.Keys
            && forall other | other in s :: t[other] == s[other].(refreshToken := t[other].refreshToken)
  {
    var t := RotateStep(s, id, now, production).store;
    forall other | other in s
      ensures t[other] == s[other].(refreshToken := t[other].refreshToken)
    {
      if other != id {
        assert t[other] == s[other];
      }
    }
  }

  method Refresh(db: Db, cookie: Option<string>, now: nat, production: bool) returns (res: Response)
    requires Inv(db.users)
    modifies db
    ensures Step(res, db.users) == RefreshSpec(old(db.users), cookie, now, production)
  {
    if !Truthy(cookie) {
      return Reply(401, "Refresh token not found");
    }
    var refreshToken := cookie.value;
    var decoded := Verify(Tokens.Refresh, refreshToken, now);
    if decoded.None? {
      return Reply(403, "Invalid refresh token");
    }
    var userId := decoded.value.userId;
    if userId !in db.users || !Truthy(db.users[userId].refreshToken) {
      return Reply(403, "User not found or refresh token not valid");
    }
    var user := new UserDocument.Load(userId, db.users[userId]);
    if user.refreshToken.value != refreshToken {
      return Reply(403, "Refresh token mismatch");
    }
    ParseRoleName(db.users[userId].role);
    var newAccessToken := Sign(Access, Claims(user.id, Some(ParseRole(user.role).value)), now);
    var newRefreshToken := Sign(Tokens.Refresh, Claims(user.id, None), now);
    user.refreshToken := Some(newRefreshToken);
    ResaveWithToken(db.users, userId, Some(newRefreshToken));
    var saved := user.Save(db);
    res := Response(200, AccessResult(newAccessToken), SetRefreshCookie(newRefreshToken, production));
  }

  // ---------------------------------------------------------------------
  // logout

  /** `logout` (controllers/authController.js:138-161): whoever holds the
      presented token loses it; the answer is the same in every case. */
  function LogoutSpec(s: Store, cookie: Option<string>, production: bool): (r: Step)
    requires Inv(s)
    ensures r.response.status == 200 && r.response.body == Message("Logged out successfully")
    ensures r.response.cookie == if Truthy(cookie) then ClearJwt(CookieFlags(production, None)) else NoCookie
    ensures r.store.Keys == s.Keys
    ensures forall id | id in s ::
      r.store[id] == if Truthy(cookie) && s[id].refreshToken == cookie then s[id].(refreshToken := None) else s[id]
    ensures Inv(r.store)
  {
    var response := Response(200, Message("Logged out successfully"),
                             if Truthy(cookie) then ClearJwt(CookieFlags(production, None)) else NoCookie);
    if !Truthy(cookie) then Step(response, s)
    else
      match HolderOf(s, cookie.value)
      case None => Step(response, s)
      case Some(id) =>
        assert forall other | other in s && s[other].refreshToken == cookie :: other == id by {
          forall other | other in s && s[other].refreshToken == cookie
            ensures other == id
          {
            OneHolderPerToken(s, other, id, cookie.value);
          }
        }
        TokenWriteKeepsInv(s, id, None);
        Step(response, s[id := s[id].(refreshToken := None)])
  }

  method Logout(db: Db, cookie: Option<string>, production: bool) returns (res: Response)
    requires Inv(db.users)
    modifies db
    ensures Step(res, db.users) == LogoutSpec(old(db.users), cookie, production)
  {
    res := Response(200, Message("Logged out successfully"), NoCookie);
    if Truthy(cookie) {
      var found := HolderOf(db.users, cookie.value);
      if found.Some? {
        var user := new UserDocument.Load(found.value, db.users[found.value]);
        user.refreshToken := None;
        ResaveWithToken(db.users, found.value, None);
        var saved := user.Save(db);
      }
      res := res.(cookie := ClearJwt(CookieFlags(production, None)));
    }
  }

  // ---------------------------------------------------------------------
  // Properties of the session state machine

  /** After a login the cookie is the stored token; it verifies as a refresh
      token for the user only, and the access token carries the user's id
      and role; no other user changes. */
  lemma LoginIssuesSession(s: Store, email: string, password: string, now: nat, production: bool)
    requires Inv(s)
    requires LoginSpec(s, email, password, now, production).response.status == 200
    ensures var r := LoginSpec(s, email, password, now, production);
            var id := ByEmail(s, email).value;
            && r.response.cookie.SetJwt?
            && r.store[id].refreshToken == Some(SetToken(r.response))
            && Verify(Tokens.Refresh, SetToken(r.response), now) == Some(Claims(id, None))
            && Verify(Access, r.response.body.accessToken, now) == Some(Claims(id, Some(s[id].role)))
            && Verify(Access, SetToken(r.response), now) == None
            && r.response.body.user == ToJson(id, s[id])
            && (forall other | other in s && other != id :: r.store[other] == s[other])
  {
    var id := ByEmail(s, email).value;
    VerifySign(Tokens.Refresh, Claims(id, None), now, now);
    VerifySign(Access, Claims(id, Some(s[id].role)), now, now);
    VerifyOtherClass(Tokens.Refresh, Access, Claims(id, None), now, now);
  }

  /** Rotation is reuse detection: once a refresh has replaced the slot by a
      token different from the one presented, presenting the old token
      again is refused with 403, at any later second. */
  lemma ReplayAfterRotationRefused(s: Store, t: string, now: nat, later: nat, production: bool)
    requires RefreshSpec(s, Some(t), now, production).response.status == 200
    requires SetToken(RefreshSpec(s, Some(t), now, production).response) != t
    ensures RefreshSpec(RefreshSpec(s, Some(t), now, production).store, Some(t), later, production).response.status == 403
  {
    var id := Verify(Tokens.Refresh, t, now).value.userId;
    var s1 := RefreshSpec(s, Some(t), now, production).store;
    assert s1[id].refreshToken != Some(t);
    match Verify(Tokens.Refresh, t, later)
    case None =>
    case Some(c) => assert c.userId == id;
  }

  /** The rotated token differs from the presented one whenever the second
      of the refresh differs from the second the presented token was issued
      at: freshness comes from the clock, not from the oracle. */
  lemma RotationFreshWhenClockMoved(s: Store, t: string, now: nat, production: bool)
    requires RefreshSpec(s, Some(t), now, production).response.status == 200
    requires Decode(t).value.iat != now
    ensures SetToken(RefreshSpec(s, Some(t), now, production).response) != t
  {
    var id := Verify(Tokens.Refresh, t, now).value.userId;
    DecodeSign(Tokens.Refresh, Claims(id, None), now);
  }

  /** The oracle does not make a rotated token fresh on its own: a refresh in
      the same second as the login that issued the token writes back the
      very same token, which therefore stays honoured. */
  lemma SameSecondRotationReissuesToken(s: Store, email: string, password: string, now: nat, production: bool)
    requires Inv(s)
    requires LoginSpec(s, email, password, now, production).response.status == 200
    ensures var login := LoginSpec(s, email, password, now, production);
            var t := SetToken(login.response);
            var again := RefreshSpec(login.store, Some(t), now, production);
            again.response.status == 200 && SetToken(again.response) == t && again.store == login.store
  {
    var login := LoginSpec(s, email, password, now, production);
    var id := ByEmail(s, email).value;
    var t := SetToken(login.response);
    VerifySign(Tokens.Refresh, Claims(id, None), now, now);
    assert Verify(Tokens.Refresh, t, now) == Some(Claims(id, None));
    assert login.store[id].refreshToken == Some(t);
    assert login.store[id := login.store[id].(refreshToken := Some(t))] == login.store;
  }

  /** A login supersedes the previous session: the token that was in the
      user's slot is refused afterwards unless the login reissued that very
      text. */
  lemma LoginSupersedesPreviousToken(s: Store, email: string, password: string, now: nat, t: string, later: nat, production: bool)
    requires Inv(s)
    requires LoginSpec(s, email, password, now, production).response.status == 200
    requires s[ByEmail(s, email).value].refreshToken == Some(t)
    requires SetToken(LoginSpec(s, email, password, now, production).response) != t
    ensures RefreshSpec(LoginSpec(s, email, password, now, production).store, Some(t), later, production).response.status == 403
  {
    var id := ByEmail(s, email).value;
    var s1 := LoginSpec(s, email, password, now, production).store;
    assert TokenBound(id, Some(t));
    match Verify(Tokens.Refresh, t, later)
    case None =>
    case Some(c) => assert c.userId == id;
  }

  /** After logout, the token that was presented is refused by refresh. */
  lemma RefreshAfterLogoutRefused(s: Store, t: string, now: nat, production: bool)
    requires Inv(s) && t != ""
    ensures RefreshSpec(LogoutSpec(s, Some(t), production).store, Some(t), now, production).response.status == 403
  {
    var s1 := LogoutSpec(s, Some(t), production).store;
    match Verify(Tokens.Refresh, t, now)
    case None =>
    case Some(c) =>
      if c.userId in s1 {
        assert s1[c.userId].refreshToken != Some(t);
      }
  }

  /** Logging out twice with the same cookie is the same as once. */
  lemma LogoutIdempotent(s: Store, cookie: Option<string>, production: bool)
    requires Inv(s)
    ensures LogoutSpec(LogoutSpec(s, cookie, production).store, cookie, production) == LogoutSpec(s, cookie, production)
  {
    var s1 := LogoutSpec(s, cookie, production).store;
    var s2 := LogoutSpec(s1, cookie, production).store;
    assert s2 == s1;
  }

  /** The cookie a login sets keeps working for the lifetime of a refresh
      token. */
  lemma RefreshAfterLogin(s: Store, email: string, password: string, t0: nat, t1: nat, production: bool)
    requires Inv(s)
    requires LoginSpec(s, email, password, t0, production).response.status == 200
    requires t0 <= t1 < t0 + RefreshTtl
    ensures var login := LoginSpec(s, email, password, t0, production);
            RefreshSpec(login.store, Some(SetToken(login.response)), t1, production).response.status == 200
  {
    var login := LoginSpec(s, email, password, t0, production);
    var id := ByEmail(s, email).value;
    VerifySign(Tokens.Refresh, Claims(id, None), t0, t1);
    assert Verify(Tokens.Refresh, SetToken(login.response), t1) == Some(Claims(id, None));
  }

  /** The cookie a refresh sets is honoured by the next refresh, for the
      lifetime of a refresh token: refreshes chain. */
  lemma RefreshAfterRefresh(s: Store, t: string, t1: nat, t2: nat, production: bool)
    requires RefreshSpec(s, Some(t), t1, production).response.status == 200
    requires t1 <= t2 < t1 + RefreshTtl
    ensures var r := RefreshSpec(s, Some(t), t1, production);
            RefreshSpec(r.store, Some(SetToken(r.response)), t2, production).response.status == 200
  {
    var r := RefreshSpec(s, Some(t), t1, production);
    var id := Verify(Tokens.Refresh, t, t1).value.userId;
    VerifySign(Tokens.Refresh, Claims(id, None), t1, t2);
    assert Verify(Tokens.Refresh, SetToken(r.response), t2) == Some(Claims(id, None));
  }

  /** A whole session, as the client scripts drive it: log in, refresh
      twice a second or more apart, have the superseded cookie refused, log
      out, have the last cookie refused, and log out again to no effect. */
  lemma SessionScenario(s: Store, email: string, password: string, t0: nat, t1: nat, t2: nat, production: bool)
    requires Inv(s)
    requires LoginSpec(s, email, password, t0, production).response.status == 200
    requires t0 < t1 < t2 < t1 + RefreshTtl && t1 < t0 + RefreshTtl
    ensures var login := LoginSpec(s, email, password, t0, production);
            var c0 := SetToken(login.response);
            var r1 := RefreshSpec(login.store, Some(c0), t1, production);
            var c1 := SetToken(r1.response);
            var r2 := RefreshSpec(r1.store, Some(c1), t2, production);
            var c2 := SetToken(r2.response);
            var out := LogoutSpec(r2.store, Some(c2), production);
            && r1.response.status == 200 && c1 != c0
            && RefreshSpec(r1.store, Some(c0), t2, production).response.status == 403
            && r2.response.status == 200 && c2 != c1
            && RefreshSpec(out.store, Some(c2), t2, production).response.status == 403
            && LogoutSpec(out.store, Some(c2), production) == out
  {
    var login := LoginSpec(s, email, password, t0, production);
    var id := ByEmail(s, email).value;
    var c0 := SetToken(login.response);
    assert c0 == Sign(Tokens.Refresh, Claims(id, None), t0);
    DecodeSign(Tokens.Refresh, Claims(id, None), t0);
    VerifySign(Tokens.Refresh, Claims(id, None), t0, t1);
    RefreshAfterLogin(s, email, password, t0, t1, production);
    var r1 := RefreshSpec(login.store, Some(c0), t1, production);
    RotationFreshWhenClockMoved(login.store, c0, t1, production);
    var c1 := SetToken(r1.response);
    assert c1 == Sign(Tokens.Refresh, Claims(id, None), t1);
    ReplayAfterRotationRefused(login.store, c0, t1, t2, production);
    RefreshAfterRefresh(login.store, c0, t1, t2, production);
    var r2 := RefreshSpec(r1.store, Some(c1), t2, production);
    DecodeSign(Tokens.Refresh, Claims(id, None), t1);
    RotationFreshWhenClockMoved(r1.store, c1, t2, production);
    var c2 := SetToken(r2.response);
    assert c2 == Sign(Tokens.Refresh, Claims(id, None), t2);
    RefreshAfterLogoutRefused(r2.store, c2, t2, production);
    LogoutIdempotent(r2.store, Some(c2), production);
  }
}
