/** The user-management handlers of controllers/userController.js. The read
    handlers are projections of the collection; `createUser`, `updateUser`
    and `deleteUser` load or build a document, change it and save or delete
    it, and each is proved equal to a function of the collection before
    the request (`CreateUserSpec`, `UpdateUserSpec`, `DeleteUserSpec`). */
module UserController {
  import opened Common
  import Passwords
  import opened UserModel
  import opened Http
  import opened AuthMiddleware
  import AuthController

  /** The fields a create or update request may carry; a missing field is
      `None`. */
  datatype UserFields = UserFields(username: Option<string>, fullname: Option<string>, email: Option<string>,
                                   password: Option<string>, role: Option<string>)

  const RequiredFields: string := "Required fields: username, fullname, email, password"

  predicate IsAdmin(who: Identity) {
    who.role == Some(AdminRole)
  }

  // ---------------------------------------------------------------------
  // Reads

  /** `getAllUsers`: every user, projected. */
  function GetAllUsers(s: Store): (r: Response)
    ensures r.status == 200 && r.body.UserList? && r.body.users.Keys == s.Keys
    ensures forall id | id in s :: r.body.users[id] == ToJson(id, s[id])
  {
    Response(200, UserList(map id | id in s :: ToJson(id, s[id])), NoCookie)
  }

  /** `getUserById`: a malformed id is a CastError, answered like a
      missing user. */
  function GetUserById(s: Store, pathId: string): (r: Response)
    ensures r.status == 200 || r == Reply(404, NotFound)
    ensures r.status == 200 <==> IsObjectId(pathId) && pathId in s
    ensures r.status == 200 ==> r.body == OneUser(ToJson(pathId, s[pathId]))
  {
    if !IsObjectId(pathId) || pathId !in s then Reply(404, NotFound)
    else Response(200, OneUser(ToJson(pathId, s[pathId])), NoCookie)
  }

  /** `getMyProfile`: the caller's own record; here a malformed id is not
      caught and ends as 500. */
  function GetMyProfile(s: Store, who: Identity): (r: Response)
    ensures r.status == 200 || r == Reply(404, NotFound) || r == Reply(500, ServerError)
    ensures r.status == 500 <==> !IsObjectId(who.id)
    ensures r.status == 200 <==> IsObjectId(who.id) && who.id in s
    ensures r.status == 200 ==> r.body == OneUser(ToJson(who.id, s[who.id]))
  {
    if !IsObjectId(who.id) then Reply(500, ServerError)
    else if who.id !in s then Reply(404, NotFound)
    else Response(200, OneUser(ToJson(who.id, s[who.id])), NoCookie)
  }

  /** No read handler reveals a password or a refresh token: changing
      either in any record leaves every read response as it was. */
  lemma ReadsHideSecrets(s: Store, id: UserId, password: string, token: Option<string>, pathId: string, who: Identity)
    requires id in s
    ensures var s' := s[id := s[id].(password := password, refreshToken := token)];
            && GetAllUsers(s') == GetAllUsers(s)
            && GetUserById(s', pathId) == GetUserById(s, pathId)
            && GetMyProfile(s', who) == GetMyProfile(s, who)
  {
    var s' := s[id := s[id].(password := password, refreshToken := token)];
    ToJsonHidesSecrets(id, s[id], password, token);
    assert GetAllUsers(s').body.users == GetAllUsers(s).body.users;
  }

  /** Rewriting token slots and nothing else leaves the list of users as
      it was. */
  lemma TokenWritesKeepProfiles(s: Store, t: Store)
    requires t.Keys == s.Keys
    requires forall id | id in s :: t[id] == s[id].(refreshToken := t[id].refreshToken)
    ensures GetAllUsers(t) == GetAllUsers(s)
  {
    forall id | id in s
      ensures ToJson(id, t[id]) == ToJson(id, s[id])
    {
      ToJsonHidesSecrets(id, s[id], s[id].password, t[id].refreshToken);
    }
    assert GetAllUsers(t).body.users == GetAllUsers(s).body.users;
  }

  /** Logging in changes no one's public profile: it only writes the
      user's token slot. */
  lemma LoginKeepsProfiles(s: Store, email: string, password: string, now: nat, production: bool)
    requires Inv(s)
    ensures GetAllUsers(AuthController.LoginSpec(s, email, password, now, production).store) == GetAllUsers(s)
  {
    var t := AuthController.LoginSpec(s, email, password, now, production).store;
    if t != s {
      var id := ByEmail(s, email).value;
      assert t == s[id := s[id].(refreshToken := t[id].refreshToken)];
    }
    TokenWritesKeepProfiles(s, t);
  }

  /** Neither does refreshing. */
  lemma RefreshKeepsProfiles(s: Store, cookie: Option<string>, now: nat, production: bool)
    ensures GetAllUsers(AuthController.RefreshSpec(s, cookie, now, production).store) == GetAllUsers(s)
  {
    AuthController.RefreshOnlyRotates(s, cookie, now, production);
    TokenWritesKeepProfiles(s, AuthController.RefreshSpec(s, cookie, now, production).store);
  }

  /** Nor logging out. */
  lemma LogoutKeepsProfiles(s: Store, cookie: Option<string>, production: bool)
    requires Inv(s)
    ensures GetAllUsers(AuthController.LogoutSpec(s, cookie, production).store) == GetAllUsers(s)
  {
    TokenWritesKeepProfiles(s, AuthController.LogoutSpec(s, cookie, production).store);
  }

  // ---------------------------------------------------------------------
  // createUser

  function CreateDraft(b: UserFields, newId: UserId): Draft
    requires b.username.Some? && b.fullname.Some? && b.email.Some? && b.password.Some?
  {
    NewDraft(newId, b.username.value, b.fullname.value, b.email.value, b.password.value, RequestedRole(b.role))
  }

  predicate HasRequired(b: UserFields) {
    Truthy(b.username) && Truthy(b.fullname) && Truthy(b.email) && Truthy(b.password)
  }

  /** `createUser` (controllers/userController.js:44-70). */
  function CreateUserSpec(s: Store, b: UserFields, newId: UserId): (r: Step)
    ensures r.response.cookie == NoCookie
    ensures r.response.status == 201 || r.response.status == 400 || r.response.status == 500
    ensures !HasRequired(b) ==> r == Step(Reply(400, RequiredFields), s)
    ensures HasRequired(b) && Taken(s, b.email.value, b.username.value) ==> r == Step(Reply(400, InUse), s)
    ensures r.response.status == 201 <==>
      && HasRequired(b) && !Taken(s, b.email.value, b.username.value)
      && ParseRole(RequestedRole(b.role)).Some? && newId !in s
    ensures r.response.status != 201 ==> r.store == s
    ensures r.response.status == 201 ==>
      var role := if Truthy(b.role) then ParseRole(b.role.value).value else UserRole;
      && r.store == s[newId := Record(b.username.value, b.fullname.value, b.email.value,
                                      Passwords.Hash(b.password.value), role, None)]
      && r.response.body == UserResult("User created", PublicUser(newId, b.username.value, b.fullname.value, b.email.value, role))
    ensures Inv(s) && IsObjectId(newId) ==> Inv(r.store)
  {
    if !HasRequired(b) then Step(Reply(400, RequiredFields), s)
    else if Taken(s, b.email.value, b.username.value) then Step(Reply(400, InUse), s)
    else
      match Persist(s, CreateDraft(b, newId))
      case Saved(s') => Step(Response(201, UserResult("User created", ToJson(newId, s'[newId])), NoCookie), s')
      case DuplicateKey => Step(Reply(400, InUse), s)
      case ValidationError => Step(Reply(500, ServerError), s)
  }

  method CreateUser(db: Db, b: UserFields, newId: UserId) returns (res: Response)
    modifies db
    ensures Step(res, db.users) == CreateUserSpec(old(db.users), b, newId)
  {
    if !Truthy(b.username) || !Truthy(b.fullname) || !Truthy(b.email) || !Truthy(b.password) {
      return Reply(400, RequiredFields);
    }
    if exists id | id in db.users :: db.users[id].email == b.email.value || db.users[id].username == b.username.value {
      return Reply(400, InUse);
    }
    var newUser := new UserDocument.Create(newId, b.username.value, b.fullname.value, b.email.value, b.password.value,
                                           RequestedRole(b.role));
    var saved := newUser.Save(db);
    match saved
    case Saved(_) =>
      res := Response(201, UserResult("User created", PublicUser(newUser.id, newUser.username, newUser.fullname,
                                                                 newUser.email, ParseRole(newUser.role).value)), NoCookie);
    case DuplicateKey =>
      res := Reply(400, InUse);
    case ValidationError =>
      res := Reply(500, ServerError);
  }

  // ---------------------------------------------------------------------
  // updateUser

  /** The merge of `updateUser`: a truthy field overwrites the loaded one
      (the password through the document's setter, so that only a changed
      value counts as modified); the role only when the caller is an
      admin. */
  function Merge(d: Draft, b: UserFields, admin: bool): (m: Draft)
    ensures m.id == d.id && m.isNew == d.isNew && m.refreshToken == d.refreshToken
  {
    d.(username := if Truthy(b.username) then b.username.value else d.username,
       fullname := if Truthy(b.fullname) then b.fullname.value else d.fullname,
       email := if Truthy(b.email) then b.email.value else d.email,
       password := if Truthy(b.password) then b.password.value else d.password,
       passwordModified := d.passwordModified || (Truthy(b.password) && b.password.value != d.password),
       role := if admin && Truthy(b.role) then b.role.value else d.role)
  }

  /** The record `updateUser` stores for `prev` when the save succeeds. */
  function Updated(prev: Record, b: UserFields, admin: bool): Record
    requires !(admin && Truthy(b.role)) || ParseRole(b.role.value).Some?
  {
    Record(if Truthy(b.username) then b.username.value else prev.username,
           if Truthy(b.fullname) then b.fullname.value else prev.fullname,
           if Truthy(b.email) then b.email.value else prev.email,
           if Truthy(b.password) && b.password.value != prev.password then Passwords.Hash(b.password.value) else prev.password,
           if admin && Truthy(b.role) then ParseRole(b.role.value).value else prev.role,
           prev.refreshToken)
  }

  /** `updateUser` (controllers/userController.js:73-103). */
  function UpdateUserSpec(s: Store, caller: Identity, pathId: string, b: UserFields): (r: Step)
    ensures r.response.cookie == NoCookie
    ensures r.response.status in {200, 400, 404, 500}
    ensures r.response.status == 500 <==> !IsObjectId(pathId)
    ensures r.response.status == 404 <==> IsObjectId(pathId) && pathId !in s
    ensures r.response.status == 200 <==>
      IsObjectId(pathId) && pathId in s && SchemaValid(Merge(LoadDraft(pathId, s[pathId]), b, IsAdmin(caller)))
      && !ViolatesUnique(s, Merge(LoadDraft(pathId, s[pathId]), b, IsAdmin(caller)))
    ensures r.response == Reply(400, InUse) <==>
      IsObjectId(pathId) && pathId in s && SchemaValid(Merge(LoadDraft(pathId, s[pathId]), b, IsAdmin(caller)))
      && ViolatesUnique(s, Merge(LoadDraft(pathId, s[pathId]), b, IsAdmin(caller)))
    ensures r.response.status != 200 ==> r.store == s
    ensures Inv(s) ==> Inv(r.store)
  {
    if !IsObjectId(pathId) then Step(Reply(500, ServerError), s)
    else if pathId !in s then Step(Reply(404, NotFound), s)
    else
      var d := Merge(LoadDraft(pathId, s[pathId]), b, IsAdmin(caller));
      match Persist(s, d)
      case Saved(s') => Step(Response(200, UserResult("User updated", ToJson(pathId, s'[pathId])), NoCookie), s')
      case DuplicateKey => Step(Reply(400, InUse), s)
      case ValidationError => Step(Response(400, SchemaMessage, NoCookie), s)
  }

  /** The schema refuses an update (400 with the schema's message) exactly
      when the merged document fails validation. */
  lemma UpdateSchemaRefusal(s: Store, caller: Identity, pathId: string, b: UserFields)
    ensures UpdateUserSpec(s, caller, pathId, b).response.body == SchemaMessage <==>
            IsObjectId(pathId) && pathId in s && !SchemaValid(Merge(LoadDraft(pathId, s[pathId]), b, IsAdmin(caller)))
  {
    if IsObjectId(pathId) && pathId in s {
      var d := Merge(LoadDraft(pathId, s[pathId]), b, IsAdmin(caller));
      assert Persist(s, d).ValidationError? <==> !SchemaValid(d);
    }
  }

  /** What a successful update stores and answers: the merged record at the
      path's id, with a changed password hashed, and its public view. */
  lemma UpdateUserOutcome(s: Store, caller: Identity, pathId: string, b: UserFields)
    requires UpdateUserSpec(s, caller, pathId, b).response.status == 200
    ensures var r := UpdateUserSpec(s, caller, pathId, b);
            && pathId in s
            && (!(IsAdmin(caller) && Truthy(b.role)) || ParseRole(b.role.value).Some?)
            && r.store == s[pathId := Updated(s[pathId], b, IsAdmin(caller))]
            && r.response.body == UserResult("User updated", ToJson(pathId, r.store[pathId]))
  {
    var d := Merge(LoadDraft(pathId, s[pathId]), b, IsAdmin(caller));
    assert Persist(s, d).Saved?;
    ParseRoleName(s[pathId].role);
    assert Persisted(d) == Updated(s[pathId], b, IsAdmin(caller));
  }

  /** Lines 80-84 of `updateUser`: the assignments onto the loaded document. */
  method ApplyUpdate(user: UserDocument, b: UserFields, admin: bool)
    modifies user
    ensures user.Snapshot() == Merge(old(user.Snapshot()), b, admin)
  {
    ghost var d0 := user.Snapshot();
    if Truthy(b.username) { user.username := b.username.value; }
    ghost var d1 := if Truthy(b.username) then d0.(username := b.username.value) else d0;
    assert user.Snapshot() == d1;
    if Truthy(b.fullname) { user.fullname := b.fullname.value; }
    ghost var d2 := if Truthy(b.fullname) then d1.(fullname := b.fullname.value) else d1;
    assert user.Snapshot() == d2;
    if Truthy(b.email) { user.email := b.email.value; }
    ghost var d3 := if Truthy(b.email) then d2.(email := b.email.value) else d2;
    assert user.Snapshot() == d3;
    if Truthy(b.password) { user.SetPassword(b.password.value); }
    ghost var d4 := if Truthy(b.password) then
                      d3.(password := b.password.value, passwordModified := d3.passwordModified || b.password.value != d3.password)
                    else d3;
    assert user.Snapshot() == d4;
    if admin && Truthy(b.role) { user.role := b.role.value; }
  }

  method UpdateUser(db: Db, caller: Identity, pathId: string, b: UserFields) returns (res: Response)
    modifies db
    ensures Step(res, db.users) == UpdateUserSpec(old(db.users), caller, pathId, b)
  {
    if !IsObjectId(pathId) {
      return Reply(500, ServerError);
    }
    if pathId !in db.users {
      return Reply(404, NotFound);
    }
    var user := new UserDocument.Load(pathId, db.users[pathId]);
    ApplyUpdate(user, b, caller.role == Some(AdminRole));
    var saved := user.Save(db);
    match saved
    case Saved(_) =>
      res := Response(200, UserResult("User updated", PublicUser(user.id, user.username, user.fullname, user.email,
                                                                 ParseRole(user.role).value)), NoCookie);
    case DuplicateKey =>
      res := Reply(400, InUse);
    case ValidationError =>
      res := Response(400, SchemaMessage, NoCookie);
  }

  /** A caller who is not an admin never changes anyone's role, and an
      update only ever touches the record named by the path. */
  lemma UpdateTouchesOneRecord(s: Store, caller: Identity, pathId: string, b: UserFields)
    ensures var r := UpdateUserSpec(s, caller, pathId, b);
            && r.store.Keys == s.Keys
            && (forall id | id in s && id != pathId :: r.store[id] == s[id])
            && (!IsAdmin(caller) ==> forall id | id in s :: r.store[id].role == s[id].role)
  {
    if UpdateUserSpec(s, caller, pathId, b).response.status == 200 {
      UpdateUserOutcome(s, caller, pathId, b);
    }
  }

  /** After an update that supplies a new password, that password logs in;
      an update that supplies none leaves the digest as it was. */
  lemma UpdatedPasswordMatches(s: Store, caller: Identity, pathId: string, b: UserFields)
    requires UpdateUserSpec(s, caller, pathId, b).response.status == 200
    ensures var stored := UpdateUserSpec(s, caller, pathId, b).store[pathId].password;
            && (Truthy(b.password) && b.password.value != s[pathId].password ==> Passwords.Compare(b.password.value, stored))
            && (!Truthy(b.password) ==> stored == s[pathId].password)
  {
    UpdateUserOutcome(s, caller, pathId, b);
    if Truthy(b.password) && b.password.value != s[pathId].password {
      Passwords.CompareHash(b.password.value, b.password.value);
    }
  }

  // ---------------------------------------------------------------------
  // deleteUser

  /** `deleteUser` (controllers/userController.js:106-117): a malformed id
      is not caught here and ends as 500. */
  function DeleteUserSpec(s: Store, pathId: string): (r: Step)
    ensures r.response.status == 200 || r.response == Reply(404, NotFound) || r.response == Reply(500, ServerError)
    ensures r.response.status == 500 <==> !IsObjectId(pathId)
    ensures r.response.status == 200 <==> IsObjectId(pathId) && pathId in s
    ensures r.response.status == 200 ==> r.response == Reply(200, "User deleted")
    ensures r.store.Keys == s.Keys - {pathId} || r.store == s
    ensures r.response.status == 200 ==> r.store.Keys == s.Keys - {pathId}
    ensures r.response.status != 200 ==> r.store == s
    ensures forall id | id in r.store :: id in s && r.store[id] == s[id]
    ensures Inv(s) ==> Inv(r.store)
  {
    if !IsObjectId(pathId) then Step(Reply(500, ServerError), s)
    else if pathId !in s then Step(Reply(404, NotFound), s)
    else Step(Reply(200, "User deleted"), s - {pathId})
  }

  method DeleteUser(db: Db, pathId: string) returns (res: Response)
    modifies db
    ensures Step(res, db.users) == DeleteUserSpec(old(db.users), pathId)
  {
    if !IsObjectId(pathId) {
      return Reply(500, ServerError);
    }
    if pathId !in db.users {
      return Reply(404, NotFound);
    }
    var user := new UserDocument.Load(pathId, db.users[pathId]);
    user.DeleteOne(db);
    res := Reply(200, "User deleted");
  }
}
