/** The user record of models/User.js: the schema (required and unique
    fields, the role enumeration, the single refresh-token slot), the
    pre-save hook that hashes a modified password, `matchPassword` and the
    `toJSON` projection; plus the collection itself, a map from id to
    record, and a Mongoose document whose `save` writes into it. */
module UserModel {
  import opened Common
  import Tokens
  import Passwords

  /** A stored user. `password` holds the digest; `refreshToken` is the one
      slot for the latest refresh token issued to the user. */
  datatype Record = Record(username: string, fullname: string, email: string,
                           password: string, role: Role, refreshToken: Option<string>)

  /** The `users` collection, keyed by `_id`. */
  type Store = map<UserId, Record>

  /** The schema's required fields are non-empty. */
  predicate WellFormed(r: Record) {
    r.username != "" && r.fullname != "" && r.email != "" && r.password != ""
  }

  /** A stored refresh token was signed as a refresh token for this user. */
  predicate TokenBound(id: UserId, t: Option<string>) {
    match t
    case None => true
    case Some(text) =>
      match Tokens.Decode(text)
      case None => false
      case Some(p) => p.cls == Tokens.Refresh && p.claims.userId == id && text == Tokens.Sign(p.cls, p.claims, p.iat)
  }

  /** What the collection guarantees between requests: ids are ObjectIds,
      records pass the schema, usernames and emails are unique (the unique
      indexes), and each token slot holds only that user's refresh token. */
  ghost predicate Inv(s: Store) {
    && (forall id | id in s :: IsObjectId(id) && WellFormed(s[id]) && TokenBound(id, s[id].refreshToken))
    && (forall a, b | a in s && b in s && a != b :: s[a].username != s[b].username && s[a].email != s[b].email)
  }

  /** One token, one holder: no two users ever store the same refresh token. */
  lemma OneHolderPerToken(s: Store, a: UserId, b: UserId, t: string)
    requires Inv(s) && a in s && b in s
    requires s[a].refreshToken == Some(t) && s[b].refreshToken == Some(t)
    ensures a == b
  {
  }

  /** Every refresh token the collection holds names an ObjectId: a token
      that verifies with the refresh secret but carries some other user id
      was never stored by the server. */
  lemma StoredTokensNameObjectIds(s: Store, id: UserId, t: string, now: nat)
    requires Inv(s) && id in s && s[id].refreshToken == Some(t)
    ensures Tokens.Verify(Tokens.Refresh, t, now).Some? ==> IsObjectId(Tokens.Verify(Tokens.Refresh, t, now).value.userId)
  {
    assert TokenBound(id, Some(t));
  }

  /** Writing a user's own refresh token into their slot keeps the
      invariant. */
  lemma TokenWriteKeepsInv(s: Store, id: UserId, t: Option<string>)
    requires Inv(s) && id in s && TokenBound(id, t)
    ensures Inv(s[id := s[id].(refreshToken := t)])
  {
  }

  /** Storing a freshly signed refresh token for its own user keeps the
      invariant. */
  lemma IssueKeepsInv(s: Store, id: UserId, now: nat)
    requires Inv(s) && id in s
    ensures Inv(s[id := s[id].(refreshToken := Some(Tokens.Sign(Tokens.Refresh, Tokens.Claims(id, None), now)))])
  {
    Tokens.DecodeSign(Tokens.Refresh, Tokens.Claims(id, None), now);
    TokenWriteKeepsInv(s, id, Some(Tokens.Sign(Tokens.Refresh, Tokens.Claims(id, None), now)));
  }

  // ---------------------------------------------------------------------
  // Queries (`findOne`), deterministic because of the unique indexes

  /** `User.findOne({ email })`. */
  function ByEmail(s: Store, email: string): (r: Option<UserId>)
    requires Inv(s)
    ensures r.Some? ==> r.value in s && s[r.value].email == email
    ensures r.None? ==> forall id | id in s :: s[id].email != email
  {
    if exists id | id in s :: s[id].email == email then
      var id :| id in s && s[id].email == email; Some(id)
    else None
  }

  /** `User.findOne({ refreshToken })`. */
  function HolderOf(s: Store, token: string): (r: Option<UserId>)
    requires Inv(s)
    ensures r.Some? ==> r.value in s && s[r.value].refreshToken == Some(token)
    ensures r.None? ==> forall id | id in s :: s[id].refreshToken != Some(token)
  {
    if exists id | id in s :: s[id].refreshToken == Some(token) then
      var id :| id in s && s[id].refreshToken == Some(token); Some(id)
    else None
  }

  // ---------------------------------------------------------------------
  // Projection

  /** The public view of a user: every field but `password` and
      `refreshToken` (`toJSON`, and the `-password -refreshToken`
      projections of the read endpoints). */
  datatype PublicUser = PublicUser(id: UserId, username: string, fullname: string, email: string, role: Role)

  function ToJson(id: UserId, r: Record): PublicUser {
    PublicUser(id, r.username, r.fullname, r.email, r.role)
  }

  /** The projection does not depend on the password or the token slot. */
  lemma ToJsonHidesSecrets(id: UserId, r: Record, password: string, token: Option<string>)
    ensures ToJson(id, r.(password := password, refreshToken := token)) == ToJson(id, r)
  {
  }

  // ---------------------------------------------------------------------
  // Saving a document

  /** The state of a Mongoose document just before `save()`. `role` is
      still the raw string, `passwordModified` is `isModified('password')`. */
  datatype Draft = Draft(id: UserId, isNew: bool, username: string, fullname: string, email: string,
                         password: string, passwordModified: bool, role: string, refreshToken: Option<string>)

  function LoadDraft(id: UserId, r: Record): Draft {
    Draft(id, false, r.username, r.fullname, r.email, r.password, false, RoleName(r.role), r.refreshToken)
  }

  /** `new User({...})`: every path of a new document counts as modified. */
  function NewDraft(id: UserId, username: string, fullname: string, email: string, password: string, role: string): Draft {
    Draft(id, true, username, fullname, email, password, true, role, None)
  }

  /** `role || 'user'`: the role a new document is created with. */
  function RequestedRole(role: Option<string>): string {
    if Truthy(role) then role.value else "user"
  }

  /** `User.findOne({ $or: [ { email }, { username } ] })` finds someone. */
  predicate Taken(s: Store, email: string, username: string) {
    exists id | id in s :: s[id].email == email || s[id].username == username
  }

  /** Schema validation, which Mongoose runs before any pre-save hook. */
  predicate SchemaValid(d: Draft) {
    d.username != "" && d.fullname != "" && d.email != "" && d.password != "" && ParseRole(d.role).Some?
  }

  /** The unique indexes on `_id`, `username` and `email` (error 11000). */
  predicate ViolatesUnique(s: Store, d: Draft) {
    || (d.isNew && d.id in s)
    || exists other | other in s && other != d.id :: s[other].username == d.username || s[other].email == d.email
  }

  /** What the pre-save hook leaves in `password`. */
  function HashedIfModified(d: Draft): string {
    if d.passwordModified then Passwords.Hash(d.password) else d.password
  }

  function Persisted(d: Draft): Record
    requires ParseRole(d.role).Some?
  {
    Record(d.username, d.fullname, d.email, HashedIfModified(d), ParseRole(d.role).value, d.refreshToken)
  }

  datatype SaveResult = Saved(store: Store) | ValidationError | DuplicateKey

  /** `doc.save()`: validate, run the hash-if-modified hook, then insert or
      update subject to the unique indexes. */
  function Persist(s: Store, d: Draft): (r: SaveResult)
    ensures r.ValidationError? <==> !SchemaValid(d)
    ensures r.DuplicateKey? <==> SchemaValid(d) && ViolatesUnique(s, d)
    ensures r.Saved? ==> r.store == s[d.id := Persisted(d)]
    ensures r.Saved? ==> r.store[d.id].password == if d.passwordModified then Passwords.Hash(d.password) else d.password
    ensures r.Saved? && Inv(s) && IsObjectId(d.id) && TokenBound(d.id, d.refreshToken) ==> Inv(r.store)
  {
    if !SchemaValid(d) then ValidationError
    else if ViolatesUnique(s, d) then DuplicateKey
    else Saved(s[d.id := Persisted(d)])
  }

  /** Saving a loaded record after changing only its token slot always
      succeeds and never touches the stored digest. */
  lemma ResaveWithToken(s: Store, id: UserId, t: Option<string>)
    requires Inv(s) && id in s
    ensures Persist(s, LoadDraft(id, s[id]).(refreshToken := t)) == Saved(s[id := s[id].(refreshToken := t)])
  {
    var d := LoadDraft(id, s[id]).(refreshToken := t);
    ParseRoleName(s[id].role);
    assert Persisted(d) == s[id].(refreshToken := t);
  }

  // ---------------------------------------------------------------------
  // The collection and its documents

  class Db {
    var users: Store

    constructor ()
      ensures users == map[]
    {
      users := map[];
    }
  }

  /** A Mongoose document of the User model. */
  class UserDocument {
    const id: UserId
    const isNew: bool
    var username: string
    var fullname: string
    var email: string
    var password: string
    var passwordModified: bool
    var role: string
    var refreshToken: Option<string>

    function Snapshot(): Draft
      reads this
    {
      Draft(id, isNew, username, fullname, email, password, passwordModified, role, refreshToken)
    }

    /** `new User({...})`. */
    constructor Create(id: UserId, username: string, fullname: string, email: string, password: string, role: string)
      ensures Snapshot() == NewDraft(id, username, fullname, email, password, role)
    {
      this.id := id;
      this.isNew := true;
      this.username := username;
      this.fullname := fullname;
      this.email := email;
      this.password := password;
      this.passwordModified := true;
      this.role := role;
      this.refreshToken := None;
    }

    /** A document returned by a query: nothing is modified yet. */
    constructor Load(id: UserId, r: Record)
      ensures Snapshot() == LoadDraft(id, r)
    {
      this.id := id;
      this.isNew := false;
      this.username := r.username;
      this.fullname := r.fullname;
      this.email := r.email;
      this.password := r.password;
      this.passwordModified := false;
      this.role := RoleName(r.role);
      this.refreshToken := r.refreshToken;
    }

    /** `doc.password = p`: Mongoose marks the path modified only when the
        new value differs from the current one. */
    method SetPassword(p: string)
      modifies this
      ensures Snapshot() == old(Snapshot()).(password := p, passwordModified := old(passwordModified) || p != old(password))
    {
      if p != password {
        password := p;
        passwordModified := true;
      }
    }

    /** `matchPassword`: `bcrypt.compare` against the stored digest. */
    function MatchPassword(plain: string): bool
      reads this
    {
      Passwords.Compare(plain, password)
    }

    /** The pre-save hook: replace `password` by its hash only when it was
        modified, so a stored digest is never hashed again. */
    method HashIfModified()
      modifies this
      ensures Snapshot() == old(Snapshot()).(password := HashedIfModified(old(Snapshot())))
    {
      if passwordModified {
        password := Passwords.Hash(password);
      }
    }

    /** `doc.deleteOne()`: the document's record leaves the collection. */
    method DeleteOne(db: Db)
      modifies db
      ensures db.users == old(db.users) - {id}
    {
      db.users := db.users - {id};
    }

    /** `doc.save()` into `db`. The hook has run (and changed `password` in
        place) whenever validation passed, even if the write is refused. */
    method Save(db: Db) returns (r: SaveResult)
      modifies this, db
      ensures r == Persist(old(db.users), old(Snapshot()))
      ensures db.users == if r.Saved? then r.store else old(db.users)
      ensures r.ValidationError? ==> Snapshot() == old(Snapshot())
      ensures !r.ValidationError? ==>
        Snapshot() == old(Snapshot()).(password := HashedIfModified(old(Snapshot())),
                                       passwordModified := old(passwordModified) && !r.Saved?)
    {
      if username == "" || fullname == "" || email == "" || password == "" || ParseRole(role).None? {
        return ValidationError;
      }
      ghost var before := Snapshot();
      HashIfModified();
      if (isNew && id in db.users) ||
         exists other | other in db.users && other != id :: db.users[other].username == username || db.users[other].email == email
      {
        return DuplicateKey;
      }
      db.users := db.users[id := Record(username, fullname, email, password, ParseRole(role).value, refreshToken)];
      passwordModified := false;
      r := Saved(db.users);
      assert db.users == old(db.users)[id := Persisted(before)];
    }
  }
}
