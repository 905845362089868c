# Session manager and access control of an Express user API, in Dafny

This project models the authentication and user-management core of a small
Express/Mongoose API:

- the user collection and its schema;
- the session handlers `register`, `login`, `refresh` and `logout`;
- the access gate `verifyToken`, `requireAdmin` and `requireSelfOrAdmin`;
- the user CRUD handlers;
- the two route tables that wire them together.

The collection is a map from user id to record, held by a `Db` object.

Each handler that changes the collection is an imperative method that works
on a document (`UserModel.UserDocument`) as the controller does. `register`,
`login`, `refresh`, `logout`, `createUser` and `updateUser` load or create a
document, assign its fields and save it. `deleteUser` loads the document and
calls `deleteOne` on it, which removes its record from the collection. Its postcondition says that the
response and the new collection equal a pure function of the old collection
(`RegisterSpec`, `LoginSpec`, `RefreshSpec`, `LogoutSpec`, `CreateUserSpec`,
`UpdateUserSpec`, `DeleteUserSpec`). Those functions carry the properties as
`ensures` clauses, and lemmas chain them into session histories.

How the outside world is represented:

- **JWT.** `jsonwebtoken` is a deterministic token oracle over text.
  - `Sign(class, claims, now)` renders the claims, the token class, the issue
    second and the expiry second.
  - `Verify(class, token, now)` reads them back. It accepts a text only if it
    is exactly what `Sign` produced for the payload it carries (the
    signature check), only for the class whose secret signed it, and only
    before it expires.
- **bcrypt.** It is an injective stand-in: `Hash(p)` is a fixed prefix
  followed by `p`, and `Compare(p, d)` holds exactly when `d == Hash(p)`.
- **Clock and environment.** The clock is a parameter `now`, in seconds.
  `NODE_ENV === 'production'` is a parameter `production`.
- **Ids.** A new document's id is a parameter `newId`.

The collection invariant `UserModel.Inv` holds at every step:

- every id is an ObjectId;
- every record passes the schema;
- usernames are unique, and so are emails;
- every token slot holds a refresh token signed for its own user.

Every handler preserves it. Because of it, `findOne({ email })` and
`findOne({ refreshToken })` are functions.

The refresh handler compares the presented token with the stored one to
prevent the reuse of old refresh tokens
(controllers/authController.js:103), and rotates the stored token on every
refresh (controllers/authController.js:118). Rotation does not always
produce a new text, though. A token is fully determined by its claims and
its issue second. So a refresh in the same second as the login (or refresh)
that issued the presented token writes back the very same token, and that
token stays honoured. The model proves two facts about this:

- A rotated token differs from the presented one whenever the clock has
  moved (`AuthController.RotationFreshWhenClockMoved`).
- The same-second case happens (`AuthController.SameSecondRotationReissuesToken`).

Reuse detection is proved under the hypothesis that the new token differs
from the old one (`AuthController.ReplayAfterRotationRefused`).

## Model

| member | source | states |
|---|---|---|
| Common.ParseRole | models/User.js:10 | The role enumeration accepts exactly "user" and "admin", and an accepted string names that role. |
| Tokens.DecodeSign | controllers/authController.js:44-54 | A signed token reads back as exactly the class, claims, issue second and expiry (issue second plus the class's lifetime) it was signed with. |
| Tokens.DecodeEncode | controllers/authController.js:44-54 | Reading a rendered token gives back the payload that was rendered. |
| Tokens.VerifySign | middleware/authMiddleware.js:10-16 | A token verifies for its own class with its own claims, exactly while `now` is before its expiry. |
| Tokens.VerifyOnlySigned | middleware/authMiddleware.js:10-13 | A text verifies for a class with given claims iff it is those claims signed for that class at a second whose lifetime has not run out; anything else is refused. |
| Tokens.EditedExpiryRefused | middleware/authMiddleware.js:10-13 | A token whose expiry was altered after signing verifies for no class. |
| Tokens.VerifyOtherClass | controllers/authController.js:92-96 | A token never verifies under the other class's secret: a refresh token is no access token and vice versa. |
| Tokens.SignInjective | controllers/authController.js:113-119 | Two signed tokens are the same text exactly when class, claims and issue second are the same. |
| Tokens.SignHasNoSpace | middleware/authMiddleware.js:6 | A token whose user id has no space has no space, so it survives the header split. |
| Passwords.CompareHash | models/User.js:28-30 | A password matches its own digest, and a digest matches no other password. |
| Passwords.DoubleHashBreaksMatch | models/User.js:14-21 | Hashing a digest again changes it, and the password no longer matches. |
| UserModel.OneHolderPerToken | models/User.js:11 | Under the invariant, no two users hold the same refresh token. |
| UserModel.TokenWriteKeepsInv | models/User.js:11 | Writing a token bound to its own user into that user's slot keeps the invariant. |
| UserModel.StoredTokensNameObjectIds | controllers/authController.js:113-120 | Under the invariant, every stored refresh token that verifies names an ObjectId, because the server signs refresh tokens only for `user._id.toString()`. |
| UserModel.IssueKeepsInv | controllers/authController.js:50-57 | Storing a newly signed refresh token in its own user's slot keeps the invariant. |
| UserModel.ByEmail | controllers/authController.js:34 | `findOne({ email })` finds the user with that email, or reports that there is none. |
| UserModel.HolderOf | controllers/authController.js:144 | `findOne({ refreshToken })` finds the holder of the token, or reports that nobody holds it. |
| UserModel.ToJsonHidesSecrets | models/User.js:33-38 | The public view of a record does not depend on its password or its token slot. |
| UserModel.Persist | models/User.js:5-25 | Save returns a validation error iff the schema fails, and a duplicate-key error iff the unique indexes are violated. Otherwise it writes the document. The stored password is hashed iff it was modified. The collection invariant is preserved. |
| UserModel.ResaveWithToken | controllers/authController.js:56-57 | Re-saving a loaded record with only its token slot changed always succeeds, writes only that slot, and keeps the stored digest. |
| UserModel.UserDocument.Create | controllers/authController.js:19 | `new User({...})`: every field is set and counts as modified, and the token slot is empty. |
| UserModel.UserDocument.Load | controllers/authController.js:34 | A queried document holds the stored record with nothing marked modified. |
| UserModel.UserDocument.SetPassword | controllers/userController.js:83 | Assigning the password marks it modified only when the value differs. |
| UserModel.UserDocument.HashIfModified | models/User.js:15-21 | The pre-save hook replaces the password by its hash iff the password was modified. |
| UserModel.UserDocument.DeleteOne | controllers/userController.js:111 | `deleteOne()` removes exactly the document's own record and nothing else. |
| UserModel.UserDocument.Save | models/User.js:15-25 | `save()` returns what `Persist` prescribes, writes the collection only on success, and leaves the document hashed once validation has passed. |
| AuthMiddleware.Split | middleware/authMiddleware.js:6 | JavaScript `split`: at least one piece, and no piece contains the separator. |
| AuthMiddleware.JoinSplit | middleware/authMiddleware.js:6 | Splitting loses nothing: joining the pieces gives back the header. |
| AuthMiddleware.BearerToken | middleware/authMiddleware.js:5-7 | A missing or empty header yields no token. A token is the second space-separated word of the header; it is non-empty and has no space. |
| AuthMiddleware.BearerAnyScheme | middleware/authMiddleware.js:6 | The first word is never checked: any `X <token>` header yields the token. |
| AuthMiddleware.NoSecondWordNoToken | middleware/authMiddleware.js:6-9 | A header with no second word carries no token. |
| AuthMiddleware.VerifyToken | middleware/authMiddleware.js:4-17 | A missing header gives 401 "Access token missing"; 401 iff there is no token. The request passes iff its token verifies with the access secret, and then the identity is exactly the verified claims' `{userId, role}`; otherwise 403. |
| AuthMiddleware.AccessTokenAuthenticates | middleware/authMiddleware.js:10-16 | A live access token behind any scheme word authenticates as exactly the identity signed into it. |
| AuthMiddleware.OnlyLiveAccessTokensAuthenticate | middleware/authMiddleware.js:10-13 | A refresh token, or an expired access token, is refused with 403: the identity never comes from a refresh token. |
| AuthMiddleware.RequireAdmin | middleware/authMiddleware.js:20-26 | Passes iff the role is admin, and otherwise refuses with 403. |
| AuthMiddleware.RequireSelfOrAdmin | middleware/authMiddleware.js:28-37 | Passes iff the role is admin or the id equals the path id, and otherwise refuses with 403. |
| AuthController.CookieFlags | controllers/authController.js:59-64 | The cookie is always HTTP-only, `Secure` exactly in production, `SameSite=None` exactly in production and `SameSite=Lax` otherwise; the max-age is the one requested. |
| AuthController.RegisterSpec | controllers/authController.js:10-27 | 400 iff some user has the email or the username. Otherwise 201 adds exactly one record, with the password hashed, the role given or "user", and no token; an unknown role gives 500. On failure nothing changes. |
| AuthController.Register | controllers/authController.js:10-27 | The handler on the collection answers and updates as `RegisterSpec`. |
| AuthController.LoginSpec | controllers/authController.js:30-81 | 200 iff some user has the email and the password matches. Otherwise it answers the same 401 "Invalid credentials" and changes nothing. On success it gives a fresh pair, overwrites the user's slot, and sets the refresh token as the cookie. |
| AuthController.Login | controllers/authController.js:30-81 | The handler on the collection answers and updates as `LoginSpec`. |
| AuthController.RefreshSpec | controllers/authController.js:84-135 | 401 iff there is no cookie. 200 iff the cookie verifies as a refresh token and equals the stored slot. Otherwise it answers 403 and changes nothing. On success it rotates the slot to a new refresh token and returns a new access token with the user's id and role. |
| AuthController.RefreshOnlyRotates | controllers/authController.js:113-120 | A refresh changes nothing but the token slot of the user it rotates; no record is added or removed. |
| AuthController.RotateOnlyWritesToken | controllers/authController.js:113-120 | The rotation step rewrites only its user's token slot. |
| AuthController.Refresh | controllers/authController.js:84-135 | The handler on the collection answers and updates as `RefreshSpec`. |
| AuthController.LogoutSpec | controllers/authController.js:138-161 | Always 200 "Logged out successfully". The cookie is cleared iff one was presented. Exactly the holder of the presented token loses it, and nothing else changes. |
| AuthController.Logout | controllers/authController.js:138-161 | The handler on the collection answers and updates as `LogoutSpec`. |
| AuthController.LoginIssuesSession | controllers/authController.js:44-76 | After login, the cookie is the stored token and verifies as that user's refresh token only. The access token carries the user's id and role, the body has the public view, and other users are unchanged. |
| AuthController.ReplayAfterRotationRefused | controllers/authController.js:104-120 | Once a refresh has rotated the slot to a different token, presenting the old token again is refused with 403 at any later time. |
| AuthController.RotationFreshWhenClockMoved | controllers/authController.js:113-119 | The rotated token differs from the presented one whenever the refresh happens in a different second from the token's issue. |
| AuthController.SameSecondRotationReissuesToken | controllers/authController.js:113-120 | A refresh in the same second as the login writes back the very same token, which stays honoured. |
| AuthController.LoginSupersedesPreviousToken | controllers/authController.js:56-57 | A login overwrites the slot, so the previously stored token is refused afterwards unless the login reissued that very text. |
| AuthController.RefreshAfterLogoutRefused | controllers/authController.js:140-148 | After logout, refresh with the presented token gives 403. |
| AuthController.LogoutIdempotent | controllers/authController.js:141-156 | Logging out twice with the same cookie is the same as logging out once. |
| AuthController.RefreshAfterLogin | controllers/authController.js:50-57 | The login cookie is honoured by refresh throughout the refresh token's lifetime. |
| AuthController.RefreshAfterRefresh | controllers/authController.js:113-129 | The cookie set by a refresh is honoured by the next refresh, so refreshes chain. |
| AuthController.SessionScenario | auth_test.js:66-101 | Login, two refreshes a second or more apart, the superseded cookie refused, logout, the last cookie refused, and a second logout with no effect. |
| UserController.GetAllUsers | controllers/userController.js:4-12 | Every user, and only users, appears in the list, in the public view. |
| UserController.GetUserById | controllers/userController.js:15-28 | 200 with the public view iff the id is well formed and present; otherwise 404. |
| UserController.GetMyProfile | controllers/userController.js:31-41 | 200 with the caller's public view iff the caller's id is well formed and present. A malformed id gives 500 and a missing user 404. |
| UserController.ReadsHideSecrets | controllers/userController.js:6-34 | No read response depends on any password or token slot. |
| UserController.TokenWritesKeepProfiles | models/User.js:33-38 | Rewriting token slots and nothing else leaves the user list unchanged. |
| UserController.LoginKeepsProfiles | controllers/authController.js:56-57 | A login changes no public profile. |
| UserController.RefreshKeepsProfiles | controllers/authController.js:119-120 | A refresh changes no public profile. |
| UserController.LogoutKeepsProfiles | controllers/authController.js:146-147 | A logout changes no public profile. |
| UserController.CreateUserSpec | controllers/userController.js:44-70 | 400 if a required field is not truthy, and 400 if the email or username is taken. 201 iff neither and the role is valid: it adds exactly one record with the hashed password and the role given or "user", and answers exactly id, username, fullname, email and role. On failure nothing changes. |
| UserController.CreateUser | controllers/userController.js:44-70 | The handler on the collection answers and updates as `CreateUserSpec`. |
| UserController.UpdateUserSpec | controllers/userController.js:73-103 | The answer is 200, 400, 404 or 500, never with a cookie. 500 iff the id is malformed and 404 iff the user is missing. 200 iff the merged document passes the schema and clashes with no other user's username or email; 400 "Username or Email already in use" iff it passes the schema but clashes. Any answer but 200 changes nothing, and the invariant is preserved. |
| UserController.UpdateSchemaRefusal | controllers/userController.js:80-99 | The update answers 400 with the schema's message iff the merged document fails validation. |
| UserController.UpdateUserOutcome | controllers/userController.js:79-92 | On 200 the record changes only in the supplied (truthy) fields: the password is hashed iff it changed, the role changes only for an admin caller, and the token is kept. The answer is the public view of the stored record. |
| UserController.ApplyUpdate | controllers/userController.js:79-84 | The document after the assignments is the merge of the loaded document with the supplied fields. |
| UserController.UpdateUser | controllers/userController.js:73-103 | The handler on the collection answers and updates as `UpdateUserSpec`. |
| UserController.UpdateTouchesOneRecord | controllers/userController.js:79-85 | An update changes only the record named by the path, and a non-admin caller never changes any role. |
| UserController.UpdatedPasswordMatches | controllers/userController.js:83-85 | After an update that supplies a new password, that password matches. Without one, the digest is kept. |
| UserController.DeleteUserSpec | controllers/userController.js:106-117 | A malformed id gives 500 and a missing user 404. Otherwise 200 removes exactly that record, and no other record changes. |
| UserController.DeleteUser | controllers/userController.js:106-117 | The handler on the collection answers and updates as `DeleteUserSpec`. |
| Routes.Issues | routes/userRoutes.js:7-13 | There are no validation errors iff every check passes, and never more errors than checks. |
| Routes.IssuesOne | routes/userRoutes.js:7-13 | A single check yields its own error exactly when it fails, and nothing otherwise. |
| Routes.IssuesAppend | routes/userRoutes.js:7-13 | The errors of two runs of checks in sequence are the first run's followed by the second's; with `IssuesOne`, one error per failing check in declaration order. |
| Routes.FirstMatch | routes/userRoutes.js:18-20 | The route taken is the first registered route that matches; none is taken iff none matches. |
| Routes.RunValidated | routes/userRoutes.js:7-13 | Validators followed by `validate` answer 400 with exactly the failing checks' errors, and otherwise pass the request on. |
| Routes.RunAnswers | routes/userRoutes.js:7-13 | For a request with an identity, the middleware of a route answers only 403 (a guard) or 400 (`validate`). |
| Routes.UsersOutcome | routes/userRoutes.js:18-42 | A request finds no route iff no route of the table matches it. The middleware answers only 400 or 403. A handler is reached only with the identity `verifyToken` attached, and it is the handler of the first matching route. |
| Routes.ServeUsers | routes/userRoutes.js:16-42 | Any `/api/users` request that is not answered 200 or 201 leaves the collection unchanged, and every request preserves the invariant. |
| Routes.ServeAs | routes/userRoutes.js:18-42 | The same for a request that `verifyToken` let through with a given identity. |
| Routes.UsersHandler | routes/userRoutes.js:18-42 | Every `/api/users` controller that does not answer 200 or 201 leaves the collection unchanged, and each preserves the invariant. |
| Routes.AuthHandler | routes/authRoutes.js:15-37 | Every `/api/auth` controller preserves the invariant. |
| Routes.ServeAuth | routes/authRoutes.js:15-37 | Every `/api/auth` request preserves the invariant. |
| Routes.UsersNeedAccessToken | routes/userRoutes.js:16 | Without a live access token every `/api/users` request, matched or not, gets 401 (no token) or 403 (bad token), and nothing changes. |
| Routes.RootIsAdminOnly | routes/userRoutes.js:18-23 | `GET /` and `POST /` answer 403 to a non-admin before any validation, and nothing changes. |
| Routes.IdRoutesAreSelfOrAdmin | routes/userRoutes.js:20-42 | `GET`, `PUT` and `DELETE /:id` answer 403 to a caller who is neither admin nor that user, and nothing changes. |
| Routes.MeBeforeId | routes/userRoutes.js:19-20 | `GET /me` is matched before `/:id` and reaches `getMyProfile` for every authenticated caller. |
| Routes.CreateChecksPass | routes/userRoutes.js:24-28 | `POST /` accepts the body iff username and fullname are non-empty, the email is valid, the password has at least 6 characters, and any role is "user" or "admin". |
| Routes.CreateRoute | routes/userRoutes.js:22-30 | For an admin, `POST /` reaches `createUser` iff the body is valid. Otherwise it answers 400 with the errors. |
| Routes.CreateValidated | routes/userRoutes.js:22-30 | End to end, an admin's `POST /` is `createUser` on a valid body, and otherwise a 400 that changes nothing. |
| Routes.UpdateChecksPass | routes/userRoutes.js:34-38 | `PUT /:id` accepts the body iff every field present meets the same rule as on creation. |
| Routes.UpdateRoute | routes/userRoutes.js:32-40 | For the user or an admin, `PUT /:id` reaches `updateUser` iff the body is valid. Otherwise it answers 400 with the errors. |
| Routes.UpdateValidated | routes/userRoutes.js:32-40 | End to end, `PUT /:id` by the user or an admin is `updateUser` on a valid body, and otherwise a 400 that changes nothing. |
| Routes.SignupChecksPass | routes/authRoutes.js:15-21 | Signup accepts the body iff username and fullname are non-empty, the email is valid and the password has at least 6 characters. The role is not checked. |
| Routes.SignupValidated | routes/authRoutes.js:15-24 | Signup is `register` on a valid body, and otherwise a 400 that changes nothing. |
| Routes.LoginChecksPass | routes/authRoutes.js:26-31 | Login accepts the body iff the email is valid and the password is non-empty. |
| Routes.LoginValidated | routes/authRoutes.js:26-33 | Login is `login` on a valid body, and otherwise a 400 that changes nothing. |
| Routes.RefreshUnvalidated | routes/authRoutes.js:35 | Refresh goes straight to the controller whatever the body. |
| Routes.LogoutUnvalidated | routes/authRoutes.js:37 | Logout goes straight to the controller whatever the body. |
| Routes.CreateNeedsAdmin | routes/userRoutes.js:22-23 | Only an admin's request reaches `createUser`. |
| Routes.HandlerKeepsRoles | controllers/userController.js:73-117 | For a caller who is not an admin, no `/api/users` controller other than `createUser` adds a user or changes a role. |
| Routes.NoEscalationThroughUsers | routes/userRoutes.js:16-42 | No `/api/users` request from a non-admin adds a user or changes anyone's role. |

## Left out

- Concurrency: each handler is one atomic step. The race between two refreshes that read the same slot before either writes it is not modelled.
- Store failures: a failing `find`/`save`/`deleteOne`, and the resulting 500 "Server error", are not modelled. A save that changes only the token slot always succeeds.
- AuthController.RefreshSpec: errors inside the asynchronous `jwt.verify` callback of `refresh` escape its `try`/`catch`. One input reaches that path: a refresh token that verifies but names a user id that is not an ObjectId. `User.findById` then rejects with a CastError, and no response is sent. On that input the model answers 403 "User not found or refresh token not valid" instead. Such a token needs the refresh secret, because the server signs refresh tokens only for `user._id.toString()`. No stored token is of that kind (`UserModel.StoredTokensNameObjectIds`).
- JWT internals: HMAC, base64, the header and the parsing of durations are not modelled. The lifetimes are the defaults, 15 minutes and 7 days. `JWT_EXPIRE` and `REFRESH_TOKEN_EXPIRE` overrides are not modelled. The two secrets are assumed to differ.
- bcrypt internals: salts, the cost factor and the 72-byte truncation are not modelled. The digest is an injective stand-in.
- Mongoose details:
  - `toJSON` keeps `_id`, `__v` and the timestamps; the public view has only id, username, fullname, email and role.
  - The ObjectId cast also accepts 12-character strings and upper-case hex; the model accepts 24 lower-case hex digits only.
  - The text of a validation error message is not modelled (`SchemaMessage`).
  - The schema's own `default: 'user'` for the role is never reached, because both controllers pass `role || 'user'`.
- Routes.LooksLikeEmail: a stand-in for validator.js's `isEmail`. It does not implement that library's full grammar.
- Request bodies: each field is a string or missing. JSON numbers, arrays and objects are not modelled.
- Express routing: trailing slashes, case-insensitive paths and the framework's default 404 for an unmatched path are not modelled. `ServeUsers` and `ServeAuth` return `None` for an unmatched path.
- UserController.GetAllUsers: returns a map keyed by id, so the order in which `find` lists the users is not modelled.
- server.js (bootstrap, CORS, cookie parsing, the Mongo connection) is not part of this model. Its global error handler appears only as the constant answer for a guard that runs without an identity.
- Logging (`console.error`) and the cookie's transport encoding are not modelled.
- The client scripts auth_test.js and user_test.js are not modelled. `AuthController.SessionScenario` follows the session they drive.
