/** Values shared by every part of the session manager: optional values,
    user identifiers, the role enumeration and JavaScript truthiness. */
module Common {

  datatype Option<T> = None | Some(value: T)

  /** The string form of a user's `_id` (`user._id.toString()`). */
  type UserId = string

  /** The `role` enumeration of the user schema. */
  datatype Role = UserRole | AdminRole

  function RoleName(r: Role): string {
    match r
    case UserRole => "user"
    case AdminRole => "admin"
  }

  /** The schema's enum check on `role`: only "user" and "admin" are
      accepted, and an accepted string names exactly that role. */
  function ParseRole(s: string): (r: Option<Role>)
    ensures r.Some? <==> (s == "user" || s == "admin")
    ensures r.Some? ==> RoleName(r.value) == s
  {
    if s == "user" then Some(UserRole)
    else if s == "admin" then Some(AdminRole)
    else None
  }

  lemma ParseRoleName(r: Role)
    ensures ParseRole(RoleName(r)) == Some(r)
  {
    match r
    case UserRole =>
    case AdminRole =>
  }

  /** A field read from a request is truthy when it is present and not the
      empty string (`if (username) ...`, `!cookies?.jwt`). */
  predicate Truthy(v: Option<string>) {
    v.Some? && v.value != ""
  }

  predicate IsHexDigit(c: char) {
    '0' <= c <= '9' || 'a' <= c <= 'f'
  }

  /** Strings that cast to an ObjectId; any other id makes `findById` throw
      a CastError. */
  predicate IsObjectId(s: string) {
    |s| == 24 && forall i :: 0 <= i < |s| ==> IsHexDigit(s[i])
  }
}
