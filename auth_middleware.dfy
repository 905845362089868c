/** The access gate of middleware/authMiddleware.js: `verifyToken` takes the
    access token from the Authorization header, verifies it with the access
    secret and yields the request identity `{id, role}`; `requireAdmin` and
    `requireSelfOrAdmin` are checks on that identity alone. */
module AuthMiddleware {
  import opened Common
  import opened Tokens

  /** `req.user`, as attached by `verifyToken`. */
  datatype Identity = Identity(id: UserId, role: Option<Role>)

  /** What `verifyToken` does: call `next` with an identity, or answer. */
  datatype Gate = Pass(who: Identity) | Deny(status: nat, message: string)

  /** What a guard does: call `next`, or answer. */
  datatype Verdict = Allow | Refuse(status: nat, message: string)

  // ---------------------------------------------------------------------
  // Header splitting

  /** JavaScript's `s.split(sep)`: the pieces between separators, empty
      pieces included. */
  function Split(s: string, sep: char): (parts: seq<string>)
    ensures |parts| >= 1
    ensures forall i :: 0 <= i < |parts| ==> sep !in parts[i]
    decreases |s|
  {
    var i := IndexOf(s, sep);
    if i == |s| then [s] else [s[..i]] + Split(s[i + 1..], sep)
  }

  function Join(parts: seq<string>, sep: char): string
    requires |parts| >= 1
  {
    if |parts| == 1 then parts[0] else parts[0] + [sep] + Join(parts[1..], sep)
  }

  /** Splitting loses nothing: joining the pieces restores the header. */
  lemma {:induction false} JoinSplit(s: string, sep: char)
    ensures Join(Split(s, sep), sep) == s
    decreases |s|
  {
    var i := IndexOf(s, sep);
    if i < |s| {
      var head, rest := s[..i], s[i + 1..];
      var tail := Split(rest, sep);
      var parts := [head] + tail;
      assert Split(s, sep) == parts;
      assert parts[0] == head && parts[1..] == tail;
      JoinSplit(rest, sep);
      assert Join(parts, sep) == head + [sep] + rest;
      assert s == head + [sep] + rest;
    } else {
      assert Split(s, sep) == [s];
    }
  }

  lemma IndexOfFirst(a: string, b: string, c: char)
    requires c !in a
    requires b == [] || b[0] == c
    ensures IndexOf(a + b, c) == |a|
  {
    if b != [] {
      assert (a + b)[|a|] == c;
    }
  }

  /** `authHeader && authHeader.split(' ')[1]`, used only when truthy. */
  function BearerToken(header: Option<string>): (t: Option<string>)
    ensures !Truthy(header) ==> t.None?
    ensures t.Some? ==> t.value != "" && ' ' !in t.value
  {
    if !Truthy(header) then None
    else
      var parts := Split(header.value, ' ');
      if |parts| < 2 || parts[1] == "" then None else Some(parts[1])
  }

  /** The token is the second space-separated word, whatever the first word
      is: the scheme "Bearer" is never checked. */
  lemma {:induction false} BearerAnyScheme(scheme: string, token: string, rest: string)
    requires ' ' !in scheme && ' ' !in token && token != ""
    requires rest == [] || rest[0] == ' '
    ensures BearerToken(Some(scheme + " " + token + rest)) == Some(token)
  {
    var h := scheme + " " + token + rest;
    var tail := token + rest;
    assert h == scheme + (" " + tail);
    IndexOfFirst(scheme, " " + tail, ' ');
    assert h[..|scheme|] == scheme;
    assert h[|scheme| + 1..] == tail;
    assert Split(h, ' ') == [scheme] + Split(tail, ' ');
    IndexOfFirst(token, rest, ' ');
    if rest == [] {
      assert tail == token;
      assert Split(tail, ' ') == [token];
    } else {
      assert tail[..|token|] == token;
      assert Split(tail, ' ')[0] == token;
    }
  }

  /** A header without a second word carries no token. */
  lemma NoSecondWordNoToken(h: string)
    requires ' ' !in h
    ensures BearerToken(Some(h)) == None
  {
    IndexOfFirst(h, [], ' ');
    assert h + [] == h;
  }

  // ---------------------------------------------------------------------
  // The middleware

  /** `verifyToken` (middleware/authMiddleware.js:4-17). */
  function VerifyToken(header: Option<string>, now: nat): (g: Gate)
    ensures g.Deny? ==> g.status == 401 || g.status == 403
    ensures g.Deny? && g.status == 401 <==> BearerToken(header).None?
    ensures !Truthy(header) ==> g == Deny(401, "Access token missing")
    ensures g.Pass? <==> BearerToken(header).Some? && Verify(Access, BearerToken(header).value, now).Some?
    ensures g.Pass? ==> Verify(Access, BearerToken(header).value, now) == Some(Claims(g.who.id, g.who.role))
  {
    match BearerToken(header)
    case None => Deny(401, "Access token missing")
    case Some(token) =>
      match Verify(Access, token, now)
      case None => Deny(403, "Invalid or expired token")
      case Some(claims) => Pass(Identity(claims.userId, claims.role))
  }

  /** A live access token behind any scheme word authenticates as exactly
      the identity signed into it. */
  lemma AccessTokenAuthenticates(scheme: string, id: UserId, role: Role, iat: nat, now: nat)
    requires ' ' !in scheme && ' ' !in id
    requires iat <= now < iat + AccessTtl
    ensures VerifyToken(Some(scheme + " " + Sign(Access, Claims(id, Some(role)), iat)), now)
            == Pass(Identity(id, Some(role)))
  {
    var t := Sign(Access, Claims(id, Some(role)), iat);
    SignHasNoSpace(Access, Claims(id, Some(role)), iat);
    VerifySign(Access, Claims(id, Some(role)), iat, now);
    BearerAnyScheme(scheme, t, []);
    assert scheme + " " + t + [] == scheme + " " + t;
  }

  /** The request identity never comes from a refresh token, nor from an
      access token that has expired: both are refused with 403. */
  lemma OnlyLiveAccessTokensAuthenticate(scheme: string, cls: TokenClass, claims: Claims, iat: nat, now: nat)
    requires ' ' !in scheme && ' ' !in claims.userId
    requires cls == Refresh || now >= iat + AccessTtl
    ensures VerifyToken(Some(scheme + " " + Sign(cls, claims, iat)), now) == Deny(403, "Invalid or expired token")
  {
    var t := Sign(cls, claims, iat);
    SignHasNoSpace(cls, claims, iat);
    if cls == Refresh {
      VerifyOtherClass(Refresh, Access, claims, iat, now);
    } else {
      VerifySign(Access, claims, iat, now);
    }
    BearerAnyScheme(scheme, t, []);
    assert scheme + " " + t + [] == scheme + " " + t;
  }

  /** `requireAdmin` (middleware/authMiddleware.js:20-26). */
  function RequireAdmin(who: Identity): (v: Verdict)
    ensures v.Allow? <==> who.role == Some(AdminRole)
    ensures v.Refuse? ==> v.status == 403
  {
    if who.role != Some(AdminRole) then Refuse(403, "Access denied: Admins only") else Allow
  }

  /** `requireSelfOrAdmin` (middleware/authMiddleware.js:29-37). */
  function RequireSelfOrAdmin(who: Identity, pathId: string): (v: Verdict)
    ensures v.Allow? <==> who.role == Some(AdminRole) || who.id == pathId
    ensures v.Refuse? ==> v.status == 403
  {
    if who.role == Some(AdminRole) then Allow
    else if who.id != pathId then Refuse(403, "Access denied")
    else Allow
  }
}
