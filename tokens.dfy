/** The token oracle behind `jwt.sign` and `jwt.verify`.

    A token is text. `Sign(cls, claims, now)` renders the claims, the token
    class (which of the two secrets signed it), the issue second and the
    expiry second into a string; `Verify(cls, text, now)` reads them back and
    accepts the token only for the class it was signed for and only before
    it expires. Signing is deterministic: the same claims signed for the same
    class in the same second give the same text, exactly as `jwt.sign` does
    when the payload (claims plus `iat` and `exp`) is identical. */
module Tokens {
  import opened Common

  /** Access tokens are signed with JWT_SECRET, refresh tokens with
      REFRESH_TOKEN_SECRET; the two secrets are assumed to differ. */
  datatype TokenClass = Access | Refresh

  /** What `jwt.verify` hands back to the caller. Access tokens carry
      `{userId, role}`, refresh tokens only `{userId}`. */
  datatype Claims = Claims(userId: UserId, role: Option<Role>)

  datatype Payload = Payload(cls: TokenClass, claims: Claims, iat: nat, exp: nat)

  /** Default lifetimes in seconds: `'15m'` and `'7d'`. */
  const AccessTtl: nat := 15 * 60
  const RefreshTtl: nat := 7 * 24 * 60 * 60

  function Ttl(c: TokenClass): nat {
    match c
    case Access => AccessTtl
    case Refresh => RefreshTtl
  }

  // ---------------------------------------------------------------------
  // Text rendering of natural numbers

  predicate IsDigit(c: char) {
    '0' <= c <= '9'
  }

  predicate AllDigits(s: string) {
    forall i :: 0 <= i < |s| ==> IsDigit(s[i])
  }

  function Digit(d: nat): char
    requires d < 10
  {
    ('0' as int + d) as char
  }

  /** Decimal digits of `n`, most significant first. */
  function NatText(n: nat): (s: string)
    ensures |s| > 0 && AllDigits(s)
    decreases n
  {
    if n < 10 then [Digit(n)] else NatText(n / 10) + [Digit(n % 10)]
  }

  function DigitsValue(s: string): nat
    requires AllDigits(s)
    decreases |s|
  {
    if s == [] then 0
    else DigitsValue(s[..|s| - 1]) * 10 + (s[|s| - 1] as int - '0' as int)
  }

  function ParseNat(s: string): Option<nat> {
    if s != [] && AllDigits(s) then Some(DigitsValue(s)) else None
  }

  lemma {:induction false} DigitsValueOfNatText(n: nat)
    ensures DigitsValue(NatText(n)) == n
    decreases n
  {
    if n >= 10 {
      var s := NatText(n);
      assert s[..|s| - 1] == NatText(n / 10);
      DigitsValueOfNatText(n / 10);
    }
  }

  lemma ParseNatText(n: nat)
    ensures ParseNat(NatText(n)) == Some(n)
  {
    DigitsValueOfNatText(n);
  }

  /** Position of the first `c` in `s`, or `|s|` when there is none. */
  function IndexOf(s: string, c: char): (i: nat)
    ensures i <= |s|
    ensures i < |s| ==> s[i] == c
    ensures forall k :: 0 <= k < i ==> s[k] != c
  {
    if s == [] then 0
    else if s[0] == c then 0
    else 1 + IndexOf(s[1..], c)
  }

  lemma IndexOfAfterDigits(a: string, b: string)
    requires AllDigits(a)
    ensures IndexOf(a + ("." + b), '.') == |a|
  {
    var s := a + ("." + b);
    assert s[|a|] == '.';
    assert forall k | 0 <= k < |a| :: s[k] == a[k];
  }

  // ---------------------------------------------------------------------
  // Token text

  function ClassTag(c: TokenClass): char {
    match c
    case Access => 'A'
    case Refresh => 'R'
  }

  function TagClass(ch: char): Option<TokenClass> {
    if ch == 'A' then Some(Access) else if ch == 'R' then Some(Refresh) else None
  }

  function RoleTag(r: Option<Role>): char {
    match r
    case None => '-'
    case Some(UserRole) => 'u'
    case Some(AdminRole) => 'a'
  }

  function TagRole(ch: char): Option<Option<Role>> {
    if ch == '-' then Some(None)
    else if ch == 'u' then Some(Some(UserRole))
    else if ch == 'a' then Some(Some(AdminRole))
    else None
  }

  function Encode(p: Payload): string {
    [ClassTag(p.cls), RoleTag(p.claims.role)] + (NatText(p.iat) + ("." + (NatText(p.exp) + ("." + p.claims.userId))))
  }

  function Decode(s: string): Option<Payload> {
    if |s| < 2 then None
    else
      match (TagClass(s[0]), TagRole(s[1]))
      case (Some(cls), Some(role)) => DecodeFields(cls, role, s[2..])
      case _ => None
  }

  /** The part of a token after its two tag characters:
      `iat "." exp "." userId`. */
  function DecodeFields(cls: TokenClass, role: Option<Role>, rest: string): Option<Payload> {
    var i := IndexOf(rest, '.');
    if i == |rest| then None
    else
      var tail := rest[i + 1..];
      var j := IndexOf(tail, '.');
      if j == |tail| then None
      else
        match (ParseNat(rest[..i]), ParseNat(tail[..j]))
        case (Some(iat), Some(exp)) => Some(Payload(cls, Claims(tail[j + 1..], role), iat, exp))
        case _ => None
  }

  lemma DecodeFieldsOfText(cls: TokenClass, role: Option<Role>, iat: nat, exp: nat, id: UserId)
    ensures DecodeFields(cls, role, NatText(iat) + ("." + (NatText(exp) + ("." + id)))) == Some(Payload(cls, Claims(id, role), iat, exp))
  {
    var a, b := NatText(iat), NatText(exp);
    var rest := a + ("." + (b + ("." + id)));
    IndexOfAfterDigits(a, b + ("." + id));
    var tail := rest[|a| + 1..];
    assert tail == b + ("." + id);
    IndexOfAfterDigits(b, id);
    assert rest[..|a|] == a;
    assert tail[..|b|] == b;
    assert tail[|b| + 1..] == id;
    ParseNatText(iat);
    ParseNatText(exp);
  }

  /** Reading a rendered token gives back exactly what was signed. */
  lemma DecodeEncode(p: Payload)
    ensures Decode(Encode(p)) == Some(p)
  {
    var s := Encode(p);
    assert s[2..] == NatText(p.iat) + ("." + (NatText(p.exp) + ("." + p.claims.userId)));
    DecodeFieldsOfText(p.cls, p.claims.role, p.iat, p.exp, p.claims.userId);
  }

  // ---------------------------------------------------------------------
  // The oracle

  /** `jwt.sign(claims, secretOf(cls), { expiresIn })` at second `now`. */
  function Sign(cls: TokenClass, claims: Claims, now: nat): string {
    Encode(Payload(cls, claims, now, now + Ttl(cls)))
  }

  /** A signed token reads back as the class, the claims, the issue second
      and the expiry second it was signed with. */
  lemma DecodeSign(cls: TokenClass, claims: Claims, now: nat)
    ensures Decode(Sign(cls, claims, now)) == Some(Payload(cls, claims, now, now + Ttl(cls)))
  {
    DecodeEncode(Payload(cls, claims, now, now + Ttl(cls)));
  }

  /** `jwt.verify(t, secretOf(cls))` at second `now`: the claims of a token
      signed for `cls` that has not yet expired (`now < exp`), otherwise
      nothing. The signature check is that the text is exactly what `Sign`
      renders for the payload it carries: any other text, such as one whose
      expiry was edited, fails it. */
  function Verify(cls: TokenClass, t: string, now: nat): Option<Claims> {
    match Decode(t)
    case Some(p) =>
      if p.cls == cls && now < p.exp && t == Sign(p.cls, p.claims, p.iat) then Some(p.claims) else None
    case None => None
  }

  /** A token verifies for its own class, with the claims it was signed with,
      exactly until its lifetime has elapsed. */
  lemma VerifySign(cls: TokenClass, claims: Claims, iat: nat, now: nat)
    ensures Verify(cls, Sign(cls, claims, iat), now) ==
            if now < iat + Ttl(cls) then Some(claims) else None
  {
    DecodeSign(cls, claims, iat);
  }

  /** Only signed tokens verify: a text is accepted for `cls` with claims
      `c` exactly when it is `c` signed for `cls` at some second whose
      lifetime has not yet run out. */
  lemma VerifyOnlySigned(cls: TokenClass, t: string, c: Claims, now: nat)
    ensures Verify(cls, t, now) == Some(c) <==> exists iat: nat :: t == Sign(cls, c, iat) && now < iat + Ttl(cls)
  {
    if Verify(cls, t, now) == Some(c) {
      var p := Decode(t).value;
      DecodeSign(cls, c, p.iat);
      assert t == Sign(cls, c, p.iat) && now < p.iat + Ttl(cls);
    }
    if exists iat: nat :: t == Sign(cls, c, iat) && now < iat + Ttl(cls) {
      var iat: nat :| t == Sign(cls, c, iat) && now < iat + Ttl(cls);
      VerifySign(cls, c, iat, now);
    }
  }

  /** A rendered payload whose expiry is not its issue second plus the
      class's lifetime was not signed, and verifies for no class. */
  lemma EditedExpiryRefused(cls: TokenClass, p: Payload, now: nat)
    requires p.exp != p.iat + Ttl(p.cls)
    ensures Verify(cls, Encode(p), now) == None
  {
    DecodeEncode(p);
    DecodeSign(p.cls, p.claims, p.iat);
  }

  /** A token never verifies under the other class's secret: a refresh token
      is no access token and vice versa. */
  lemma VerifyOtherClass(signed: TokenClass, asked: TokenClass, claims: Claims, iat: nat, now: nat)
    requires signed != asked
    ensures Verify(asked, Sign(signed, claims, iat), now) == None
  {
    DecodeSign(signed, claims, iat);
  }

  /** Signing is injective and deterministic: two tokens are the same text
      exactly when class, claims and issue second are the same. */
  lemma SignInjective(c1: TokenClass, k1: Claims, t1: nat, c2: TokenClass, k2: Claims, t2: nat)
    ensures Sign(c1, k1, t1) == Sign(c2, k2, t2) <==> (c1 == c2 && k1 == k2 && t1 == t2)
  {
    DecodeSign(c1, k1, t1);
    DecodeSign(c2, k2, t2);
  }

  lemma DigitsHaveNoSpace(s: string)
    requires AllDigits(s)
    ensures ' ' !in s
  {
    assert forall k | 0 <= k < |s| :: s[k] != ' ';
  }

  /** A token's text contains no space when its user id contains none, so it
      survives being carried as the second word of a header. */
  lemma SignHasNoSpace(cls: TokenClass, claims: Claims, now: nat)
    requires ' ' !in claims.userId
    ensures ' ' !in Sign(cls, claims, now)
  {
    EncodeHasNoSpace(Payload(cls, claims, now, now + Ttl(cls)));
  }

  lemma EncodeHasNoSpace(p: Payload)
    requires ' ' !in p.claims.userId
    ensures ' ' !in Encode(p)
  {
    DigitsHaveNoSpace(NatText(p.iat));
    DigitsHaveNoSpace(NatText(p.exp));
  }
}
