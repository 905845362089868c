/** The password hashing primitive (`bcrypt.hash` / `bcrypt.compare`).

    The digest is modelled as an injective function of the plain password:
    `compare(p, hash(p))` holds, and a digest matches no other password.
    Salts and the cost factor are not modelled. */
module Passwords {

  const Prefix: string := "$2b$10$"

  function Hash(plain: string): (d: string)
    ensures |d| == |Prefix| + |plain|
  {
    Prefix + plain
  }

  /** `bcrypt.compare(plain, digest)`. */
  function Compare(plain: string, digest: string): bool {
    digest == Hash(plain)
  }

  /** A password matches its own digest, and only its own. */
  lemma CompareHash(p: string, q: string)
    ensures Compare(p, Hash(p))
    ensures Compare(q, Hash(p)) <==> q == p
  {
    if Compare(q, Hash(p)) {
      assert q == Hash(q)[|Prefix|..] == Hash(p)[|Prefix|..] == p;
    }
  }

  /** Hashing a digest again never gives back the digest: a password that
      is hashed twice no longer matches. */
  lemma DoubleHashBreaksMatch(p: string)
    ensures Hash(Hash(p)) != Hash(p)
    ensures !Compare(p, Hash(Hash(p)))
  {
  }
}
