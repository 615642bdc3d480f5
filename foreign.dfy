/** The foreign pieces the core calls into, taken as parameters: the password
    hasher and the token service. Only the properties the core relies on are
    stated about them, as predicates that callers assume. */
module Foreign {
  import opened Wrappers
  import opened Domain

  /** `bcrypt.hash` (with its salt folded in) and `bcrypt.compare`. */
  datatype Hasher = Hasher(hash: string -> string, compare: (string, string) -> bool)

  /** A password always matches its own hash. */
  ghost predicate Matches(h: Hasher)
  {
    forall p :: h.compare(p, h.hash(p))
  }

  /** `generateToken(userId, role)` and `verifyToken(token)`; `verify` is partial
      (a bad signature, a malformed or an expired token gives None). */
  datatype TokenService = TokenService(issue: (Id, string) -> string, verify: string -> Option<Identity>)

  /** A freshly issued token verifies to the claims it was issued for. */
  ghost predicate RoundTrips(t: TokenService)
  {
    forall id, role :: t.verify(t.issue(id, role)) == Some(Identity(id, role))
  }

  /** Issued tokens are nonempty and contain no space (a signed JWT is three
      base64url segments joined by dots). */
  ghost predicate HeaderSafe(t: TokenService)
  {
    forall id, role :: t.issue(id, role) != "" && ' ' !in t.issue(id, role)
  }
}
