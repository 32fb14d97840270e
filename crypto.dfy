/** The two libraries the credential logic calls but does not implement:
    bcrypt (hash and compare) and JSON Web Tokens (sign and verify). Both are
    values of function type handed to the operations that use them; the only
    facts assumed about them are the predicates below, and only where a
    lemma names them in its `requires`. */
module Crypto {
  import opened Primitives

  /** bcryptjs: `hash(password, salt)`, whose salt comes from a random source
      the model takes as a parameter, and `compare(password, hash)`. */
  datatype Bcrypt = Bcrypt(hash: (string, nat) -> string, compare: (string, string) -> bool)

  /** The length of a bcrypt hash in its `$2a$10$…` text form. */
  const BCRYPT_HASH_LENGTH: nat := 60

  /** What is relied on: a password matches every hash made from it, and
      every hash has the fixed bcrypt length. */
  ghost predicate Sound(b: Bcrypt) {
    && (forall password, salt :: b.compare(password, b.hash(password, salt)))
    && (forall password, salt :: |b.hash(password, salt)| == BCRYPT_HASH_LENGTH)
  }

  /** jsonwebtoken with the service's fixed secret: `sign(claims, expiresInSeconds)`
      and `verify(token)`, which yields the claims or fails. The clock that
      `verify` consults for expiry is inside the library and not modelled. */
  datatype Jwt<!C> = Jwt(sign: (C, nat) -> string, verify: string -> Option<C>)

  /** A freshly signed token verifies to the claims it was signed with. */
  ghost predicate RoundTrips<C(!new)>(j: Jwt<C>) {
    forall claims, expiresIn :: j.verify(j.sign(claims, expiresIn)) == Some(claims)
  }
}
