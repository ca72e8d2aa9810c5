/**
 * bcrypt and jsonwebtoken as the handlers use them, reduced to functions
 * that are given to the model rather than defined by it.
 */
module Crypto {
  import opened Store

  /** The result of `jwt.verify`: the decoded claims, or the error it throws. */
  datatype Decoded = Claims(id: UserId) | JwtError(reason: string)

  /**
   * `hash(password, salt)` is `bcrypt.hash`, `compare(password, hash)` is
   * `bcrypt.compare`, `sign(key, id)` is `generateToken(id)` signing with
   * `JWT_SECRET` = `key`, and
   * `verify(key, token)` is `jwt.verify(token, key)`.
   */
  datatype Crypto = Crypto(
    hash: (string, string) -> string,
    compare: (string, string) -> bool,
    sign: (string, UserId) -> string,
    verify: (string, string) -> Decoded)

  /** bcrypt accepts the password a hash was made from. */
  ghost predicate HashChecks(c: Crypto)
  {
    forall password, salt :: c.compare(password, c.hash(password, salt))
  }

  /** bcrypt never returns the plaintext as the hash. */
  ghost predicate HashHides(c: Crypto)
  {
    forall password, salt :: c.hash(password, salt) != password
  }

  /** Tokens signed with `key` are non-empty and verify under `key` to the id they were made from. */
  ghost predicate TokensCheck(c: Crypto, key: string)
  {
    forall id :: c.sign(key, id) != "" && c.verify(key, c.sign(key, id)) == Claims(id)
  }
}
