/**
 * A stand-in for bcrypt. `hashSync(password, 10)` draws a fresh 22-character salt
 * and produces "$2b$10$" + salt + digest; `compareSync(password, hash)` re-derives
 * the digest from the password and compares. The salt is a parameter here
 * (randomness is an input of the model) and the digest is a placeholder. The
 * lemmas about the store rely only on `Matches(p, Hash(p, salt))`; the model's
 * methods follow `Matches` on the stored hash, whatever it is.
 */
module Bcrypt {

  const SaltLength: nat := 22
  /** Algorithm version 2b with cost factor 10, as `hashSync(_, 10)` asks for. */
  const Prefix: string := "$2b$10$"

  type Salt = s: string | |s| == SaltLength witness "0000000000000000000000"

  /** Placeholder for bcrypt's key-derivation step. */
  function Digest(password: string): string
  {
    password
  }

  /** `bcrypt.hashSync(password, 10)` with the salt it drew. */
  function Hash(password: string, salt: Salt): (h: string)
    ensures Matches(password, h)
  {
    Prefix + salt + Digest(password)
  }

  /** `bcrypt.compareSync(password, h)`: false for anything not shaped like a hash. */
  predicate Matches(password: string, h: string)
  {
    && |h| >= |Prefix| + SaltLength
    && h[..|Prefix|] == Prefix
    && h[|Prefix| + SaltLength..] == Digest(password)
  }
}
