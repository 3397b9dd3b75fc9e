/** JSON Web Tokens as the server uses them: `jwt.sign({ userId }, secret)` and
    `jwt.verify(token, secret)`, as an abstract pair of functions for one secret. */
module Tokens {
  import opened Basics
  import opened Strings
  import opened UserModel

  /** `sign` issues a token carrying a user id; `verify` gives back the id of a token it
      accepts and `None` for one it rejects (bad signature, expired, malformed). */
  datatype Signer = Signer(sign: UserId -> string, verify: string -> Option<UserId>)

  /** What the model relies on about JWT: a token issued for `id` verifies to `id`, and is a
      non-empty string with no white space at its ends (base64url segments and dots). */
  ghost predicate SoundSigner(s: Signer) {
    forall id: UserId :: s.verify(s.sign(id)) == Some(id) && s.sign(id) != "" && Trimmed(s.sign(id))
  }
}
