/**
 * The password encoder the controller uses (a BCryptPasswordEncoder).
 * Salting, the cost factor and constant-time comparison belong to the library;
 * here the encoder is a pair of functions handed to the controller when it is
 * built, and nothing is assumed about them except, where a proof needs it,
 * that an encoded password matches its own plaintext.
 */
module Crypto {
  import opened Optional

  /** `encode` hashes a raw password; `check` compares a raw password with a non-null stored hash. */
  datatype PasswordEncoder = PasswordEncoder(encode: string -> string, check: (string, string) -> bool)

  /** The one promise made of BCrypt: a password matches its own hash. */
  ghost predicate Sound(pe: PasswordEncoder)
  {
    forall raw: string :: pe.check(raw, pe.encode(raw))
  }

  /**
   * The encoder's `matches(raw, stored)`: a null stored hash (an account created by
   * social login, which has no password) never matches; otherwise the library decides.
   */
  predicate Matches(pe: PasswordEncoder, raw: string, stored: Option<string>)
  {
    match stored
    case None => false
    case Some(hash) => pe.check(raw, hash)
  }

  /** Under a sound encoder, the stored hash of a password always accepts that password. */
  lemma EncodedMatches(pe: PasswordEncoder, raw: string)
    requires Sound(pe)
    ensures Matches(pe, raw, Some(pe.encode(raw)))
  {
  }
}
