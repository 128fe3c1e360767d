/**
 * Password storage. The salted key derivation of the web framework's
 * security helpers is a parameter `kdf` (a function the model knows
 * nothing about), and the random salt of each hashing call is passed in,
 * so two hashes of one password need not be equal.
 */
module Credentials {

  /** What is stored in place of a password: the salt and the derived digest, never the password. */
  datatype PasswordHash = PasswordHash(salt: string, digest: string)

  /** `generate_password_hash`, for the salt this call drew. */
  function Hash(kdf: (string, string) -> string, salt: string, password: string): (h: PasswordHash)
    ensures h.salt == salt
    ensures Verifies(kdf, h, password)
  {
    PasswordHash(salt, kdf(salt, password))
  }

  /** `check_password_hash`: derive again with the stored salt and compare digests. */
  predicate Verifies(kdf: (string, string) -> string, stored: PasswordHash, password: string)
  {
    kdf(stored.salt, password) == stored.digest
  }

  /** Checking a password is hashing it again with the stored salt and comparing the records. */
  lemma VerifiesIsRehash(kdf: (string, string) -> string, stored: PasswordHash, password: string)
    ensures Verifies(kdf, stored, password) <==> Hash(kdf, stored.salt, password) == stored
  {
  }

  /**
   * A hash verifies the password it was made from, whatever the salt; it
   * verifies another password only when that one derives the same digest
   * under the same salt.
   */
  lemma VerifiesHash(kdf: (string, string) -> string, salt: string, password: string, attempt: string)
    ensures Verifies(kdf, Hash(kdf, salt, password), password)
    ensures Verifies(kdf, Hash(kdf, salt, password), attempt) <==> kdf(salt, attempt) == kdf(salt, password)
  {
  }
}
