/**
  The password hasher (src/service/HashManager), treated as an abstract
  one-way function. The model promises only what the business layer relies on:
  `compare(p, hash(p))` holds and a hash never equals its plaintext. Salting,
  the bcrypt cost, the 60-character hash length and the 72-byte input limit
  are not part of this model.
 */
module HashManager {

  const HASH_TAG := "$2a$"

  /** `hash`: the stored form of a password. */
  function Hash(text: string): (h: string)
    ensures h != text
  {
    HASH_TAG + text
  }

  /** `compare`: does the plaintext match the stored hash? */
  function Compare(text: string, hash: string): bool {
    hash == Hash(text)
  }

  lemma CompareOwnHash(text: string)
    ensures Compare(text, Hash(text))
  {
  }
}
