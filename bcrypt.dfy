/**
  The password hasher. A bcrypt token carries the cost factor and the salt it
  was made with next to the digest; `compare` re-digests the candidate
  password with that salt and cost and compares the digests. The digest
  itself (EksBlowfish) is not modelled: it is a parameter, any function of
  the password, salt and cost. The random salt is a parameter too.
 */
module Bcrypt {

  type Salt = string
  type Digest = string

  /** The one-way function at the heart of bcrypt. */
  type DigestFunction = (string, Salt, nat) -> Digest

  datatype HashToken = HashToken(cost: nat, salt: Salt, digest: Digest)

  /** `bcrypt.hash(password, cost)`, with the salt drawn by the caller. */
  function Hash(digest: DigestFunction, password: string, cost: nat, salt: Salt): (t: HashToken)
    ensures t.cost == cost && t.salt == salt
  {
    HashToken(cost, salt, digest(password, salt, cost))
  }

  /** `bcrypt.compare(password, token)`. */
  function Verify(digest: DigestFunction, password: string, token: HashToken): bool {
    digest(password, token.salt, token.cost) == token.digest
  }

  /** A password always verifies against its own hash, whatever the salt. */
  lemma VerifyHashed(digest: DigestFunction, password: string, cost: nat, salt: Salt)
    ensures Verify(digest, password, Hash(digest, password, cost, salt))
  {
  }

  /** Two hashes of one password with different salts are different tokens. */
  lemma SaltedHashesDiffer(digest: DigestFunction, password: string, cost: nat, s1: Salt, s2: Salt)
    requires s1 != s2
    ensures Hash(digest, password, cost, s1) != Hash(digest, password, cost, s2)
  {
  }

  /** Another password verifies exactly when it collides under the token's salt and cost. */
  lemma VerifyOther(digest: DigestFunction, password: string, other: string, cost: nat, salt: Salt)
    ensures Verify(digest, other, Hash(digest, password, cost, salt))
            <==> digest(other, salt, cost) == digest(password, salt, cost)
  {
  }
}
