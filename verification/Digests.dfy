/** SHA-256 as an unknown function to 32-byte digests; results name the inputs that must not collide. */
module Digests {
  import opened GoStrings
  import Base64Url

  type Digest = d: GoString | |d| == 32 witness seq(32, i => 'a')
  type Hash = GoString -> Digest

  /** These two inputs are no collision of the hash. */
  predicate NoCollision(sha: Hash, a: GoString, b: GoString) {
    sha(a) == sha(b) ==> a == b
  }

  /** How the server writes every digest: challenges, thumbprints, refresh token keys. */
  function EncodedDigest(sha: Hash, s: GoString): GoString {
    Base64Url.Encode(sha(s))
  }

  lemma EncodedDigestIsInjective(sha: Hash, a: GoString, b: GoString)
    requires NoCollision(sha, a, b)
    ensures EncodedDigest(sha, a) == EncodedDigest(sha, b) <==> a == b
  {
    if EncodedDigest(sha, a) == EncodedDigest(sha, b) {
      Base64Url.EncodeInjective(sha(a), sha(b));
    }
  }

  lemma EncodedDigestLength(sha: Hash, s: GoString)
    ensures |EncodedDigest(sha, s)| == 43
  {
    Base64Url.EncodeLength(sha(s));
  }
}
