/** What the server reads of a JWT, and the time checks of the JWT parser (golang-jwt v5). */
module Jwt {
  import opened GoStrings
  import Jwk

  /**
    A token whose three parts decode. signer is the public point of the key its ES256 signature
    verifies under, None when it verifies under no key or names another algorithm.
   */
  datatype Token = Token(typ: Option<GoString>, jwk: Option<Jwk.Members>, signer: Option<GoString>, claims: Claims)

  datatype Claims = Claims(iss: GoString, sub: GoString, aud: seq<GoString>, jti: GoString,
                           iat: Option<int>, exp: Option<int>, nbf: Option<int>,
                           htm: GoString, htu: GoString, ath: GoString, cnf: Option<Jwk.Members>)

  /** exp and nbf where present, each with the leeway. */
  predicate InTime(c: Claims, leeway: int, now: int) {
    && (c.exp.Some? ==> now < c.exp.value + leeway)
    && (c.nbf.Some? ==> c.nbf.value - leeway <= now)
  }

  /** The acceptance window around iat: d := now - iat, rejected when d > w or d < -w. */
  predicate InWindow(iat: int, w: int, now: int) {
    -w <= now - iat <= w
  }
}
