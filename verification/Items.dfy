/** What the caches and the session store hold. */
module Items {
  import opened GoStrings

  /** Metadata map of a session. */
  type MetaMap = map<GoString, GoString>

  const DPOP_JKT: GoString := "dpop_jkt"
  const EXTRA_CLAIMS: GoString := "extra_claims"
  const S256: GoString := "S256"
  const BEARER: GoString := "Bearer"
  const DPOP: GoString := "DPoP"

  /**
    A session. M is what the Metadata field is: a reference to a map that may be shared where the
    handlers run, and an optional map value (None is nil) where their effect is specified.
   */
  datatype Session<+M> = Session(id: GoString, subject: GoString, firstName: GoString, lastName: GoString,
                                 personCode: GoString, scope: GoString, state: GoString,
                                 lastAccessed: Option<int>, meta: M)

  datatype AuthCodeItem<+M> = AuthCodeItem(code: GoString, clientID: GoString, userID: GoString,
                                           redirectURI: GoString, codeChallenge: GoString,
                                           codeChallengeMethod: GoString, scope: GoString,
                                           issuerState: GoString, noTXCode: bool, session: Session<M>)

  datatype StateItem = StateItem(state: GoString, responseType: GoString, scope: GoString, issuerState: GoString)

  datatype RefreshTokenItem<+M> = RefreshTokenItem(clientID: GoString, scope: GoString, jkt: GoString,
                                                   session: Session<M>)

  datatype PARItem = PARItem(clientID: GoString, rawQuery: GoString)

  type Meta = Option<MetaMap>
  type SessionV = Session<Meta>
  type CodeItemV = AuthCodeItem<Meta>
  type RefreshItemV = RefreshTokenItem<Meta>

  function ZeroSession<M>(nil: M): Session<M> {
    Session([], [], [], [], [], [], [], None, nil)
  }

  /** The zero value a cache returns for a missing code. */
  function ZeroItem<M>(nil: M): AuthCodeItem<M> {
    AuthCodeItem([], [], [], [], [], [], [], [], false, ZeroSession(nil))
  }

  /** Reading a Go map: a nil map or a missing key gives the empty string. */
  function MetaGet(m: Meta, k: GoString): GoString {
    if m.Some? && k in m.value then m.value[k] else []
  }

  /** The DPoP key a session is bound to; empty when it is not bound. */
  function BoundKey(s: SessionV): GoString {
    MetaGet(s.meta, DPOP_JKT)
  }

  /** Writing dpop_jkt, after making the map if it was nil. */
  function Bind(m: Meta, jkt: GoString): Meta {
    Some((if m.Some? then m.value else map[])[DPOP_JKT := jkt])
  }
}
