/** routes/introspection.go: the response for an active session. */
module Introspection {
  import opened GoStrings
  import opened Items

  /** A decoded JSON value; only strings are looked at. */
  datatype Json = Text(s: GoString) | Other(raw: GoString)
  type Claims = map<GoString, Json>

  /** json.Unmarshal into a map; None is a decoding error. */
  type JsonParser = GoString -> Option<Claims>

  datatype Response = Response(iss: GoString, sub: GoString, username: GoString, scope: GoString, clientID: GoString,
                               exp: int, tokenType: GoString, claims: Option<Claims>, cnfJkt: Option<GoString>)

  const GIVEN_NAME: GoString := "given_name"
  const FAMILY_NAME: GoString := "family_name"
  const ADMIN_NUMBER: GoString := "personal_administrative_number"

  /** The claims a session's own fields contribute: one for each field that is not empty. */
  function NamedClaims(s: SessionV): Claims {
    Named(GIVEN_NAME, s.firstName) + Named(FAMILY_NAME, s.lastName) + Named(ADMIN_NUMBER, s.personCode)
  }

  function Named(name: GoString, v: GoString): Claims {
    if v == [] then map[] else map[name := Text(v)]
  }

  /** The extra claims a session carries; none if it has none or they do not decode. */
  function ExtraClaims(s: SessionV, parse: JsonParser): Claims {
    var raw := MetaGet(s.meta, EXTRA_CLAIMS);
    if raw == [] then map[]
    else match parse(raw) case None => map[] case Some(extra) => extra
  }

  /** What the response says under a claim name. */
  function Reported(r: Response, k: GoString): Option<Json> {
    if r.claims.Some? && k in r.claims.value then Some(r.claims.value[k]) else None
  }

  /**
    What it is to say: a field of the session that is not empty, under its own name; otherwise what the object that
    the metadata holds as extra_claims says, if there is one and it decodes; otherwise nothing.
   */
  function ClaimOf(s: SessionV, parse: JsonParser, k: GoString): Option<Json> {
    if k == "given_name" && s.firstName != [] then Some(Text(s.firstName))
    else if k == "family_name" && s.lastName != [] then Some(Text(s.lastName))
    else if k == "personal_administrative_number" && s.personCode != [] then Some(Text(s.personCode))
    else if s.meta.None? || "extra_claims" !in s.meta.value || s.meta.value["extra_claims"] == [] then None
    else
      match parse(s.meta.value["extra_claims"])
      case None => None
      case Some(extra) => if k in extra then Some(extra[k]) else None
  }

  lemma MergedAsClaimed(s: SessionV, parse: JsonParser, k: GoString)
    ensures var merged := ExtraClaims(s, parse) + NamedClaims(s);
            ClaimOf(s, parse, k) == if k in merged then Some(merged[k]) else None
  {
    MergedClaim(s, parse, k);
    assert GIVEN_NAME[0] == 'g' && FAMILY_NAME[0] == 'f' && ADMIN_NUMBER[0] == 'p';
  }

  /** The merge loop over a Go map, which may visit the extra claims in any order; named claims win. */
  method MergeExtra(named: Claims, extra: Claims) returns (claims: Claims)
    ensures claims == extra + named
  {
    claims := named;
    var rest := extra.Keys;
    while rest != {}
      invariant rest <= extra.Keys
      invariant claims.Keys == named.Keys + (extra.Keys - rest)
      invariant forall k :: k in claims ==> claims[k] == (extra + named)[k]
      decreases rest
    {
      var k :| k in rest;
      if k !in claims {
        claims := claims[k := extra[k]];
      }
      rest := rest - {k};
    }
  }

  method CollectClaims(s: SessionV, parse: JsonParser) returns (claims: Claims)
    ensures claims == ExtraClaims(s, parse) + NamedClaims(s)
    ensures claims.Keys == ExtraClaims(s, parse).Keys + NamedClaims(s).Keys
    ensures forall k :: ClaimOf(s, parse, k) == if k in claims then Some(claims[k]) else None
  {
    hide ClaimOf;
    forall k ensures var merged := ExtraClaims(s, parse) + NamedClaims(s);
                     ClaimOf(s, parse, k) == if k in merged then Some(merged[k]) else None {
      MergedAsClaimed(s, parse, k);
    }
    claims := map[];
    if s.firstName != [] {
      claims := claims[GIVEN_NAME := Text(s.firstName)];
    }
    if s.lastName != [] {
      claims := claims[FAMILY_NAME := Text(s.lastName)];
    }
    if s.personCode != [] {
      claims := claims[ADMIN_NUMBER := Text(s.personCode)];
    }
    assert claims == NamedClaims(s);
    var raw := MetaGet(s.meta, EXTRA_CLAIMS);
    if raw != [] {
      var extra := parse(raw);
      if extra.Some? {
        claims := MergeExtra(claims, extra.value);
      }
    }
  }

  method BuildIntrospectionResponse(s: SessionV, issuer: GoString, timeout: int, parse: JsonParser)
    returns (r: Response)
    ensures r.iss == issuer && r.sub == r.username == s.subject && r.scope == s.scope && r.clientID == s.id
    ensures r.exp == if s.lastAccessed.None? then 0 else (s.lastAccessed.value + timeout) / 1_000_000_000
    ensures r.claims.None? <==> NamedClaims(s).Keys == {} && ExtraClaims(s, parse).Keys == {}
    ensures r.claims.Some? ==> r.claims.value == ExtraClaims(s, parse) + NamedClaims(s)
    ensures (forall k :: Reported(r, k) == ClaimOf(s, parse, k)) && (r.claims.Some? ==> r.claims.value != map[])
    ensures r.cnfJkt == if BoundKey(s) == [] then None else Some(BoundKey(s))
    ensures r.tokenType == if BoundKey(s) == [] then "Bearer" else "DPoP"
    ensures BoundKey(s) == if s.meta.Some? && "dpop_jkt" in s.meta.value then s.meta.value["dpop_jkt"] else []
  {
    hide ClaimOf, ExtraClaims, NamedClaims;
    var exp := 0;
    if s.lastAccessed.Some? {
      exp := (s.lastAccessed.value + timeout) / 1_000_000_000;
    }
    r := Response(issuer, s.subject, s.subject, s.scope, s.id, exp, BEARER, None, None);
    var claims := CollectClaims(s, parse);
    if |claims| > 0 {
      r := r.(claims := Some(claims));
    } else {
      assert claims.Keys == {};
    }
    var jkt := BoundKey(s);
    if jkt != [] {
      r := r.(tokenType := DPOP, cnfJkt := Some(jkt));
    }
  }

  /**
    What the merged map means key by key: the keys are the union, a non-empty field always wins over an
    extra claim of the same name, and every other claim is the extra one.
   */
  lemma MergedClaim(s: SessionV, parse: JsonParser, k: GoString)
    ensures var extra, merged := ExtraClaims(s, parse), ExtraClaims(s, parse) + NamedClaims(s);
            match FieldFor(s, k)
            case Some(v) => k in merged && merged[k] == Text(v)
            case None => (k in merged <==> k in extra) && (k in extra ==> merged[k] == extra[k])
  {
    assert GIVEN_NAME[0] == 'g' && FAMILY_NAME[0] == 'f' && ADMIN_NUMBER[0] == 'p';
  }

  /** The non-empty session field reported under a claim name. */
  function FieldFor(s: SessionV, k: GoString): Option<GoString> {
    var v := if k == GIVEN_NAME then s.firstName
             else if k == FAMILY_NAME then s.lastName
             else if k == ADMIN_NUMBER then s.personCode else [];
    if v == [] then None else Some(v)
  }
}
