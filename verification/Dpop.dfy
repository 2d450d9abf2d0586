/** dpop/dpop.go: validating a DPoP proof (RFC 9449, section 4.3). */
module Dpop {
  import opened GoStrings
  import opened Digests
  import opened ReplayTheory
  import opened ReplayCache
  import opened Jwt
  import Jwk

  const TYP: GoString := "dpop+jwt"

  /** Everything a proof must satisfy before its identifier is looked up. */
  predicate ProofPasses(htus: set<GoString>, window: int, proof: Token, method_: GoString, accessToken: GoString,
                        now: int, onCurve: GoString -> bool, sha: Hash) {
    && proof.typ == Some(TYP)
    && proof.jwk.Some? && Jwk.Accepts(proof.jwk.value, onCurve)
    && proof.signer == Some(Jwk.PublicPoint(proof.jwk.value))
    && InTime(proof.claims, 0, now)
    && proof.claims.iat.Some? && InWindow(proof.claims.iat.value, window, now)
    && proof.claims.htm == method_
    && proof.claims.htu in htus
    && proof.claims.jti != []
    && (accessToken != [] ==> proof.claims.ath == EncodedDigest(sha, accessToken))
  }

  class Validator {
    const htus: set<GoString>
    const iatWindow: int
    const replay: JtiCache?

    /** A window that is not positive means one minute. */
    constructor (acceptedHTUs: seq<GoString>, window: int, replay: JtiCache?)
      ensures htus == set u | u in acceptedHTUs
      ensures iatWindow == (if window <= 0 then MINUTE else window) && 0 < iatWindow
      ensures this.replay == replay
    {
      var urls: set<GoString> := {};
      for i := 0 to |acceptedHTUs|
        invariant urls == set u | u in acceptedHTUs[..i]
      {
        assert acceptedHTUs[..i + 1] == acceptedHTUs[..i] + [acceptedHTUs[i]];
        urls := urls + {acceptedHTUs[i]};
      }
      assert acceptedHTUs[..|acceptedHTUs|] == acceptedHTUs;
      htus := urls;
      iatWindow := if window <= 0 then MINUTE else window;
      this.replay := replay;
    }

    predicate Passes(proof: Token, method_: GoString, accessToken: GoString, now: int, onCurve: GoString -> bool,
                     sha: Hash) {
      ProofPasses(htus, iatWindow, proof, method_, accessToken, now, onCurve, sha)
    }

    /**
      The thumbprint of the proof key, or None for any error. A validator with a cache accepts
      exactly as the replay theory's StrictSet step does and leaves the cache as that step does.
     */
    method Validate(proof: Token, method_: GoString, accessToken: GoString, now: int, f: Faults,
                    onCurve: GoString -> bool, sha: Hash)
      returns (jkt: Option<GoString>)
      modifies replay
      ensures replay == null ==> (jkt.Some? <==> Passes(proof, method_, accessToken, now, onCurve, sha))
      ensures replay != null ==>
                (replay.seen, jkt.Some?) == Step(StrictSet, replay.ttl, old(replay.seen),
                  Request(now, proof.claims.jti, Passes(proof, method_, accessToken, now, onCurve, sha), f.getFails,
                          f.setFails))
      ensures jkt.Some? ==>
                && Passes(proof, method_, accessToken, now, onCurve, sha)
                && jkt.value == Jwk.Thumbprint(sha, Jwk.TextOf(proof.jwk.value, "x"), Jwk.TextOf(proof.jwk.value, "y"))
    {
      if proof.typ != Some(TYP) || proof.jwk.None? {
        return None;
      }
      var key := Jwk.ParseECJWK(proof.jwk.value, onCurve, sha);
      if key.None? || proof.signer != Some(key.value.point) {
        return None;
      }
      if !InTime(proof.claims, 0, now) {
        return None;
      }
      if proof.claims.iat.None? {
        return None;
      }
      var d := now - proof.claims.iat.value;
      if d > iatWindow || d < -iatWindow {
        return None;
      }
      if proof.claims.htm != method_ {
        return None;
      }
      if proof.claims.htu !in htus {
        return None;
      }
      if proof.claims.jti == [] {
        return None;
      }
      if accessToken != [] && proof.claims.ath != EncodedDigest(sha, accessToken) {
        return None;
      }
      if replay != null {
        var seen, err := replay.ReplayCheck(now, proof.claims.jti, f);
        if err || seen {
          return None;
        }
      }
      return Some(key.value.thumbprint);
    }
  }

  /** The instants at which the time checks of a proof with this iat, exp and nbf pass. */
  function FreshAt(c: Claims, w: int): int -> bool
    requires c.iat.Some?
  {
    (now: int) => InTime(c, 0, now) && InWindow(c.iat.value, w, now)
  }

  /**
    DPoP replay, section 11.1 of RFC 9449: with a window of w on either side of iat, no proof is
    accepted twice in any run, its own two cache operations working, exactly when 2w is less than the lifetime
    of the jti cache.
   */
  lemma ProofsAreSingleUse(w: int, ttl: int)
    requires 0 < w
    ensures (forall c: Claims :: c.iat.Some? ==> !CanBeReplayed(StrictSet, ttl, c.jti, FreshAt(c, w))) <==> 2 * w < ttl
  {
    if 2 * w < ttl {
      forall c: Claims | c.iat.Some? ensures !CanBeReplayed(StrictSet, ttl, c.jti, FreshAt(c, w)) {
        ReplayTheorem(StrictSet, ttl, c.jti, FreshAt(c, w));
      }
    } else {
      var c := Claims([], [], [], "j", Some(w), None, None, [], [], [], None);
      var ok := FreshAt(c, w);
      assert ok(0) && ok(2 * w);
      ReplayTheorem(StrictSet, ttl, c.jti, ok);
    }
  }

  /** With the default window, a minute, and the router's cache lifetime, five, no proof is ever accepted twice. */
  lemma DefaultsAreSafe(c: Claims)
    requires c.iat.Some?
    ensures MINUTE == 60_000_000_000 && JTI_TTL == 300_000_000_000
    ensures !CanBeReplayed(StrictSet, JTI_TTL, c.jti, FreshAt(c, MINUTE))
  {
    ProofsAreSingleUse(MINUTE, JTI_TTL);
  }

  /** Everything Validate checks that does not depend on the time. */
  predicate WellMade(v: Validator, proof: Token, method_: GoString, accessToken: GoString, onCurve: GoString -> bool,
                     sha: Hash) {
    && proof.typ == Some(TYP)
    && proof.jwk.Some? && Jwk.Accepts(proof.jwk.value, onCurve)
    && proof.signer == Some(Jwk.PublicPoint(proof.jwk.value))
    && proof.claims.iat.Some?
    && proof.claims.htm == method_ && proof.claims.htu in v.htus && proof.claims.jti != []
    && (accessToken != [] ==> proof.claims.ath == EncodedDigest(sha, accessToken))
  }

  /** The instants at which Validate's own checks pass. */
  function PassesAt(v: Validator, proof: Token, method_: GoString, accessToken: GoString, onCurve: GoString -> bool,
                    sha: Hash): int -> bool {
    (now: int) => v.Passes(proof, method_, accessToken, now, onCurve, sha)
  }

  /**
    Replay of proofs through Validate: a well-made proof can be accepted twice by a validator exactly if its
    iat, exp and nbf leave two instants a cache lifetime apart; with 2w below that lifetime no proof can,
    well made or not.
   */
  lemma {:induction false} ValidatedProofsAreSingleUse(v: Validator, ttl: int, proof: Token, method_: GoString,
                                                       accessToken: GoString,
                                    onCurve: GoString -> bool, sha: Hash)
    ensures var ok := PassesAt(v, proof, method_, accessToken, onCurve, sha);
            && (forall now :: ok(now) <==>
                  WellMade(v, proof, method_, accessToken, onCurve, sha) && FreshAt(proof.claims, v.iatWindow)(now))
            && (2 * v.iatWindow < ttl ==> !CanBeReplayed(StrictSet, ttl, proof.claims.jti, ok))
            && (WellMade(v, proof, method_, accessToken, onCurve, sha) ==>
                  (CanBeReplayed(StrictSet, ttl, proof.claims.jti, ok) <==>
                   !Narrow(FreshAt(proof.claims, v.iatWindow), ttl)))
  {
    var ok := PassesAt(v, proof, method_, accessToken, onCurve, sha);
    ReplayTheorem(StrictSet, ttl, proof.claims.jti, ok);
  }
}
