/** clientattestation/attestation.go: wallet attestation with a proof of possession of its confirmation key. */
module Attestation {
  import opened GoStrings
  import opened Digests
  import opened ReplayTheory
  import opened ReplayCache
  import opened Jwt
  import Jwk

  const TYP_WIA: GoString := "oauth-client-attestation+jwt"
  const TYP_POP: GoString := "oauth-client-attestation-pop+jwt"

  datatype Result = Result(clientID: GoString, cnfJKT: GoString)

  /**
    The attestation: signed by the leaf of a trusted chain, in time with a mandatory exp, naming a client and its
    key.
   */
  predicate WIAPasses(wia: Token, leaf: Option<GoString>, now: int, onCurve: GoString -> bool) {
    && leaf.Some? && wia.signer == leaf
    && wia.claims.exp.Some? && InTime(wia.claims, 0, now)
    && wia.typ == Some(TYP_WIA)
    && wia.claims.sub != []
    && wia.claims.cnf.Some? && Jwk.Accepts(wia.claims.cnf.value, onCurve)
  }

  /** The proof of possession: signed by the confirmation key, fresh, for this client and this server. */
  predicate PoPPasses(audiences: set<GoString>, window: int, wia: Token, pop: Token, now: int,
                      onCurve: GoString -> bool)
    requires wia.claims.cnf.Some? && Jwk.Accepts(wia.claims.cnf.value, onCurve)
  {
    && pop.signer == Some(Jwk.PublicPoint(wia.claims.cnf.value))
    && PoPFresh(pop.claims, window, now)
    && pop.typ == Some(TYP_POP)
    && pop.claims.iss == wia.claims.sub
    && (exists i :: 0 <= i < |pop.claims.aud| && pop.claims.aud[i] in audiences)
    && pop.claims.jti != []
  }

  /** Everything both headers must satisfy before the proof's identifier is looked up. */
  predicate HeadersPass(audiences: set<GoString>, window: int, wia: Option<Token>, pop: Option<Token>,
                        leaf: Option<GoString>, now: int, onCurve: GoString -> bool) {
    && wia.Some? && pop.Some?
    && WIAPasses(wia.value, leaf, now, onCurve)
    && PoPPasses(audiences, window, wia.value, pop.value, now, onCurve)
  }

  class Verifier {
    const audiences: set<GoString>
    const iatWindow: int
    const replay: JtiCache?
    const requireKeyBinding: bool

    constructor (audiences: set<GoString>, window: int, replay: JtiCache?, requireKeyBinding: bool)
      ensures this.audiences == audiences && this.replay == replay && this.requireKeyBinding == requireKeyBinding
      ensures iatWindow == (if window <= 0 then MINUTE else window) && 0 < iatWindow
    {
      this.audiences := audiences;
      this.iatWindow := if window <= 0 then MINUTE else window;
      this.replay := replay;
      this.requireKeyBinding := requireKeyBinding;
    }

    predicate Passes(wia: Option<Token>, pop: Option<Token>, leaf: Option<GoString>, now: int,
                     onCurve: GoString -> bool) {
      HeadersPass(audiences, iatWindow, wia, pop, leaf, now, onCurve)
    }

    /** One pass over the audiences with a flag. */
    method AudienceAccepted(aud: seq<GoString>) returns (audOK: bool)
      ensures audOK <==> exists i :: 0 <= i < |aud| && aud[i] in audiences
    {
      audOK := false;
      for i := 0 to |aud|
        invariant !audOK && forall j :: 0 <= j < i ==> aud[j] !in audiences
      {
        if aud[i] in audiences {
          audOK := true;
          break;
        }
      }
    }

    /**
      None for either header is a missing or undecodable one; leaf is the key at the end of the
      attestation's certificate chain, if that chain is trusted. A verifier with a cache accepts
      exactly as the replay theory's LenientSet step does.
     */
    method Verify(wia: Option<Token>, pop: Option<Token>, leaf: Option<GoString>, now: int, f: Faults,
                  onCurve: GoString -> bool, sha: Hash)
      returns (res: Option<Result>)
      modifies replay
      ensures replay == null ==> (res.Some? <==> Passes(wia, pop, leaf, now, onCurve))
      ensures replay != null ==>
                (replay.seen, res.Some?) == Step(LenientSet, replay.ttl, old(replay.seen),
                  Request(now, if pop.Some? then pop.value.claims.jti else [], Passes(wia, pop, leaf, now, onCurve),
                          f.getFails, f.setFails))
      ensures res.Some? ==>
                && Passes(wia, pop, leaf, now, onCurve)
                && res.value.clientID == wia.value.claims.sub && res.value.clientID != []
                && res.value.cnfJKT == Jwk.Thumbprint(sha, Jwk.TextOf(wia.value.claims.cnf.value, "x"),
                                                      Jwk.TextOf(wia.value.claims.cnf.value, "y"))
    {
      if wia.None? || pop.None? {
        return None;
      }
      var w, p := wia.value, pop.value;
      if leaf.None? || w.signer != leaf || w.claims.exp.None? || !InTime(w.claims, 0, now) {
        return None;
      }
      if w.typ != Some(TYP_WIA) {
        return None;
      }
      if w.claims.sub == [] {
        return None;
      }
      if w.claims.cnf.None? {
        return None;
      }
      var cnf := Jwk.ParseECJWK(w.claims.cnf.value, onCurve, sha);
      if cnf.None? {
        return None;
      }
      if p.signer != Some(cnf.value.point) || !InTime(p.claims, iatWindow, now) {
        return None;
      }
      if p.claims.exp.None? {
        if p.claims.iat.None? {
          return None;
        }
        var d := now - p.claims.iat.value;
        if d > iatWindow || d < -iatWindow {
          return None;
        }
      }
      if p.typ != Some(TYP_POP) {
        return None;
      }
      if p.claims.iss != w.claims.sub {
        return None;
      }
      var audOK := AudienceAccepted(p.claims.aud);
      if !audOK {
        return None;
      }
      if p.claims.jti == [] {
        return None;
      }
      if replay != null {
        var seen, err := replay.ReplayCheck(now, p.claims.jti, f);
        if !err && seen {
          return None;
        }
      }
      return Some(Result(w.claims.sub, cnf.value.thumbprint));
    }
  }

  /** exp with leeway when present; otherwise iat is mandatory and must lie in the window. */
  predicate PoPFresh(c: Claims, w: int, now: int) {
    && InTime(c, w, now)
    && (c.exp.None? ==> c.iat.Some? && InWindow(c.iat.value, w, now))
  }

  function PoPFreshAt(c: Claims, w: int): int -> bool {
    (now: int) => PoPFresh(c, w, now)
  }

  /**
    A proof without exp is single-use in every run, its own cache operations working, exactly when twice the
    window is under the cache lifetime.
   */
  lemma PoPWithoutExpIsSingleUse(w: int, ttl: int)
    requires 0 < w
    ensures (forall c: Claims :: c.exp.None? ==> !CanBeReplayed(LenientSet, ttl, c.jti, PoPFreshAt(c, w))) <==>
            2 * w < ttl
  {
    if 2 * w < ttl {
      forall c: Claims | c.exp.None? ensures !CanBeReplayed(LenientSet, ttl, c.jti, PoPFreshAt(c, w)) {
        ReplayTheorem(LenientSet, ttl, c.jti, PoPFreshAt(c, w));
      }
    } else {
      var c := Claims([], [], [], "j", Some(w), None, None, [], [], [], None);
      var ok := PoPFreshAt(c, w);
      assert ok(0) && ok(2 * w);
      ReplayTheorem(LenientSet, ttl, c.jti, ok);
    }
  }

  /**
    A proof with exp, first accepted at t1, cannot be accepted again exactly when exp and leeway run
    out no later than its cache entry.
   */
  lemma PoPWithExpIsSingleUse(c: Claims, w: int, ttl: int, t1: int)
    requires c.exp.Some? && 0 < ttl && PoPFresh(c, w, t1)
    ensures !CanBeReplayedAfter(LenientSet, ttl, c.jti, PoPFreshAt(c, w), t1) <==> c.exp.value + w <= t1 + ttl
  {
    var ok := PoPFreshAt(c, w);
    AfterFirstAcceptance(LenientSet, ttl, c.jti, ok, t1);
    if t1 + ttl < c.exp.value + w {
      assert ok(t1 + ttl);
    }
  }

  /**
    NewVerifier: an error without trust anchors; otherwise the audiences as a set and a window of a minute by default.
   */
  method NewVerifier(hasTrustAnchors: bool, accepted: seq<GoString>, window: int, replay: JtiCache?,
                     requireKeyBinding: bool)
    returns (v: Verifier?)
    ensures v != null <==> hasTrustAnchors
    ensures v != null ==>
              && fresh(v) && v.replay == replay && v.requireKeyBinding == requireKeyBinding
              && (forall a :: a in v.audiences <==> a in accepted)
              && v.iatWindow == (if window <= 0 then MINUTE else window) && 0 < v.iatWindow
  {
    if !hasTrustAnchors {
      return null;
    }
    var aud: set<GoString> := {};
    for i := 0 to |accepted|
      invariant forall a :: a in aud <==> a in accepted[..i]
    {
      assert accepted[..i + 1] == accepted[..i] + [accepted[i]];
      aud := aud + {accepted[i]};
    }
    assert accepted[..|accepted|] == accepted;
    v := new Verifier(aud, window, replay, requireKeyBinding);
  }

  /**
    What an attestation and its proof must be at any time: the attestation signed by the leaf of a trusted chain, with
    an exp, naming a client and that client's key; the proof signed by exactly that key, issued by that client for
    this server, with an identifier and an exp or an iat.
   */
  predicate WellAttested(audiences: set<GoString>, wia: Token, pop: Token, leaf: Option<GoString>,
                         onCurve: GoString -> bool) {
    && leaf.Some? && wia.signer == leaf && wia.typ == Some("oauth-client-attestation+jwt")
    && wia.claims.exp.Some? && wia.claims.sub != []
    && wia.claims.cnf.Some? && Jwk.Accepts(wia.claims.cnf.value, onCurve)
    && pop.signer == Some(Jwk.PublicPoint(wia.claims.cnf.value)) && pop.typ == Some("oauth-client-attestation-pop+jwt")
    && pop.claims.iss == wia.claims.sub && (exists a :: a in pop.claims.aud && a in audiences)
    && pop.claims.jti != [] && (pop.claims.exp.Some? || pop.claims.iat.Some?)
  }

  /** The attestation is in force, to the instant; the proof is, give or take the window, and without exp by its iat. */
  predicate InForce(window: int, wia: Claims, pop: Claims, now: int) {
    && (wia.exp.Some? ==> now < wia.exp.value) && (wia.nbf.Some? ==> wia.nbf.value <= now)
    && (pop.exp.Some? ==> now < pop.exp.value + window) && (pop.nbf.Some? ==> pop.nbf.value - window <= now)
    && (pop.exp.None? && pop.iat.Some? ==> now - window <= pop.iat.value <= now + window)
  }

  /** Which pairs of headers pass the checks, before the proof's identifier is looked up. */
  lemma {:induction false} PairsPassExactly(audiences: set<GoString>, window: int, wia: Token, pop: Token,
                                            leaf: Option<GoString>, now: int, onCurve: GoString -> bool)
    ensures HeadersPass(audiences, window, Some(wia), Some(pop), leaf, now, onCurve) <==>
              WellAttested(audiences, wia, pop, leaf, onCurve) && InForce(window, wia.claims, pop.claims, now)
  {
    hide Jwk.Accepts, Jwk.PublicPoint;
    assert forall a :: a in pop.claims.aud && a in audiences ==>
                         exists i :: 0 <= i < |pop.claims.aud| && pop.claims.aud[i] in audiences;
  }

  /** The instants at which Verify's own checks of an attestation and its proof pass. */
  function PassesAt(v: Verifier, wia: Token, pop: Token, leaf: Option<GoString>,
                    onCurve: GoString -> bool): int -> bool {
    (now: int) => v.Passes(Some(wia), Some(pop), leaf, now, onCurve)
  }

  /**
    Replay of proofs of possession through Verify: its checks of a pair pass exactly at the instants at which a well
    attested pair is in force. Without exp no proof is accepted twice if twice the window is less than the cache
    lifetime; with exp none is accepted again after t1 if exp and leeway run out no later than the cache entry of t1.
   */
  lemma {:induction false} VerifiedProofsAreSingleUse(v: Verifier, ttl: int, wia: Token, pop: Token,
                                                      leaf: Option<GoString>, onCurve: GoString -> bool, t1: int)
    requires 0 < ttl
    ensures var ok, c := PassesAt(v, wia, pop, leaf, onCurve), pop.claims;
            && (forall now :: ok(now) <==>
                  WellAttested(v.audiences, wia, pop, leaf, onCurve) && InForce(v.iatWindow, wia.claims, c, now))
            && (c.exp.None? && 2 * v.iatWindow < ttl ==> !CanBeReplayed(LenientSet, ttl, c.jti, ok))
            && (c.exp.Some? && ok(t1) && c.exp.value + v.iatWindow <= t1 + ttl ==>
                !CanBeReplayedAfter(LenientSet, ttl, c.jti, ok, t1))
  {
    hide HeadersPass, Jwk.Accepts, Jwk.PublicPoint;
    var ok := PassesAt(v, wia, pop, leaf, onCurve);
    forall now ensures ok(now) <==>
                         WellAttested(v.audiences, wia, pop, leaf, onCurve)
                         && InForce(v.iatWindow, wia.claims, pop.claims, now) {
      PairsPassExactly(v.audiences, v.iatWindow, wia, pop, leaf, now, onCurve);
    }
    ReplayTheorem(LenientSet, ttl, pop.claims.jti, ok);
    if ok(t1) {
      AfterFirstAcceptance(LenientSet, ttl, pop.claims.jti, ok, t1);
    }
  }
}
