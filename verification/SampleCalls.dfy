/** Calls that the endpoints answer, and the runs in which two of them get a response each. */
module SampleCalls {
  import opened GoStrings
  import opened Items
  import opened Grants
  import opened Lifecycle
  import opened ReplayTheory
  import opened Jwt
  import opened TokenEndpoint
  import opened TokenGates
  import opened TokenProofs
  import SharedMaps
  import Jwk
  import ReplayCache
  import Dpop
  import Attestation

  // --- tokens that pass ----------------------------------------------------------------

  const NO_CACHE_FAULTS: ReplayCache.Faults := ReplayCache.Faults(false, false)

  /** A DPoP proof made with this key for this URL. */
  function SampleProof(d: Front, jwk: Jwk.Members, htu: GoString, jti: GoString, iat: int): Token
    requires Jwk.Accepts(jwk, d.onCurve)
  {
    Token(Some(Dpop.TYP), Some(jwk), Some(Jwk.PublicPoint(jwk)),
          Claims([], [], [], jti, Some(iat), None, None, POST, htu, [], None))
  }

  lemma SampleProofPasses(d: Front, jwk: Jwk.Members, htu: GoString, jti: GoString, iat: int, now: int)
    requires Jwk.Accepts(jwk, d.onCurve) && htu in d.htus && jti != [] && -d.window <= now - iat <= d.window
    ensures ProofPasses(d, SampleProof(d, jwk, htu, jti, iat), now)
  {
  }

  /** An attestation of this key until some instant, with a proof of possession for this audience. */
  function SampleHeaders(d: Front, jwk: Jwk.Members, aud: GoString, jti: GoString, iat: Option<int>, exp: Option<int>,
                         until: int): Headers
    requires Jwk.Accepts(jwk, d.onCurve)
  {
    Headers(Some(Token(Some(Attestation.TYP_WIA), None, Some("l"),
                       Claims([], "w", [], [], None, Some(until), None, [], [], [], Some(jwk)))),
            Some(Token(Some(Attestation.TYP_POP), None, Some(Jwk.PublicPoint(jwk)),
                       Claims("w", [], [aud], jti, iat, exp, None, [], [], [], None))),
            Some("l"))
  }

  lemma SampleHeadersPass(d: Front, jwk: Jwk.Members, aud: GoString, jti: GoString, iat: Option<int>, exp: Option<int>,
                          until: int, now: int)
    requires Jwk.Accepts(jwk, d.onCurve) && d.attest.Some? && aud in d.attest.value.audiences && jti != []
             && now < until
    requires if exp.Some? then now < exp.value + d.attest.value.window
             else iat.Some? && -d.attest.value.window <= now - iat.value <= d.attest.value.window
    ensures PopPasses(d, SampleHeaders(d, jwk, aud, jti, iat, exp, until), now)
  {
    var pop := SampleHeaders(d, jwk, aud, jti, iat, exp, until).pop.value;
    assert pop.claims.aud[0] in d.attest.value.audiences;
  }

  // --- calls -----------------------------------------------------------------------------

  function Plain(op: Op): Arrival {
    Arrival(Handle(op), None, None, NO_CACHE_FAULTS, NO_CACHE_FAULTS)
  }

  /** An offer that goes without a tx_code. */
  function OfferOf(code: GoString): Arrival {
    Plain(Offer(OfferRequest("s", "u", code, true, 10000, [], [], false, false)))
  }

  /** A request for the offer's token. */
  predicate IsClaim(a: Arrival, code: GoString, session: GoString) {
    a.work == Handle(PreAuth(PreAuthRequest(None, code, [], None, [], session, NO_FAULTS))) && a.proof.Some?
  }

  /** What the gates say depends on the instant and on the caches only. */
  function Instant(now: int, proofs: Seen, pops: Seen): Point {
    Point(INITIAL.(now := now), proofs, pops)
  }

  /** Both verifiers let the call pass, with what the pre-authorized grant asks of a wallet. */
  predicate Opens(d: Front, p: Point, a: Arrival) {
    && KeyOf(d, p, a).Some? && (a.attestation.None? ==> !d.cfg.requireAttestationPreauth)
    && (a.attestation.Some? ==>
          && d.attest.Some? && Passed(d, p, PopGate, PopRequest(d, p, a)) && a.attestation.value.wia.Some?
          && (d.attest.value.requireKeyBinding ==>
                KeyOf(d, p, a).value == Thumb(d, a.attestation.value.wia.value.claims.cnf)))
  }

  lemma InstantsDecide(d: Front, p: Point, a: Arrival)
    ensures var q := Instant(p.state.now, p.proofs, p.pops);
            Opens(d, p, a) == Opens(d, q, a) && KeyOf(d, p, a) == KeyOf(d, q, a)
            && forall g :: SeenNext(d, p, a, g) == SeenNext(d, q, a, g)
  {
    hide ProofPasses, PopPasses;
  }

  predicate BoundGrant(e: Event) {
    IsGrant(e) && e.grant.jkt != []
  }

  /** Before an offer: the code, its tx_code and the session are new. */
  predicate IsNew(s: State, code: GoString, session: GoString) {
    code != [] && code !in s.codes && code !in s.txCodes && FreshSession(s, session)
  }

  lemma OfferEffect(d: Front, p: Point, code: GoString, session: GoString)
    requires ValidConfig(d.cfg) && IsNew(p.state, code, session)
    ensures Arrives(d, p, OfferOf(code))
    ensures var p1 := Enter(d, p, OfferOf(code));
            && p1.proofs == p.proofs && p1.pops == p.pops && p1.state.now == p.state.now
            && p1.state.sessions == p.state.sessions
            && p1.state.txCodes == p.state.txCodes && |p1.state.log| == |p.state.log| + 1
            && p1.state.log[..|p.state.log|] == p.state.log && !IsGrant(p1.state.log[|p.state.log|])
            && p1.state.codes.Keys == p.state.codes.Keys + {code}
            && p.state.now < p1.state.codes[code].expires
            && p1.state.codes[code].value.code == code && p1.state.codes[code].value.noTXCode
  {
  }

  /** The offer is cached, live and without a tx_code. */
  predicate Claimable(s: State, code: GoString, session: GoString) {
    && code != [] && code in s.codes && s.now < s.codes[code].expires
    && s.codes[code].value.code == code && s.codes[code].value.noTXCode && FreshSession(s, session)
  }

  lemma ClaimIsGranted(cfg: Config, s: State, r: PreAuthRequest)
    requires Claimable(s, r.code, r.newSession) && r.clientID.None? && r.faults == NO_FAULTS
    requires if r.wallet.None? then !cfg.requireAttestationPreauth else CheckWallet(r.wallet.value, r.jkt).Known?
    ensures var s' := RedeemPreAuth(cfg, s, r).0;
            && s'.now == s.now && s'.txCodes == s.txCodes && s'.codes == s.codes - {r.code}
            && s'.sessions.Keys == s.sessions.Keys + {r.newSession}
            && s'.log[..|s.log|] == s.log && |s'.log| == |s.log| + 1 && IsGrant(s'.log[|s.log|])
            && s'.log[|s.log|].grant.session == r.newSession && s'.log[|s.log|].grant.jkt == r.jkt
  {
    hide CheckWallet, FinishPreAuth, Minted;
    SharedMaps.FinishPreAuthFields(cfg, s, r, s.codes[r.code].value);
  }

  lemma ClaimIsAdmitted(d: Front, p: Point, a: Arrival, code: GoString, session: GoString)
    requires IsClaim(a, code, session) && Opens(d, p, a)
    ensures var op := Admitted(d, p, a);
            && op.Some? && op.value.PreAuth?
            && var r := op.value.preAuth;
               && r.code == code && r.newSession == session && r.clientID.None? && r.faults == NO_FAULTS
               && r.jkt == KeyOf(d, p, a).value != []
               && if r.wallet.None? then !d.cfg.requireAttestationPreauth
                  else CheckWallet(r.wallet.value, r.jkt).Known?
  {
    KeyIsProved(d, p, a);
    hide ProofPasses, PopPasses, KeyOf, Passed, Thumb;
  }

  lemma ClaimableIsFresh(s: State, code: GoString, session: GoString)
    ensures Claimable(s, code, session) ==> FreshSession(s, session)
  {
  }

  lemma ClaimEffect(d: Front, p: Point, a: Arrival, code: GoString, session: GoString)
    requires Claimable(p.state, code, session) && IsClaim(a, code, session) && Opens(d, p, a)
    ensures Arrives(d, p, a)
    ensures var p1 := Enter(d, p, a);
            && p1.proofs == SeenNext(d, p, a, ProofGate) && p1.pops == SeenNext(d, p, a, PopGate)
            && p1.state.now == p.state.now
            && p1.state.txCodes == p.state.txCodes && |p1.state.log| == |p.state.log| + 1
            && p1.state.log[..|p.state.log|] == p.state.log && BoundGrant(p1.state.log[|p.state.log|])
            && p1.state.log[|p.state.log|].grant.session == session
            && p1.state.codes.Keys == p.state.codes.Keys - {code}
            && p1.state.sessions.Keys == p.state.sessions.Keys + {session}
  {
    hide Opens, Enter, Admitted, Claimable, RedeemPreAuth, CheckWallet, SeenNext;
    ClaimIsAdmitted(d, p, a, code, session);
    ClaimIsGranted(d.cfg, p.state, Admitted(d, p, a).value.preAuth);
    EnterActs(d, p, a);
    EnterLeavesSeen(d, p, a, ProofGate);
    EnterLeavesSeen(d, p, a, PopGate);
    assert FreshSession(p.state, session) by { ClaimableIsFresh(p.state, code, session); }
  }

  // --- two responses -----------------------------------------------------------------------

  lemma OneMoreCall(d: Front, calls: seq<Arrival>, a: Arrival)
    requires Served(d, calls) && Arrives(d, After(d, calls), a)
    ensures Served(d, calls + [a]) && After(d, calls + [a]) == Enter(d, After(d, calls), a)
  {
    hide Enter, Arrives;
    var all := calls + [a];
    assert all[..|calls|] == calls;
    forall i | 0 <= i < |all| ensures Arrives(d, After(d, all[..i]), all[i]) {
      if i < |calls| {
        assert all[..i] == calls[..i];
      }
    }
  }

  lemma StartsServed(d: Front)
    ensures Served(d, []) && After(d, []) == START
  {
  }

  lemma WaitEffect(d: Front, p: Point, n: nat)
    ensures Arrives(d, p, Plain(Tick(n)))
    ensures Enter(d, p, Plain(Tick(n))) == p.(state := p.state.(now := p.state.now + n))
  {
  }

  lemma MadeStays(d: Front, calls: seq<Arrival>, more: seq<Arrival>, t: nat, i: nat)
    requires calls <= more && Made(d, calls, t, i)
    ensures Made(d, more, t, i) && When(d, more, t) == When(d, calls, t)
  {
    hide After;
    assert calls[..t] == more[..t] && calls[..t + 1] == more[..t + 1];
  }

  /** The last call made one key-bound grant, the last event, for this session. */
  ghost predicate EndsInGrant(d: Front, calls: seq<Arrival>, a: Arrival, session: GoString) {
    var log := After(d, calls).state.log;
    && calls != [] && calls[|calls| - 1] == a && log != [] && Made(d, calls, |calls| - 1, |log| - 1)
    && BoundGrant(log[|log| - 1]) && log[|log| - 1].grant.session == session
    && When(d, calls, |calls| - 1) == After(d, calls).state.now
  }

  /** Make an offer, and claim it at once. */
  lemma OfferAndClaim(d: Front, calls: seq<Arrival>, a: Arrival, code: GoString, session: GoString)
    returns (more: seq<Arrival>)
    requires Served(d, calls) && ValidConfig(d.cfg) && IsClaim(a, code, session)
    requires var p := After(d, calls);
             IsNew(p.state, code, session) && Opens(d, Instant(p.state.now, p.proofs, p.pops), a)
    ensures Served(d, more) && |more| == |calls| + 2 && calls <= more && EndsInGrant(d, more, a, session)
    ensures var p, p1 := After(d, calls), After(d, more);
            && p1.proofs == SeenNext(d, Instant(p.state.now, p.proofs, p.pops), a, ProofGate)
            && p1.pops == SeenNext(d, Instant(p.state.now, p.proofs, p.pops), a, PopGate)
            && p1.state.now == p.state.now
            && |p1.state.log| == |p.state.log| + 2 && p.state.log <= p1.state.log
            && !IsGrant(p1.state.log[|p.state.log|])
            && p1.state.txCodes == p.state.txCodes && p1.state.codes.Keys == p.state.codes.Keys + {code} - {code}
            && p1.state.sessions.Keys == p.state.sessions.Keys + {session}
  {
    hide Enter, Arrives, After, Served, Opens, SeenNext, IsClaim;
    var p := After(d, calls);
    OfferEffect(d, p, code, session);
    OneMoreCall(d, calls, OfferOf(code));
    var offered := calls + [OfferOf(code)];
    var q := After(d, offered);
    InstantsDecide(d, q, a);
    assert Claimable(q.state, code, session);
    ClaimEffect(d, q, a, code, session);
    OneMoreCall(d, offered, a);
    more := offered + [a];
    assert more[..|offered|] == offered && more[..|more|] == more;
  }

  /** Two offers, claimed with these two calls at these two instants. */
  lemma TwoClaims(d: Front, a1: Arrival, a2: Arrival, start: nat, wait: nat) returns (calls: seq<Arrival>)
    requires ValidConfig(d.cfg) && IsClaim(a1, "c", "t") && IsClaim(a2, "cc", "tt")
    requires var p1 := Instant(start, map[], map[]);
             var p2 := Instant(start + wait, SeenNext(d, p1, a1, ProofGate), SeenNext(d, p1, a1, PopGate));
             Opens(d, p1, a1) && Opens(d, p2, a2)
    ensures Served(d, calls) && |calls| == 6 && calls[2] == a1 && calls[5] == a2
    ensures Made(d, calls, 2, 1) && Made(d, calls, 5, 3) && |After(d, calls).state.log| == 4
    ensures BoundGrant(After(d, calls).state.log[1]) && BoundGrant(After(d, calls).state.log[3])
    ensures When(d, calls, 2) == start && When(d, calls, 5) == start + wait
  {
    hide Enter, Arrives, After, Served, Made, Opens, SeenNext, IsClaim, When;
    StartsServed(d);
    WaitEffect(d, START, start);
    OneMoreCall(d, [], Plain(Tick(start)));
    var waiting := [] + [Plain(Tick(start))];
    var first := OfferAndClaim(d, waiting, a1, "c", "t");
    WaitEffect(d, After(d, first), wait);
    OneMoreCall(d, first, Plain(Tick(wait)));
    var waited := first + [Plain(Tick(wait))];
    assert |"t"| != |"tt"|;
    calls := OfferAndClaim(d, waited, a2, "cc", "tt");
    MadeStays(d, first, calls, 2, 1);
  }

  /** A confidential client's request that names no stored code: it is answered, with no scope. */
  predicate IsBare(d: Front, a: Arrival, session: GoString) {
    && a.work.Handle? && a.work.op.Code? && a.work.op.code.client.Basic? && a.proof.Some? && a.attestation.None?
    && var r := a.work.op.code;
       && r == CodeRequest(r.client, "x", [], [], [], session, "n", NO_FAULTS.(issue := true))
       && r.client.id in d.cfg.clients && r.client.secret in d.cfg.clients[r.client.id].secrets
  }

  lemma BareIsGranted(cfg: Config, s: State, r: CodeRequest)
    requires r == CodeRequest(r.client, "x", [], [], r.jkt, r.newSession, "n", NO_FAULTS.(issue := true)) && r.jkt != []
    requires r.client.Basic? && r.client.id in cfg.clients && r.client.secret in cfg.clients[r.client.id].secrets
    requires s.codes == map[] && s.refresh == map[] && FreshSession(s, r.newSession) && |r.newSession| == 2
    ensures Enabled(cfg, s, Code(r))
    ensures var s' := RedeemCode(cfg, s, r).0;
            && s'.now == s.now && s'.codes == map[] && s'.refresh == map[]
            && s'.sessions.Keys <= s.sessions.Keys + {r.newSession}
            && s'.log[..|s.log|] == s.log && |s'.log| == |s.log| + 1 && IsGrant(s'.log[|s.log|])
            && s'.log[|s.log|].grant.session == r.newSession && s'.log[|s.log|].grant.jkt == r.jkt
  {
    assert |S256| > 0;
    assert Authenticate(cfg, r.client, r.jkt) == Known(r.client.id, false);
    assert EarlyRefusal(cfg, s.codes, s.now, r).None?;
    hide RedeemCode, EarlyRefusal, Authenticate, Minted, RefreshKey;
    SharedMaps.RedeemCodeFields(cfg, s, r);
    assert s.codes - {r.code} == map[];
  }

  lemma BareIsAdmitted(d: Front, p: Point, a: Arrival, session: GoString)
    requires IsBare(d, a, session) && KeyOf(d, p, a).Some?
    ensures var op := Admitted(d, p, a);
            && op == Some(Code(a.work.op.code.(jkt := KeyOf(d, p, a).value))) && KeyOf(d, p, a).value != []
  {
    KeyIsProved(d, p, a);
    hide KeyOf, ProofPasses;
  }

  predicate Bare(s: State, session: GoString) {
    s.codes == map[] && s.refresh == map[] && FreshSession(s, session) && |session| == 2
  }

  lemma BareArrives(d: Front, p: Point, a: Arrival, session: GoString)
    requires IsBare(d, a, session) && |session| == 2 && FreshSession(p.state, session) && p.state.refresh == map[]
    ensures Arrives(d, p, a)
  {
    assert session != "x" by { assert |"x"| == 1; }
  }

  lemma BareStep(d: Front, p: Point, a: Arrival, session: GoString)
    requires IsBare(d, a, session) && KeyOf(d, p, a).Some? && Bare(p.state, session)
    ensures Arrives(d, p, a)
    ensures var p1 := Enter(d, p, a);
            && p1.proofs == SeenNext(d, p, a, ProofGate)
            && p1.state.now == p.state.now && p1.state.codes == map[] && p1.state.refresh == map[]
            && |p1.state.log| == |p.state.log| + 1 && p1.state.log[..|p.state.log|] == p.state.log
            && BoundGrant(p1.state.log[|p.state.log|]) && p1.state.log[|p.state.log|].grant.session == session
            && p1.state.sessions.Keys <= p.state.sessions.Keys + {session}
  {
    hide Enter, SeenNext, Admitted, RedeemCode, KeyOf;
    BareArrives(d, p, a, session);
    BareIsAdmitted(d, p, a, session);
    BareIsGranted(d.cfg, p.state, Admitted(d, p, a).value.code);
    EnterActs(d, p, a);
    EnterLeavesSeen(d, p, a, ProofGate);
  }

  lemma SameKey(d: Front, p: Point, q: Point, a: Arrival)
    requires p.state.now == q.state.now && p.proofs == q.proofs
    ensures KeyOf(d, p, a) == KeyOf(d, q, a)
  {
    hide ProofPasses;
  }

  /** Two such requests at these instants. */
  lemma TwoBareRequests(d: Front, a1: Arrival, a2: Arrival, wait: nat) returns (calls: seq<Arrival>)
    requires IsBare(d, a1, "tt") && IsBare(d, a2, "uu")
    requires var p1 := Instant(0, map[], map[]);
             && KeyOf(d, p1, a1).Some? && KeyOf(d, Instant(wait, SeenNext(d, p1, a1, ProofGate), map[]), a2).Some?
    ensures Served(d, calls) && |calls| == 3 && calls[0] == a1 && calls[2] == a2
    ensures Made(d, calls, 0, 0) && Made(d, calls, 2, 1) && |After(d, calls).state.log| == 2
    ensures BoundGrant(After(d, calls).state.log[0]) && BoundGrant(After(d, calls).state.log[1])
    ensures When(d, calls, 0) == 0 && When(d, calls, 2) == wait
  {
    hide Enter, Arrives, After, Served, SeenNext, IsBare, KeyOf;
    StartsServed(d);
    BareStep(d, START, a1, "tt");
    OneMoreCall(d, [], a1);
    var c1 := [] + [a1];
    WaitEffect(d, After(d, c1), wait);
    OneMoreCall(d, c1, Plain(Tick(wait)));
    var c2 := c1 + [Plain(Tick(wait))];
    assert "tt"[0] != "uu"[0];
    SameKey(d, After(d, c2), Instant(wait, SeenNext(d, START, a1, ProofGate), map[]), a2);
    BareStep(d, After(d, c2), a2, "uu");
    OneMoreCall(d, c2, a2);
    calls := c2 + [a2];
    assert calls[..0] == [] && calls[..1] == c1 && calls[..2] == c2 && calls[..3] == calls;
  }
}
