/** How far the bounds on proofs reach: exactly when one DPoP proof, or one proof of possession, gets two responses. */
module TokenReuse {
  import opened GoStrings
  import opened Grants
  import opened Lifecycle
  import opened Invariants
  import opened ReplayTheory
  import opened TokenEndpoint
  import opened TokenProofs
  import opened SampleCalls
  import Backing
  import Jwk
  import ReplayCache
  import Jwt

  // --- who is answered at all --------------------------------------------------------------

  /** Somebody can get a token: anybody with an offer, an attested wallet, or a client with a secret. */
  predicate Serves(d: Front) {
    || !d.cfg.requireAttestationPreauth
    || (d.attest.Some? && d.attest.value.audiences != {})
    || exists id :: id in d.cfg.clients && d.cfg.clients[id].secrets != []
  }

  lemma AttestedNeedsAudience(d: Front, h: Headers, now: int)
    requires PopPasses(d, h, now)
    ensures d.attest.Some? && d.attest.value.audiences != {}
  {
  }

  /** Where nobody is served, only a refresh could get a token. */
  lemma OnlyRefreshes(d: Front, p: Point, a: Arrival, i: nat)
    requires Arrives(d, p, a) && |p.state.log| <= i < |Enter(d, p, a).state.log| && IsGrant(Enter(d, p, a).state.log[i])
    requires !Serves(d)
    ensures Enter(d, p, a).state.log[i].Refreshed?
  {
    hide Enter, Apply, KeyOf, WalletOf, Passed, PopPasses, CheckWallet, RedeemRefresh;
    EnterActs(d, p, a);
    var op := Admitted(d, p, a).value;
    GrantRests(d.cfg, p.state, op, i);
    if Enter(d, p, a).state.log[i].CodeRedeemed? {
      Backing.GrantIsMadeSo(d.cfg, p.state, op, i);
      if a.attestation.Some? {
        WalletIsAttested(d, p, a, KeyOf(d, p, a).value);
        AttestedNeedsAudience(d, a.attestation.value, p.state.now);
      }
    }
  }

  /** And as every refresh goes back to a code, nobody gets one. */
  lemma {:induction false} NobodyIsServed(d: Front, calls: seq<Arrival>, i: nat)
    requires Served(d, calls) && i < |After(d, calls).state.log| && !Serves(d)
    ensures !IsGrant(After(d, calls).state.log[i])
    decreases i
  {
    hide Served, After, Enter, Arrives, Serves, CameWith, CodesLogged, RedemptionsLogged, StatesLogged, StatesCounted,
         SessionsBound, Exec, Run;
    var log := After(d, calls).state.log;
    if IsGrant(log[i]) {
      var t := TokensCameWithTheirProofs(d, calls, i);
      ServedPrefix(d, calls, t);
      NextPoint(d, calls, t);
      LogsGrow(d, calls, t + 1);
      OnlyRefreshes(d, After(d, calls[..t]), calls[t], i);
      ServedIsARun(d, calls);
      RunInv(d.cfg, Handled(d, calls));
      assert RootedAt(log[..i], log[i].family, log[i].grant);
      NobodyIsServed(d, calls, log[i].family);
    }
  }

  // --- one DPoP proof --------------------------------------------------------------------------

  /** These two calls made these two key-bound responses with one proof. */
  predicate SameProof(d: Front, calls: seq<Arrival>, t1: nat, t2: nat, i: nat, j: nat) {
    && Made(d, calls, t1, i) && Made(d, calls, t2, j) && i < j < |After(d, calls).state.log|
    && BoundGrant(After(d, calls).state.log[i]) && BoundGrant(After(d, calls).state.log[j])
    && calls[t1].proof == calls[t2].proof
  }

  /** One proof got two responses though both calls could read the identifier cache. */
  ghost predicate ReusesAProof(d: Front, calls: seq<Arrival>) {
    exists t1: nat, t2: nat, i: nat, j: nat ::
      && SameProof(d, calls, t1, t2, i, j)
      && !calls[t1].proofFaults.getFails && !calls[t2].proofFaults.getFails
  }

  function BareCall(id: GoString, secret: GoString, session: GoString, proof: Jwt.Token,
                    f: ReplayCache.Faults): Arrival {
    Arrival(Handle(Code(CodeRequest(Basic(id, secret), "x", [], [], [], session, "n", NO_FAULTS.(issue := true)))),
            Some(proof), None, f, NO_CACHE_FAULTS)
  }

  function ClaimCall(code: GoString, session: GoString, proof: Jwt.Token, f: ReplayCache.Faults,
                     h: Option<Headers>): Arrival {
    Arrival(Handle(PreAuth(PreAuthRequest(None, code, [], None, [], session, NO_FAULTS))), Some(proof), h, f,
            NO_CACHE_FAULTS)
  }

  lemma ProofGateOpens(d: Front, a: Arrival, now: int, proofs: Seen, pops: Seen)
    requires ForToken(a.work) && a.proof.Some? && ProofPasses(d, a.proof.value, now) && !a.proofFaults.setFails
    requires a.proofFaults.getFails || !Live(proofs, a.proof.value.claims.jti, now)
    ensures var p := Instant(now, proofs, pops);
            && KeyOf(d, p, a) == Some(Thumb(d, a.proof.value.jwk))
            && SeenNext(d, p, a, ProofGate) ==
               if a.proofFaults.getFails then proofs else proofs[a.proof.value.claims.jti := now + d.proofTTL]
  {
    hide ProofPasses, Thumb;
  }

  lemma PopGateOpens(d: Front, a: Arrival, now: int, proofs: Seen, pops: Seen)
    requires LooksAtWallet(a.work) && a.attestation.Some? && d.attest.Some? && PopPasses(d, a.attestation.value, now)
    requires KeyOf(d, Instant(now, proofs, pops), a).Some? && a.popFaults == NO_CACHE_FAULTS
    requires a.attestation.value.pop.Some? && !Live(pops, a.attestation.value.pop.value.claims.jti, now)
    ensures var p := Instant(now, proofs, pops);
            && Passed(d, p, PopGate, PopRequest(d, p, a))
            && SeenNext(d, p, a, PopGate) == pops[a.attestation.value.pop.value.claims.jti := now + d.popTTL]
  {
    hide PopPasses, KeyOf;
  }

  /** A proof for this key can be made, and the windows are positive, as both constructors see to. */
  predicate CanProve(d: Front, jwk: Jwk.Members, htu: GoString) {
    ValidConfig(d.cfg) && 0 < d.window && (d.attest.Some? ==> 0 < d.attest.value.window)
      && Jwk.Accepts(jwk, d.onCurve) && htu in d.htus
  }

  /** Two calls with one proof, both answered: the second comes late, or cannot read the cache. */
  lemma OneProofTwice(d: Front, jwk: Jwk.Members, htu: GoString, f: ReplayCache.Faults, wait: nat)
    returns (calls: seq<Arrival>, t1: nat, t2: nat, i: nat, j: nat)
    requires CanProve(d, jwk, htu) && Serves(d)
    requires wait <= 2 * d.window && !f.setFails && (f.getFails || d.proofTTL <= wait)
    ensures Served(d, calls) && SameProof(d, calls, t1, t2, i, j)
    ensures calls[t1].proofFaults == NO_CACHE_FAULTS && calls[t2].proofFaults == f
    ensures When(d, calls, t1) == 0 && When(d, calls, t2) == wait
  {
    hide ProofPasses, Thumb, KeyOf, SeenNext, Opens, Served, After, Made, When;
    var proof := SampleProof(d, jwk, htu, "j", d.window);
    SampleProofPasses(d, jwk, htu, "j", d.window, 0);
    SampleProofPasses(d, jwk, htu, "j", d.window, wait);
    if !d.cfg.requireAttestationPreauth {
      calls := ClaimedTwice(d, proof, f, wait, None, None);
      t1, t2, i, j := 2, 5, 1, 3;
    } else if d.attest.Some? && d.attest.value.audiences != {} {
      var aud :| aud in d.attest.value.audiences;
      SampleHeadersPass(d, jwk, aud, "p", Some(0), None, wait + 1, 0);
      SampleHeadersPass(d, jwk, aud, "pp", Some(wait), None, wait + 1, wait);
      calls := ClaimedTwice(d, proof, f, wait, Some(SampleHeaders(d, jwk, aud, "p", Some(0), None, wait + 1)),
                            Some(SampleHeaders(d, jwk, aud, "pp", Some(wait), None, wait + 1)));
      t1, t2, i, j := 2, 5, 1, 3;
    } else {
      var id :| id in d.cfg.clients && d.cfg.clients[id].secrets != [];
      calls := BareTwice(d, id, d.cfg.clients[id].secrets[0], proof, f, wait);
      t1, t2, i, j := 0, 2, 0, 1;
    }
  }

  lemma BareTwice(d: Front, id: GoString, secret: GoString, proof: Jwt.Token, f: ReplayCache.Faults, wait: nat)
    returns (calls: seq<Arrival>)
    requires id in d.cfg.clients && secret in d.cfg.clients[id].secrets
    requires ProofPasses(d, proof, 0) && ProofPasses(d, proof, wait)
    requires !f.setFails && (f.getFails || d.proofTTL <= wait)
    ensures Served(d, calls) && SameProof(d, calls, 0, 2, 0, 1)
    ensures calls[0].proofFaults == NO_CACHE_FAULTS && calls[2].proofFaults == f
    ensures When(d, calls, 0) == 0 && When(d, calls, 2) == wait
  {
    hide ProofPasses, Thumb, KeyOf, SeenNext, Served, After, Made, When;
    var a1, a2 := BareCall(id, secret, "tt", proof, NO_CACHE_FAULTS), BareCall(id, secret, "uu", proof, f);
    ProofGateOpens(d, a1, 0, map[], map[]);
    ProofGateOpens(d, a2, wait, SeenNext(d, Instant(0, map[], map[]), a1, ProofGate), map[]);
    calls := TwoBareRequests(d, a1, a2, wait);
  }

  /** Two offers claimed with this proof, with other attestation headers each time, where there are any. */
  lemma ClaimedTwice(d: Front, proof: Jwt.Token, f: ReplayCache.Faults, wait: nat, h1: Option<Headers>,
                     h2: Option<Headers>)
    returns (calls: seq<Arrival>)
    requires ValidConfig(d.cfg) && ProofPasses(d, proof, 0) && ProofPasses(d, proof, wait)
    requires !f.setFails && (f.getFails || d.proofTTL <= wait)
    requires h1.Some? <==> h2.Some?
    requires h1.None? ==> !d.cfg.requireAttestationPreauth
    requires h1.Some? ==> Fits(d, h1.value, proof, 0) && Fits(d, h2.value, proof, wait)
                          && JtiOf(h1.value.pop) != JtiOf(h2.value.pop)
    ensures Served(d, calls) && SameProof(d, calls, 2, 5, 1, 3)
    ensures calls[2].proofFaults == NO_CACHE_FAULTS && calls[5].proofFaults == f
    ensures When(d, calls, 2) == 0 && When(d, calls, 5) == wait
  {
    hide ProofPasses, PopPasses, Thumb, KeyOf, SeenNext, Served, After, Made, When, Passed;
    var a1, a2 := ClaimCall("c", "t", proof, NO_CACHE_FAULTS, h1), ClaimCall("cc", "tt", proof, f, h2);
    ProofGateOpens(d, a1, 0, map[], map[]);
    var proofs := SeenNext(d, Instant(0, map[], map[]), a1, ProofGate);
    var pops := SeenNext(d, Instant(0, map[], map[]), a1, PopGate);
    ProofGateOpens(d, a2, wait, proofs, pops);
    if h1.Some? {
      PopGateOpens(d, a1, 0, map[], map[]);
      PopGateOpens(d, a2, wait, proofs, pops);
    }
    calls := TwoClaims(d, a1, a2, 0, wait);
  }

  /** The headers pass at this instant and attest the key of the proof. */
  predicate Fits(d: Front, h: Headers, proof: Jwt.Token, now: int) {
    d.attest.Some? && PopPasses(d, h, now) && h.wia.Some? && h.pop.Some?
      && Thumb(d, proof.jwk) == Thumb(d, h.wia.value.claims.cnf)
  }

  /**
    The bound on DPoP proofs is exact, over all runs, whatever fails but the two calls' own reads: no proof gets two
    key-bound responses if and only if twice the window is below the cache lifetime, or nobody is served at all.
   */
  lemma {:induction false} ProofsBackOneTokenExactly(d: Front, jwk: Jwk.Members, htu: GoString)
    requires CanProve(d, jwk, htu)
    ensures (forall calls :: Served(d, calls) ==> !ReusesAProof(d, calls)) <==>
            2 * d.window < d.proofTTL || !Serves(d)
  {
    hide Served, After, Made, When, Serves;
    if 2 * d.window < d.proofTTL || !Serves(d) {
      forall calls | Served(d, calls) ensures !ReusesAProof(d, calls) {
        NoRunReuses(d, calls);
      }
    } else {
      var calls, t1, t2, i, j := OneProofTwice(d, jwk, htu, NO_CACHE_FAULTS, 2 * d.window);
      assert ReusesAProof(d, calls);
    }
  }

  lemma NoRunReuses(d: Front, calls: seq<Arrival>)
    requires Served(d, calls) && (2 * d.window < d.proofTTL || !Serves(d))
    ensures !ReusesAProof(d, calls)
  {
    hide Served, After, Serves;
    forall t1: nat, t2: nat, i: nat, j: nat | SameProof(d, calls, t1, t2, i, j)
      && !calls[t1].proofFaults.getFails && !calls[t2].proofFaults.getFails
      ensures false
    {
      if Serves(d) {
        NoProofBacksTwoTokens(d, calls, t1, t2, i, j);
      } else {
        NobodyIsServed(d, calls, i);
      }
    }
  }

  /**
    The reads are needed: for any window and any lifetime, on every server that serves anybody, one failed read, of
    the second call alone, gives one proof two responses at one instant.
   */
  lemma {:induction false} FailedReadReusesAProof(d: Front, jwk: Jwk.Members, htu: GoString)
    returns (calls: seq<Arrival>, t1: nat, t2: nat, i: nat, j: nat)
    requires CanProve(d, jwk, htu) && Serves(d)
    ensures Served(d, calls) && SameProof(d, calls, t1, t2, i, j) && When(d, calls, t1) == When(d, calls, t2)
    ensures calls[t1].proofFaults == NO_CACHE_FAULTS && calls[t2].proofFaults == NO_CACHE_FAULTS.(getFails := true)
  {
    calls, t1, t2, i, j := OneProofTwice(d, jwk, htu, NO_CACHE_FAULTS.(getFails := true), 0);
  }

  // --- one proof of possession ---------------------------------------------------------------

  /** These two calls made these two wallets' responses with one proof of possession, the caches serving both. */
  predicate SamePop(d: Front, calls: seq<Arrival>, t1: nat, t2: nat, i: nat, j: nat) {
    && Made(d, calls, t1, i) && Made(d, calls, t2, j) && i < j < |After(d, calls).state.log|
    && IsGrant(After(d, calls).state.log[i]) && IsGrant(After(d, calls).state.log[j])
    && calls[t1].attestation.Some? && LooksAtWallet(calls[t1].work)
    && calls[t2].attestation.Some? && LooksAtWallet(calls[t2].work)
    && calls[t1].attestation.value.pop.Some? && calls[t1].attestation.value.pop == calls[t2].attestation.value.pop
    && !calls[t1].popFaults.getFails && !calls[t1].popFaults.setFails && !calls[t2].popFaults.getFails
  }

  function ExpOf(calls: seq<Arrival>, t: nat): Option<int> {
    if t < |calls| && calls[t].attestation.Some? && calls[t].attestation.value.pop.Some?
    then calls[t].attestation.value.pop.value.claims.exp else None
  }

  ghost predicate ReusesAPopWithoutExp(d: Front, calls: seq<Arrival>) {
    exists t1: nat, t2: nat, i: nat, j: nat :: SamePop(d, calls, t1, t2, i, j) && ExpOf(calls, t1).None?
  }

  /** One with this exp, first used at this instant. */
  ghost predicate ReusesAPopFrom(d: Front, calls: seq<Arrival>, start: int, exp: int) {
    exists t1: nat, t2: nat, i: nat, j: nat ::
      SamePop(d, calls, t1, t2, i, j) && ExpOf(calls, t1) == Some(exp) && When(d, calls, t1) == start
  }

  lemma OnePopTwice(d: Front, jwk: Jwk.Members, htu: GoString, aud: GoString, iat: Option<int>, exp: Option<int>,
                    start: nat, wait: nat)
    returns (calls: seq<Arrival>)
    requires CanProve(d, jwk, htu) && d.attest.Some? && aud in d.attest.value.audiences && d.popTTL <= wait
    requires var w := d.attest.value.window;
             if exp.Some? then start + wait < exp.value + w
             else iat.Some? && -w <= start - iat.value <= w && -w <= start + wait - iat.value <= w
    ensures Served(d, calls) && SamePop(d, calls, 2, 5, 1, 3)
    ensures ExpOf(calls, 2) == exp && When(d, calls, 2) == start
  {
    hide ProofPasses, PopPasses, Thumb, KeyOf, SeenNext, Served, After, Made, When, Passed;
    var h := SampleHeaders(d, jwk, aud, "p", iat, exp, start + wait + 1);
    SampleHeadersPass(d, jwk, aud, "p", iat, exp, start + wait + 1, start);
    SampleHeadersPass(d, jwk, aud, "p", iat, exp, start + wait + 1, start + wait);
    SampleProofPasses(d, jwk, htu, "j", start, start);
    SampleProofPasses(d, jwk, htu, "jj", start + wait, start + wait);
    assert |"j"| != |"jj"|;
    var a1 := ClaimCall("c", "t", SampleProof(d, jwk, htu, "j", start), NO_CACHE_FAULTS, Some(h));
    var a2 := ClaimCall("cc", "tt", SampleProof(d, jwk, htu, "jj", start + wait), NO_CACHE_FAULTS, Some(h));
    ProofGateOpens(d, a1, start, map[], map[]);
    PopGateOpens(d, a1, start, map[], map[]);
    var proofs := SeenNext(d, Instant(start, map[], map[]), a1, ProofGate);
    var pops := SeenNext(d, Instant(start, map[], map[]), a1, PopGate);
    ProofGateOpens(d, a2, start + wait, proofs, pops);
    PopGateOpens(d, a2, start + wait, proofs, pops);
    calls := TwoClaims(d, a1, a2, start, wait);
  }

  lemma SamePopIsBounded(d: Front, calls: seq<Arrival>, t1: nat, t2: nat, i: nat, j: nat)
    requires Served(d, calls) && SamePop(d, calls, t1, t2, i, j)
    ensures d.attest.Some?
    ensures var w := d.attest.value.window;
            if ExpOf(calls, t1).None? then d.popTTL <= 2 * w
            else When(d, calls, t1) + d.popTTL < ExpOf(calls, t1).value + w
  {
    hide Served, After, When;
    NoPopBacksTwoTokens(d, calls, t1, t2, i, j);
  }

  /** The bounds on proofs of possession are exact too. Without exp: twice the window against the cache lifetime. */
  lemma {:induction false} PopsWithoutExpExactly(d: Front, jwk: Jwk.Members, htu: GoString)
    requires CanProve(d, jwk, htu) && d.attest.Some? && d.attest.value.audiences != {}
    ensures (forall calls :: Served(d, calls) ==> !ReusesAPopWithoutExp(d, calls)) <==>
            2 * d.attest.value.window < d.popTTL
  {
    hide Served, After, SamePop, When;
    var w := d.attest.value.window;
    if calls :| Served(d, calls) && ReusesAPopWithoutExp(d, calls) {
      var t1: nat, t2: nat, i: nat, j: nat :| SamePop(d, calls, t1, t2, i, j) && ExpOf(calls, t1).None?;
      SamePopIsBounded(d, calls, t1, t2, i, j);
    }
    if d.popTTL <= 2 * w {
      var aud :| aud in d.attest.value.audiences;
      var calls := OnePopTwice(d, jwk, htu, aud, Some(w), None, 0, 2 * w);
      assert ReusesAPopWithoutExp(d, calls);
    }
  }

  /** With exp: exp and leeway against the cache entry of the first use, whenever that is. */
  lemma {:induction false} PopsWithExpExactly(d: Front, jwk: Jwk.Members, htu: GoString, start: nat, exp: int)
    requires CanProve(d, jwk, htu) && d.attest.Some? && d.attest.value.audiences != {} && 0 < d.popTTL
    ensures (forall calls :: Served(d, calls) ==> !ReusesAPopFrom(d, calls, start, exp)) <==>
            exp + d.attest.value.window <= start + d.popTTL
  {
    hide Served, After, SamePop, When;
    if calls :| Served(d, calls) && ReusesAPopFrom(d, calls, start, exp) {
      var t1: nat, t2: nat, i: nat, j: nat :|
        SamePop(d, calls, t1, t2, i, j) && ExpOf(calls, t1) == Some(exp) && When(d, calls, t1) == start;
      SamePopIsBounded(d, calls, t1, t2, i, j);
    }
    if start + d.popTTL < exp + d.attest.value.window {
      var aud :| aud in d.attest.value.audiences;
      var calls := OnePopTwice(d, jwk, htu, aud, None, Some(exp), start, d.popTTL);
      assert ReusesAPopFrom(d, calls, start, exp);
    }
  }
}
