/**
  What came with each token: a DPoP proof of its key, an attestation of its wallet, and how far apart one serves two.
 */
module TokenProofs {
  import opened GoStrings
  import opened Digests
  import opened Grants
  import opened Lifecycle
  import opened Jwt
  import opened TokenEndpoint
  import opened TokenGates
  import Backing
  import SharedMaps
  import Jwk
  import Dpop
  import Attestation

  /** The t-th call put the i-th event on record. */
  predicate Made(d: Front, calls: seq<Arrival>, t: nat, i: nat) {
    t < |calls| && |After(d, calls[..t]).state.log| <= i < |After(d, calls[..t + 1]).state.log|
  }

  lemma EnterGrows(d: Front, p: Point, a: Arrival)
    requires Arrives(d, p, a)
    ensures p.state.log <= Enter(d, p, a).state.log
  {
    hide Admitted, Apply, Enabled, Enter, Arrives;
    EnterActs(d, p, a);
    if Admitted(d, p, a).Some? {
      AdmittedIsEnabled(d, p, a);
      Backing.LogGrows(d.cfg, p.state, Admitted(d, p, a).value);
    }
  }

  lemma {:induction false} LogsGrow(d: Front, calls: seq<Arrival>, t: nat)
    requires Served(d, calls) && t <= |calls|
    ensures After(d, calls[..t]).state.log <= After(d, calls).state.log
    decreases |calls| - t
  {
    hide Served, After, Enter, Arrives;
    if t == |calls| {
      assert calls[..t] == calls;
    } else {
      ServedPrefix(d, calls, t);
      NextPoint(d, calls, t);
      EnterGrows(d, After(d, calls[..t]), calls[t]);
      LogsGrow(d, calls, t + 1);
    }
  }

  lemma {:induction false} EveryEventIsMade(d: Front, calls: seq<Arrival>, i: nat, n: nat) returns (t: nat)
    requires Served(d, calls) && n <= |calls| && i < |After(d, calls[..n]).state.log|
    ensures t < n && Made(d, calls, t, i)
    decreases n
  {
    hide Served, After, Enter, Arrives;
    if n == 0 {
      StartIsEmpty(d, calls);
      assert false;
    } else if i < |After(d, calls[..n - 1]).state.log| {
      t := EveryEventIsMade(d, calls, i, n - 1);
    } else {
      t := n - 1;
    }
  }

  lemma StartIsEmpty(d: Front, calls: seq<Arrival>)
    ensures |After(d, calls[..0]).state.log| == 0
  {
  }

  /** A DPoP proof for this endpoint, signed by the key it carries, and fresh: section 4.3 of RFC 9449. */
  predicate Proves(d: Front, proof: Token, now: int) {
    var c := proof.claims;
    && proof.typ == Some("dpop+jwt") && proof.jwk.Some? && Jwk.Accepts(proof.jwk.value, d.onCurve)
    && proof.signer == Some(Jwk.PublicPoint(proof.jwk.value))
    && c.htm == "POST" && c.htu in d.htus && c.jti != []
    && c.iat.Some? && now - d.window <= c.iat.value <= now + d.window
    && (c.exp.Some? ==> now < c.exp.value) && (c.nbf.Some? ==> c.nbf.value <= now)
  }

  lemma ProofsPassExactly(d: Front, proof: Token, now: int)
    ensures ProofPasses(d, proof, now) <==> Proves(d, proof, now)
  {
    hide Jwk.Accepts, Jwk.PublicPoint, EncodedDigest;
  }

  /** Attestation headers that this server accepts: both there, well attested and in force. */
  predicate Attests(d: Front, h: Headers, now: int) {
    && d.attest.Some? && h.wia.Some? && h.pop.Some?
    && Attestation.WellAttested(d.attest.value.audiences, h.wia.value, h.pop.value, h.leaf, d.onCurve)
    && Attestation.InForce(d.attest.value.window, h.wia.value.claims, h.pop.value.claims, now)
  }

  lemma HeadersPassExactly(d: Front, h: Headers, now: int)
    ensures PopPasses(d, h, now) <==> Attests(d, h, now)
  {
    hide Attestation.WellAttested, Attestation.InForce;
    if d.attest.Some? && h.wia.Some? && h.pop.Some? {
      Attestation.PairsPassExactly(d.attest.value.audiences, d.attest.value.window, h.wia.value, h.pop.value, h.leaf,
                                   now, d.onCurve);
    }
  }

  /** The proof and the attestation that a grant came with, and what they say of it. */
  predicate CameWith(d: Front, p: Point, a: Arrival, g: Grant) {
    && a.work.Handle? && IsRedemption(a.work.op)
    && (g.jkt != [] <==> a.proof.Some?)
    && (a.proof.Some? ==>
          && Passed(d, p, ProofGate, ProofRequest(d, p, a)) && Proves(d, a.proof.value, p.state.now)
          && g.jkt == Thumb(d, a.proof.value.jwk))
    && (a.attestation.Some? && LooksAtWallet(a.work) ==>
          && g.jkt != []
          && Passed(d, p, PopGate, PopRequest(d, p, a)) && Attests(d, a.attestation.value, p.state.now)
          && (a.work.op.Code? ==> g.clientID == a.attestation.value.wia.value.claims.sub)
          && (d.attest.value.requireKeyBinding ==> g.jkt == Thumb(d, a.attestation.value.wia.value.claims.cnf)))
    && (a.work.op.PreAuth? && d.cfg.requireAttestationPreauth ==> a.attestation.Some?)
  }

  lemma KeyIsProved(d: Front, p: Point, a: Arrival)
    requires KeyOf(d, p, a).Some? && ForToken(a.work)
    ensures KeyOf(d, p, a).value != [] <==> a.proof.Some?
    ensures a.proof.Some? ==>
              && Passed(d, p, ProofGate, ProofRequest(d, p, a)) && Proves(d, a.proof.value, p.state.now)
              && KeyOf(d, p, a).value == Thumb(d, a.proof.value.jwk)
  {
    hide ProofPasses, Proves;
    if a.proof.Some? {
      ProofHasKey(d, a.proof.value, p.state.now);
      ProofsPassExactly(d, a.proof.value, p.state.now);
    }
  }

  lemma ProofHasKey(d: Front, proof: Token, now: int)
    ensures ProofPasses(d, proof, now) ==> proof.jwk.Some? && Thumb(d, proof.jwk) != []
  {
    if proof.jwk.Some? {
      var k := proof.jwk.value;
      EncodedDigestLength(d.cfg.sha, Jwk.ThumbprintInput(Jwk.TextOf(k, "x"), Jwk.TextOf(k, "y")));
    }
  }

  lemma WalletIsAttested(d: Front, p: Point, a: Arrival, jkt: GoString)
    requires a.attestation.Some? && LooksAtWallet(a.work) && KeyOf(d, p, a).Some?
    requires CheckWallet(WalletOf(d, p, a), jkt).Known?
    ensures jkt != [] && Passed(d, p, PopGate, PopRequest(d, p, a)) && Attests(d, a.attestation.value, p.state.now)
    ensures CheckWallet(WalletOf(d, p, a), jkt).clientID == a.attestation.value.wia.value.claims.sub
    ensures d.attest.value.requireKeyBinding ==> jkt == Thumb(d, a.attestation.value.wia.value.claims.cnf)
  {
    hide KeyOf, Thumb, PopPasses, Attests;
    HeadersPassExactly(d, a.attestation.value, p.state.now);
  }

  /** What the handlers were given by the request of a grant. */
  predicate Rests(cfg: Config, op: Op, g: Grant) {
    match op
    case Code(r) =>
      g.jkt == r.jkt && Authenticate(cfg, r.client, r.jkt).Known?
        && g.clientID == Authenticate(cfg, r.client, r.jkt).clientID
    case PreAuth(r) =>
      g.jkt == r.jkt && (r.wallet.Some? ==> CheckWallet(r.wallet.value, r.jkt).Known?)
        && (cfg.requireAttestationPreauth ==> r.wallet.Some?)
    case Refresh(r) => g.jkt == r.jkt
    case _ => false
  }

  lemma GrantRests(cfg: Config, s: State, op: Op, i: nat)
    requires |s.log| <= i < |Apply(cfg, s, op).log| && IsGrant(Apply(cfg, s, op).log[i])
    ensures Rests(cfg, op, Apply(cfg, s, op).log[i].grant) && i == |Apply(cfg, s, op).log| - 1
  {
    hide EarlyRefusal, NeedsDPoP, Authenticate, RedeemCode, RedeemPreAuth, RedeemRefresh, ParametersValid;
    if Apply(cfg, s, op).log[i].CodeRedeemed? {
      Backing.GrantIsMadeSo(cfg, s, op, i);
      if op.PreAuth? {
        WalletWasChecked(cfg, s, op.preAuth);
      }
    } else {
      OnlyRefreshesRefresh(cfg, s, op, i);
    }
  }

  lemma WalletWasChecked(cfg: Config, s: State, r: PreAuthRequest)
    requires EarlyPreAuthRefusal(cfg, s.codes, s.now, r).None?
    ensures r.wallet.Some? ==> CheckWallet(r.wallet.value, r.jkt).Known?
    ensures cfg.requireAttestationPreauth ==> r.wallet.Some?
  {
    hide ItemAt, CheckWallet;
  }

  lemma OnlyRefreshesRefresh(cfg: Config, s: State, op: Op, i: nat)
    requires |s.log| <= i < |Apply(cfg, s, op).log| && Apply(cfg, s, op).log[i].Refreshed?
    ensures op.Refresh? && Apply(cfg, s, op).log[i].grant.jkt == op.refresh.jkt && i == |Apply(cfg, s, op).log| - 1
  {
    hide RedeemCode, RedeemPreAuth, RedeemRefresh, ParametersValid, CallbackItem, OfferItem, ItemAt, OriginAt;
    match op
    case Code(r) => SharedMaps.RedeemCodeFields(cfg, s, r);
    case PreAuth(r) => PreAuthNeverRefreshes(cfg, s, r, i);
    case Refresh(r) => RefreshEffect(cfg, s, r);
    case _ =>
  }

  lemma PreAuthNeverRefreshes(cfg: Config, s: State, r: PreAuthRequest, i: nat)
    requires |s.log| <= i < |RedeemPreAuth(cfg, s, r).0.log|
    ensures !RedeemPreAuth(cfg, s, r).0.log[i].Refreshed?
  {
    hide EarlyPreAuthRefusal, TxCodeRefused, NeedsDPoP, FinishPreAuth, RedeemPreAuth;
    var item := ItemAt(s.codes, r.code, s.now, None);
    Backing.PreAuthRuns(cfg, s, r);
    SharedMaps.FinishPreAuthFields(cfg, if item.noTXCode then s else AfterTxCode(s, r), r, item);
  }

  lemma GrantCameWith(d: Front, p: Point, a: Arrival, i: nat)
    requires Arrives(d, p, a) && |p.state.log| <= i < |Enter(d, p, a).state.log| && IsGrant(Enter(d, p, a).state.log[i])
    ensures CameWith(d, p, a, Enter(d, p, a).state.log[i].grant) && i == |Enter(d, p, a).state.log| - 1
  {
    hide Enter, Apply, KeyOf, WalletOf, Passed, PopPasses, ProofPasses, CheckWallet, Thumb, Attests, Proves;
    EnterActs(d, p, a);
    GrantRests(d.cfg, p.state, Admitted(d, p, a).value, i);
    KeyIsProved(d, p, a);
    if a.attestation.Some? && LooksAtWallet(a.work) {
      WalletIsAttested(d, p, a, KeyOf(d, p, a).value);
    }
  }

  /**
    Over whole runs of the endpoint, section 5 of RFC 9449: every token response was made for one call, the one
    response of that call. It is bound to a key exactly if the call carried a DPoP proof, and then that proof passed
    its checks at that time and was made with that key; and a wallet's response came with an attestation in force and
    a proof signed by the attested key.
   */
  lemma {:induction false} TokensCameWithTheirProofs(d: Front, calls: seq<Arrival>, i: nat) returns (t: nat)
    requires Served(d, calls) && i < |After(d, calls).state.log| && IsGrant(After(d, calls).state.log[i])
    ensures Made(d, calls, t, i) && CameWith(d, After(d, calls[..t]), calls[t], After(d, calls).state.log[i].grant)
    ensures i == |After(d, calls[..t + 1]).state.log| - 1
  {
    hide Served, After, Enter, Arrives, CameWith;
    assert calls[..|calls|] == calls;
    t := EveryEventIsMade(d, calls, i, |calls|);
    MadeCameWith(d, calls, t, i);
  }

  lemma MadeCameWith(d: Front, calls: seq<Arrival>, t: nat, i: nat)
    requires Served(d, calls) && Made(d, calls, t, i)
    ensures i < |After(d, calls).state.log|
    ensures var e := After(d, calls).state.log[i];
            IsGrant(e) ==>
              CameWith(d, After(d, calls[..t]), calls[t], e.grant) && i == |After(d, calls[..t + 1]).state.log| - 1
  {
    hide Served, After, Enter, Arrives, CameWith;
    ServedPrefix(d, calls, t);
    NextPoint(d, calls, t);
    LogsGrow(d, calls, t + 1);
    if IsGrant(After(d, calls).state.log[i]) {
      GrantCameWith(d, After(d, calls[..t]), calls[t], i);
    }
  }

  /** The wallet a handler is told of: what a configured verifier made of these headers. */
  predicate ToldOfWallet(d: Front, p: Point, a: Arrival, w: Wallet)
    requires a.attestation.Some?
  {
    && w.configured == d.attest.Some? && (d.attest.Some? ==> w.requireKeyBinding == d.attest.value.requireKeyBinding)
    && (w.result.Some? <==> Passed(d, p, PopGate, PopRequest(d, p, a)))
    && (w.result.Some? ==>
          && Attests(d, a.attestation.value, p.state.now)
          && w.result.value.clientID == a.attestation.value.wia.value.claims.sub
          && w.result.value.cnfJKT == Thumb(d, a.attestation.value.wia.value.claims.cnf))
  }

  /**
    Which token requests reach their handler, and as what. Exactly those without a DPoP proof, and those whose proof
    is made and fresh, and is not known to the cache of identifiers or the cache cannot be read, and is recorded there
    if it was read. The handler gets the request as it came, with the proved key, or none, and with the wallet that
    the attestation headers prove, where there are any.
   */
  lemma {:induction false} RequestsAreHandedOn(d: Front, calls: seq<Arrival>, a: Arrival)
    requires a.work.Handle? && IsRedemption(a.work.op)
    ensures var p := After(d, calls);
            var f := a.proofFaults;
            Admitted(d, p, a).Some? <==>
              a.proof.None?
              || (Proves(d, a.proof.value, p.state.now) && (f.getFails || !f.setFails)
                  && (f.getFails
                      || !RecentlyLeft(d, calls, ProofGate, a.proof.value.claims.jti, p.state.now)))
    ensures var p := After(d, calls);
            var jkt := if a.proof.Some? then Thumb(d, a.proof.value.jwk) else [];
            match Admitted(d, p, a)
            case None => true
            case Some(Code(r)) =>
              && a.work.op.Code? && r == a.work.op.code.(jkt := jkt, client := r.client)
              && (if a.attestation.None? then r.client == a.work.op.code.client
                  else r.client.ByWallet? && ToldOfWallet(d, p, a, r.client.wallet))
            case Some(PreAuth(r)) =>
              && a.work.op.PreAuth? && r == a.work.op.preAuth.(jkt := jkt, wallet := r.wallet)
              && (r.wallet.Some? <==> a.attestation.Some?)
              && (r.wallet.Some? ==> ToldOfWallet(d, p, a, r.wallet.value))
            case Some(Refresh(r)) => a.work.op.Refresh? && r == a.work.op.refresh.(jkt := jkt)
            case Some(_) => false
  {
    hide After, Proves, ProofPasses, RecentlyLeft, ToldOfWallet, WalletOf, Thumb, Passed;
    var p := After(d, calls);
    if a.proof.Some? {
      ProofsPassExactly(d, a.proof.value, p.state.now);
      PassesExactly(d, calls, a, ProofGate);
    }
    if a.attestation.Some? && LooksAtWallet(a.work) && Admitted(d, p, a).Some? {
      WalletIsTold(d, p, a);
    }
  }

  lemma WalletIsTold(d: Front, p: Point, a: Arrival)
    requires a.attestation.Some?
    ensures ToldOfWallet(d, p, a, WalletOf(d, p, a))
  {
    hide KeyOf, Thumb, PopPasses, Attests;
    HeadersPassExactly(d, a.attestation.value, p.state.now);
    AttestsBoth(d, a.attestation.value, p.state.now);
  }

  lemma AttestsBoth(d: Front, h: Headers, now: int)
    ensures Attests(d, h, now) ==> d.attest.Some? && h.wia.Some? && h.pop.Some?
  {
    hide Attestation.WellAttested, Attestation.InForce;
  }

  /**
    A push is taken as a client's exactly if its attestation headers are accepted by this server at that time, the
    proof signed by the attested key, and its identifier passes; the client is the one the attestation names.
   */
  lemma {:induction false} PushesAreAttested(d: Front, calls: seq<Arrival>, a: Arrival)
    requires a.work.Push?
    ensures var p := After(d, calls);
            && (AttestedClient(d, p, a).Some? <==>
                  && a.attestation.Some? && Attests(d, a.attestation.value, p.state.now)
                  && (a.popFaults.getFails
                      || !RecentlyLeft(d, calls, PopGate, a.attestation.value.pop.value.claims.jti, p.state.now)))
            && (AttestedClient(d, p, a).Some? ==>
                  AttestedClient(d, p, a).value == a.attestation.value.wia.value.claims.sub)
  {
    hide After, Attestation.WellAttested, Attestation.InForce, PopPasses, RecentlyLeft;
    var p := After(d, calls);
    if a.attestation.Some? {
      HeadersPassExactly(d, a.attestation.value, p.state.now);
      if d.attest.Some? {
        PassesExactly(d, calls, a, PopGate);
      }
    }
  }

  lemma PrefixOfPrefix<T>(calls: seq<T>, t: nat, n: nat)
    requires n <= t <= |calls|
    ensures calls[..t][..n] == calls[..n]
  {
  }

  lemma LaterEventsLaterCalls(d: Front, calls: seq<Arrival>, t1: nat, t2: nat, i: nat, j: nat)
    requires Served(d, calls) && Made(d, calls, t1, i) && Made(d, calls, t2, j) && i < j
    ensures t1 <= t2
  {
    hide Served, After;
    if t2 < t1 {
      ServedPrefix(d, calls, t1);
      LogsGrow(d, calls[..t1], t2 + 1);
      PrefixOfPrefix(calls, t1, t2 + 1);
    }
  }

  /** The instant of a call. */
  function When(d: Front, calls: seq<Arrival>, t: nat): int
    requires t <= |calls|
  {
    After(d, calls[..t]).state.now
  }

  /** The call passed the gate. */
  predicate Through(d: Front, calls: seq<Arrival>, g: Gate, t: nat) {
    t < |calls| && Passed(d, After(d, calls[..t]), g, RequestAt(d, After(d, calls[..t]), calls[t], g))
  }

  /**
    A DPoP proof serves two calls of any kind, all grants and client credentials included, only a cache lifetime
    apart, if the two calls' own reads work: what else fails does not matter. With twice the window below that
    lifetime it serves one.
   */
  lemma {:induction false} ProofServesOnce(d: Front, calls: seq<Arrival>, t1: nat, t2: nat)
    requires t1 < t2 && Through(d, calls, ProofGate, t1) && Through(d, calls, ProofGate, t2)
    requires !calls[t1].proofFaults.getFails && !calls[t2].proofFaults.getFails && calls[t1].proof == calls[t2].proof
    ensures When(d, calls, t1) + d.proofTTL <= When(d, calls, t2)
    ensures d.proofTTL <= 2 * d.window
  {
    hide After;
    PassesAreApart(d, calls, ProofGate, t1, t2);
  }

  /**
    A wallet's proof of possession serves two calls, token requests or pushes, only a cache lifetime apart, if the
    first call's read and write and the second's read work. Without exp it serves one if twice the window is below
    that lifetime; with exp, if exp and leeway run out no later than the entry of its first use.
   */
  lemma {:induction false} PopServesOnce(d: Front, calls: seq<Arrival>, t1: nat, t2: nat)
    requires t1 < t2 && Through(d, calls, PopGate, t1) && Through(d, calls, PopGate, t2)
    requires !calls[t1].popFaults.getFails && !calls[t1].popFaults.setFails && !calls[t2].popFaults.getFails
    requires calls[t1].attestation.Some? && calls[t2].attestation.Some?
             && calls[t1].attestation.value.pop == calls[t2].attestation.value.pop
    ensures When(d, calls, t1) + d.popTTL <= When(d, calls, t2)
    ensures d.attest.Some? && calls[t1].attestation.value.pop.Some?
    ensures var c, w := calls[t1].attestation.value.pop.value.claims, d.attest.value.window;
            if c.exp.None? then d.popTTL <= 2 * w else When(d, calls, t1) + d.popTTL < c.exp.value + w
  {
    hide After, KeyOf;
    PassesAreApart(d, calls, PopGate, t1, t2);
  }

  /** The calls of two grants, in order, each through the gates its grant says. */
  lemma GrantsWentThrough(d: Front, calls: seq<Arrival>, t1: nat, t2: nat, i: nat, j: nat)
    requires Served(d, calls) && i < j < |After(d, calls).state.log|
    requires Made(d, calls, t1, i) && Made(d, calls, t2, j)
    requires IsGrant(After(d, calls).state.log[i]) && IsGrant(After(d, calls).state.log[j])
    ensures t1 < t2
    ensures CameWith(d, After(d, calls[..t1]), calls[t1], After(d, calls).state.log[i].grant)
    ensures CameWith(d, After(d, calls[..t2]), calls[t2], After(d, calls).state.log[j].grant)
  {
    hide Served, After, CameWith;
    LaterEventsLaterCalls(d, calls, t1, t2, i, j);
    MadeCameWith(d, calls, t1, i);
    MadeCameWith(d, calls, t2, j);
  }

  /**
    A DPoP proof backs one token response, section 11.1 of RFC 9449: the calls of two key-bound responses whose own
    reads of the identifier cache work carried different proofs, or came a cache lifetime apart, which twice the
    window below that lifetime rules out. Whichever grants they are and whatever else fails.
   */
  lemma {:induction false} NoProofBacksTwoTokens(d: Front, calls: seq<Arrival>, t1: nat, t2: nat, i: nat, j: nat)
    requires Served(d, calls) && i < j < |After(d, calls).state.log|
    requires Made(d, calls, t1, i) && Made(d, calls, t2, j)
    requires var e1, e2 := After(d, calls).state.log[i], After(d, calls).state.log[j];
             IsGrant(e1) && IsGrant(e2) && e1.grant.jkt != [] && e2.grant.jkt != []
    requires !calls[t1].proofFaults.getFails && !calls[t2].proofFaults.getFails
    ensures t1 < t2 && calls[t1].proof.Some? && calls[t2].proof.Some?
    ensures calls[t1].proof == calls[t2].proof ==>
              When(d, calls, t1) + d.proofTTL <= When(d, calls, t2) && d.proofTTL <= 2 * d.window
  {
    hide Served, After, Passed;
    GrantsWentThrough(d, calls, t1, t2, i, j);
    if calls[t1].proof == calls[t2].proof {
      ProofServesOnce(d, calls, t1, t2);
    }
  }

  /** Likewise a wallet's proof of possession. */
  lemma {:induction false} NoPopBacksTwoTokens(d: Front, calls: seq<Arrival>, t1: nat, t2: nat, i: nat, j: nat)
    requires Served(d, calls) && i < j < |After(d, calls).state.log|
    requires Made(d, calls, t1, i) && Made(d, calls, t2, j)
    requires IsGrant(After(d, calls).state.log[i]) && IsGrant(After(d, calls).state.log[j])
    requires calls[t1].attestation.Some? && LooksAtWallet(calls[t1].work)
             && calls[t2].attestation.Some? && LooksAtWallet(calls[t2].work)
    requires !calls[t1].popFaults.getFails && !calls[t1].popFaults.setFails && !calls[t2].popFaults.getFails
    ensures t1 < t2 && d.attest.Some? && calls[t1].attestation.value.pop.Some?
    ensures var c, w := calls[t1].attestation.value.pop.value.claims, d.attest.value.window;
            calls[t1].attestation.value.pop == calls[t2].attestation.value.pop ==>
              && When(d, calls, t1) + d.popTTL <= When(d, calls, t2)
              && if c.exp.None? then d.popTTL <= 2 * w else When(d, calls, t1) + d.popTTL < c.exp.value + w
  {
    hide Served, After, Passed;
    GrantsWentThrough(d, calls, t1, t2, i, j);
    if calls[t1].attestation.value.pop == calls[t2].attestation.value.pop {
      PopServesOnce(d, calls, t1, t2);
    }
  }
}
