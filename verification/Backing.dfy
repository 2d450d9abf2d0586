/**
  What each grant on a code rests on, whatever fails: which request made it, which item backs it, with
  which proof, and when its item can back another. Codes are numbered by the event that stored them.
 */
module Backing {
  import opened GoStrings
  import opened Digests
  import opened Items
  import opened TtlCache
  import opened Grants
  import opened Lifecycle
  import opened Invariants
  import opened SingleUse
  import opened SharedMaps
  import opened GrantRules
  import opened SampleRuns

  // --- which operation made an event ------------------------------------------------

  function At(cfg: Config, ops: seq<Op>, t: nat): State
    requires t <= |ops|
  {
    Exec(cfg, ops[..t])
  }

  /** The t-th operation put the i-th event on record. */
  predicate MadeBy(cfg: Config, ops: seq<Op>, t: nat, i: nat) {
    t < |ops| && |At(cfg, ops, t).log| <= i < |At(cfg, ops, t + 1).log|
  }

  lemma NextPoint(cfg: Config, ops: seq<Op>, t: nat)
    requires Run(cfg, ops) && t < |ops|
    ensures At(cfg, ops, t + 1) == Apply(cfg, At(cfg, ops, t), ops[t])
    ensures Enabled(cfg, At(cfg, ops, t), ops[t]) && Inv(cfg, At(cfg, ops, t))
    ensures At(cfg, ops, t).log <= At(cfg, ops, t + 1).log
  {
    hide Inv, Apply, Enabled;
    assert ops[..t + 1][..t] == ops[..t];
    assert forall i :: 0 <= i < t ==> ops[..t][..i] == ops[..i];
    RunInv(cfg, ops[..t]);
    LogGrows(cfg, At(cfg, ops, t), ops[t]);
  }

  lemma LogGrows(cfg: Config, s: State, op: Op)
    requires Enabled(cfg, s, op)
    ensures s.log <= Apply(cfg, s, op).log
  {
    hide Enabled, Apply;
    var mid := StepShape(cfg, s, op);
    MicroGrows(cfg, s, mid);
    MicroGrows(cfg, mid, Apply(cfg, s, op));
  }

  lemma MicroGrows(cfg: Config, s: State, s': State)
    requires Micro(cfg, s, s')
    ensures s.log <= s'.log && |s'.log| <= |s.log| + 1
  {
    CodesView(cfg, s, s');
  }

  lemma {:induction false} LogsGrow(cfg: Config, ops: seq<Op>, t: nat)
    requires Run(cfg, ops) && t <= |ops|
    ensures At(cfg, ops, t).log <= Exec(cfg, ops).log
    decreases |ops| - t
  {
    hide Run, Exec;
    if t == |ops| {
      assert ops[..t] == ops;
    } else {
      NextPoint(cfg, ops, t);
      LogsGrow(cfg, ops, t + 1);
    }
  }

  lemma AtStart(cfg: Config, ops: seq<Op>)
    ensures At(cfg, ops, 0) == INITIAL
  {
    assert ops[..0] == [];
  }

  lemma {:induction false} EveryEventIsMade(cfg: Config, ops: seq<Op>, i: nat, n: nat) returns (t: nat)
    requires Run(cfg, ops) && n <= |ops| && i < |At(cfg, ops, n).log|
    ensures t < n && MadeBy(cfg, ops, t, i) && At(cfg, ops, t + 1).log[i] == At(cfg, ops, n).log[i]
    decreases n
  {
    hide Run, Exec;
    AtStart(cfg, ops);
    if n == 0 {
      assert false;
    } else {
      NextPoint(cfg, ops, n - 1);
      if i < |At(cfg, ops, n - 1).log| {
        t := EveryEventIsMade(cfg, ops, i, n - 1);
      } else {
        t := n - 1;
      }
    }
  }

  // --- what a granting operation does --------------------------------------------------

  /** The new event e of this operation is a grant on a code, made so. */
  predicate GrantsOnCode(cfg: Config, s: State, op: Op, e: Event)
    requires e.CodeRedeemed?
  {
    if e.preAuth then
      && op.PreAuth? && e.code == OriginAt(s.codes, op.preAuth.code, s.now) && e.code.Some?
      && EarlyPreAuthRefusal(cfg, s.codes, s.now, op.preAuth).None? && !NeedsDPoP(cfg, op.preAuth)
      && e.grant.jkt == op.preAuth.jkt
      && Apply(cfg, s, op).codes == if op.preAuth.faults.delete then s.codes else s.codes - {op.preAuth.code}
    else
      && op.Code? && e.code == OriginAt(s.codes, op.code.code, s.now)
      && EarlyRefusal(cfg, s.codes, s.now, op.code).None?
      && e.grant.jkt == op.code.jkt && Authenticate(cfg, op.code.client, op.code.jkt).Known?
      && e.grant.clientID == Authenticate(cfg, op.code.client, op.code.jkt).clientID
      && e.grant.scope == ItemAt(s.codes, op.code.code, s.now, None).scope
      && e.grant.subject == ItemAt(s.codes, op.code.code, s.now, None).session.subject
      && Apply(cfg, s, op).codes == s.codes - {op.code.code}
  }

  lemma GrantIsMadeSo(cfg: Config, s: State, op: Op, i: nat)
    requires |s.log| <= i < |Apply(cfg, s, op).log| && Apply(cfg, s, op).log[i].CodeRedeemed?
    ensures GrantsOnCode(cfg, s, op, Apply(cfg, s, op).log[i]) && i == |Apply(cfg, s, op).log| - 1
  {
    hide RedeemCode, RedeemPreAuth, RedeemRefresh, ParametersValid, CallbackItem, OfferItem, CodeRefusal, Authenticate,
         ItemAt, OriginAt;
    match op
    case Code(r) => RedeemCodeFields(cfg, s, r);
    case PreAuth(r) => PreAuthIsMadeSo(cfg, s, r, i);
    case Refresh(r) => RefreshEffect(cfg, s, r);
    case _ =>
  }

  lemma PreAuthIsMadeSo(cfg: Config, s: State, r: PreAuthRequest, i: nat)
    requires |s.log| <= i < |RedeemPreAuth(cfg, s, r).0.log| && RedeemPreAuth(cfg, s, r).0.log[i].CodeRedeemed?
    ensures GrantsOnCode(cfg, s, PreAuth(r), RedeemPreAuth(cfg, s, r).0.log[i])
            && i == |RedeemPreAuth(cfg, s, r).0.log| - 1
  {
    hide EarlyPreAuthRefusal, TxCodeRefused, NeedsDPoP, FinishPreAuth, RedeemPreAuth;
    var item := ItemAt(s.codes, r.code, s.now, None);
    var t := if item.noTXCode then s else AfterTxCode(s, r);
    PreAuthRuns(cfg, s, r);
    FinishPreAuthFields(cfg, t, r, item);
  }

  /** HandlePreAuthorized: refused with at most a tx_code used up, or finished on a cached item. */
  lemma PreAuthRuns(cfg: Config, s: State, r: PreAuthRequest)
    ensures var item := ItemAt(s.codes, r.code, s.now, None);
            var t := if item.noTXCode then s else AfterTxCode(s, r);
            if EarlyPreAuthRefusal(cfg, s.codes, s.now, r).Some? || TxCodeRefused(s, r) then
              RedeemPreAuth(cfg, s, r).0 == s && RedeemPreAuth(cfg, s, r).1.Denied?
            else RedeemPreAuth(cfg, s, r) == FinishPreAuth(cfg, t, r, item) && Lookup(s.codes, r.code, s.now).Some?
  {
    hide TxCodeRefused, FinishPreAuth, AfterTxCode, CheckWallet;
  }

  // --- an item and the grants on it ------------------------------------------------------

  predicate Cached(s: State, o: nat) {
    exists k :: k in s.codes && s.codes[k].origin == o
  }

  /** The item was stored and is cached no more. */
  predicate Gone(s: State, o: nat) {
    o < |s.log| && !Cached(s, o)
  }

  lemma MicroGone(cfg: Config, s: State, s': State, o: nat)
    requires Micro(cfg, s, s') && Gone(s, o)
    ensures Gone(s', o) && (|s'.log| > |s.log| ==> !GrantOn(s'.log[|s.log|], o))
  {
    CodesView(cfg, s, s');
  }

  lemma StepGone(cfg: Config, s: State, op: Op, o: nat)
    requires Enabled(cfg, s, op) && Gone(s, o)
    ensures var s' := Apply(cfg, s, op);
            Gone(s', o) && forall i :: |s.log| <= i < |s'.log| ==> !GrantOn(s'.log[i], o)
  {
    hide Enabled, Apply, Micro, Cached, GrantOn;
    var mid := StepShape(cfg, s, op);
    var s' := Apply(cfg, s, op);
    MicroGrows(cfg, s, mid);
    MicroGrows(cfg, mid, s');
    MicroGone(cfg, s, mid, o);
    MicroGone(cfg, mid, s', o);
  }

  /** What is gone backs nothing any more. */
  lemma {:induction false} GoneForGood(cfg: Config, ops: seq<Op>, n: nat, o: nat, m: nat)
    requires Run(cfg, ops) && n <= m <= |ops| && Gone(At(cfg, ops, n), o)
    ensures Gone(At(cfg, ops, m), o)
    ensures forall j :: |At(cfg, ops, n).log| <= j < |At(cfg, ops, m).log| ==> !GrantOn(At(cfg, ops, m).log[j], o)
    decreases m - n
  {
    hide Run, Exec, Enabled, Apply, Inv, Gone, GrantOn;
    if n < m {
      GoneForGood(cfg, ops, n, o, m - 1);
      NextPoint(cfg, ops, m - 1);
      StepGone(cfg, At(cfg, ops, m - 1), ops[m - 1], o);
    }
  }

  /**
    When an item survives the grant made on it: exactly if that grant was a pre-authorized one and its
    own deletion failed.
   */
  lemma {:induction false} ItemSurvivesExactly(cfg: Config, s: State, op: Op, i: nat, o: nat)
    requires Inv(cfg, s)
    requires |s.log| <= i < |Apply(cfg, s, op).log| && GrantOn(Apply(cfg, s, op).log[i], o)
    ensures Cached(Apply(cfg, s, op), o) <==> op.PreAuth? && op.preAuth.faults.delete
    ensures op.Code? || op.PreAuth?
    ensures op.Code? <==> !Apply(cfg, s, op).log[i].preAuth
    ensures i == |Apply(cfg, s, op).log| - 1
  {
    hide Apply, EarlyRefusal, RedemptionsLogged, FamiliesLogged, StatesLogged, StatesCounted, SessionsBound;
    GrantIsMadeSo(cfg, s, op, i);
  }

  /** The grant is a pre-authorized one whose own deletion failed. */
  predicate LeftItsItem(cfg: Config, ops: seq<Op>, i: nat) {
    exists t :: 0 <= t < |ops| && MadeBy(cfg, ops, t, i) && ops[t].PreAuth? && ops[t].preAuth.faults.delete
  }

  /**
    Single use, item by item, in every run, whatever fails anywhere: if an item backs two grants, the
    operation that made the earlier one was a pre-authorized request whose own deletion failed.
   */
  lemma {:induction false} SecondGrantNeedsAFailedDeletion(cfg: Config, ops: seq<Op>, i: nat, j: nat, o: nat)
    requires Run(cfg, ops) && i < j < |Exec(cfg, ops).log|
    requires GrantOn(Exec(cfg, ops).log[i], o) && GrantOn(Exec(cfg, ops).log[j], o)
    ensures LeftItsItem(cfg, ops, i)
  {
    hide Run, Exec, Enabled, Apply, Inv, Cached, StoredItem;
    assert ops[..|ops|] == ops;
    var t := EveryEventIsMade(cfg, ops, i, |ops|);
    NextPoint(cfg, ops, t);
    GrantComesAfterItem(cfg, ops, i, o);
    ItemSurvivesExactly(cfg, At(cfg, ops, t), ops[t], i, o);
    if !(ops[t].PreAuth? && ops[t].preAuth.faults.delete) {
      GoneForGood(cfg, ops, t + 1, o, |ops|);
    }
  }

  lemma GrantComesAfterItem(cfg: Config, ops: seq<Op>, i: nat, o: nat)
    requires Run(cfg, ops) && i < |Exec(cfg, ops).log| && GrantOn(Exec(cfg, ops).log[i], o)
    ensures o < i && StoredItem(Exec(cfg, ops).log[o]).Some?
  {
    hide Run, Exec;
    RunInv(cfg, ops);
    assert RedemptionLogged(Exec(cfg, ops).log, i);
  }

  /** In particular an authorization_code grant is always the last grant on its item, whatever fails. */
  lemma {:induction false} CodeGrantIsLast(cfg: Config, ops: seq<Op>, i: nat, j: nat, o: nat)
    requires Run(cfg, ops) && i < j < |Exec(cfg, ops).log|
    requires GrantOn(Exec(cfg, ops).log[i], o) && GrantOn(Exec(cfg, ops).log[j], o)
    ensures Exec(cfg, ops).log[i].preAuth
  {
    hide Run, Exec, Enabled, Apply, Inv, Cached, StoredItem;
    assert ops[..|ops|] == ops;
    SecondGrantNeedsAFailedDeletion(cfg, ops, i, j, o);
    var t :| 0 <= t < |ops| && MadeBy(cfg, ops, t, i) && ops[t].PreAuth? && ops[t].preAuth.faults.delete;
    NextPoint(cfg, ops, t);
    LogsGrow(cfg, ops, t + 1);
    ItemSurvivesExactly(cfg, At(cfg, ops, t), ops[t], i, o);
  }

  // --- the proof that came with a grant ---------------------------------------------------

  /**
    The request that made an authorization_code grant on a stored item, over whole runs: it carried a verifier for
    that item's challenge, short of a collision the only one (section 4.6 of RFC 7636), and that item's redirect URI
    (section 4.1.3 of RFC 6749).
   */
  lemma {:induction false} CodeGrantsCameWithTheVerifier(cfg: Config, ops: seq<Op>, i: nat, o: nat) returns (t: nat)
    requires Run(cfg, ops) && i < |Exec(cfg, ops).log|
    requires GrantOn(Exec(cfg, ops).log[i], o) && !Exec(cfg, ops).log[i].preAuth
    ensures MadeBy(cfg, ops, t, i) && ops[t].Code? && o < i && StoredItem(Exec(cfg, ops).log[o]).Some?
    ensures var item, v := StoredItem(Exec(cfg, ops).log[o]).value, ops[t].code.verifier;
            && Answers(cfg.sha, item, v) && ops[t].code.redirectURI == item.redirectURI && ops[t].code.code == item.code
            && forall v0 :: (item.codeChallengeMethod == S256 && item.codeChallenge == EncodedDigest(cfg.sha, v0)
                             && NoCollision(cfg.sha, v0, v)) ==> v == v0
  {
    hide Run, Exec, Enabled, Apply, EarlyRefusal, StoredItem, ProvesClient, RedemptionsLogged, FamiliesLogged,
         StatesLogged, StatesCounted, SessionsBound;
    assert ops[..|ops|] == ops;
    t := EveryEventIsMade(cfg, ops, i, |ops|);
    NextPoint(cfg, ops, t);
    LogsGrow(cfg, ops, t);
    var s := At(cfg, ops, t);
    GrantComesAfterItem(cfg, ops, i, o);
    GrantIsMadeSo(cfg, s, ops[t], i);
    PassesExactly(cfg, s.codes, s.now, ops[t].code);
    var item, v := StoredItem(Exec(cfg, ops).log[o]).value, ops[t].code.verifier;
    forall v0 | item.codeChallengeMethod == S256 && item.codeChallenge == EncodedDigest(cfg.sha, v0)
      && NoCollision(cfg.sha, v0, v)
      ensures v == v0
    {
      OnlyTheVerifierOpens(cfg.sha, item, v0, v);
    }
  }

  /**
    Client authentication over whole runs, section 5 of RFC 9449: every authorization_code grant went to
    a client that proved who it is; a wallet's grant, and one of a client that has to use DPoP, is bound to
    a key, with key binding to the attested key; and a wallet's code was issued to that wallet's client.
   */
  lemma {:induction false} CodeGrantsAreAuthenticated(cfg: Config, ops: seq<Op>, i: nat) returns (t: nat)
    requires Run(cfg, ops) && i < |Exec(cfg, ops).log|
    requires Exec(cfg, ops).log[i].CodeRedeemed? && !Exec(cfg, ops).log[i].preAuth
    ensures var e, log := Exec(cfg, ops).log[i], Exec(cfg, ops).log;
            && MadeBy(cfg, ops, t, i) && ops[t].Code? && ProvesClient(cfg, ops[t].code.client, e.grant.jkt)
            && e.grant.clientID == ProvenClient(ops[t].code.client)
            && (ops[t].code.client.ByWallet? && e.code.Some? ==>
                  && e.code.value < i && StoredItem(log[e.code.value]).Some?
                  && StoredItem(log[e.code.value]).value.clientID == e.grant.clientID)
  {
    hide Run, Exec, Enabled, Apply, EarlyRefusal, StoredItem, Authenticate, ProvesClient, Answers, RedemptionsLogged,
         FamiliesLogged, StatesLogged, StatesCounted, SessionsBound;
    assert ops[..|ops|] == ops;
    t := EveryEventIsMade(cfg, ops, i, |ops|);
    NextPoint(cfg, ops, t);
    LogsGrow(cfg, ops, t);
    var s, e := At(cfg, ops, t), Exec(cfg, ops).log[i];
    if e.code.Some? {
      GrantComesAfterItem(cfg, ops, i, e.code.value);
    }
    GrantIsMadeSo(cfg, s, ops[t], i);
    PassesExactly(cfg, s.codes, s.now, ops[t].code);
  }

  /**
    The pre-authorized grant likewise: with attestation required every grant came with a verified one, and
    a grant to an attested wallet is bound to a key, with key binding to the attested key.
   */
  lemma {:induction false} PreAuthGrantsAreAttested(cfg: Config, ops: seq<Op>, i: nat) returns (t: nat)
    requires Run(cfg, ops) && i < |Exec(cfg, ops).log|
    requires Exec(cfg, ops).log[i].CodeRedeemed? && Exec(cfg, ops).log[i].preAuth
    ensures MadeBy(cfg, ops, t, i) && ops[t].PreAuth?
    ensures var wallet, g := ops[t].preAuth.wallet, Exec(cfg, ops).log[i].grant;
            && (cfg.requireAttestationPreauth ==> wallet.Some?)
            && (wallet.Some? ==>
                  && wallet.value.configured && wallet.value.result.Some? && g.jkt != []
                  && (wallet.value.requireKeyBinding ==> g.jkt == wallet.value.result.value.cnfJKT))
  {
    hide Run, Exec, Enabled, Apply, EarlyPreAuthRefusal, NeedsDPoP, Inv;
    assert ops[..|ops|] == ops;
    t := EveryEventIsMade(cfg, ops, i, |ops|);
    NextPoint(cfg, ops, t);
    GrantIsMadeSo(cfg, At(cfg, ops, t), ops[t], i);
    WalletWasChecked(cfg, At(cfg, ops, t), ops[t].preAuth);
  }

  lemma WalletWasChecked(cfg: Config, s: State, r: PreAuthRequest)
    requires EarlyPreAuthRefusal(cfg, s.codes, s.now, r).None?
    ensures cfg.requireAttestationPreauth ==> r.wallet.Some?
    ensures r.wallet.Some? ==>
              && r.wallet.value.configured && r.wallet.value.result.Some? && r.jkt != []
              && (r.wallet.value.requireKeyBinding ==> r.jkt == r.wallet.value.result.value.cnfJKT)
  {
    hide ItemAt;
  }

  /**
    So the verifier that protects a callback's code is not asked for: for every configuration that accepts
    some authorize request there is a run in which a wallet without it is granted the code for a zero.
   */
  lemma {:induction false} VerifierIsNotAskedFor(cfg: Config, a: AuthorizeRequest) returns (ops: seq<Op>)
    requires ValidConfig(cfg) && Acts(cfg, INITIAL, Authorize(a))
    ensures |ops| == 3 && Run(cfg, ops) && ops[0] == Authorize(a) && ops[1] == Callback(SampleReturn(a))
            && ops[2] == PreAuth(WalletRequest("k", "t", false))
    ensures var s, log := At(cfg, ops, 2), Exec(cfg, ops).log;
            && RedeemPreAuth(cfg, s, ops[2].preAuth).1.Issued?
            && |log| == 4 && log[1].CodeStored? && log[1].item.codeChallengeMethod == S256 && GrantOn(log[3], 1)
  {
    hide SampleState, Acts, RedeemPreAuth;
    ops := ReturnRun(cfg, a);
    var s, r := Exec(cfg, ops), WalletRequest("k", "t", false);
    WalletIsGranted(cfg, a, s, r);
    RunExtends(cfg, ops, PreAuth(r));
    ops := ops + [PreAuth(r)];
    assert ops[..2] == ops[..2][..2];
  }

  lemma WalletIsGranted(cfg: Config, a: AuthorizeRequest, s: State, r: PreAuthRequest)
    requires SampleState(a, s) && r == WalletRequest("k", "t", false)
    ensures Enabled(cfg, s, PreAuth(r))
    ensures var (s', answer) := RedeemPreAuth(cfg, s, r);
            && answer.Issued? && |s'.log| == 4 && s'.log[1].CodeStored? && s'.log[1].item.codeChallengeMethod == S256
            && GrantOn(s'.log[3], 1)
  {
    hide EarlyPreAuthRefusal, TxCodeRefused, NeedsDPoP, FinishPreAuth, ItemAt;
    PassesPreAuthChecks(cfg, a, s, r);
    FinishPreAuthFields(cfg, AfterTxCode(s, r), r, ItemAt(s.codes, r.code, s.now, None));
  }

  // --- grants on nothing -------------------------------------------------------------------

  /** A request that proves nothing but its client: no verifier, no redirect URI, no attested client's name. */
  predicate ProvesNothing(cfg: Config, r: CodeRequest) {
    && ProvesClient(cfg, r.client, r.jkt) && (r.client.ByWallet? ==> ProvenClient(r.client) == [])
    && r.verifier == [] && r.redirectURI == []
  }

  lemma NothingIsEntitled(cfg: Config, r: CodeRequest)
    ensures Entitled(cfg, r, ZeroItem(None)) <==> ProvesNothing(cfg, r)
  {
    hide ProvesClient;
    assert |"S256"| > 0;
  }

  /**
    GetItem takes a missing code for the zero item, so an authorization_code request on no live code is
    granted exactly if it answers the zero item's empty challenge and empty redirect URI.
   */
  lemma {:induction false} UnbackedGrantsExactly(cfg: Config, s: State, r: CodeRequest)
    ensures RedeemCode(cfg, s, r).1.Issued? && Lookup(s.codes, r.code, s.now).None? <==>
              && Lookup(s.codes, r.code, s.now).None? && ProvesNothing(cfg, r)
              && !r.faults.read && !r.faults.create && !r.faults.delete
  {
    hide EarlyRefusal, Entitled, ProvesNothing;
    PassesExactly(cfg, s.codes, s.now, r);
    NothingIsEntitled(cfg, r);
  }

  /**
    Over whole runs: a grant rests on no stored item only so, never a pre-authorized one, and gives neither scope nor
    subject.
   */
  lemma {:induction false} UnbackedGrantsAreEmpty(cfg: Config, ops: seq<Op>, i: nat) returns (t: nat)
    requires Run(cfg, ops) && i < |Exec(cfg, ops).log|
    requires Exec(cfg, ops).log[i].CodeRedeemed? && Exec(cfg, ops).log[i].code.None?
    ensures var e := Exec(cfg, ops).log[i]; !e.preAuth && e.grant.scope == [] && e.grant.subject == []
    ensures MadeBy(cfg, ops, t, i) && ops[t].Code? && ProvesNothing(cfg, ops[t].code)
  {
    hide Run, Exec, Enabled, Apply, EarlyRefusal, Inv, ProvesNothing, ItemAt;
    assert ops[..|ops|] == ops;
    t := EveryEventIsMade(cfg, ops, i, |ops|);
    NextPoint(cfg, ops, t);
    LogsGrow(cfg, ops, t + 1);
    GrantIsMadeSo(cfg, At(cfg, ops, t), ops[t], i);
    NothingWasProved(cfg, At(cfg, ops, t), ops[t].code);
  }

  lemma NothingWasProved(cfg: Config, s: State, r: CodeRequest)
    requires EarlyRefusal(cfg, s.codes, s.now, r).None? && OriginAt(s.codes, r.code, s.now).None?
    ensures ProvesNothing(cfg, r)
    ensures var item := ItemAt(s.codes, r.code, s.now, None); item.scope == [] && item.session.subject == []
  {
    hide EarlyRefusal, Entitled, ProvesNothing;
    PassesExactly(cfg, s.codes, s.now, r);
    NothingIsEntitled(cfg, r);
  }

  // --- sessions that go ----------------------------------------------------------------------

  lemma SessionsAfterCode(cfg: Config, s: State, r: CodeRequest)
    ensures RedeemCode(cfg, s, r).0.sessions ==
            if CodeRequestRefusal(cfg, s, r).Some? then s.sessions
            else s.sessions[r.newSession := Minted(ItemAt(s.codes, r.code, s.now, None).session, r.newSession, s.now,
                                                   r.jkt)]
                 - Dropped(r)
  {
    hide CodeRequestRefusal, ItemAt, Minted, Dropped, OriginAt, Authenticate;
  }

  lemma OthersKeepSessions(cfg: Config, s: State, op: Op, id: GoString)
    requires Enabled(cfg, s, op) && id in s.sessions && !op.Code?
    ensures id in Apply(cfg, s, op).sessions && Apply(cfg, s, op).sessions[id] == s.sessions[id]
  {
    hide EarlyPreAuthRefusal, TxCodeRefused, NeedsDPoP, FinishPreAuth, RedeemPreAuth, RedeemRefresh, ParametersValid,
         Minted;
    match op
    case PreAuth(r) =>
      PreAuthRuns(cfg, s, r);
      var item := ItemAt(s.codes, r.code, s.now, None);
      FinishPreAuthFields(cfg, if item.noTXCode then s else AfterTxCode(s, r), r, item);
    case Refresh(r) => RefreshEffect(cfg, s, r);
    case _ =>
  }

  /**
    Which sessions an operation removes: at most the one whose identifier an authorization_code request presents as
    its code, exactly if that request passes its checks and its session is created. Every other stays as it is.
   */
  lemma {:induction false} SessionsGoExactly(cfg: Config, s: State, op: Op, id: GoString)
    requires Enabled(cfg, s, op) && id in s.sessions
    ensures id !in Apply(cfg, s, op).sessions <==>
              && op.Code? && op.code.code == id && Entitled(cfg, op.code, ItemAt(s.codes, id, s.now, None))
              && !op.code.faults.read && !op.code.faults.create && !op.code.faults.tempDelete
    ensures id in Apply(cfg, s, op).sessions ==> Apply(cfg, s, op).sessions[id] == s.sessions[id]
  {
    hide EarlyRefusal, RedeemCode, Entitled, ItemAt;
    if op.Code? {
      PassesExactly(cfg, s.codes, s.now, op.code);
      SessionsAfterCode(cfg, s, op.code);
    } else {
      OthersKeepSessions(cfg, s, op, id);
    }
  }

  /**
    An access token is such an identifier and no code. A request that presents it as one removes its session exactly
    if it authenticates, carries neither verifier nor redirect URI, and names no attested client.
   */
  lemma {:induction false} PresentedTokenGoesExactly(cfg: Config, s: State, r: CodeRequest)
    requires Enabled(cfg, s, Code(r)) && r.code in s.sessions && Lookup(s.codes, r.code, s.now).None?
    ensures r.code !in RedeemCode(cfg, s, r).0.sessions <==>
              ProvesNothing(cfg, r) && !r.faults.read && !r.faults.create && !r.faults.tempDelete
  {
    SessionsGoExactly(cfg, s, Code(r), r.code);
    hide RedeemCode, EarlyRefusal, Enabled, Entitled, ProvesNothing;
    PassesExactly(cfg, s.codes, s.now, r);
    NothingIsEntitled(cfg, r);
  }
}
