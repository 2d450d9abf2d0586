/** Codes back one grant each, unless the deletion that ends a pre-authorized grant fails. */
module SingleUse {
  import opened GoStrings
  import opened Grants
  import opened Lifecycle
  import opened Invariants
  import Attestation

  // --- one grant per stored code -------------------------------------------

  predicate GrantOn(e: Event, o: nat) {
    e.CodeRedeemed? && e.code == Some(o)
  }

  /** Items a grant was made on are gone, and no two grants were made on one item. */
  ghost predicate Spent(s: State) {
    && (forall i, k :: 0 <= i < |s.log| && k in s.codes ==> !GrantOn(s.log[i], s.codes[k].origin))
    && (forall i, j, o: nat :: 0 <= i < |s.log| && 0 <= j < |s.log| && GrantOn(s.log[i], o) && GrantOn(s.log[j], o) ==>
        i == j)
  }

  predicate DeletionsHold(ops: seq<Op>) {
    forall i :: 0 <= i < |ops| ==> DeletionHolds(ops[i])
  }

  /** A grant removes the item it is made on, found live before. */
  ghost predicate SpendStep(s: State, s': State) {
    && Appends(s, s')
    && (Appended(s, s').Some? && Appended(s, s').value.CodeRedeemed? && Appended(s, s').value.code.Some? ==>
          var o := Appended(s, s').value.code.value;
          && (exists k :: k in s.codes && s.codes[k].origin == o)
          && (forall k :: k in s'.codes ==> s'.codes[k].origin != o))
    && (forall k :: k in s'.codes ==> (k in s.codes && s'.codes[k] == s.codes[k]) || s'.codes[k].origin == |s.log|)
  }

  lemma SpendView(cfg: Config, s: State, s': State)
    requires Micro(cfg, s, s') && CodesLogged(s) && RemovesCode(s, s')
    ensures SpendStep(s, s')
  {
    CodesView(cfg, s, s');
  }

  lemma KeepsSpent(s: State, s': State)
    requires SpendStep(s, s') && RedemptionsLogged(s) && Spent(s)
    ensures Spent(s')
  {
    var n := |s.log|;
    assert forall i :: 0 <= i < n ==> s'.log[i] == s.log[i];
    forall i, k | 0 <= i < |s'.log| && k in s'.codes ensures !GrantOn(s'.log[i], s'.codes[k].origin) {
      if i < n {
        assert RedemptionLogged(s.log, i);
      }
    }
  }

  lemma {:induction false} RunSpent(cfg: Config, ops: seq<Op>)
    requires Run(cfg, ops) && DeletionsHold(ops)
    ensures Spent(Exec(cfg, ops))
  {
    if ops != [] {
      RunPrefix(cfg, ops);
      var front, op := ops[..|ops| - 1], ops[|ops| - 1];
      var s := Exec(cfg, front);
      RunSpent(cfg, front);
      RunInv(cfg, front);
      var mid := StepShape(cfg, s, op);
      KeepsInv(cfg, s, mid);
      SpendView(cfg, s, mid);
      KeepsSpent(s, mid);
      SpendView(cfg, mid, Exec(cfg, ops));
      KeepsSpent(mid, Exec(cfg, ops));
    }
  }

  /**
    Single use of codes, section 4.1.2 of RFC 6749. In every run in which no deletion ending a
    pre-authorized grant fails, each stored code item backs at most one token response, over both
    grants together. Deletions ending an authorization_code grant may fail: such a request gets no token.
   */
  lemma {:induction false} CodesAreSingleUse(cfg: Config, ops: seq<Op>, i: nat, j: nat, o: nat)
    requires Run(cfg, ops) && DeletionsHold(ops)
    requires i < j < |Exec(cfg, ops).log|
    ensures !(GrantOn(Exec(cfg, ops).log[i], o) && GrantOn(Exec(cfg, ops).log[j], o))
  {
    RunSpent(cfg, ops);
  }

  // --- when a deletion fails -------------------------------------------------

  function AnyWallet(): Wallet {
    Wallet(true, Some(Attestation.Result("w", "k")), false)
  }

  const SAMPLE_OFFER: OfferRequest := OfferRequest("s", "u", "c", false, 10000, [], [], false, false)

  /** A pre-authorized request for the sample offer, with a tx_code and an identifier for its session. */
  function SampleRequest(txCode: GoString, session: GoString, faults: Faults): PreAuthRequest {
    PreAuthRequest(Some(AnyWallet()), "c", txCode, None, "k", session, faults)
  }

  /** The state after the sample offer at instant zero, and any wait. */
  function AfterOffer(cfg: Config, wait: nat): State {
    MakeOffer(cfg, INITIAL, SAMPLE_OFFER).(now := wait)
  }

  lemma OfferRun(cfg: Config, wait: nat) returns (ops: seq<Op>)
    ensures ops == [Offer(SAMPLE_OFFER), Tick(wait)]
    ensures Run(cfg, ops) && Exec(cfg, ops) == AfterOffer(cfg, wait)
  {
    ops := [];
    RunExtends(cfg, ops, Offer(SAMPLE_OFFER));
    ops := ops + [Offer(SAMPLE_OFFER)];
    RunExtends(cfg, ops, Tick(wait));
    ops := ops + [Tick(wait)];
  }

  lemma SampleGrant(cfg: Config, s: State, r: PreAuthRequest)
    requires r == SampleRequest(r.txCode, r.newSession, r.faults) && !r.faults.read && !r.faults.txRead
             && !r.faults.create
    requires LiveCode(s, "c", 0) && s.codes["c"].value == OfferItem(SAMPLE_OFFER)
    requires TxCodeMatches(s.txCodes, "c", s.now, r.txCode)
    ensures var s' := RedeemPreAuth(cfg, s, r).0;
            && |s'.log| == |s.log| + 2 && s'.log[..|s.log|] == s.log
            && s'.log[|s.log|] == TxPresented(0, r.txCode)
            && s'.log[|s.log| + 1].CodeRedeemed? && s'.log[|s.log| + 1].preAuth && s'.log[|s.log| + 1].code == Some(0)
            && s'.log[|s.log| + 1].grant.session == r.newSession && s'.now == s.now
            && s'.codes == (if r.faults.delete then s.codes else s.codes - {r.code})
            && s'.txCodes == (if r.faults.txDelete then s.txCodes else s.txCodes - {r.code})
            && s'.sessions.Keys == s.sessions.Keys + {r.newSession}
  {
    assert ItemAt(s.codes, r.code, s.now, None) == OfferItem(SAMPLE_OFFER);
  }

  const FIRST: PreAuthRequest := SampleRequest(Itoa(10000), "t", NO_FAULTS.(delete := true))
  const SECOND: PreAuthRequest := SampleRequest(Itoa(0), "t2", NO_FAULTS)

  lemma FirstRequest(cfg: Config)
    requires ValidConfig(cfg)
    ensures var s := AfterOffer(cfg, 0);
            var s1 := RedeemPreAuth(cfg, s, FIRST).0;
            && Enabled(cfg, s, PreAuth(FIRST))
            && |s1.log| == 3 && s1.log[2].CodeRedeemed? && s1.log[2].code == Some(0)
              && s1.log[2].grant.session == FIRST.newSession
            && s1.log[1].TxPresented? && s1.log[0].OfferStored? && s1.sessions.Keys == {FIRST.newSession}
            && s1.codes == s.codes && s1.now == s.now && FIRST.code !in s1.txCodes
  {
    SampleGrant(cfg, AfterOffer(cfg, 0), FIRST);
  }

  lemma SecondRequest(cfg: Config, s1: State)
    requires LiveCode(s1, FIRST.code, 0) && s1.codes[FIRST.code].value == OfferItem(SAMPLE_OFFER)
             && FIRST.code !in s1.txCodes
    requires FreshSession(s1, SECOND.newSession)
    ensures Enabled(cfg, s1, PreAuth(SECOND))
    ensures var s2 := RedeemPreAuth(cfg, s1, SECOND).0;
            && |s2.log| == |s1.log| + 2 && s2.log[..|s1.log|] == s1.log
            && s2.log[|s1.log| + 1].CodeRedeemed? && s2.log[|s1.log| + 1].code == Some(0)
  {
    SampleGrant(cfg, s1, SECOND);
  }

  /** A pre-authorized grant whose deletion fails leaves its item for another: the handler ignores that fault. */
  lemma {:induction false} IgnoredDeletionFault(cfg: Config) returns (ops: seq<Op>)
    requires ValidConfig(cfg)
    ensures Run(cfg, ops) && !DeletionsHold(ops)
    ensures var log := Exec(cfg, ops).log; |log| == 5 && GrantOn(log[2], 0) && GrantOn(log[4], 0)
  {
    hide RedeemPreAuth;
    var start := OfferRun(cfg, 0);
    FirstRequest(cfg);
    RunExtends(cfg, start, PreAuth(FIRST));
    var middle := start + [PreAuth(FIRST)];
    var s1 := Exec(cfg, middle);
    assert |SECOND.newSession| == 2 && |FIRST.newSession| == 1;
    SecondRequest(cfg, s1);
    RunExtends(cfg, middle, PreAuth(SECOND));
    ops := middle + [PreAuth(SECOND)];
    assert ops[2] == PreAuth(FIRST) && !DeletionHolds(ops[2]);
  }
}
