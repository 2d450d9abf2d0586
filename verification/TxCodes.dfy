/**
  A tx_code is presented before its offer's code is honoured: when that holds, offer by offer, and the two runs
  in which it does not.
 */
module TxCodes {
  import opened GoStrings
  import opened Items
  import opened TtlCache
  import opened Grants
  import opened Lifecycle
  import opened Invariants
  import opened SingleUse

  /** The tx_code an offer announced, if the event is an offer with one. */
  function Announced(log: seq<Event>, o: nat): Option<int> {
    if o < |log| && log[o].OfferStored? then log[o].txCode else None
  }

  /** The presentation of exactly this number for the offer is on record. */
  predicate PresentedExactly(log: seq<Event>, o: nat, n: int) {
    exists i :: 0 <= i < |log| && log[i] == TxPresented(o, Itoa(n))
  }

  predicate PresentedRight(log: seq<Event>, o: nat) {
    Announced(log, o).Some? ==> PresentedExactly(log, o, Announced(log, o).value)
  }

  /** The offers whose item was stored and whose tx_code then was not. */
  function Lost(cfg: Config, ops: seq<Op>): set<nat> {
    if ops == [] then {}
    else
      var front, op := ops[..|ops| - 1], ops[|ops| - 1];
      Lost(cfg, front) + if LosesTxCode(op) then {|Exec(cfg, front).log|} else {}
  }

  // --- the invariant ---------------------------------------------------------

  predicate Settled(log: seq<Event>, o: nat, lost: set<nat>) {
    o in lost || PresentedRight(log, o)
  }

  /** A cached offer's tx_code is cached as long as the offer, unless it has been presented or was lost. */
  predicate TxAvailable(s: State, lost: set<nat>) {
    forall k :: k in s.codes && Announced(s.log, s.codes[k].origin).Some? ==>
      || Settled(s.log, s.codes[k].origin, lost)
      || (k in s.txCodes && s.txCodes[k].value == Announced(s.log, s.codes[k].origin).value
          && s.codes[k].expires <= s.txCodes[k].expires)
  }

  /** Whatever was presented for an offer, the right tx_code was. */
  predicate TxTruthful(s: State, lost: set<nat>) {
    forall i :: 0 <= i < |s.log| && s.log[i].TxPresented? ==>
      s.log[i].offer < i && Settled(s.log, s.log[i].offer, lost)
  }

  /** A grant on an offer's item follows the presentation of that offer's tx_code. */
  predicate GrantAfterTx(log: seq<Event>, i: nat, lost: set<nat>)
    requires i < |log|
  {
    log[i].CodeRedeemed? && log[i].preAuth && log[i].code.Some? ==> Settled(log[..i], log[i].code.value, lost)
  }

  predicate GrantsAfterTx(s: State, lost: set<nat>) {
    forall i :: 0 <= i < |s.log| ==> GrantAfterTx(s.log, i, lost)
  }

  /** An offer announces a tx_code, of five digits, unless it was made without one. */
  predicate OffersLogged(s: State) {
    forall i :: 0 <= i < |s.log| && s.log[i].OfferStored? ==>
      && (s.log[i].txCode.Some? <==> !s.log[i].item.noTXCode)
      && (s.log[i].txCode.Some? ==> 10000 <= s.log[i].txCode.value < 100000)
  }

  ghost predicate TxInv(s: State, lost: set<nat>) {
    TxAvailable(s, lost) && TxTruthful(s, lost) && GrantsAfterTx(s, lost) && OffersLogged(s)
  }

  /** A lost tx_code stays away, so only zeros pass for it. */
  predicate LostStaysLost(s: State, lost: set<nat>) {
    && (forall o :: o in lost ==> o < |s.log|)
    && (forall k :: k in s.codes && s.codes[k].origin in lost ==> k !in s.txCodes)
    && (forall i :: 0 <= i < |s.log| && s.log[i].TxPresented? ==>
          s.log[i].offer < i && (s.log[i].offer in lost ==> s.log[i].presented == Itoa(0)))
  }

  /** Announcements and presentations stay on record as the history grows. */
  lemma HistoryGrows(log: seq<Event>, log': seq<Event>, o: nat, lost: set<nat>, lost': set<nat>)
    requires log <= log' && lost <= lost'
    ensures o < |log| ==> Announced(log', o) == Announced(log, o)
    ensures o < |log| && Settled(log, o, lost) ==> Settled(log', o, lost')
  {
    if o < |log| && Announced(log, o).Some? && PresentedExactly(log, o, Announced(log, o).value) {
      var i :| 0 <= i < |log| && log[i] == TxPresented(o, Itoa(Announced(log, o).value));
      assert log'[i] == log[i];
    }
  }

  /** A presentation accepted for an offer whose tx_code was not lost is of the announced number, or follows one. */
  lemma PresentationIsRight(s: State, s': State, o: nat, presented: GoString, lost: set<nat>)
    requires Presenting(s, s', o, presented) && s'.log == s.log + [TxPresented(o, presented)]
    requires CodesLogged(s) && TxAvailable(s, lost)
    ensures o < |s.log| && Settled(s'.log, o, lost)
  {
    var k :| LiveCode(s, k, o) && TxCodeMatches(s.txCodes, k, s.now, presented);
    HistoryGrows(s.log, s'.log, o, lost, lost);
    if Announced(s.log, o).Some? && !Settled(s.log, o, lost) {
      assert Lookup(s.txCodes, k, s.now) == Some(s.txCodes[k]);
      assert s'.log[|s.log|] == TxPresented(o, Itoa(Announced(s.log, o).value));
    }
  }

  /** The step stores the tx_code it announces, or its offer is counted as lost. */
  predicate StoresOrLoses(cfg: Config, s: State, s': State, lost: set<nat>, lost': set<nat>) {
    lost <= lost' && (StoresTxCode(cfg, s, s') || |s.log| in lost')
  }

  lemma KeepsOffersLogged(cfg: Config, s: State, s': State)
    requires Micro(cfg, s, s') && OffersLogged(s)
    ensures OffersLogged(s')
  {
    assert forall i :: 0 <= i < |s.log| ==> s'.log[i] == s.log[i];
  }

  lemma KeepsTxAvailable(cfg: Config, s: State, s': State, lost: set<nat>, lost': set<nat>)
    requires Micro(cfg, s, s') && StoresOrLoses(cfg, s, s', lost, lost') && CodesLogged(s) && TxInv(s, lost)
    requires cfg.authCodeTTL <= cfg.preAuthTTL
    ensures TxAvailable(s', lost')
  {
    CodesView(cfg, s, s');
    forall k | k in s'.codes && Announced(s'.log, s'.codes[k].origin).Some?
      ensures Settled(s'.log, s'.codes[k].origin, lost')
              || (k in s'.txCodes && s'.txCodes[k].value == Announced(s'.log, s'.codes[k].origin).value
                  && s'.codes[k].expires <= s'.txCodes[k].expires)
    {
      if k in s.codes && s'.codes[k] == s.codes[k] {
        HistoryGrows(s.log, s'.log, s.codes[k].origin, lost, lost');
        KeepsTxOf(cfg, s, s', k, lost);
      }
    }
  }

  /** The tx_code entry of a cached code is touched only by its own presentation. */
  lemma KeepsTxOf(cfg: Config, s: State, s': State, k: GoString, lost: set<nat>)
    requires Micro(cfg, s, s') && CodesLogged(s) && TxAvailable(s, lost)
    requires k in s.codes && k in s'.codes && s'.codes[k] == s.codes[k]
    ensures || (k in s.txCodes ==> k in s'.txCodes && s'.txCodes[k] == s.txCodes[k])
            || Settled(s'.log, s.codes[k].origin, lost)
  {
    var e := Appended(s, s');
    if e.Some? && e.value.TxPresented? {
      assert s'.log == s.log + [e.value];
      PresentationIsRight(s, s', e.value.offer, e.value.presented, lost);
    }
  }

  lemma KeepsTxTruthful(cfg: Config, s: State, s': State, lost: set<nat>, lost': set<nat>)
    requires Micro(cfg, s, s') && CodesLogged(s) && TxInv(s, lost) && lost <= lost'
    ensures TxTruthful(s', lost')
  {
    var e := Appended(s, s');
    if e.Some? && e.value.TxPresented? {
      assert s'.log == s.log + [e.value];
      PresentationIsRight(s, s', e.value.offer, e.value.presented, lost);
    }
    forall i | 0 <= i < |s'.log| && s'.log[i].TxPresented?
      ensures s'.log[i].offer < i && Settled(s'.log, s'.log[i].offer, lost')
    {
      if i < |s.log| {
        assert s'.log[i] == s.log[i];
        HistoryGrows(s.log, s'.log, s.log[i].offer, lost, lost');
      }
    }
  }

  lemma KeepsGrantsAfterTx(cfg: Config, s: State, s': State, lost: set<nat>, lost': set<nat>)
    requires Micro(cfg, s, s') && CodesLogged(s) && TxInv(s, lost) && lost <= lost'
    ensures GrantsAfterTx(s', lost')
  {
    var n := |s.log|;
    forall i: nat | i < |s'.log| ensures GrantAfterTx(s'.log, i, lost') {
      if i < n {
        assert GrantAfterTx(s.log, i, lost) && s'.log[i] == s.log[i] && s'.log[..i] == s.log[..i];
      } else if s'.log[i].CodeRedeemed? {
        assert s'.log[..i] == s.log;
        GrantRestsOnPresentation(cfg, s, s', lost);
      }
    }
  }

  /** At the moment of the grant the right tx_code is already on record. */
  lemma GrantRestsOnPresentation(cfg: Config, s: State, s': State, lost: set<nat>)
    requires Micro(cfg, s, s') && CodesLogged(s) && TxInv(s, lost)
    requires Appended(s, s').Some? && Appended(s, s').value.CodeRedeemed?
    ensures Appended(s, s').value.preAuth && Appended(s, s').value.code.Some? ==>
            Settled(s.log, Appended(s, s').value.code.value, lost)
  {
    var e := Appended(s, s').value;
    if e.preAuth && e.code.Some? && Announced(s.log, e.code.value).Some? {
      var k :| RedeemingItem(s, s', e.preAuth, e.code.value, e.grant, k);
      assert s.log[e.code.value].item == s.codes[k].value;
      assert Presented(s.log, e.code.value);
    }
  }

  lemma KeepsTxInv(cfg: Config, s: State, s': State, lost: set<nat>, lost': set<nat>)
    requires Micro(cfg, s, s') && StoresOrLoses(cfg, s, s', lost, lost') && CodesLogged(s) && TxInv(s, lost)
    requires cfg.authCodeTTL <= cfg.preAuthTTL
    ensures TxInv(s', lost')
  {
    KeepsTxAvailable(cfg, s, s', lost, lost');
    KeepsTxTruthful(cfg, s, s', lost, lost');
    KeepsGrantsAfterTx(cfg, s, s', lost, lost');
    KeepsOffersLogged(cfg, s, s');
  }

  lemma {:induction false} RunTxInv(cfg: Config, ops: seq<Op>)
    requires Run(cfg, ops) && cfg.authCodeTTL <= cfg.preAuthTTL
    ensures TxInv(Exec(cfg, ops), Lost(cfg, ops))
  {
    if ops != [] {
      RunPrefix(cfg, ops);
      var front, op := ops[..|ops| - 1], ops[|ops| - 1];
      var s := Exec(cfg, front);
      RunTxInv(cfg, front);
      RunInv(cfg, front);
      var mid := StepShape(cfg, s, op);
      KeepsInv(cfg, s, mid);
      KeepsTxInv(cfg, s, mid, Lost(cfg, front), Lost(cfg, front));
      KeepsTxInv(cfg, mid, Exec(cfg, ops), Lost(cfg, front), Lost(cfg, ops));
    }
  }

  /** What a step does to the tx_codes, as far as lost ones are concerned. */
  ghost predicate TxStep(s: State, s': State) {
    && (forall k :: k in s.codes && k in s'.txCodes ==> k in s.txCodes)
    && (Appended(s, s').Some? && Appended(s, s').value.TxPresented? ==>
          exists k :: LiveCode(s, k, Appended(s, s').value.offer)
                      && TxCodeMatches(s.txCodes, k, s.now, Appended(s, s').value.presented))
  }

  lemma TxView(cfg: Config, s: State, s': State)
    requires Micro(cfg, s, s')
    ensures TxStep(s, s')
  {
    hide Issues, Mints, Carries, BoundKey, TxCodeMatches, Presented, LiveCode, Shrinks;
  }

  lemma MicroKeepsLost(cfg: Config, s: State, s': State, lost: set<nat>)
    requires Micro(cfg, s, s') && CodesLogged(s) && LostStaysLost(s, lost)
    ensures LostStaysLost(s', lost)
  {
    CodesView(cfg, s, s');
    TxView(cfg, s, s');
    hide Micro;
    assert forall i :: 0 <= i < |s.log| ==> s'.log[i] == s.log[i];
    var e := Appended(s, s');
    if e.Some? && e.value.TxPresented? {
      var k :| LiveCode(s, k, e.value.offer) && TxCodeMatches(s.txCodes, k, s.now, e.value.presented);
      assert e.value.offer in lost ==> Lookup(s.txCodes, k, s.now).None?;
    }
  }

  lemma OfferKeepsLost(cfg: Config, s: State, op: Op, lost: set<nat>)
    requires Enabled(cfg, s, op) && LosesTxCode(op) && CodesLogged(s) && LostStaysLost(s, lost)
    ensures LostStaysLost(Apply(cfg, s, op), lost + {|s.log|})
    ensures |s.log| !in lost
  {
    hide OfferItem;
    var s' := Apply(cfg, s, op);
    assert s'.log[|s.log|].OfferStored?;
  }

  lemma {:induction false} RunKeepsLost(cfg: Config, ops: seq<Op>)
    requires Run(cfg, ops)
    ensures LostStaysLost(Exec(cfg, ops), Lost(cfg, ops))
  {
    hide Micro, RedemptionsLogged, FamiliesLogged, StatesLogged, StatesCounted, SessionsBound;
    if ops != [] {
      RunPrefix(cfg, ops);
      var front, op := ops[..|ops| - 1], ops[|ops| - 1];
      var s := Exec(cfg, front);
      hide LostStaysLost;
      RunKeepsLost(cfg, front);
      RunInv(cfg, front);
      var mid := StepShape(cfg, s, op);
      KeepsInv(cfg, s, mid);
      if LosesTxCode(op) {
        OfferKeepsLost(cfg, s, op, Lost(cfg, front));
      } else {
        assert Lost(cfg, ops) == Lost(cfg, front);
        MicroKeepsLost(cfg, s, mid, Lost(cfg, front));
        MicroKeepsLost(cfg, mid, Exec(cfg, ops), Lost(cfg, front));
      }
    }
  }

  // --- results ---------------------------------------------------------------

  /** Every pre-authorized grant on these offers follows a presentation of exactly the five digits announced. */
  ghost predicate TxCodesGuard(log: seq<Event>, lost: set<nat>) {
    forall i, n :: 0 <= i < |log| && log[i].CodeRedeemed? && log[i].preAuth && log[i].code.Some?
                   && log[i].code.value !in lost && Announced(log, log[i].code.value) == Some(n) ==>
      |Itoa(n)| == 5 && PresentedExactly(log[..i], log[i].code.value, n)
  }

  /**
    Offer by offer, in every run, whatever fails anywhere: a pre-authorized grant on an offer that announced a
    tx_code came after a presentation of exactly that number if and only if the offer's own tx_code was stored.
   */
  lemma {:induction false} TxCodeGuardsGrantExactly(cfg: Config, ops: seq<Op>, i: nat, n: int)
    requires Run(cfg, ops) && cfg.authCodeTTL <= cfg.preAuthTTL
    requires i < |Exec(cfg, ops).log|
    requires var e := Exec(cfg, ops).log[i];
             e.CodeRedeemed? && e.preAuth && e.code.Some? && Announced(Exec(cfg, ops).log, e.code.value) == Some(n)
    ensures |Itoa(n)| == 5
    ensures var log := Exec(cfg, ops).log;
            PresentedExactly(log[..i], log[i].code.value, n) <==> log[i].code.value !in Lost(cfg, ops)
  {
    hide Exec, Run, Lost, TxAvailable, FamiliesLogged, StatesLogged, StatesCounted, SessionsBound;
    var log := Exec(cfg, ops).log;
    var o := log[i].code.value;
    RunTxInv(cfg, ops);
    RunInv(cfg, ops);
    RunKeepsLost(cfg, ops);
    assert RedemptionLogged(log, i) && GrantAfterTx(log, i, Lost(cfg, ops));
    assert Announced(log[..i], o) == Some(n);
    FiveDigits(n);
    assert |Itoa(0)| == 1;
    assert forall j :: 0 <= j < i ==> log[..i][j] == log[j];
  }

  /**
    What passes for an offer's tx_code until the right one has: the announced number if it was stored,
    and otherwise a zero.
   */
  lemma {:induction false} TxCodeAcceptedExactly(cfg: Config, ops: seq<Op>, k: GoString, n: int, presented: GoString)
    requires Run(cfg, ops) && cfg.authCodeTTL <= cfg.preAuthTTL
    requires var s := Exec(cfg, ops);
             && k in s.codes && s.now < s.codes[k].expires
             && Announced(s.log, s.codes[k].origin) == Some(n) && !PresentedExactly(s.log, s.codes[k].origin, n)
    ensures var s := Exec(cfg, ops);
            TxCodeMatches(s.txCodes, k, s.now, presented) <==>
              presented == Itoa(if s.codes[k].origin in Lost(cfg, ops) then 0 else n)
  {
    RunTxInv(cfg, ops);
    RunKeepsLost(cfg, ops);
  }

  predicate TxStorageHoldsThroughout(ops: seq<Op>) {
    forall i :: 0 <= i < |ops| ==> !LosesTxCode(ops[i])
  }

  lemma {:induction false} NothingLost(cfg: Config, ops: seq<Op>)
    requires TxStorageHoldsThroughout(ops)
    ensures Lost(cfg, ops) == {}
  {
    if ops != [] {
      NothingLost(cfg, ops[..|ops| - 1]);
    }
  }

  /** The corollary for runs in which every announced tx_code is stored: all offers are guarded. */
  lemma {:induction false} TxCodesGuardGrants(cfg: Config, ops: seq<Op>)
    requires Run(cfg, ops) && TxStorageHoldsThroughout(ops) && cfg.authCodeTTL <= cfg.preAuthTTL
    ensures TxCodesGuard(Exec(cfg, ops).log, {})
  {
    NothingLost(cfg, ops);
    GuardOfRun(cfg, ops);
  }

  lemma GuardOfRun(cfg: Config, ops: seq<Op>)
    requires Run(cfg, ops) && cfg.authCodeTTL <= cfg.preAuthTTL
    ensures TxCodesGuard(Exec(cfg, ops).log, Lost(cfg, ops))
  {
    hide Exec, Run, Lost;
    var log := Exec(cfg, ops).log;
    forall i, n | 0 <= i < |log| && log[i].CodeRedeemed? && log[i].preAuth && log[i].code.Some?
                  && log[i].code.value !in Lost(cfg, ops) && Announced(log, log[i].code.value) == Some(n)
      ensures |Itoa(n)| == 5 && PresentedExactly(log[..i], log[i].code.value, n)
    {
      TxCodeGuardsGrantExactly(cfg, ops, i, n);
    }
  }

  // --- the runs in which a zero passes -----------------------------------------

  lemma AZeroIsNotTheTxCode(log: seq<Event>)
    requires |log| == 3 && log[0].OfferStored? && log[0].txCode == Some(10000) && log[1] == TxPresented(0, "0")
    requires log[2].CodeRedeemed? && log[2].preAuth && log[2].code == Some(0)
    ensures !TxCodesGuard(log, {})
  {
    assert Announced(log, log[2].code.value) == Some(10000);
    FiveDigits(10000);
    assert forall j :: 0 <= j < 2 ==> log[..2][j] != TxPresented(0, Itoa(10000));
  }

  /** Make an offer, let its tx_code expire, and present a zero. */
  lemma {:induction false} ExpiredTxRunGrants(cfg: Config) returns (ops: seq<Op>)
    requires ValidConfig(cfg) && cfg.preAuthTTL < cfg.authCodeTTL
    ensures Run(cfg, ops) && TxStorageHoldsThroughout(ops) && Lost(cfg, ops) == {}
    ensures !TxCodesGuard(Exec(cfg, ops).log, {})
  {
    hide Lost, TxCodesGuard, RedeemPreAuth;
    ops := OfferRun(cfg, cfg.preAuthTTL);
    var s := AfterOffer(cfg, cfg.preAuthTTL);
    var r := SampleRequest("0", "t", NO_FAULTS);
    assert Itoa(0) == "0";
    SampleGrant(cfg, s, r);
    RunExtends(cfg, ops, PreAuth(r));
    ops := ops + [PreAuth(r)];
    assert s.log[0] == OfferStored(OfferItem(SAMPLE_OFFER), Some(10000));
    NothingLost(cfg, ops);
    AZeroIsNotTheTxCode(Exec(cfg, ops).log);
  }

  /** Make an offer whose tx_code is not stored, and present a zero: the code is granted, whatever the lifetimes. */
  lemma {:induction false} LostTxRunGrants(cfg: Config) returns (ops: seq<Op>)
    requires ValidConfig(cfg)
    ensures ops == [Offer(SAMPLE_OFFER.(setTxFails := true)), PreAuth(SampleRequest("0", "t", NO_FAULTS))]
    ensures Run(cfg, ops) && Lost(cfg, ops) == {0} && !TxCodesGuard(Exec(cfg, ops).log, {})
  {
    ops := [];
    var offer, r := SAMPLE_OFFER.(setTxFails := true), SampleRequest("0", "t", NO_FAULTS);
    RunExtends(cfg, ops, Offer(offer));
    ops := ops + [Offer(offer)];
    var s := Exec(cfg, ops);
    assert Itoa(0) == "0";
    SampleGrant(cfg, s, r);
    RunExtends(cfg, ops, PreAuth(r));
    assert Lost(cfg, []) == {} && ops[..0] == [];
    assert (ops + [PreAuth(r)])[..1] == ops;
    ops := ops + [PreAuth(r)];
    assert s.log[0] == OfferStored(OfferItem(SAMPLE_OFFER), Some(10000));
    hide RedeemPreAuth, TxCodesGuard;
    AZeroIsNotTheTxCode(Exec(cfg, ops).log);
  }

  /**
    Over all runs, whatever fails: every offer whose own tx_code was stored is guarded exactly when a code does
    not outlive its tx_code. The lifetimes are configured independently; the defaults, one and five minutes,
    meet the condition.
   */
  lemma {:induction false} TxCodesGuardExactly(cfg: Config)
    requires ValidConfig(cfg)
    ensures (forall ops :: Run(cfg, ops) ==> TxCodesGuard(Exec(cfg, ops).log, Lost(cfg, ops)))
            <==> cfg.authCodeTTL <= cfg.preAuthTTL
  {
    if cfg.authCodeTTL <= cfg.preAuthTTL {
      forall ops | Run(cfg, ops) ensures TxCodesGuard(Exec(cfg, ops).log, Lost(cfg, ops)) {
        GuardOfRun(cfg, ops);
      }
    } else {
      var ops := ExpiredTxRunGrants(cfg);
      assert Run(cfg, ops);
    }
  }
}
