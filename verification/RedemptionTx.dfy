/**
  tx_codes where requests interleave: between reading a code and comparing its tx_code a request may be overtaken,
  and time may pass. How much time is safe is stated exactly.
 */
module RedemptionTx {
  import opened GoStrings
  import opened TtlCache
  import opened Grants
  import opened Redemption
  import opened RedemptionRuns
  import opened SingleUse

  /** No request takes longer than this between reading its code and comparing its tx_code. */
  predicate Prompt(cfg: Config, ms: seq<Move>, delay: nat) {
    forall t :: 0 <= t < |ms| && ms[t].Validate? && After(cfg, ms[..t]).Some? ==>
      PromptMove(After(cfg, ms[..t]).value, ms[t], delay)
  }

  predicate PromptMove(s: Shared, m: Move, delay: nat) {
    m.Validate? && m.req in s.pending ==> s.now - s.pending[m.req].readAt <= delay
  }

  /** The item's tx_code, if one was stored, has been accepted for it. */
  predicate Settled(s: Shared, o: nat) {
    o < |s.stored| && (s.stored[o].tx.Some? ==> (o, Itoa(s.stored[o].tx.value)) in s.shown)
  }

  /** The item's tx_code is cached, for as long beyond the item as the lifetimes differ. */
  predicate TxKept(cfg: Config, s: Shared, o: nat)
    requires o < |s.stored| && s.stored[o].tx.Some?
  {
    var code := s.stored[o].item.code;
    && code in s.txCodes
    && s.txCodes[code] == Entry(s.stored[o].tx.value, s.stored[o].deadline - cfg.authCodeTTL + cfg.preAuthTTL, o)
  }

  predicate ItemsStored(s: Shared) {
    && (forall o, q :: 0 <= o < q < |s.stored| ==> s.stored[o].item.code != s.stored[q].item.code)
    && (forall o :: 0 <= o < |s.stored| && s.stored[o].tx.Some? ==>
          !s.stored[o].item.noTXCode && 10000 <= s.stored[o].tx.value < 100000)
    && (forall k :: k in s.codes ==>
          s.codes[k].origin < |s.stored| && s.codes[k].expires == s.stored[s.codes[k].origin].deadline)
  }

  predicate TxAvailable(cfg: Config, s: Shared) {
    forall o :: 0 <= o < |s.stored| && s.stored[o].tx.Some? ==> Settled(s, o) || TxKept(cfg, s, o)
  }

  /** A pre-authorized request read its item in time; once past its tx_code, that is settled. */
  predicate OnTime(s: Shared, p: Pending) {
    p.request.ByPreAuth? && p.origin.Some? ==>
      && p.origin.value < |s.stored| && p.readAt < s.stored[p.origin.value].deadline
      && (p.phase == ToValidate || p.phase == ToDropTx ==> !p.item.noTXCode)
      && (p.phase != ToValidate && !p.item.noTXCode ==> Settled(s, p.origin.value))
  }

  predicate RequestsOnTime(s: Shared) {
    forall q :: q in s.pending ==> OnTime(s, s.pending[q])
  }

  predicate GrantSettled(s: Shared, g: Given) {
    g.request.ByPreAuth? && g.origin.Some? && !g.item.noTXCode ==> Settled(s, g.origin.value)
  }

  predicate GrantsSettled(s: Shared) {
    forall i :: 0 <= i < |s.grants| ==> GrantSettled(s, s.grants[i])
  }

  ghost predicate TxInv(cfg: Config, s: Shared) {
    ItemsStored(s) && TxAvailable(cfg, s) && RequestsOnTime(s) && GrantsSettled(s)
  }

  lemma SettledStays(s: Shared, s': Shared)
    requires s.stored <= s'.stored && s.shown <= s'.shown
    ensures forall o :: Settled(s, o) ==> Settled(s', o)
    ensures forall p :: OnTime(s, p) ==> OnTime(s', p)
    ensures forall g :: GrantSettled(s, g) ==> GrantSettled(s', g)
  {
  }

  /** Waiting and creating change none of this. */
  lemma OtherKeepsTxInv(cfg: Config, s: Shared, s': Shared)
    requires Quiet(s, s') && TxInv(cfg, s) && s'.txCodes == s.txCodes && s'.shown == s.shown
    requires forall q :: q in s'.pending && s'.pending[q].phase != s.pending[q].phase ==>
               s.pending[q].phase == ToCreate && s'.pending[q].phase == ToDelete
    ensures TxInv(cfg, s')
  {
  }

  lemma StoreKeepsTxInv(cfg: Config, s: Shared, m: Move)
    requires m.Store? && CanMove(s, m) && TxInv(cfg, s)
    ensures TxInv(cfg, Do(cfg, s, m))
  {
    var s' := Do(cfg, s, m);
    SettledStays(s, s');
    StoreKeepsTxCodes(cfg, s, m);
    hide OnTime, GrantSettled, TxKept, Settled;
    assert ItemsStored(s');
  }

  lemma StoreKeepsTxCodes(cfg: Config, s: Shared, m: Move)
    requires m.Store? && CanMove(s, m) && ItemsStored(s) && TxAvailable(cfg, s)
    ensures TxAvailable(cfg, Do(cfg, s, m))
  {
    var s' := Do(cfg, s, m);
    forall o | 0 <= o < |s'.stored| && s'.stored[o].tx.Some? ensures Settled(s', o) || TxKept(cfg, s', o) {
      if o < |s.stored| {
        assert s'.stored[o] == s.stored[o];
        assert Settled(s, o) || TxKept(cfg, s, o);
      }
    }
  }

  lemma ReadKeepsTxInv(cfg: Config, s: Shared, req: nat, request: Request)
    requires Refusal(cfg, s, request).None? && TxInv(cfg, s)
    ensures TxInv(cfg, DoRead(cfg, s, req, request))
  {
    hide Refusal;
    var s' := DoRead(cfg, s, req, request);
    SettledStays(s, s');
    assert GrantsSettled(s') by { hide GrantSettled; }
    assert TxAvailable(cfg, s') by { hide TxKept; }
  }

  /** A comparison that comes in time is made with the stored number, unless that was accepted before. */
  lemma ComparisonIsRight(cfg: Config, s: Shared, req: nat, delay: nat)
    requires req in s.pending && s.pending[req].request.ByPreAuth?
    requires Inv(cfg, s) && TxInv(cfg, s) && PromptMove(s, Validate(req), delay)
    requires cfg.authCodeTTL + delay <= cfg.preAuthTTL
    requires TxCodeMatches(s.txCodes, CodeIn(s.pending[req].request), s.now, s.pending[req].request.preAuth.txCode)
    ensures var o := s.pending[req].origin;
            && o.Some? && o.value < |s.stored|
            && (s.stored[o.value].tx.Some? ==>
                  Settled(s, o.value) || s.pending[req].request.preAuth.txCode == Itoa(s.stored[o.value].tx.value))
  {
    hide VerifierMatches;
    var p := s.pending[req];
    assert Backed(cfg, s, p.request, p.item, p.origin) && OnTime(s, p);
    var o := p.origin.value;
    if s.stored[o].tx.Some? && !Settled(s, o) {
      assert TxKept(cfg, s, o);
      assert Lookup(s.txCodes, CodeIn(p.request), s.now) == Some(s.txCodes[CodeIn(p.request)]);
    }
  }

  lemma SameItems(cfg: Config, s: Shared, s': Shared)
    requires s'.stored == s.stored && s.shown <= s'.shown && s'.txCodes == s.txCodes
    requires forall k :: k in s'.codes ==> k in s.codes && s'.codes[k] == s.codes[k]
    requires ItemsStored(s) && TxAvailable(cfg, s)
    ensures ItemsStored(s') && TxAvailable(cfg, s')
  {
    SettledStays(s, s');
    assert forall o :: 0 <= o < |s.stored| && s.stored[o].tx.Some? ==> TxKept(cfg, s, o) == TxKept(cfg, s', o);
    hide Settled, TxKept;
  }

  lemma AcceptedKeepsTxInv(cfg: Config, s: Shared, req: nat, o: nat, presented: GoString)
    requires req in s.pending && TxInv(cfg, s) && s.pending[req].request.ByPreAuth? && s.pending[req].origin == Some(o)
    requires o < |s.stored| && !s.pending[req].item.noTXCode
    requires s.stored[o].tx.Some? ==> Settled(s, o) || presented == Itoa(s.stored[o].tx.value)
    ensures TxInv(cfg, s.(pending := s.pending[req := s.pending[req].(phase := ToDropTx)],
                          shown := s.shown + {(o, presented)}))
  {
    var s' := s.(pending := s.pending[req := s.pending[req].(phase := ToDropTx)], shown := s.shown + {(o, presented)});
    SettledStays(s, s');
    SameItems(cfg, s, s');
    assert OnTime(s, s.pending[req]) && Settled(s', o);
    assert OnTime(s', s'.pending[req]);
    hide OnTime, GrantSettled, ItemsStored, TxAvailable;
  }

  lemma ValidateKeepsTxInv(cfg: Config, s: Shared, req: nat, delay: nat)
    requires InPhase(s, req, ToValidate) && s.pending[req].request.ByPreAuth?
    requires Inv(cfg, s) && TxInv(cfg, s) && PromptMove(s, Validate(req), delay)
    requires cfg.authCodeTTL + delay <= cfg.preAuthTTL
    ensures TxInv(cfg, DoValidate(s, req))
  {
    assert s.pending[req].origin.Some? ==> OnTime(s, s.pending[req]);
    hide Inv, TxInv, TxCodeMatches, Settled;
    var s', r := DoValidate(s, req), s.pending[req].request.preAuth;
    if !r.faults.txRead && TxCodeMatches(s.txCodes, r.code, s.now, r.txCode) {
      ComparisonIsRight(cfg, s, req, delay);
      AcceptedKeepsTxInv(cfg, s, req, s.pending[req].origin.value, r.txCode);
    } else {
      OtherKeepsTxInv(cfg, s, s');
    }
  }

  lemma DropKeepsTxInv(cfg: Config, s: Shared, req: nat)
    requires InPhase(s, req, ToDropTx) && s.pending[req].request.ByPreAuth? && Inv(cfg, s) && TxInv(cfg, s)
    ensures TxInv(cfg, DoDropTx(s, req))
  {
    hide VerifierMatches, SpentBefore, CodesStored;
    var s', p := DoDropTx(s, req), s.pending[req];
    SettledStays(s, s');
    assert GrantsSettled(s') by { hide GrantSettled; }
    hide GrantSettled;
    assert Backed(cfg, s, p.request, p.item, p.origin) && OnTime(s, p);
    forall o | 0 <= o < |s.stored| && s.stored[o].tx.Some? ensures Settled(s', o) || TxKept(cfg, s', o) {
      if o != p.origin.value {
        assert s.stored[o].item.code != s.stored[p.origin.value].item.code;
      }
    }
  }

  lemma GrantKeepsTxInv(cfg: Config, s: Shared, s': Shared, req: nat, g: Given)
    requires InPhase(s, req, ToDelete) && GivesOut(s, s', req, g) && TxInv(cfg, s)
    requires s'.txCodes == s.txCodes && s'.shown == s.shown
    ensures TxInv(cfg, s')
  {
    SettledStays(s, s');
    SameItems(cfg, s, s');
    assert OnTime(s, s.pending[req]);
    assert GrantSettled(s', g);
    hide OnTime, GrantSettled, ItemsStored, TxAvailable;
  }

  lemma DeleteKeepsTxInv(cfg: Config, s: Shared, req: nat)
    requires InPhase(s, req, ToDelete) && Inv(cfg, s) && TxInv(cfg, s)
    ensures TxInv(cfg, DoDelete(s, req))
  {
    hide TxInv, GivesOut, AnswerFor;
    var p := s.pending[req];
    DeleteGrants(cfg, s, req);
    hide Inv;
    if p.request.ByCode? && DeletionFails(p.request) {
      OtherKeepsTxInv(cfg, s, DoDelete(s, req));
    } else {
      GrantKeepsTxInv(cfg, s, DoDelete(s, req), req, Given(req, p.request, p.item, p.origin, p.since));
    }
  }

  lemma CreateIsOther(cfg: Config, s: Shared, req: nat)
    requires InPhase(s, req, ToCreate) && TxInv(cfg, s)
    ensures TxInv(cfg, DoCreate(cfg, s, req))
  {
    hide TxInv, Quiet;
    CreateIsQuiet(cfg, s, req);
    CreateLeavesTx(cfg, s, req);
    OtherKeepsTxInv(cfg, s, DoCreate(cfg, s, req));
  }

  lemma CreateLeavesTx(cfg: Config, s: Shared, req: nat)
    requires InPhase(s, req, ToCreate)
    ensures var s' := DoCreate(cfg, s, req);
            && s'.txCodes == s.txCodes && s'.shown == s.shown
            && s'.pending.Keys <= s.pending.Keys
            && forall q :: q in s'.pending && s'.pending[q].phase != s.pending[q].phase ==>
                 s.pending[q].phase == ToCreate && s'.pending[q].phase == ToDelete
  {
    hide DoCreate, CreationFails;
    CreateEffect(cfg, s, req);
  }

  lemma KeepsTxInv(cfg: Config, s: Shared, m: Move, delay: nat)
    requires CanMove(s, m) && Inv(cfg, s) && TxInv(cfg, s) && PromptMove(s, m, delay)
    requires cfg.authCodeTTL + delay <= cfg.preAuthTTL
    ensures TxInv(cfg, Do(cfg, s, m))
  {
    hide Inv, TxInv, Refusal, DoValidate, DoDropTx, DoCreate, DoDelete;
    match m
    case Store(_, _) => StoreKeepsTxInv(cfg, s, m);
    case Read(req, request) =>
      if Refusal(cfg, s, request).None? {
        ReadKeepsTxInv(cfg, s, req, request);
      } else {
        OtherKeepsTxInv(cfg, s, Do(cfg, s, m));
      }
    case Validate(req) => ValidateKeepsTxInv(cfg, s, req, delay);
    case DropTx(req) => DropKeepsTxInv(cfg, s, req);
    case Create(req) => CreateIsOther(cfg, s, req);
    case Delete(req) => DeleteKeepsTxInv(cfg, s, req);
    case Wait(_) => OtherKeepsTxInv(cfg, s, Do(cfg, s, m));
  }

  lemma PromptPrefix(cfg: Config, ms: seq<Move>, delay: nat)
    requires ms != [] && Prompt(cfg, ms, delay) && After(cfg, ms[..|ms| - 1]).Some?
    ensures Prompt(cfg, ms[..|ms| - 1], delay)
    ensures PromptMove(After(cfg, ms[..|ms| - 1]).value, ms[|ms| - 1], delay)
  {
    hide After;
    var front := ms[..|ms| - 1];
    assert forall t :: 0 <= t < |front| ==> front[..t] == ms[..t];
  }

  lemma {:induction false} RunTxInv(cfg: Config, ms: seq<Move>, delay: nat)
    requires After(cfg, ms).Some? && Prompt(cfg, ms, delay) && cfg.authCodeTTL + delay <= cfg.preAuthTTL
    ensures TxInv(cfg, After(cfg, ms).value)
  {
    if ms != [] {
      hide CanMove, Do, Inv, TxInv, Prompt, PromptMove;
      var front := ms[..|ms| - 1];
      PromptPrefix(cfg, ms, delay);
      RunInv(cfg, front);
      RunTxInv(cfg, front, delay);
      KeepsTxInv(cfg, After(cfg, front).value, ms[|ms| - 1], delay);
    }
  }

  // --- results ---------------------------------------------------------------

  /**
    For every grant on an item whose tx_code was stored, that code's five digits have been accepted. As this is to
    hold at every point, they were accepted before the grant.
   */
  ghost predicate TxCodesGuard(s: Shared) {
    forall i :: 0 <= i < |s.grants| && s.grants[i].request.ByPreAuth? && s.grants[i].origin.Some? ==>
      GuardedItem(s, s.grants[i].origin.value)
  }

  predicate GuardedItem(s: Shared, o: nat) {
    && o < |s.stored|
    && (s.stored[o].tx.Some? ==>
          var digits := Itoa(s.stored[o].tx.value); |digits| == 5 && (o, digits) in s.shown)
  }

  lemma GuardOfRun(cfg: Config, ms: seq<Move>, delay: nat)
    requires After(cfg, ms).Some? && Prompt(cfg, ms, delay) && cfg.authCodeTTL + delay <= cfg.preAuthTTL
    ensures TxCodesGuard(After(cfg, ms).value)
  {
    hide After, Prompt, VerifierMatches;
    RunInv(cfg, ms);
    RunTxInv(cfg, ms, delay);
    var s := After(cfg, ms).value;
    forall i | 0 <= i < |s.grants| && s.grants[i].request.ByPreAuth? && s.grants[i].origin.Some?
      ensures GuardedItem(s, s.grants[i].origin.value)
    {
      var g := s.grants[i];
      var o := g.origin.value;
      assert Backed(cfg, s, g.request, g.item, g.origin) && GrantSettled(s, g);
      if s.stored[o].tx.Some? {
        FiveDigits(s.stored[o].tx.value);
      }
    }
  }

  // --- the bound is exact -----------------------------------------------------------

  lemma OneMorePrompt(cfg: Config, ms: seq<Move>, m: Move, delay: nat)
    requires After(cfg, ms).Some? && Prompt(cfg, ms, delay)
    requires CanMove(After(cfg, ms).value, m) && PromptMove(After(cfg, ms).value, m, delay)
    ensures After(cfg, ms + [m]) == Some(Do(cfg, After(cfg, ms).value, m)) && Prompt(cfg, ms + [m], delay)
  {
    hide After, Do, CanMove, PromptMove;
    OneMore(cfg, ms, m);
    var all := ms + [m];
    assert all[..|ms|] == ms && forall t :: 0 <= t < |ms| ==> all[..t] == ms[..t];
  }

  /** A request reads the sample offer's code at the last instant, and waits. */
  lemma LateRead(cfg: Config, r: PreAuthRequest, w: nat, delay: nat) returns (ms: seq<Move>)
    requires ValidConfig(cfg) && r == SampleRequest(r.txCode, r.newSession, NO_FAULTS)
    ensures After(cfg, ms).Some? && Prompt(cfg, ms, delay)
    ensures var s := After(cfg, ms).value;
            && s.now == cfg.authCodeTTL - 1 + w && s.txCodes == map["c" := Entry(10000, cfg.preAuthTTL, 0)]
            && s.stored == [Stored(OfferItem(SAMPLE_OFFER), Some(10000), cfg.authCodeTTL)]
            && s.pending == map[0 := Pending(ByPreAuth(r), OfferItem(SAMPLE_OFFER), Some(0), 0, cfg.authCodeTTL - 1,
                                             ToValidate)]
            && s.grants == [] && s.answers == map[] && s.shown == {}
  {
    hide EarlyPreAuthRefusal;
    var item := OfferItem(SAMPLE_OFFER);
    ms := [];
    OneMorePrompt(cfg, ms, Store(item, Some(10000)), delay);
    ms := ms + [Store(item, Some(10000))];
    OneMorePrompt(cfg, ms, Wait(cfg.authCodeTTL - 1), delay);
    ms := ms + [Wait(cfg.authCodeTTL - 1)];
    var s := After(cfg, ms).value;
    assert s.codes == map["c" := Entry(item, cfg.authCodeTTL, 0)];
    SampleIsRead(cfg, s, r);
    OneMorePrompt(cfg, ms, Read(0, ByPreAuth(r)), delay);
    ms := ms + [Read(0, ByPreAuth(r))];
    OneMorePrompt(cfg, ms, Wait(w), delay);
    ms := ms + [Wait(w)];
  }

  lemma SampleIsRead(cfg: Config, s: Shared, r: PreAuthRequest)
    requires r == SampleRequest(r.txCode, r.newSession, NO_FAULTS)
    requires s.codes == map["c" := Entry(OfferItem(SAMPLE_OFFER), cfg.authCodeTTL, 0)] && s.now < cfg.authCodeTTL
    ensures EarlyPreAuthRefusal(cfg, s.codes, s.now, r).None?
    ensures ItemAt(s.codes, r.code, s.now, None) == OfferItem(SAMPLE_OFFER)
            && OriginAt(s.codes, r.code, s.now) == Some(0)
  {
  }

  /** With the tx_code expired the request then presents a zero, and is past that check. */
  lemma ZeroPasses(cfg: Config, ms: seq<Move>, r: PreAuthRequest, delay: nat) returns (more: seq<Move>)
    requires r == SampleRequest("0", r.newSession, NO_FAULTS) && After(cfg, ms).Some? && Prompt(cfg, ms, delay)
    requires var s := After(cfg, ms).value;
             && s.txCodes == map["c" := Entry(10000, cfg.preAuthTTL, 0)] && cfg.preAuthTTL <= s.now
             && InPhase(s, 0, ToValidate) && s.pending[0].request == ByPreAuth(r) && s.pending[0].origin == Some(0)
             && s.now - s.pending[0].readAt <= delay && s.shown == {}
    ensures After(cfg, more).Some? && Prompt(cfg, more, delay)
    ensures var s, s' := After(cfg, ms).value, After(cfg, more).value;
            && s'.shown == {(0, "0")} && s'.stored == s.stored && s'.grants == s.grants
            && s'.pending == s.pending[0 := s.pending[0].(phase := ToCreate)]
  {
    hide After, Prompt;
    assert Itoa(0) == "0";
    OneMorePrompt(cfg, ms, Validate(0), delay);
    more := ms + [Validate(0)];
    OneMorePrompt(cfg, more, DropTx(0), delay);
    more := more + [DropTx(0)];
  }

  lemma ZeroIsNoGuard(s: Shared)
    requires |s.grants| == 1 && s.grants[0].request.ByPreAuth? && s.grants[0].origin == Some(0)
    requires |s.stored| == 1 && s.stored[0].tx == Some(10000) && s.shown == {(0, "0")}
    ensures !TxCodesGuard(s)
  {
    FiveDigits(10000);
    assert !GuardedItem(s, s.grants[0].origin.value);
  }

  /** So it is granted, and the announced number never was presented. */
  lemma {:induction false} SlowRequestIsGranted(cfg: Config, delay: nat) returns (ms: seq<Move>)
    requires ValidConfig(cfg) && cfg.preAuthTTL < cfg.authCodeTTL + delay
    ensures After(cfg, ms).Some? && Prompt(cfg, ms, delay) && !TxCodesGuard(After(cfg, ms).value)
  {
    hide After, Prompt, EarlyPreAuthRefusal, OfferItem, DoCreate, AnswerFor, TxCodesGuard;
    var r := SampleRequest("0", "t", NO_FAULTS);
    ms := LateRead(cfg, r, if cfg.preAuthTTL < cfg.authCodeTTL then 0 else cfg.preAuthTTL - cfg.authCodeTTL + 1, delay);
    ms := ZeroPasses(cfg, ms, r, delay);
    CreateEffect(cfg, After(cfg, ms).value, 0);
    OneMorePrompt(cfg, ms, Create(0), delay);
    ms := ms + [Create(0)];
    OneMorePrompt(cfg, ms, Delete(0), delay);
    ms := ms + [Delete(0)];
    ZeroIsNoGuard(After(cfg, ms).value);
  }

  /**
    tx_codes in every interleaving, whatever fails: if requests take up to delay between reading a code and comparing
    its tx_code, every offer whose tx_code was stored is guarded exactly when auth_code_ttl + delay <= pre_auth_ttl.
    With the defaults of one and five minutes that is four minutes.
   */
  lemma {:induction false} TxCodesGuardExactly(cfg: Config, delay: nat)
    requires ValidConfig(cfg)
    ensures (forall ms :: After(cfg, ms).Some? && Prompt(cfg, ms, delay) ==> TxCodesGuard(After(cfg, ms).value))
            <==> cfg.authCodeTTL + delay <= cfg.preAuthTTL
  {
    hide After, Prompt, TxCodesGuard;
    if cfg.authCodeTTL + delay <= cfg.preAuthTTL {
      forall ms | After(cfg, ms).Some? && Prompt(cfg, ms, delay) ensures TxCodesGuard(After(cfg, ms).value) {
        GuardOfRun(cfg, ms, delay);
      }
    } else {
      var ms := SlowRequestIsGranted(cfg, delay);
    }
  }
}
