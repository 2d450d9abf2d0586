/**
  Where all that a token stands for comes from, in every run: the authorize request that its scope was accepted with,
  the callback or offer that its code was stored for, and the grant that made its session.
 */
module Provenance {
  import opened GoStrings
  import opened Digests
  import opened Items
  import opened TtlCache
  import FormEncoding
  import opened Grants
  import opened Lifecycle
  import opened Invariants
  import opened RunTheorems
  import opened SingleUse
  import opened GrantRules
  import opened Backing
  import Scopes
  import SharedMaps
  import opened SharedRuns
  import Introspection

  // --- what requests store ----------------------------------------------------------------

  /** An authorize request in order, up to its scope. */
  predicate OrderlyUpToScope(cfg: Config, r: AuthorizeRequest) {
    var redirect, challenge := FormEncoding.First(r.query, "redirect_uri"),
      FormEncoding.First(r.query, "code_challenge");
    && r.clientID in cfg.clients && redirect.Some? && redirect.value in cfg.clients[r.clientID].redirectURIs
    && challenge.Some? && 43 <= |challenge.value| <= 128
    && FormEncoding.First(r.query, "code_challenge_method") == Some("S256")
  }

  /** The authorize request is in order, and this is the state it is to be found under. */
  predicate FromAuthorize(cfg: Config, st: StateItem, r: AuthorizeRequest) {
    var issuerState := FormEncoding.First(r.query, "issuer_state");
    && FormEncoding.First(r.query, "response_type") == Some("code") && OrderlyUpToScope(cfg, r)
    && FormEncoding.First(r.query, "scope") == Some(st.scope)
    && (exists p :: p in Split(st.scope, ' ') && p != [])
    && (forall p :: p in Split(st.scope, ' ') && p != [] ==> p in cfg.scopes)
    && st.state == r.state && st.responseType == "code"
    && st.issuerState == if issuerState.Some? then issuerState.value else []
  }

  /** The item holds what the callback request says, and its session template names that request's person. */
  predicate FromCallback(item: CodeItemV, r: CallbackRequest, at: int) {
    && item.code == r.id && item.clientID == r.clientID && item.userID == r.userID
    && item.redirectURI == r.redirectURI && item.codeChallenge == r.codeChallenge
    && item.codeChallengeMethod == r.codeChallengeMethod && !item.noTXCode
    && item.session == Session([], r.userID, r.firstName, r.lastName, r.personCode, [], "authorized", Some(at),
                               if r.extraClaims.None? then None else Some(map["extra_claims" := r.extraClaims.value]))
  }

  /** The item holds what the offer request says. */
  predicate FromOffer(item: CodeItemV, r: OfferRequest) {
    && item.code == r.code && item.clientID == "issuer-backend" && item.userID == r.sessionID
    && item.redirectURI == item.codeChallenge == item.codeChallengeMethod == item.issuerState == []
    && item.scope == r.scope != [] && item.noTXCode == r.noTXCode
    && item.session == Session([], r.sessionID, r.givenName, r.familyName, [], [], "authorized", None, None)
  }

  /** The new event e of this operation records what its request says. */
  predicate AsRequested(cfg: Config, s: State, op: Op, e: Event) {
    match e
    case StateSaved(st) => op.Authorize? && FromAuthorize(cfg, st, op.authorize)
    case CodeStored(item, o) =>
      && op.Callback? && FromCallback(item, op.callback, s.now)
      && op.callback.state in s.states && s.now < s.states[op.callback.state].expires
      && var found := s.states[op.callback.state];
         found.origin == o && item.scope == found.value.scope && item.issuerState == found.value.issuerState
    case OfferStored(item, txCode) =>
      op.Offer? && FromOffer(item, op.offer) && txCode == if op.offer.noTXCode then None else Some(op.offer.txCode)
    case _ => true
  }

  /**
    What an authorize request does, whatever its parameters. Unless it is for a code it is not looked at. One for a
    code has to be in order, with a scope that is not blank and allowed piece by piece if it has one; then its state
    is saved for the state lifetime if the cache works, and without a scope nothing is.
   */
  lemma {:induction false} AuthorizeSavesExactly(cfg: Config, s: State, r: AuthorizeRequest)
    ensures var (s', ok) := SaveState(cfg, s, r);
            var forCode, scope := FormEncoding.First(r.query, "response_type") == Some("code"),
              FormEncoding.First(r.query, "scope");
            var issuerState := FormEncoding.First(r.query, "issuer_state");
            var st := StateItem(r.state, "code", if scope.Some? then scope.value else [],
                                if issuerState.Some? then issuerState.value else []);
            if forCode && scope.Some? && FromAuthorize(cfg, st, r) && !r.setFails then
              ok && s' == s.(states := s.states[r.state := Entry(st, s.now + cfg.stateTTL, |s.log|)],
                             log := s.log + [StateSaved(st)])
            else s' == s && (ok <==> !forCode || (OrderlyUpToScope(cfg, r) && scope.None?))
  {
    hide FormEncoding.First, Scopes.IsSupported;
    var scope := FormEncoding.First(r.query, "scope");
    if scope.Some? {
      Scopes.SupportedByPieces(cfg.scopes, scope.value);
    }
  }

  /**
    What a provider's return does: a live state is used up if it can be read, and a pending code request's item is
    stored under the callback's code for the code lifetime if the cache works.
   */
  lemma {:induction false} CallbackStoresExactly(cfg: Config, s: State, r: CallbackRequest)
    ensures var s' := ProviderReturn(cfg, s, r);
            var live := r.state in s.states && s.now < s.states[r.state].expires && !r.popFails;
            if !live then s' == s
            else
              && s'.states == s.states - {r.state}
              && if s.states[r.state].value.responseType != "code" || r.setFails then
                   s' == s.(states := s'.states)
                 else
                   && r.id in s'.codes
                   && var item := s'.codes[r.id].value;
                      && FromCallback(item, r, s.now) && item.scope == s.states[r.state].value.scope
                      && item.issuerState == s.states[r.state].value.issuerState
                      && s' == s.(states := s'.states,
                                  codes := s.codes[r.id := Entry(item, s.now + cfg.authCodeTTL, |s.log|)],
                                  log := s.log + [CodeStored(item, s.states[r.state].origin)])
  {
  }

  /** What an offer does: with a scope, and if the cache works, its item is stored, and its tx_code if it has one. */
  lemma {:induction false} OfferStoresExactly(cfg: Config, s: State, r: OfferRequest)
    ensures var s' := MakeOffer(cfg, s, r);
            if r.scope == [] || r.setFails then s' == s
            else
              && r.code in s'.codes && FromOffer(s'.codes[r.code].value, r)
              && s' == s.(codes := s.codes[r.code := Entry(s'.codes[r.code].value, s.now + cfg.authCodeTTL, |s.log|)],
                          txCodes := if r.noTXCode || r.setTxFails then s.txCodes
                                     else s.txCodes[r.code := Entry(r.txCode, s.now + cfg.preAuthTTL, |s.log|)],
                          log := s.log + [OfferStored(s'.codes[r.code].value,
                                                      if r.noTXCode then None else Some(r.txCode))])
  {
  }

  lemma NewEventsAreAsRequested(cfg: Config, s: State, op: Op, i: nat)
    requires |s.log| <= i < |Apply(cfg, s, op).log|
    ensures AsRequested(cfg, s, op, Apply(cfg, s, op).log[i])
  {
    hide RedeemCode, RedeemPreAuth, RedeemRefresh, Minted, Scopes.IsSupported, FormEncoding.First, FromAuthorize,
         SaveState;
    match op
    case Authorize(r) => AuthorizeSavesExactly(cfg, s, r);
    case Code(r) => SharedMaps.RedeemCodeFields(cfg, s, r);
    case PreAuth(r) => PreAuthStoresNothing(cfg, s, r);
    case Refresh(r) => RefreshEffect(cfg, s, r);
    case _ =>
  }

  lemma PreAuthStoresNothing(cfg: Config, s: State, r: PreAuthRequest)
    ensures var s' := RedeemPreAuth(cfg, s, r).0;
            && forall i :: |s.log| <= i < |s'.log| ==> s'.log[i].TxPresented? || s'.log[i].CodeRedeemed?
    ensures RedeemPreAuth(cfg, s, r).0.refresh == s.refresh
  {
    hide EarlyPreAuthRefusal, TxCodeRefused, NeedsDPoP, FinishPreAuth, RedeemPreAuth;
    var item := ItemAt(s.codes, r.code, s.now, None);
    PreAuthRuns(cfg, s, r);
    SharedMaps.FinishPreAuthFields(cfg, if item.noTXCode then s else AfterTxCode(s, r), r, item);
  }

  // --- how long what is stored can be used -----------------------------------------------

  /** What is new in the two caches was put there for its lifetime, with the number of a new event. */
  predicate PutFor(cfg: Config, s: State, s': State) {
    && (forall k :: k in s'.codes ==>
          || (k in s.codes && s'.codes[k] == s.codes[k])
          || (s'.codes[k].origin == |s.log| < |s'.log| && s'.codes[k].expires == s.now + cfg.authCodeTTL))
    && (forall k :: k in s'.states ==>
          || (k in s.states && s'.states[k] == s.states[k])
          || (s'.states[k].origin == |s.log| < |s'.log| && s'.states[k].expires == s.now + cfg.stateTTL
              && s'.states[k].value.state == k))
  }

  lemma StepPuts(cfg: Config, s: State, op: Op)
    ensures PutFor(cfg, s, Apply(cfg, s, op))
  {
    hide RedeemCode, RedeemPreAuth, RedeemRefresh, SaveState, ProviderReturn, MakeOffer, PutFor, FromAuthorize,
         FromCallback, FromOffer;
    match op
    case Tick(_) => TakenPuts(cfg, s, Apply(cfg, s, op));
    case Authorize(r) => AuthorizePuts(cfg, s, r);
    case Callback(r) => CallbackPuts(cfg, s, r);
    case Offer(r) => OfferPuts(cfg, s, r);
    case Code(r) => CodePuts(cfg, s, r);
    case PreAuth(r) => PreAuthPuts(cfg, s, r);
    case Refresh(r) =>
      RefreshEffect(cfg, s, r);
      TakenPuts(cfg, s, Apply(cfg, s, op));
  }

  lemma TakenPuts(cfg: Config, s: State, s': State)
    requires Shrinks(s.codes, s'.codes) && Shrinks(s.states, s'.states)
    ensures PutFor(cfg, s, s')
  {
  }

  /** One event at most, and no grant. */
  predicate GrantsNothing(s: State, s': State) {
    && s'.refresh == s.refresh && s.log <= s'.log && |s'.log| <= |s.log| + 1
    && (|s'.log| > |s.log| ==> !IsGrant(s'.log[|s.log|]))
  }

  lemma AuthorizePuts(cfg: Config, s: State, r: AuthorizeRequest)
    ensures PutFor(cfg, s, SaveState(cfg, s, r).0) && GrantsNothing(s, SaveState(cfg, s, r).0)
  {
    hide SaveState, FromAuthorize;
    AuthorizeSavesExactly(cfg, s, r);
  }

  lemma CallbackPuts(cfg: Config, s: State, r: CallbackRequest)
    ensures PutFor(cfg, s, ProviderReturn(cfg, s, r)) && GrantsNothing(s, ProviderReturn(cfg, s, r))
  {
    hide ProviderReturn, FromCallback;
    CallbackStoresExactly(cfg, s, r);
  }

  lemma OfferPuts(cfg: Config, s: State, r: OfferRequest)
    ensures PutFor(cfg, s, MakeOffer(cfg, s, r)) && GrantsNothing(s, MakeOffer(cfg, s, r))
  {
    hide MakeOffer, FromOffer;
    OfferStoresExactly(cfg, s, r);
  }

  lemma CodePuts(cfg: Config, s: State, r: CodeRequest)
    ensures PutFor(cfg, s, RedeemCode(cfg, s, r).0)
  {
    hide RedeemCode, Minted, ItemAt, EarlyRefusal, OriginAt;
    SharedMaps.RedeemCodeFields(cfg, s, r);
  }

  lemma PreAuthPuts(cfg: Config, s: State, r: PreAuthRequest)
    ensures PutFor(cfg, s, RedeemPreAuth(cfg, s, r).0)
  {
    hide EarlyPreAuthRefusal, TxCodeRefused, NeedsDPoP, FinishPreAuth, RedeemPreAuth, Minted;
    var item := ItemAt(s.codes, r.code, s.now, None);
    PreAuthRuns(cfg, s, r);
    SharedMaps.FinishPreAuthFields(cfg, if item.noTXCode then s else AfterTxCode(s, r), r, item);
  }

  lemma {:induction false} CodesArePutFor(cfg: Config, ops: seq<Op>, n: nat, k: GoString) returns (t: nat)
    requires Run(cfg, ops) && n <= |ops| && k in At(cfg, ops, n).codes
    ensures t < n && MadeBy(cfg, ops, t, At(cfg, ops, n).codes[k].origin)
    ensures At(cfg, ops, n).codes[k].expires == At(cfg, ops, t).now + cfg.authCodeTTL
    decreases n
  {
    hide Run, Exec, Enabled, Apply, Inv;
    AtStart(cfg, ops);
    if n == 0 {
      assert false;
    } else {
      NextPoint(cfg, ops, n - 1);
      StepPuts(cfg, At(cfg, ops, n - 1), ops[n - 1]);
      if k in At(cfg, ops, n - 1).codes && At(cfg, ops, n - 1).codes[k] == At(cfg, ops, n).codes[k] {
        t := CodesArePutFor(cfg, ops, n - 1, k);
      } else {
        t := n - 1;
      }
    }
  }

  lemma {:induction false} StatesArePutFor(cfg: Config, ops: seq<Op>, n: nat, k: GoString) returns (t: nat)
    requires Run(cfg, ops) && n <= |ops| && k in At(cfg, ops, n).states
    ensures t < n && MadeBy(cfg, ops, t, At(cfg, ops, n).states[k].origin)
    ensures At(cfg, ops, n).states[k].expires == At(cfg, ops, t).now + cfg.stateTTL
    ensures At(cfg, ops, n).states[k].value.state == k
    decreases n
  {
    hide Run, Exec, Enabled, Apply, Inv;
    AtStart(cfg, ops);
    if n == 0 {
      assert false;
    } else {
      NextPoint(cfg, ops, n - 1);
      StepPuts(cfg, At(cfg, ops, n - 1), ops[n - 1]);
      if k in At(cfg, ops, n - 1).states && At(cfg, ops, n - 1).states[k] == At(cfg, ops, n).states[k] {
        t := StatesArePutFor(cfg, ops, n - 1, k);
      } else {
        t := n - 1;
      }
    }
  }

  /** A saved state is that of an authorize request in order. */
  lemma {:induction false} StatesAreAsRequested(cfg: Config, ops: seq<Op>, o: nat) returns (t: nat)
    requires Run(cfg, ops) && o < |Exec(cfg, ops).log| && Exec(cfg, ops).log[o].StateSaved?
    ensures MadeBy(cfg, ops, t, o) && ops[t].Authorize?
    ensures FromAuthorize(cfg, Exec(cfg, ops).log[o].state, ops[t].authorize)
  {
    hide Run, Exec, Enabled, Apply, Inv, FromAuthorize, FromCallback, FromOffer;
    assert ops[..|ops|] == ops;
    t := EveryEventIsMade(cfg, ops, o, |ops|);
    NextPoint(cfg, ops, t);
    NewEventsAreAsRequested(cfg, At(cfg, ops, t), ops[t], o);
  }

  /**
    A callback's item holds what the callback request says: code, client, redirect URI, challenge and person. Its
    scope and issuer state are those of an authorize request in order, whose state the callback names, and which was
    accepted less than the state lifetime before.
   */
  lemma {:induction false} CallbackItemsAreAsRequested(cfg: Config, ops: seq<Op>, o: nat) returns (t: nat, u: nat)
    requires Run(cfg, ops) && o < |Exec(cfg, ops).log| && Exec(cfg, ops).log[o].CodeStored?
    ensures var e, log := Exec(cfg, ops).log[o], Exec(cfg, ops).log;
            && u < t && MadeBy(cfg, ops, t, o) && ops[t].Callback?
            && FromCallback(e.item, ops[t].callback, At(cfg, ops, t).now)
            && MadeBy(cfg, ops, u, e.savedState) && ops[u].Authorize? && e.savedState < o
              && log[e.savedState].StateSaved?
            && FromAuthorize(cfg, log[e.savedState].state, ops[u].authorize)
            && ops[u].authorize.state == ops[t].callback.state
            && e.item.scope == log[e.savedState].state.scope
              && e.item.issuerState == log[e.savedState].state.issuerState
            && At(cfg, ops, t).now < At(cfg, ops, u).now + cfg.stateTTL
  {
    hide Run, Exec, Enabled, Apply, FromAuthorize, FromCallback, FromOffer, CodesLogged, RedemptionsLogged,
         FamiliesLogged, StatesCounted, SessionsBound;
    assert ops[..|ops|] == ops;
    t := EveryEventIsMade(cfg, ops, o, |ops|);
    NextPoint(cfg, ops, t);
    LogsGrow(cfg, ops, t);
    NewEventsAreAsRequested(cfg, At(cfg, ops, t), ops[t], o);
    var e, k := Exec(cfg, ops).log[o], ops[t].callback.state;
    u := StatesArePutFor(cfg, ops, t, k);
    NextPoint(cfg, ops, u);
    LogsGrow(cfg, ops, u + 1);
    NewEventsAreAsRequested(cfg, At(cfg, ops, u), ops[u], e.savedState);
    SavedStateIsTheName(cfg, Exec(cfg, ops).log[e.savedState].state, ops[u].authorize);
  }

  lemma SavedStateIsTheName(cfg: Config, st: StateItem, r: AuthorizeRequest)
    requires FromAuthorize(cfg, st, r)
    ensures st.state == r.state
  {
    hide OrderlyUpToScope;
  }

  /** An offer's item holds what the offer request says, with the tx_code it announced. */
  lemma {:induction false} OfferItemsAreAsRequested(cfg: Config, ops: seq<Op>, o: nat) returns (t: nat)
    requires Run(cfg, ops) && o < |Exec(cfg, ops).log| && Exec(cfg, ops).log[o].OfferStored?
    ensures var e := Exec(cfg, ops).log[o];
            && MadeBy(cfg, ops, t, o) && ops[t].Offer? && FromOffer(e.item, ops[t].offer)
            && e.txCode == if ops[t].offer.noTXCode then None else Some(ops[t].offer.txCode)
  {
    hide Run, Exec, Enabled, Apply, Inv, FromAuthorize, FromCallback, FromOffer;
    assert ops[..|ops|] == ops;
    t := EveryEventIsMade(cfg, ops, o, |ops|);
    NextPoint(cfg, ops, t);
    NewEventsAreAsRequested(cfg, At(cfg, ops, t), ops[t], o);
  }

  /** A code is good for its lifetime: every grant on an item comes less than that after the item was stored. */
  lemma {:induction false} GrantsAreInTime(cfg: Config, ops: seq<Op>, i: nat, o: nat) returns (t: nat, u: nat)
    requires Run(cfg, ops) && i < |Exec(cfg, ops).log| && GrantOn(Exec(cfg, ops).log[i], o)
    ensures u < t && MadeBy(cfg, ops, t, i) && MadeBy(cfg, ops, u, o)
    ensures At(cfg, ops, t).now < At(cfg, ops, u).now + cfg.authCodeTTL
  {
    hide Run, Exec, Enabled, Apply, Inv, EarlyRefusal, EarlyPreAuthRefusal, ItemAt, Authenticate, NeedsDPoP;
    assert ops[..|ops|] == ops;
    t := EveryEventIsMade(cfg, ops, i, |ops|);
    NextPoint(cfg, ops, t);
    GrantIsMadeSo(cfg, At(cfg, ops, t), ops[t], i);
    u := CodesArePutFor(cfg, ops, t, if ops[t].Code? then ops[t].code.code else ops[t].preAuth.code);
  }

  // --- what sessions and templates descend from --------------------------------------------

  /** The session template of the item that a redemption rests on; the zero session where it rests on none. */
  function StoredTemplate(log: seq<Event>, f: nat): SessionV {
    if f < |log| && log[f].CodeRedeemed? && log[f].code.Some? && log[f].code.value < |log|
       && StoredItem(log[log[f].code.value]).Some?
    then StoredItem(log[log[f].code.value]).value.session else ZeroSession(None)
  }

  /** The same person, and the same metadata but for the key. */
  ghost predicate Descends(sess: SessionV, template: SessionV) {
    SamePerson(sess, template) && SameButKey(sess.meta, template.meta)
  }

  lemma DescendsOn(a: SessionV, b: SessionV, c: SessionV)
    requires Descends(a, b) && Descends(b, c)
    ensures Descends(a, c)
  {
  }

  lemma TemplateStays(log: seq<Event>, log': seq<Event>, f: nat)
    requires log <= log' && f < |log| && RedemptionLogged(log, f)
    ensures StoredTemplate(log', f) == StoredTemplate(log, f)
  {
  }

  /** Every cached refresh token's template descends from the item that its family rests on. */
  ghost predicate TokensDescend(s: State) {
    forall key :: key in s.refresh ==>
      s.refresh[key].origin < |s.log| && Descends(s.refresh[key].value.session,
                                                  StoredTemplate(s.log, s.refresh[key].origin))
  }

  /** The session of this grant is new, of that instant, and descends from the item that its family rests on. */
  ghost predicate Born(at: int, s': State, i: nat)
    requires i < |s'.log| && IsGrant(s'.log[i])
  {
    var g := s'.log[i].grant;
    && g.session in s'.sessions && s'.sessions[g.session].id == g.session
    && s'.sessions[g.session].lastAccessed == Some(at)
    && Descends(s'.sessions[g.session], StoredTemplate(s'.log, RootOf(s'.log, i)))
  }

  /** What a step adds to the sessions and to the templates. */
  ghost predicate AddsAsBorn(s: State, s': State) {
    && s.log <= s'.log
    && (forall i: nat :: |s.log| <= i < |s'.log| && IsGrant(s'.log[i]) ==> Born(s.now, s', i))
    && (forall key :: key in s'.refresh ==>
          || (key in s.refresh && s'.refresh[key] == s.refresh[key])
          || (s'.refresh[key].origin < |s'.log|
              && Descends(s'.refresh[key].value.session, StoredTemplate(s'.log, s'.refresh[key].origin))))
  }

  lemma MadeFromDescends(sess: SessionV, template: SessionV, id: GoString, at: int, jkt: GoString)
    requires MadeFrom(sess, template, id, at, jkt)
    ensures Descends(sess, template) && sess.id == id && sess.lastAccessed == Some(at)
  {
  }

  lemma CodeAddsAsBorn(cfg: Config, s: State, r: CodeRequest)
    requires CodesLogged(s) && r.newSession != r.code
    ensures AddsAsBorn(s, RedeemCode(cfg, s, r).0)
  {
    hide RedeemCode, EarlyRefusal, Minted, Descends, MadeFrom, RefreshKey, Authenticate;
    var (s', answer) := RedeemCode(cfg, s, r);
    SharedMaps.RedeemCodeFields(cfg, s, r);
    if answer.Issued? {
      var item := ItemAt(s.codes, r.code, s.now, None);
      CodeGives(cfg, s, r);
      MadeFromDescends(s'.sessions[r.newSession], item.session, r.newSession, s.now, r.jkt);
      assert StoredTemplate(s'.log, |s.log|) == item.session;
    } else {
      assert s.log + [] == s.log;
    }
  }

  lemma PreAuthAddsAsBorn(cfg: Config, s: State, r: PreAuthRequest)
    requires CodesLogged(s)
    ensures AddsAsBorn(s, RedeemPreAuth(cfg, s, r).0)
  {
    hide RedeemPreAuth, EarlyPreAuthRefusal, TxCodeRefused, FinishPreAuth, NeedsDPoP, Minted, Descends, MadeFrom;
    var (s', answer) := RedeemPreAuth(cfg, s, r);
    var item := ItemAt(s.codes, r.code, s.now, None);
    PreAuthStoresNothing(cfg, s, r);
    PreAuthRuns(cfg, s, r);
    SharedMaps.FinishPreAuthFields(cfg, if item.noTXCode then s else AfterTxCode(s, r), r, item);
    if answer.Issued? {
      PreAuthGrantGives(cfg, s, r);
      MadeFromDescends(s'.sessions[r.newSession], item.session, r.newSession, s.now, r.jkt);
      assert StoredTemplate(s'.log, |s'.log| - 1) == item.session;
    }
  }

  lemma RefreshAddsAsBorn(cfg: Config, s: State, r: RefreshRequest)
    requires RedemptionsLogged(s) && TokensDescend(s) && FreshToken(cfg, s, r.newToken)
    ensures AddsAsBorn(s, RedeemRefresh(cfg, s, r).0)
  {
    hide RedeemRefresh, Minted, NextTemplate, Descends, MadeFrom, RedemptionLogged;
    var (s', answer) := RedeemRefresh(cfg, s, r);
    RefreshEffect(cfg, s, r);
    RefreshAnswersAgree(cfg, s, r);
    if s'.log != s.log {
      var key := RefreshKey(cfg, r.token);
      var item, f := s.refresh[key].value, s.refresh[key].origin;
      assert RedemptionLogged(s.log, f);
      TemplateStays(s.log, s'.log, f);
      RefreshGrantGives(cfg, s, r);
      MadeFromDescends(s'.sessions[r.newSession], item.session, r.newSession, s.now, r.jkt);
      DescendsOn(s'.sessions[r.newSession], item.session, StoredTemplate(s'.log, f));
      NextDescends(item.session, r.jkt, StoredTemplate(s'.log, f));
    }
  }

  lemma NextDescends(a: SessionV, jkt: GoString, c: SessionV)
    requires Descends(a, c)
    ensures Descends(NextTemplate(a, jkt), c)
  {
    hide NextTemplate;
    NextKeepsPerson(a, jkt);
  }

  lemma StepAddsAsBorn(cfg: Config, s: State, op: Op)
    requires Enabled(cfg, s, op) && Inv(cfg, s) && TokensDescend(s)
    ensures AddsAsBorn(s, Apply(cfg, s, op))
  {
    hide RedeemCode, RedeemPreAuth, RedeemRefresh, AddsAsBorn, FamiliesLogged, StatesLogged, StatesCounted,
         SessionsBound, TokensDescend, RedemptionsLogged, CodesLogged, FreshSession;
    match op
    case Code(r) => CodeAddsAsBorn(cfg, s, r);
    case PreAuth(r) => PreAuthAddsAsBorn(cfg, s, r);
    case Refresh(r) => RefreshAddsAsBorn(cfg, s, r);
    case _ => OthersAddNothing(cfg, s, op);
  }

  lemma OthersAddNothing(cfg: Config, s: State, op: Op)
    requires op.Tick? || op.Authorize? || op.Callback? || op.Offer?
    ensures AddsAsBorn(s, Apply(cfg, s, op))
  {
    hide SaveState, ProviderReturn, MakeOffer, PutFor, GrantsNothing, AddsAsBorn;
    match op {
      case Tick(_) => NoEvent(s, Apply(cfg, s, op));
      case Authorize(r) => AuthorizePuts(cfg, s, r);
      case Callback(r) => CallbackPuts(cfg, s, r);
      case Offer(r) => OfferPuts(cfg, s, r);
    }
    NothingIsBorn(s, Apply(cfg, s, op));
  }

  lemma NoEvent(s: State, s': State)
    requires s'.refresh == s.refresh && s'.log == s.log
    ensures GrantsNothing(s, s')
  {
  }

  lemma NothingIsBorn(s: State, s': State)
    requires GrantsNothing(s, s')
    ensures AddsAsBorn(s, s')
  {
    hide Descends, Born;
  }

  lemma StepKeepsTokensDescend(s: State, s': State)
    requires AddsAsBorn(s, s') && TokensDescend(s) && RedemptionsLogged(s)
    ensures TokensDescend(s')
  {
    hide Descends, RedemptionLogged;
    forall key | key in s'.refresh
      ensures s'.refresh[key].origin < |s'.log|
              && Descends(s'.refresh[key].value.session, StoredTemplate(s'.log, s'.refresh[key].origin)) {
      if key in s.refresh && s'.refresh[key] == s.refresh[key] {
        assert RedemptionLogged(s.log, s.refresh[key].origin);
        TemplateStays(s.log, s'.log, s.refresh[key].origin);
      }
    }
  }

  lemma {:induction false} RunTokensDescend(cfg: Config, ops: seq<Op>, n: nat)
    requires Run(cfg, ops) && n <= |ops|
    ensures TokensDescend(At(cfg, ops, n))
    decreases n
  {
    hide Run, Exec, Enabled, Apply, AddsAsBorn, TokensDescend, CodesLogged, RedemptionsLogged, FamiliesLogged,
         StatesLogged, StatesCounted, SessionsBound;
    if n == 0 {
      AtStart(cfg, ops);
      StartDescends();
    } else {
      RunTokensDescend(cfg, ops, n - 1);
      NextPoint(cfg, ops, n - 1);
      StepAddsAsBorn(cfg, At(cfg, ops, n - 1), ops[n - 1]);
      StepKeepsTokensDescend(At(cfg, ops, n - 1), At(cfg, ops, n));
    }
  }

  lemma StartDescends()
    ensures TokensDescend(INITIAL)
  {
  }

  // --- sessions stay what they were ---------------------------------------------------------

  lemma NewSessionsAreFresh(cfg: Config, s: State, op: Op, id: GoString)
    requires Enabled(cfg, s, op) && id !in s.sessions && id in Apply(cfg, s, op).sessions
    ensures FreshSession(s, id)
  {
    hide Enabled, Apply, Micro;
    var mid := StepShape(cfg, s, op);
    SessionsView(cfg, s, mid);
    SessionsView(cfg, mid, Apply(cfg, s, op));
    MicroGrows(cfg, s, mid);
  }

  /** As long as a granted session exists it is the session that the grant made. */
  lemma {:induction false} GrantedSessionsStay(cfg: Config, ops: seq<Op>, m: nat, n: nat, i: nat)
    requires Run(cfg, ops) && m <= n <= |ops| && i < |At(cfg, ops, m).log| && IsGrant(At(cfg, ops, m).log[i])
    requires At(cfg, ops, m).log[i].grant.session in At(cfg, ops, m).sessions
    requires At(cfg, ops, m).log[i].grant.session in At(cfg, ops, n).sessions
    ensures At(cfg, ops, m).log <= At(cfg, ops, n).log
    ensures var id := At(cfg, ops, m).log[i].grant.session;
            At(cfg, ops, n).sessions[id] == At(cfg, ops, m).sessions[id]
    decreases n - m
  {
    hide Run, Exec, Enabled, Apply, Inv, Entitled, ItemAt;
    if m < n {
      var id := At(cfg, ops, m).log[i].grant.session;
      NextPoint(cfg, ops, n - 1);
      PointsGrow(cfg, ops, m, n - 1);
      if id in At(cfg, ops, n - 1).sessions {
        GrantedSessionsStay(cfg, ops, m, n - 1, i);
        SessionsGoExactly(cfg, At(cfg, ops, n - 1), ops[n - 1], id);
      } else {
        NewSessionsAreFresh(cfg, At(cfg, ops, n - 1), ops[n - 1], id);
        assert false;
      }
    }
  }

  lemma {:induction false} PointsGrow(cfg: Config, ops: seq<Op>, m: nat, n: nat)
    requires Run(cfg, ops) && m <= n <= |ops|
    ensures At(cfg, ops, m).log <= At(cfg, ops, n).log
    decreases n - m
  {
    hide Run, Exec, Enabled, Apply, Inv;
    if m < n {
      PointsGrow(cfg, ops, m, n - 1);
      NextPoint(cfg, ops, n - 1);
    }
  }

  lemma RootIsLogged(cfg: Config, s: State, i: nat)
    requires Inv(cfg, s) && i < |s.log| && IsGrant(s.log[i])
    ensures RootOf(s.log, i) <= i && s.log[RootOf(s.log, i)].CodeRedeemed? && RedemptionLogged(s.log, RootOf(s.log, i))
    ensures s.log[RootOf(s.log, i)].grant.subject == s.log[i].grant.subject
            && s.log[RootOf(s.log, i)].grant.scope == s.log[i].grant.scope
  {
    hide RedemptionLogged, CodesLogged, StatesLogged, StatesCounted, SessionsBound;
    if s.log[i].Refreshed? {
      assert RootedAt(s.log[..i], s.log[i].family, s.log[i].grant);
    }
  }

  /**
    Every session that a grant made, at every later point at which it exists: its last access is the instant of its
    grant, and its subject, names, person code, state and metadata other than the key are those of the template stored
    with the item that its family rests on.
   */
  lemma {:induction false} SessionsDescend(cfg: Config, ops: seq<Op>, i: nat) returns (t: nat)
    requires Run(cfg, ops) && i < |Exec(cfg, ops).log| && IsGrant(Exec(cfg, ops).log[i])
    requires Exec(cfg, ops).log[i].grant.session in Exec(cfg, ops).sessions
    ensures MadeBy(cfg, ops, t, i)
    ensures var s := Exec(cfg, ops);
            var sess := s.sessions[s.log[i].grant.session];
            && sess.id == s.log[i].grant.session && sess.lastAccessed == Some(At(cfg, ops, t).now)
            && Descends(sess, StoredTemplate(s.log, RootOf(s.log, i)))
  {
    hide Run, Exec, Enabled, Apply, TokensDescend, Descends, Inv, StoredTemplate, RedemptionLogged;
    assert ops[..|ops|] == ops;
    t := EveryEventIsMade(cfg, ops, i, |ops|);
    NextPoint(cfg, ops, t);
    RunTokensDescend(cfg, ops, t);
    StepAddsAsBorn(cfg, At(cfg, ops, t), ops[t]);
    var s := At(cfg, ops, t + 1);
    assert Born(At(cfg, ops, t).now, s, i);
    GrantedSessionsStay(cfg, ops, t + 1, |ops|, i);
    InvAt(cfg, ops, t + 1);
    RootIsLogged(cfg, s, i);
    TemplateStays(s.log, Exec(cfg, ops).log, RootOf(s.log, i));
  }

  lemma InvAt(cfg: Config, ops: seq<Op>, t: nat)
    requires Run(cfg, ops) && t <= |ops|
    ensures Inv(cfg, At(cfg, ops, t))
  {
    hide Inv, Apply, Enabled;
    assert forall i :: 0 <= i < t ==> ops[..t][..i] == ops[..i];
    RunInv(cfg, ops[..t]);
  }

  /** The same on every server, whichever metadata maps its storage shares. */
  lemma {:induction false} ServedSessionsDescend(cfg: Config, calls: seq<Call>, i: nat) returns (t: nat)
    requires Run(cfg, Ops(calls))
    requires var s := Serve(cfg, calls).state; i < |s.log| && IsGrant(s.log[i]) && s.log[i].grant.session in s.sessions
    ensures MadeBy(cfg, Ops(calls), t, i)
    ensures var s := Serve(cfg, calls).state;
            var sess := s.sessions[s.log[i].grant.session];
            && sess.id == s.log[i].grant.session && sess.lastAccessed == Some(At(cfg, Ops(calls), t).now)
            && Descends(sess, StoredTemplate(s.log, RootOf(s.log, i)))
  {
    hide Run, Exec, Serve, SameCodes, SameTokens, Descends, StoredTemplate;
    SharingShowsInMapsOnly(cfg, calls);
    t := SessionsDescend(cfg, Ops(calls), i);
    var s, v := Serve(cfg, calls).state, Exec(cfg, Ops(calls));
    var id := s.log[i].grant.session;
    SameDescends(s.sessions[id], v.sessions[id], StoredTemplate(s.log, RootOf(s.log, i)));
  }

  lemma SameDescends(a: SessionV, b: SessionV, template: SessionV)
    requires SameSession(a, b) && Descends(b, template)
    ensures Descends(a, template) && a.id == b.id && a.lastAccessed == b.lastAccessed
  {
  }

  /** No request puts a scope into the template it stores, so no granted session has one, whatever the token's scope. */
  lemma {:induction false} TemplatesHaveNoScope(cfg: Config, ops: seq<Op>, f: nat)
    requires Run(cfg, ops)
    ensures StoredTemplate(Exec(cfg, ops).log, f).scope == []
  {
    hide Run, Exec;
    var log := Exec(cfg, ops).log;
    if f < |log| && log[f].CodeRedeemed? && log[f].code.Some? && log[f].code.value < |log| {
      var o := log[f].code.value;
      if log[o].CodeStored? {
        var t, u := CallbackItemsAreAsRequested(cfg, ops, o);
      } else if log[o].OfferStored? {
        var t := OfferItemsAreAsRequested(cfg, ops, o);
      }
    }
  }

  /** So introspection claims of a granted session what it would claim of that template. */
  lemma ClaimsDescend(sess: SessionV, template: SessionV, parse: Introspection.JsonParser, k: GoString)
    requires Descends(sess, template)
    ensures Introspection.ClaimOf(sess, parse, k) == Introspection.ClaimOf(template, parse, k)
  {
    assert "dpop_jkt" != "extra_claims" by { assert "dpop_jkt"[0] == 'd' && "extra_claims"[0] == 'e'; }
    assert Holds(sess.meta, "extra_claims") <==> Holds(template.meta, "extra_claims");
  }

  // --- whom a token stands for -----------------------------------------------------------------

  /** The grant, or the first grant of its refresh family, was made on the o-th item. */
  predicate RestsOn(log: seq<Event>, i: nat, o: nat) {
    i < |log| && IsGrant(log[i]) && RootOf(log, i) < |log| && GrantOn(log[RootOf(log, i)], o)
  }

  /** The session is the callback request's person's, with the extra claims it carried and no others. */
  ghost predicate OfCallback(sess: SessionV, r: CallbackRequest) {
    && sess.subject == r.userID && sess.firstName == r.firstName && sess.lastName == r.lastName
    && sess.personCode == r.personCode && sess.scope == [] && sess.state == "authorized"
    && (forall k :: k != "dpop_jkt" ==> (Holds(sess.meta, k) <==> k == "extra_claims" && r.extraClaims.Some?))
    && (r.extraClaims.Some? ==> Holds(sess.meta, "extra_claims")
                                && sess.meta.value["extra_claims"] == r.extraClaims.value)
  }

  /** The session is the person's that the offer request names. */
  ghost predicate OfOffer(sess: SessionV, r: OfferRequest) {
    && sess.subject == r.sessionID && sess.firstName == r.givenName && sess.lastName == r.familyName
    && sess.personCode == [] && sess.scope == [] && sess.state == "authorized"
    && forall k :: k != "dpop_jkt" ==> !Holds(sess.meta, k)
  }

  lemma DescendsFromCallback(sess: SessionV, item: CodeItemV, r: CallbackRequest, at: int)
    requires Descends(sess, item.session) && FromCallback(item, r, at)
    ensures OfCallback(sess, r)
  {
    assert "dpop_jkt" != "extra_claims" by { assert "dpop_jkt"[0] == 'd' && "extra_claims"[0] == 'e'; }
  }

  lemma DescendsFromOffer(sess: SessionV, item: CodeItemV, r: OfferRequest)
    requires Descends(sess, item.session) && FromOffer(item, r)
    ensures OfOffer(sess, r)
  {
  }

  lemma RestsOnItem(cfg: Config, ops: seq<Op>, i: nat, o: nat)
    requires Run(cfg, ops) && RestsOn(Exec(cfg, ops).log, i, o)
    ensures var log := Exec(cfg, ops).log;
            && o < |log| && StoredItem(log[o]).Some?
            && log[i].grant.scope == StoredItem(log[o]).value.scope
            && log[i].grant.subject == StoredItem(log[o]).value.session.subject
            && StoredTemplate(log, RootOf(log, i)) == StoredItem(log[o]).value.session
  {
    hide Run, Exec, Inv;
    RunInv(cfg, ops);
    RootIsLogged(cfg, Exec(cfg, ops), i);
  }

  /**
    Whom a token stands for, through any number of rotations, whatever fails and whichever maps are shared: a grant
    that descends from a callback's item has that callback request's user as its subject, and its session is that
    person's, with the extra claims of that request.
   */
  lemma {:induction false} CallbackGrants(cfg: Config, calls: seq<Call>, i: nat, o: nat) returns (c: nat, t: nat)
    requires Run(cfg, Ops(calls))
    requires var log := Serve(cfg, calls).state.log; RestsOn(log, i, o) && o < |log| && log[o].CodeStored?
    ensures var s, ops := Serve(cfg, calls).state, Ops(calls);
            var g := s.log[i].grant;
            && MadeBy(cfg, ops, c, o) && ops[c].Callback? && MadeBy(cfg, ops, t, i)
            && g.subject == ops[c].callback.userID
            && (g.session in s.sessions ==>
                  && OfCallback(s.sessions[g.session], ops[c].callback)
                  && s.sessions[g.session].lastAccessed == Some(At(cfg, ops, t).now))
  {
    hide Run, Exec, Serve, SameCodes, SameTokens, SameSessions, Descends, StoredTemplate, OfCallback, FromCallback,
         FromAuthorize;
    SharingShowsInMapsOnly(cfg, calls);
    var ops, s := Ops(calls), Serve(cfg, calls).state;
    var u;
    c, u := CallbackItemsAreAsRequested(cfg, ops, o);
    RestsOnItem(cfg, ops, i, o);
    CallbackSubject(s.log[o].item, ops[c].callback, At(cfg, ops, c).now);
    if s.log[i].grant.session in s.sessions {
      t := ServedSessionsDescend(cfg, calls, i);
      DescendsFromCallback(s.sessions[s.log[i].grant.session], s.log[o].item, ops[c].callback, At(cfg, ops, c).now);
    } else {
      assert ops[..|ops|] == ops;
      t := EveryEventIsMade(cfg, ops, i, |ops|);
    }
  }

  lemma CallbackSubject(item: CodeItemV, r: CallbackRequest, at: int)
    requires FromCallback(item, r, at)
    ensures item.session.subject == r.userID
  {
  }

  /** The same for an offer: scope, subject and names are those of the offer request. */
  lemma {:induction false} OfferGrants(cfg: Config, calls: seq<Call>, i: nat, o: nat) returns (c: nat, t: nat)
    requires Run(cfg, Ops(calls))
    requires var log := Serve(cfg, calls).state.log; RestsOn(log, i, o) && o < |log| && log[o].OfferStored?
    ensures var s, ops := Serve(cfg, calls).state, Ops(calls);
            var g := s.log[i].grant;
            && MadeBy(cfg, ops, c, o) && ops[c].Offer? && MadeBy(cfg, ops, t, i)
            && g.subject == ops[c].offer.sessionID && g.scope == ops[c].offer.scope
            && (g.session in s.sessions ==>
                  && OfOffer(s.sessions[g.session], ops[c].offer)
                  && s.sessions[g.session].lastAccessed == Some(At(cfg, ops, t).now))
  {
    hide Run, Exec, Serve, SameCodes, SameTokens, SameSessions, Descends, StoredTemplate, OfOffer;
    SharingShowsInMapsOnly(cfg, calls);
    var ops, s := Ops(calls), Serve(cfg, calls).state;
    c := OfferItemsAreAsRequested(cfg, ops, o);
    RestsOnItem(cfg, ops, i, o);
    if s.log[i].grant.session in s.sessions {
      t := ServedSessionsDescend(cfg, calls, i);
      DescendsFromOffer(s.sessions[s.log[i].grant.session], s.log[o].item, ops[c].offer);
    } else {
      assert ops[..|ops|] == ops;
      t := EveryEventIsMade(cfg, ops, i, |ops|);
    }
  }

  /**
    What the callback's request asked for is what a code is redeemed with: an authorization_code grant on its item
    came with its redirect URI, with a verifier for its challenge and, from a wallet, for its client, while the code
    was alive.
   */
  lemma {:induction false} CodeGrantsComeFromTheirCallback(cfg: Config, ops: seq<Op>, i: nat, o: nat)
    returns (c: nat, t: nat)
    requires Run(cfg, ops) && i < |Exec(cfg, ops).log|
    requires var log := Exec(cfg, ops).log; GrantOn(log[i], o) && !log[i].preAuth && o < |log| && log[o].CodeStored?
    ensures MadeBy(cfg, ops, c, o) && ops[c].Callback? && MadeBy(cfg, ops, t, i) && ops[t].Code? && c < t
    ensures var asked, r := ops[c].callback, ops[t].code;
            && r.code == asked.id && r.redirectURI == asked.redirectURI
            && asked.codeChallenge == (if asked.codeChallengeMethod == "S256" then EncodedDigest(cfg.sha, r.verifier)
                                       else r.verifier)
            && (r.client.ByWallet? ==> ProvenClient(r.client) == asked.clientID)
            && At(cfg, ops, t).now < At(cfg, ops, c).now + cfg.authCodeTTL
  {
    hide Run, Exec, FromAuthorize, EncodedDigest, ProvesClient;
    var u;
    c, u := CallbackItemsAreAsRequested(cfg, ops, o);
    t := CodeGrantsCameWithTheVerifier(cfg, ops, i, o);
    var t1 := CodeGrantsAreAuthenticated(cfg, ops, i);
    var t2, c2 := GrantsAreInTime(cfg, ops, i, o);
    OneMaker(cfg, ops, t, t1, i);
    OneMaker(cfg, ops, t, t2, i);
    OneMaker(cfg, ops, c, c2, o);
  }

  lemma OneMaker(cfg: Config, ops: seq<Op>, t: nat, t': nat, i: nat)
    requires Run(cfg, ops) && MadeBy(cfg, ops, t, i) && MadeBy(cfg, ops, t', i)
    ensures t == t'
  {
    hide Run, Exec;
    if t < t' {
      PointsGrow(cfg, ops, t + 1, t');
    } else if t' < t {
      PointsGrow(cfg, ops, t' + 1, t);
    }
  }
}
