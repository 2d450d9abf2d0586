/**
  The authorize leg on real references: authorizationcode/validation.go, the provider callback of
  oauth2generic/oauth2generic.go with authorizationcode/authorization.go, and routes/preauth.go.
 */
module AuthorizeHandlers {
  import opened GoStrings
  import opened Items
  import opened TtlCache
  import opened FormEncoding
  import opened Grants
  import opened StoreModel
  import opened SharedMaps
  import opened MapViews
  import opened Lifecycle
  import opened TokenHandlers
  import Scopes

  /** ValidateAndSaveState up to SetState: the item to store, if any, and whether the request is in order. */
  method CheckAuthorizeRequest(cfg: Config, r: AuthorizeRequest) returns (item: Option<StateItem>, ok: bool)
    ensures First(r.query, "response_type") != Some(CODE) ==> ok && item.None?
    ensures First(r.query, "response_type") == Some(CODE) && !ParametersValid(cfg, r.clientID, r.query) ==>
            !ok && item.None?
    ensures First(r.query, "response_type") == Some(CODE) && ParametersValid(cfg, r.clientID, r.query) ==>
              match First(r.query, "scope")
              case None => ok && item.None?
              case Some(scope) =>
                if Scopes.IsSupported(cfg.scopes, scope) then
                  ok && item == Some(StateItem(r.state, CODE, scope,
                                               match First(r.query, "issuer_state") case None => [] case Some(v) => v))
                else !ok && item.None?
  {
    var responseType := First(r.query, "response_type");
    if responseType.None? || responseType.value != CODE {
      return None, true;
    }
    if r.clientID !in cfg.clients {
      return None, false;
    }
    var redirectURI := First(r.query, "redirect_uri");
    if redirectURI.None? || redirectURI.value !in cfg.clients[r.clientID].redirectURIs {
      return None, false;
    }
    var challenge := First(r.query, "code_challenge");
    if challenge.None? || |challenge.value| < 43 || 128 < |challenge.value| {
      return None, false;
    }
    var challengeMethod := First(r.query, "code_challenge_method");
    if challengeMethod.None? || challengeMethod.value != S256 {
      return None, false;
    }
    var scope := First(r.query, "scope");
    if scope.None? {
      return None, true;
    }
    var supported := Scopes.Supported(cfg.scopes, scope.value);
    if !supported {
      return None, false;
    }
    var issuerState := First(r.query, "issuer_state");
    var stateItem := StateItem(r.state, responseType.value, scope.value, []);
    if issuerState.Some? {
      stateItem := stateItem.(issuerState := issuerState.value);
    }
    return Some(stateItem), true;
  }

  /** SetState and the record of it. */
  method KeepState(store: Store, sessions: SessionStore, item: StateItem, fails: bool, ghost ties: Ties)
    returns (ok: bool)
    requires Separated(store, sessions, ties)
    modifies store`states, store`log
    ensures ok == !fails && Separated(store, sessions, ties)
    ensures var s := old(StateOf(store, sessions));
            var entry := Entry(item, s.now + store.cfg.stateTTL, |s.log|);
            StateOf(store, sessions) ==
            if ok then s.(states := s.states[item.state := entry], log := s.log + [StateSaved(item)]) else s
  {
    hide CodesOf, RefreshesOf, SessionsOf, CodeMapsApart, TiesAre, RefreshMapsBound;
    ghost var maps := (CodeMetas(store.codes), RefreshMetas(store.refresh), SessionMetas(sessions.table));
    ok := store.SetState(item, |store.log|, fails);
    if ok {
      store.log := store.log + [StateSaved(item)];
    }
  }

  method ValidateAndSaveState(store: Store, sessions: SessionStore, r: AuthorizeRequest, ghost ties: Ties)
    returns (ok: bool)
    requires Separated(store, sessions, ties)
    modifies store
    ensures (StateOf(store, sessions), ok) == SaveState(store.cfg, old(StateOf(store, sessions)), r)
    ensures Separated(store, sessions, ties)
  {
    hide CodesOf, RefreshesOf, SessionsOf, CodeMapsApart, TiesAre, RefreshMapsBound, ParametersValid, First;
    ghost var maps := (CodeMetas(store.codes), RefreshMetas(store.refresh), SessionMetas(sessions.table));
    var item, valid := CheckAuthorizeRequest(store.cfg, r);
    if !valid {
      return false;
    }
    if item.None? {
      return true;
    }
    ok := KeepState(store, sessions, item.value, r.setFails, ties);
  }

  /** SetItem, for an item whose map nobody else has. */
  method KeepCode(store: Store, sessions: SessionStore, item: CodeItemR, fails: bool, ghost ties: Ties)
    returns (ok: bool)
    requires Separated(store, sessions, ties)
    requires item.session.meta !in CodeMetas(store.codes) && item.session.meta !in RefreshMetas(store.refresh)
    requires item.session.meta !in SessionMetas(sessions.table)
    modifies store`codes
    ensures ok == !fails && Separated(store, sessions, if ok then Without(ties, item.code) else ties)
    ensures var s, entry := old(StateOf(store, sessions)),
            Entry(old(ItemOf(item)), store.now + store.cfg.authCodeTTL, |store.log|);
            StateOf(store, sessions) == if ok then s.(codes := s.codes[item.code := entry]) else s
  {
    hide CodesOf, RefreshesOf, SessionsOf, CodeMapsApart, TiesAre, RefreshMapsBound, ItemOf, Without;
    ghost var maps := (CodeMetas(store.codes), RefreshMetas(store.refresh), SessionMetas(sessions.table));
    ghost var entry := Entry(item, store.now + store.cfg.authCodeTTL, |store.log|);
    CodesWith(store.codes, item.code, entry);
    SharingWithCode(store.codes, store.refresh, sessions.table, ties, item.code, entry);
    ghost var after := CodeMetas(store.codes[item.code := entry]);
    ok := store.SetItem(item, |store.log|, fails);
  }

  /** SetItem and the record of it. */
  method StoreCode(store: Store, sessions: SessionStore, item: CodeItemR, event: Event, fails: bool, ghost ties: Ties)
    returns (ok: bool)
    requires Separated(store, sessions, ties)
    requires item.session.meta !in CodeMetas(store.codes) && item.session.meta !in RefreshMetas(store.refresh)
    requires item.session.meta !in SessionMetas(sessions.table)
    modifies store`codes, store`log
    ensures ok == !fails && Separated(store, sessions, if ok then Without(ties, item.code) else ties)
    ensures var s, entry := old(StateOf(store, sessions)),
            Entry(old(ItemOf(item)), store.now + store.cfg.authCodeTTL, |old(store.log)|);
            StateOf(store, sessions) == if ok then s.(codes := s.codes[item.code := entry], log := s.log + [event])
              else s
  {
    hide CodesOf, RefreshesOf, SessionsOf, Separated, ItemOf, Without;
    ok := KeepCode(store, sessions, item, fails, ties);
    if ok {
      Record(store, sessions, event, Without(ties, item.code));
    }
  }

  /** The item authorizationcode.Callback stores, its metadata map made afresh when there are claims to carry. */
  method MakeCallbackItem(r: CallbackRequest, st: StateItem, now: int) returns (item: CodeItemR)
    ensures ItemOf(item) == CallbackItem(r, st, now) && item.code == r.id
    ensures item.session.meta == null || fresh(item.session.meta)
  {
    var meta: Metadata? := null;
    if r.extraClaims.Some? {
      meta := new Metadata(map[EXTRA_CLAIMS := r.extraClaims.value]);
    }
    var sess := Session([], r.userID, r.firstName, r.lastName, r.personCode, [], AUTHORIZED, Some(now), meta);
    item := AuthCodeItem(r.id, r.clientID, r.userID, r.redirectURI, r.codeChallenge, r.codeChallengeMethod, st.scope,
                         st.issuerState, false, sess);
  }

  method PopSavedState(store: Store, sessions: SessionStore, state: GoString, fails: bool, ghost ties: Ties)
    returns (e: Option<Entry<StateItem>>)
    requires Separated(store, sessions, ties)
    modifies store`states
    ensures var s := old(StateOf(store, sessions));
            && e == (if fails then None else Lookup(s.states, state, s.now))
            && StateOf(store, sessions) == (if e.None? then s else s.(states := s.states - {state}))
    ensures Separated(store, sessions, ties)
  {
    hide CodesOf, RefreshesOf, SessionsOf, CodeMapsApart, TiesAre, RefreshMapsBound;
    ghost var maps := (CodeMetas(store.codes), RefreshMetas(store.refresh), SessionMetas(sessions.table));
    e := store.PopState(state, fails);
  }

  lemma CallbackActs(cfg: Config, s: State, r: CallbackRequest)
    ensures var found := Lookup(s.states, r.state, s.now);
            Acts(cfg, s, Callback(r)) <==>
              found.Some? && !r.popFails && found.value.value.responseType == CODE && !r.setFails
  {
  }

  /** A provider's return. */
  method ProviderCallback(store: Store, sessions: SessionStore, r: CallbackRequest, ghost ties: Ties)
    requires Separated(store, sessions, ties)
    modifies store
    ensures StateOf(store, sessions) == ProviderReturn(store.cfg, old(StateOf(store, sessions)), r)
    ensures Separated(store, sessions, TiesFor(store.cfg, old(StateOf(store, sessions)), ties, Callback(r),
                                               Sharing(true, true, true)))
  {
    hide CodesOf, RefreshesOf, SessionsOf, CodeMapsApart, TiesAre, RefreshMapsBound, CallbackItem, Acts;
    CallbackActs(store.cfg, StateOf(store, sessions), r);
    var e := PopSavedState(store, sessions, r.state, r.popFails, ties);
    if e.Some? && e.value.value.responseType == CODE {
      ghost var maps := (CodeMetas(store.codes), RefreshMetas(store.refresh), SessionMetas(sessions.table));
      var item := MakeCallbackItem(r, e.value.value, store.now);
      var _ := StoreCode(store, sessions, item, CodeStored(CallbackItem(r, e.value.value, store.now), e.value.origin),
                         r.setFails, ties);
    }
  }

  method StoreTxCode(store: Store, sessions: SessionStore, code: GoString, txCode: int, origin: nat, fails: bool,
                     ghost ties: Ties)
    returns (ok: bool)
    requires Separated(store, sessions, ties)
    modifies store`txCodes
    ensures ok == !fails && Separated(store, sessions, ties)
    ensures var s := old(StateOf(store, sessions));
            var entry := Entry(txCode, s.now + store.cfg.preAuthTTL, origin);
            StateOf(store, sessions) == if fails then s else s.(txCodes := s.txCodes[code := entry])
  {
    hide CodesOf, RefreshesOf, SessionsOf, CodeMapsApart, TiesAre, RefreshMapsBound;
    ghost var maps := (CodeMetas(store.codes), RefreshMetas(store.refresh), SessionMetas(sessions.table));
    ok := store.SetTXCode(code, txCode, origin, fails);
  }

  lemma OfferActs(cfg: Config, s: State, r: OfferRequest)
    ensures Acts(cfg, s, Offer(r)) <==> r.scope != [] && !r.setFails
  {
  }

  /** preauthGenerate: the item, then the tx_code unless the offer goes without. */
  method PreauthGenerate(store: Store, sessions: SessionStore, r: OfferRequest, ghost ties: Ties) returns (ok: bool)
    requires Separated(store, sessions, ties)
    modifies store
    ensures StateOf(store, sessions) == MakeOffer(store.cfg, old(StateOf(store, sessions)), r)
    ensures ok == (r.scope != [] && !r.setFails && (r.noTXCode || !r.setTxFails))
    ensures Separated(store, sessions, TiesFor(store.cfg, old(StateOf(store, sessions)), ties, Offer(r),
                                               Sharing(true, true, true)))
  {
    hide CodesOf, RefreshesOf, SessionsOf, Separated, Acts, Without;
    OfferActs(store.cfg, StateOf(store, sessions), r);
    if r.scope == [] {
      return false;
    }
    var sess: SessionR := Session([], r.sessionID, r.givenName, r.familyName, [], [], AUTHORIZED, None, null);
    var item := AuthCodeItem(r.code, "issuer-backend", r.sessionID, [], [], [], r.scope, [], r.noTXCode, sess);
    var origin := |store.log|;
    ok := StoreCode(store, sessions, item, OfferStored(OfferItem(r), if r.noTXCode then None else Some(r.txCode)),
                    r.setFails, ties);
    if !ok {
      return;
    }
    if !r.noTXCode {
      ok := StoreTxCode(store, sessions, r.code, r.txCode, origin, r.setTxFails, Without(ties, r.code));
    }
  }
}
