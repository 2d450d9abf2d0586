/** routes/par.go and routes/authorization.go as methods on the store, tied to the moves of Delegation. */
module DelegationHandlers {
  import opened GoStrings
  import opened Items
  import opened TtlCache
  import opened FormEncoding
  import opened Grants
  import opened StoreModel
  import opened Delegation
  import ErrorRedirect
  import Scopes

  /** The request checks that par makes one after the other. */
  method CheckPush(cfg: Config, r: PushRequest) returns (error: Option<PushError>)
    ensures error == FirstPushError(cfg, r)
    ensures error.None? <==> PushAccepted(cfg, r)
  {
    hide PushAccepted, Parse, First;
    AcceptedExactlyWithoutError(cfg, r);
    var form := Parse(r.body);
    if r.attested.None? {
      return Some(NotAttested);
    }
    var id := First(form, CLIENT_ID);
    if id.None? || id.value == [] {
      return Some(NoClientID);
    }
    if r.attested.value != id.value {
      return Some(OtherClient);
    }
    if id.value !in cfg.clients {
      return Some(UnknownClient);
    }
    var redirectURI := First(form, REDIRECT_URI);
    if redirectURI.None? || redirectURI.value !in cfg.clients[id.value].redirectURIs {
      return Some(BadRedirectURI);
    }
    if First(form, RESPONSE_TYPE) != Some(CODE) {
      return Some(BadResponseType);
    }
    var challenge := First(form, CODE_CHALLENGE);
    if challenge.None? || |challenge.value| < 43 || 128 < |challenge.value| {
      return Some(BadCodeChallenge);
    }
    if First(form, CODE_CHALLENGE_METHOD) != Some(S256) {
      return Some(BadChallengeMethod);
    }
    var scope := First(form, SCOPE);
    if scope.None? {
      return Some(UnsupportedScope);
    }
    var supported := Scopes.Supported(cfg.scopes, scope.value);
    return if supported then None else Some(UnsupportedScope);
  }

  datatype PushAnswer = PushRefused(error: PushError) | Pushed(requestURI: GoString)

  /** par: s is the shared state that the store's cache is part of. */
  method Par(store: Store, r: PushRequest, ghost s: Shared, origin: nat) returns (answer: PushAnswer)
    requires s.now == store.now && s.pars == store.pars && origin == |s.pushes|
    modifies store`pars
    ensures store.pars == DoPush(store.cfg, s, r).pars
    ensures answer.Pushed? <==> |DoPush(store.cfg, s, r).pushes| > |s.pushes|
    ensures answer.Pushed? ==> answer.requestURI == PAR_URN_PREFIX + r.id && r.id in store.pars
    ensures answer.PushRefused? ==>
              answer.error == if FirstPushError(store.cfg, r).Some? then FirstPushError(store.cfg, r).value
                else StoreFailed
  {
    hide PushAccepted, FirstPushError;
    var error := CheckPush(store.cfg, r);
    if error.Some? {
      return PushRefused(error.value);
    }
    AttestedHere(store.cfg, r);
    var form := BuildForm(Parse(r.body));
    GroupingIsUnique(form, Parse(r.body));
    var rawQuery := EncodeValues(form);
    var ok := store.SetPAR(PARItem(r.attested.value, rawQuery), r.id, origin, r.setFails);
    return if ok then Pushed(PAR_URN_PREFIX + r.id) else PushRefused(StoreFailed);
  }

  lemma AttestedHere(cfg: Config, r: PushRequest)
    requires PushAccepted(cfg, r)
    ensures r.attested.Some?
  {
    hide ValidRequest;
  }

  /**
    redirectAuthError: the complaint goes to the redirect URI and nowhere else, and the client reads it there,
    after its own parameters and with its own state, exactly if that URI has no fragment.
   */
  method RedirectError(q: seq<Pair>, redirectURI: GoString, c: Complaint) returns (o: Outcome)
    ensures o == ErrorTo(ErrorRedirect.ErrorUrl(redirectURI, First(q, ErrorRedirect.STATE), ErrorCode(c),
                                                Description(c)))
    ensures redirectURI <= o.location
    ensures var told := ErrorRedirect.ErrorPairs(First(q, ErrorRedirect.STATE), ErrorCode(c), Description(c));
            ErrorRedirect.Params(o.location) == ErrorRedirect.Params(redirectURI) + told <==> '#' !in redirectURI
  {
    hide ErrorCode, Description, ErrorRedirect.Params, ErrorRedirect.ErrorPairs;
    var state := First(q, ErrorRedirect.STATE);
    ErrorRedirect.ErrorReachesClient(redirectURI, state, ErrorCode(c), Description(c));
    var location := ErrorRedirect.ErrorLocation(redirectURI, state, ErrorCode(c), Description(c));
    return ErrorTo(location);
  }

  /** authorizationV3FromPAR */
  method AuthorizationV3FromPAR(store: Store, requestURI: GoString, q: seq<Pair>, popFails: bool) returns (o: Outcome)
    modifies store`pars
    ensures var c := First(q, CLIENT_ID);
            if c.None? || c.value == [] || !HasPrefix(requestURI, PAR_URN_PREFIX) then o == BadRequest
              && store.pars == old(store.pars)
            else
              var id := requestURI[|PAR_URN_PREFIX|..];
              match if popFails then None else Lookup(old(store.pars), id, store.now)
              case None => o == BadRequest && store.pars == old(store.pars)
              case Some(e) =>
                && store.pars == old(store.pars) - {id}
                && o == if e.value.clientID == c.value then DelegateTo(e.value.rawQuery) else BadRequest
  {
    var clientID := First(q, CLIENT_ID);
    if clientID.None? || clientID.value == [] {
      return BadRequest;
    }
    if !HasPrefix(requestURI, PAR_URN_PREFIX) {
      return BadRequest;
    }
    var e := store.PopPAR(requestURI[|PAR_URN_PREFIX|..], popFails);
    if e.None? {
      return BadRequest;
    }
    if e.value.value.clientID != clientID.value {
      return BadRequest;
    }
    return DelegateTo(e.value.value.rawQuery);
  }

  /** authorizationV3: what it delegates, it delegates as the moves of the shared state do. */
  method AuthorizationV3(store: Store, rawQuery: GoString, popFails: bool, ghost s: Shared, ghost req: nat)
    returns (o: Outcome)
    requires s.now == store.now && s.pars == store.pars && req !in s.claims
    modifies store`pars
    ensures RequestURI(Parse(rawQuery)).None? ==> o == Direct(store.cfg, rawQuery)
    ensures var s1 := DoPresent(store.cfg, s, req, rawQuery, popFails);
            var s2 := if req in s1.claims then DoFinish(s1, req) else s1;
            && store.pars == s2.pars
            && (o.DelegateTo? <==> |s2.delegations| > |s.delegations|)
            && (o.DelegateTo? ==> s2.delegations[|s.delegations|].query == o.query)
  {
    hide ErrorCode, Description, Scopes.IsSupported, ErrorRedirect.ErrorUrl, Parse, First, HasPrefix;
    var q := Parse(rawQuery);
    var requestURI := First(q, REQUEST_URI);
    if requestURI.Some? && requestURI.value != [] {
      o := AuthorizationV3FromPAR(store, requestURI.value, q, popFails);
      return;
    }
    if store.cfg.requirePAR {
      return BadRequest;
    }
    o := AuthorizationV3Direct(store.cfg, rawQuery, q);
  }

  /** authorizationV3 from the client_id check on. */
  method AuthorizationV3Direct(cfg: Config, rawQuery: GoString, q: seq<Pair>) returns (o: Outcome)
    requires q == Parse(rawQuery) && !cfg.requirePAR
    ensures o == Direct(cfg, rawQuery)
  {
    hide ErrorCode, Description, ErrorRedirect.ErrorUrl, Parse, First, Scopes.IsSupported;
    var clientID := First(q, CLIENT_ID);
    if clientID.None? || clientID.value == [] {
      return BadRequest;
    }
    if clientID.value !in cfg.clients {
      return BadRequest;
    }
    var redirectURI := First(q, REDIRECT_URI);
    if redirectURI.None? || redirectURI.value !in cfg.clients[clientID.value].redirectURIs {
      return BadRequest;
    }
    if First(q, RESPONSE_TYPE) != Some(CODE) {
      o := RedirectError(q, redirectURI.value, NotCode);
      return;
    }
    var challenge := First(q, CODE_CHALLENGE);
    if challenge.None? || |challenge.value| < 43 || 128 < |challenge.value| {
      o := RedirectError(q, redirectURI.value, BadChallenge);
      return;
    }
    if First(q, CODE_CHALLENGE_METHOD) != Some(S256) {
      o := RedirectError(q, redirectURI.value, NotS256);
      return;
    }
    var scope := First(q, SCOPE);
    if scope.None? {
      o := RedirectError(q, redirectURI.value, BadScope);
      return;
    }
    var supported := Scopes.Supported(cfg.scopes, scope.value);
    if !supported {
      o := RedirectError(q, redirectURI.value, BadScope);
      return;
    }
    return DelegateTo(rawQuery);
  }
}
