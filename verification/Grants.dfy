/**
  The effect of each handler on values: authorizationcode/token.go, authorizationcode/validation.go,
  authorizationcode/authorization.go, routes/preauth.go. Requests carry everything the handler does not
  decide itself: the outcome of signature checks, fresh identifiers, and which storage operations fail.
 */
module Grants {
  import opened GoStrings
  import opened Digests
  import opened Items
  import opened TtlCache
  import opened FormEncoding
  import Scopes
  import Attestation

  // --- configuration and state -------------------------------------------

  datatype Client = Client(redirectURIs: seq<GoString>, secrets: seq<GoString>, dpopBound: bool)

  datatype Config = Config(stateTTL: int, authCodeTTL: int, preAuthTTL: int, parTTL: int, refreshTTL: int,
                           requirePAR: bool, requireAttestationPreauth: bool,
                           scopes: Scopes.ScopeSet, clients: map<GoString, Client>, sha: Hash)

  /** Validation of the configuration: every lifetime is positive. */
  predicate ValidConfig(cfg: Config) {
    0 < cfg.stateTTL && 0 < cfg.authCodeTTL && 0 < cfg.preAuthTTL && 0 < cfg.parTTL && 0 < cfg.refreshTTL
  }

  /** What a successful grant gave out. An empty key is a Bearer token. */
  datatype Grant = Grant(session: GoString, subject: GoString, clientID: GoString, scope: GoString, jkt: GoString)

  /** The history. Numbers are indices of earlier events. */
  datatype Event =
    | StateSaved(state: StateItem)
    | CodeStored(item: CodeItemV, savedState: nat)
    | OfferStored(item: CodeItemV, txCode: Option<int>)
    | TxPresented(offer: nat, presented: GoString)
    | CodeRedeemed(preAuth: bool, code: Option<nat>, grant: Grant)
    | Refreshed(family: nat, grant: Grant)

  datatype State = State(now: int,
                         codes: Table<CodeItemV>, states: Table<StateItem>, txCodes: Table<int>,
                         refresh: Table<RefreshItemV>, sessions: map<GoString, SessionV>, log: seq<Event>)

  const INITIAL: State := State(0, map[], map[], map[], map[], map[], [])

  // --- requests and answers ----------------------------------------------

  datatype TokenError =
    | InvalidClient | DPoPMissing | DPoPMismatch | AttestationRequired | MissingAuthHeader | AuthHeaderInvalid
    | ClientLookupFailed | MissingParameter | InvalidCode | RedirectMismatch | WrongClient | TxCodeInvalid
    | InvalidRefreshToken | SessionCreateFailed | CleanupFailed

  datatype Answer =
    | Denied(error: TokenError)
    | Issued(accessToken: GoString, tokenType: GoString, scope: GoString, refreshToken: GoString)

  /** Which storage operations of one request fail. */
  datatype Faults = Faults(read: bool, txRead: bool, create: bool, tempDelete: bool, delete: bool, txDelete: bool,
                           issue: bool)

  const NO_FAULTS: Faults := Faults(false, false, false, false, false, false, false)

  /** A wallet's attestation headers: whether a verifier is configured, and what it found. */
  datatype Wallet = Wallet(configured: bool, result: Option<Attestation.Result>, requireKeyBinding: bool)

  datatype ClientProof = ByWallet(wallet: Wallet) | NoHeader | Undecodable | Basic(id: GoString, secret: GoString)

  datatype CodeRequest = CodeRequest(client: ClientProof, code: GoString, verifier: GoString, redirectURI: GoString,
                                     jkt: GoString, newSession: GoString, newToken: GoString, faults: Faults)

  datatype PreAuthRequest = PreAuthRequest(wallet: Option<Wallet>, code: GoString, txCode: GoString,
                                           clientID: Option<GoString>, jkt: GoString, newSession: GoString,
                                             faults: Faults)

  datatype RefreshRequest = RefreshRequest(token: GoString, jkt: GoString, newSession: GoString, newToken: GoString,
                                           faults: Faults)

  datatype AuthorizeRequest = AuthorizeRequest(state: GoString, clientID: GoString, query: seq<Pair>, setFails: bool)

  datatype CallbackRequest = CallbackRequest(state: GoString, id: GoString, clientID: GoString, redirectURI: GoString,
                                             codeChallenge: GoString, codeChallengeMethod: GoString,
                                             userID: GoString, firstName: GoString, lastName: GoString,
                                               personCode: GoString,
                                             extraClaims: Option<GoString>, popFails: bool, setFails: bool)

  datatype OfferRequest = OfferRequest(scope: GoString, sessionID: GoString, code: GoString, noTXCode: bool,
                                       txCode: int,
                                       givenName: GoString, familyName: GoString, setFails: bool, setTxFails: bool)

  // --- client authentication ---------------------------------------------

  datatype Authentication = Refused(error: TokenError) | Known(clientID: GoString, attested: bool)

  /** The attestation checks shared by two grants. */
  function CheckWallet(w: Wallet, jkt: GoString): Authentication {
    if !w.configured || w.result.None? then Refused(InvalidClient)
    else if jkt == [] then Refused(DPoPMissing)
    else if w.requireKeyBinding && jkt != w.result.value.cnfJKT then Refused(DPoPMismatch)
    else Known(w.result.value.clientID, true)
  }

  function Authenticate(cfg: Config, p: ClientProof, jkt: GoString): Authentication {
    match p
    case ByWallet(w) => CheckWallet(w, jkt)
    case NoHeader => Refused(MissingAuthHeader)
    case Undecodable => Refused(AuthHeaderInvalid)
    case Basic(id, secret) =>
      if id !in cfg.clients then Refused(ClientLookupFailed)
      else if secret !in cfg.clients[id].secrets then Refused(InvalidClient)
      else if cfg.clients[id].dpopBound && jkt == [] then Refused(DPoPMissing)
      else Known(id, false)
  }

  // --- authorization codes -----------------------------------------------

  /** The cached item, or the zero item when there is none. */
  function ItemAt<M>(t: Table<AuthCodeItem<M>>, code: GoString, now: int, nil: M): AuthCodeItem<M> {
    match Lookup(t, code, now) case None => ZeroItem(nil) case Some(e) => e.value
  }

  function OriginAt<T>(t: Table<T>, k: GoString, now: int): Option<nat> {
    match Lookup(t, k, now) case None => None case Some(e) => Some(e.origin)
  }

  /** GetItem's check: with S256 the verifier is hashed before it is compared. */
  predicate VerifierMatches<M>(sha: Hash, item: AuthCodeItem<M>, verifier: GoString) {
    item.codeChallenge == if item.codeChallengeMethod == S256 then EncodedDigest(sha, verifier) else verifier
  }

  function CodeRefusal<M>(cfg: Config, item: AuthCodeItem<M>, r: CodeRequest, clientID: GoString,
                          attested: bool): Option<TokenError> {
    if !VerifierMatches(cfg.sha, item, r.verifier) then Some(InvalidCode)
    else if item.redirectURI != r.redirectURI then Some(RedirectMismatch)
    else if attested && item.clientID != clientID then Some(WrongClient)
    else None
  }

  /** The session template given an identity and, for a DPoP request, its key. */
  function Minted(template: SessionV, id: GoString, now: int, jkt: GoString): SessionV {
    template.(id := id, lastAccessed := Some(now), meta := if jkt == [] then template.meta
              else Bind(template.meta, jkt))
  }

  function TokenType(jkt: GoString): GoString {
    if jkt == [] then BEARER else DPOP
  }

  function RefreshKey(cfg: Config, token: GoString): GoString {
    EncodedDigest(cfg.sha, token)
  }

  /** Every reason to turn a request away but a failure to create the session. */
  function EarlyRefusal(cfg: Config, codes: Table<CodeItemV>, now: int, r: CodeRequest): Option<TokenError> {
    match Authenticate(cfg, r.client, r.jkt)
    case Refused(e) => Some(e)
    case Known(clientID, attested) =>
      if r.faults.read then Some(InvalidCode)
        else CodeRefusal(cfg, ItemAt(codes, r.code, now, None), r, clientID, attested)
  }

  /** Every reason for which a request creates no session. */
  function CodeRequestRefusal(cfg: Config, s: State, r: CodeRequest): Option<TokenError> {
    var early := EarlyRefusal(cfg, s.codes, s.now, r);
    if early.Some? then early else if r.faults.create then Some(SessionCreateFailed) else None
  }

  /** The grant an authorization_code request makes when it is not turned away. */
  function CodeGrant(cfg: Config, s: State, r: CodeRequest): Grant
    requires CodeRequestRefusal(cfg, s, r).None?
  {
    var item := ItemAt(s.codes, r.code, s.now, None);
    Grant(r.newSession, item.session.subject, Authenticate(cfg, r.client, r.jkt).clientID, item.scope, r.jkt)
  }

  /** HandleAuthorization */
  function RedeemCode(cfg: Config, s: State, r: CodeRequest): (State, Answer) {
    match CodeRequestRefusal(cfg, s, r)
    case Some(e) => (s, Denied(e))
    case None =>
      var s1 := WithCodeSession(s, r);
      if r.faults.delete then (s1, Denied(CleanupFailed))
      else (WithCodeGrant(cfg, s1, r, CodeGrant(cfg, s, r), OriginAt(s.codes, r.code, s.now)),
            CodeAnswer(CodeGrant(cfg, s, r), r))
  }

  /** The session is created; a temporary session under the code's own name is dropped. */
  function WithCodeSession(s: State, r: CodeRequest): State {
    var sess := Minted(ItemAt(s.codes, r.code, s.now, None).session, r.newSession, s.now, r.jkt);
    s.(sessions := s.sessions[r.newSession := sess] - Dropped(r))
  }

  function Dropped(r: CodeRequest): set<GoString> {
    if r.faults.tempDelete then {} else {r.code}
  }

  predicate IssuesRefresh(r: CodeRequest) {
    r.jkt != [] && !r.faults.issue
  }

  /** The code is deleted, and a DPoP grant gets a refresh token whose template is the new session. */
  function WithCodeGrant(cfg: Config, s: State, r: CodeRequest, g: Grant, origin: Option<nat>): State {
    var sess := Minted(ItemAt(s.codes, r.code, s.now, None).session, r.newSession, s.now, r.jkt);
    var entry := Entry(RefreshTokenItem(g.clientID, g.scope, g.jkt, sess), s.now + cfg.refreshTTL, |s.log|);
    s.(codes := s.codes - {r.code},
       refresh := if IssuesRefresh(r) then s.refresh[RefreshKey(cfg, r.newToken) := entry] else s.refresh,
       log := s.log + [CodeRedeemed(false, origin, g)])
  }

  function CodeAnswer(g: Grant, r: CodeRequest): Answer {
    Issued(g.session, TokenType(g.jkt), g.scope, if IssuesRefresh(r) then r.newToken else [])
  }

  // --- pre-authorized codes ----------------------------------------------

  /** ValidateTXCode: a missing entry reads as zero. */
  predicate TxCodeMatches(t: Table<int>, code: GoString, now: int, presented: GoString) {
    Itoa(match Lookup(t, code, now) case None => 0 case Some(e) => e.value) == presented
  }

  /** What HandlePreAuthorized checks before it looks at the tx_code. */
  function EarlyPreAuthRefusal(cfg: Config, codes: Table<CodeItemV>, now: int, r: PreAuthRequest): Option<TokenError> {
    if r.wallet.None? && cfg.requireAttestationPreauth then Some(AttestationRequired)
    else if r.wallet.Some? && CheckWallet(r.wallet.value, r.jkt).Refused? then
      Some(CheckWallet(r.wallet.value, r.jkt).error)
    else if r.code == [] then Some(MissingParameter)
    else if r.faults.read || ItemAt(codes, r.code, now, None).code == [] then Some(InvalidCode)
    else None
  }

  predicate TxCodeRefused(s: State, r: PreAuthRequest) {
    !ItemAt(s.codes, r.code, s.now, None).noTXCode
      && (r.faults.txRead || !TxCodeMatches(s.txCodes, r.code, s.now, r.txCode))
  }

  /** A public client that has to use DPoP, named by a request without it. */
  predicate NeedsDPoP(cfg: Config, r: PreAuthRequest) {
    && r.clientID.Some? && r.clientID.value != [] && r.jkt == []
    && r.clientID.value in cfg.clients && cfg.clients[r.clientID.value].dpopBound
  }

  /** HandlePreAuthorized */
  function RedeemPreAuth(cfg: Config, s: State, r: PreAuthRequest): (State, Answer) {
    var early := EarlyPreAuthRefusal(cfg, s.codes, s.now, r);
    var item := ItemAt(s.codes, r.code, s.now, None);
    if early.Some? then (s, Denied(early.value))
    else if TxCodeRefused(s, r) then (s, Denied(TxCodeInvalid))
    else FinishPreAuth(cfg, if item.noTXCode then s else AfterTxCode(s, r), r, item)
  }

  /** A correct presentation uses the tx_code up, whatever becomes of the request. */
  function AfterTxCode(s: State, r: PreAuthRequest): State {
    s.(txCodes := if r.faults.txDelete then s.txCodes else s.txCodes - {r.code},
       log := s.log + match OriginAt(s.codes, r.code, s.now) case None => [] case Some(o) => [TxPresented(o, r.txCode)])
  }

  function FinishPreAuth(cfg: Config, s: State, r: PreAuthRequest, item: CodeItemV): (State, Answer) {
    if NeedsDPoP(cfg, r) then (s, Denied(DPoPMissing))
    else if r.faults.create then (s, Denied(SessionCreateFailed))
    else
      var sess := Minted(item.session, r.newSession, s.now, r.jkt);
      (s.(sessions := s.sessions[sess.id := sess],
          codes := if r.faults.delete then s.codes else s.codes - {r.code},
          log := s.log + [CodeRedeemed(true, OriginAt(s.codes, r.code, s.now),
                                       Grant(sess.id, sess.subject, [], item.scope, r.jkt))]),
       Issued(sess.id, TokenType(r.jkt), item.scope, []))
  }

  // --- refresh tokens ----------------------------------------------------

  /**
    The template stored with the next refresh token. The handler copies the session but not its
    metadata map, so the key it writes into the new session is in the template's map too, unless
    there was no map.
   */
  function NextTemplate(template: SessionV, jkt: GoString): SessionV {
    template.(meta := if template.meta.None? then None else Bind(template.meta, jkt))
  }

  /** HandleRefreshToken */
  function RedeemRefresh(cfg: Config, s: State, r: RefreshRequest): (State, Answer) {
    if r.jkt == [] then (s, Denied(DPoPMissing))
    else if r.token == [] then (s, Denied(MissingParameter))
    else
      var key := RefreshKey(cfg, r.token);
      match Lookup(s.refresh, key, s.now)
      case None => (s, Denied(InvalidRefreshToken))
      case Some(e) =>
        if r.faults.read then (s, Denied(InvalidRefreshToken))
        else
          var s1 := s.(refresh := s.refresh - {key});
          if e.value.jkt != r.jkt then (s1, Denied(DPoPMismatch))
          else if r.faults.create then (s1, Denied(SessionCreateFailed))
          else FinishRefresh(cfg, s1, r, e)
  }

  function FinishRefresh(cfg: Config, s: State, r: RefreshRequest, e: Entry<RefreshItemV>): (State, Answer) {
    var sess := Minted(e.value.session, r.newSession, s.now, r.jkt);
    var next := RefreshTokenItem(e.value.clientID, e.value.scope, r.jkt, NextTemplate(e.value.session, r.jkt));
    (s.(sessions := s.sessions[sess.id := sess],
        refresh := if r.faults.issue then s.refresh
                   else s.refresh[RefreshKey(cfg, r.newToken) := Entry(next, s.now + cfg.refreshTTL, e.origin)],
        log := s.log + [Refreshed(e.origin, Grant(sess.id, sess.subject, e.value.clientID, e.value.scope, r.jkt))]),
     Issued(sess.id, DPOP, e.value.scope, if r.faults.issue then [] else r.newToken))
  }

  // --- the authorize leg -------------------------------------------------

  const CODE: GoString := "code"

  /** The parameter checks of ValidateAndSaveState up to the scope. */
  predicate ParametersValid(cfg: Config, clientID: GoString, q: seq<Pair>) {
    && clientID in cfg.clients
    && First(q, "redirect_uri").Some? && First(q, "redirect_uri").value in cfg.clients[clientID].redirectURIs
    && First(q, "code_challenge").Some? && 43 <= |First(q, "code_challenge").value| <= 128
    && First(q, "code_challenge_method") == Some(S256)
  }

  /** ValidateAndSaveState: whether it returns no error, and the state it leaves. */
  function SaveState(cfg: Config, s: State, r: AuthorizeRequest): (State, bool) {
    if First(r.query, "response_type") != Some(CODE) then (s, true)
    else if !ParametersValid(cfg, r.clientID, r.query) then (s, false)
    else
      match First(r.query, "scope")
      case None => (s, true)
      case Some(scope) =>
        if !Scopes.IsSupported(cfg.scopes, scope) || r.setFails then (s, false)
        else
          var issuerState := match First(r.query, "issuer_state") case None => [] case Some(v) => v;
          var item := StateItem(r.state, CODE, scope, issuerState);
          (s.(states := s.states[r.state := Entry(item, s.now + cfg.stateTTL, |s.log|)],
              log := s.log + [StateSaved(item)]), true)
  }

  /** What Callback stores. */
  function CallbackItem(r: CallbackRequest, st: StateItem, now: int): CodeItemV {
    AuthCodeItem(r.id, r.clientID, r.userID, r.redirectURI, r.codeChallenge, r.codeChallengeMethod, st.scope,
                 st.issuerState, false,
                 Session([], r.userID, r.firstName, r.lastName, r.personCode, [], AUTHORIZED, Some(now),
                         if r.extraClaims.None? then None else Some(map[EXTRA_CLAIMS := r.extraClaims.value])))
  }

  const AUTHORIZED: GoString := "authorized"

  /** A provider's return: pop the state, and for a pending code request store the item. */
  function ProviderReturn(cfg: Config, s: State, r: CallbackRequest): State {
    match Lookup(s.states, r.state, s.now)
    case None => s
    case Some(e) =>
      if r.popFails then s
      else
        var s1 := s.(states := s.states - {r.state});
        if e.value.responseType != CODE || r.setFails then s1
        else
          var item := CallbackItem(r, e.value, s.now);
          s1.(codes := s1.codes[r.id := Entry(item, s.now + cfg.authCodeTTL, |s.log|)],
              log := s1.log + [CodeStored(item, e.origin)])
  }

  /** preauthGenerate: what the offer stores. */
  function OfferItem(r: OfferRequest): CodeItemV {
    AuthCodeItem(r.code, "issuer-backend", r.sessionID, [], [], [], r.scope, [], r.noTXCode,
                 Session([], r.sessionID, r.givenName, r.familyName, [], [], AUTHORIZED, None, None))
  }

  function MakeOffer(cfg: Config, s: State, r: OfferRequest): State {
    if r.scope == [] || r.setFails then s
    else
      var withTx := !r.noTXCode && !r.setTxFails;
      s.(codes := s.codes[r.code := Entry(OfferItem(r), s.now + cfg.authCodeTTL, |s.log|)],
         txCodes := if withTx then s.txCodes[r.code := Entry(r.txCode, s.now + cfg.preAuthTTL, |s.log|)] else s.txCodes,
         log := s.log + [OfferStored(OfferItem(r), if r.noTXCode then None else Some(r.txCode))])
  }

  // --- PKCE --------------------------------------------------------------

  /** Every computed challenge is 43 characters, so it passes the length checks of all three endpoints. */
  lemma ComputedChallengePassesLengthChecks(sha: Hash, verifier: GoString)
    ensures 43 <= |EncodedDigest(sha, verifier)| <= 128
  {
    EncodedDigestLength(sha, verifier);
  }

  /**
    GetItem's check: an item stored with the S256 challenge of v0 answers to v0 and, short of a collision,
    to no other verifier.
   */
  lemma {:induction false} OnlyTheVerifierOpens<M>(sha: Hash, item: AuthCodeItem<M>, v0: GoString, v: GoString)
    requires item.codeChallengeMethod == S256 && item.codeChallenge == EncodedDigest(sha, v0)
    requires NoCollision(sha, v0, v)
    ensures VerifierMatches(sha, item, v) <==> v == v0
  {
    EncodedDigestIsInjective(sha, v0, v);
  }
}
