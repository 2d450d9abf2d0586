/**
  The three grants written out: what each asks of a request, in the order in which it asks, and what it gives.
  Everything is stated on the fields of requests, items and sessions and on the names that go over the wire.
 */
module GrantRules {
  import opened GoStrings
  import opened Digests
  import opened Items
  import opened TtlCache
  import opened Grants
  import opened Lifecycle
  import SharedMaps

  // --- what sessions hold -------------------------------------------------------------

  /** The map holds the key. */
  predicate Holds(m: Meta, k: GoString) {
    m.Some? && k in m.value
  }

  /** The two maps agree at every key but the one that binds a session. */
  ghost predicate SameButKey(a: Meta, b: Meta) {
    forall k :: k != "dpop_jkt" ==> (Holds(a, k) <==> Holds(b, k)) && (Holds(a, k) ==> a.value[k] == b.value[k])
  }

  /** What a session says of its person, and where it stands. */
  predicate SamePerson(a: SessionV, b: SessionV) {
    && a.subject == b.subject && a.firstName == b.firstName && a.lastName == b.lastName
    && a.personCode == b.personCode && a.scope == b.scope && a.state == b.state
  }

  /** A session made from a template at an instant, for a key or, with an empty one, for no key. */
  ghost predicate MadeFrom(sess: SessionV, template: SessionV, id: GoString, at: int, jkt: GoString) {
    && sess.id == id && sess.lastAccessed == Some(at) && SamePerson(sess, template)
    && SameButKey(sess.meta, template.meta)
    && (jkt == [] ==> sess.meta == template.meta)
    && (jkt != [] ==> Holds(sess.meta, "dpop_jkt") && sess.meta.value["dpop_jkt"] == jkt)
  }

  lemma MintedIsMadeFrom(template: SessionV, id: GoString, at: int, jkt: GoString)
    ensures MadeFrom(Minted(template, id, at, jkt), template, id, at, jkt)
  {
  }

  // --- authorization codes --------------------------------------------------------------

  /** The client proves who it is: a wallet by an attestation and a key, another client by its secret. */
  predicate ProvesClient(cfg: Config, p: ClientProof, jkt: GoString) {
    match p
    case ByWallet(w) =>
      && w.configured && w.result.Some? && jkt != [] && (w.requireKeyBinding ==> jkt == w.result.value.cnfJKT)
    case Basic(id, secret) =>
      && id in cfg.clients && secret in cfg.clients[id].secrets && (cfg.clients[id].dpopBound ==> jkt != [])
    case NoHeader => false
    case Undecodable => false
  }

  /** The client that proved it. */
  function ProvenClient(p: ClientProof): GoString {
    match p
    case ByWallet(w) => if w.result.Some? then w.result.value.clientID else []
    case Basic(id, _) => id
    case _ => []
  }

  /** The verifier answers the challenge, by its digest or in plain. */
  predicate Answers(sha: Hash, item: CodeItemV, verifier: GoString) {
    if item.codeChallengeMethod == "S256" then item.codeChallenge == EncodedDigest(sha, verifier)
    else item.codeChallenge == verifier
  }

  /** The request goes with the item: its client, its verifier and its redirect URI are those the item asks for. */
  predicate Entitled(cfg: Config, r: CodeRequest, item: CodeItemV) {
    && ProvesClient(cfg, r.client, r.jkt) && Answers(cfg.sha, item, r.verifier) && item.redirectURI == r.redirectURI
    && (r.client.ByWallet? ==> item.clientID == ProvenClient(r.client))
  }

  lemma PassesExactly(cfg: Config, codes: Table<CodeItemV>, now: int, r: CodeRequest)
    ensures EarlyRefusal(cfg, codes, now, r).None? <==>
              Entitled(cfg, r, ItemAt(codes, r.code, now, None)) && !r.faults.read
    ensures EarlyRefusal(cfg, codes, now, r).None? ==>
              && Authenticate(cfg, r.client, r.jkt).Known?
              && Authenticate(cfg, r.client, r.jkt).clientID == ProvenClient(r.client)
  {
    hide EncodedDigest, ItemAt;
  }

  /**
    When an authorization_code request on a live code is granted: exactly if the client proves who it is, the
    verifier answers the item's challenge, the redirect URI is the item's, an attested client is the item's client,
    and neither the read nor the session nor the deletion fails.
   */
  lemma {:induction false} CodeGrantsExactly(cfg: Config, s: State, r: CodeRequest)
    requires r.code in s.codes && s.now < s.codes[r.code].expires
    ensures var item := s.codes[r.code].value;
            RedeemCode(cfg, s, r).1.Issued? <==>
              && ProvesClient(cfg, r.client, r.jkt) && Answers(cfg.sha, item, r.verifier)
              && item.redirectURI == r.redirectURI
              && (r.client.ByWallet? ==> item.clientID == ProvenClient(r.client))
              && !r.faults.read && !r.faults.create && !r.faults.delete
  {
    hide WithCodeGrant, WithCodeSession, EarlyRefusal, ProvesClient, Answers;
    PassesExactly(cfg, s.codes, s.now, r);
  }

  /** What goes wrong with an authorization_code request, in the order in which it is noticed. */
  lemma {:induction false} CodeRefusedAs(cfg: Config, s: State, r: CodeRequest)
    ensures var item := if r.code in s.codes && s.now < s.codes[r.code].expires then s.codes[r.code].value
                        else AuthCodeItem([], [], [], [], [], [], [], [], false, Session([], [], [], [], [], [], [],
                                                                                        None, None));
            var answer := RedeemCode(cfg, s, r).1;
            var first := match r.client
                         case NoHeader => Some(MissingAuthHeader)
                         case Undecodable => Some(AuthHeaderInvalid)
                         case Basic(id, secret) =>
                           if id !in cfg.clients then Some(ClientLookupFailed)
                           else if secret !in cfg.clients[id].secrets then Some(InvalidClient)
                           else if cfg.clients[id].dpopBound && r.jkt == [] then Some(DPoPMissing)
                           else None
                         case ByWallet(w) =>
                           if !w.configured || w.result.None? then Some(InvalidClient)
                           else if r.jkt == [] then Some(DPoPMissing)
                           else if w.requireKeyBinding && r.jkt != w.result.value.cnfJKT then Some(DPoPMismatch)
                           else None;
            if first.Some? then answer == Denied(first.value)
            else if r.faults.read || !Answers(cfg.sha, item, r.verifier) then answer == Denied(InvalidCode)
            else if item.redirectURI != r.redirectURI then answer == Denied(RedirectMismatch)
            else if r.client.ByWallet? && item.clientID != ProvenClient(r.client) then answer == Denied(WrongClient)
            else if r.faults.create then answer == Denied(SessionCreateFailed)
            else if r.faults.delete then answer == Denied(CleanupFailed)
            else answer.Issued?
  {
    hide WithCodeGrant, WithCodeSession, EncodedDigest;
  }

  /**
    What a granted one gives: a session made from the item's template, a token of the item's scope, and for a DPoP
    request a refresh token kept by its digest, with that session, for the refresh lifetime. The code is gone.
   */
  predicate GivesForCode(cfg: Config, s: State, r: CodeRequest, item: CodeItemV, s': State, answer: Answer) {
    var kept := r.jkt != [] && !r.faults.issue;
    && answer == Issued(r.newSession, if r.jkt == [] then "Bearer" else "DPoP", item.scope,
                        if kept then r.newToken else [])
    && r.newSession in s'.sessions
    && s'.sessions.Keys == s.sessions.Keys + {r.newSession} - (if r.faults.tempDelete then {} else {r.code})
    && s'.codes == s.codes - {r.code} && s'.states == s.states && s'.txCodes == s.txCodes && s'.now == s.now
    && s'.refresh == (if kept then
                        s.refresh[EncodedDigest(cfg.sha, r.newToken) :=
                          Entry(RefreshTokenItem(ProvenClient(r.client), item.scope, r.jkt, s'.sessions[r.newSession]),
                                s.now + cfg.refreshTTL, |s.log|)]
                      else s.refresh)
  }

  lemma CodeGives(cfg: Config, s: State, r: CodeRequest)
    requires r.newSession != r.code && RedeemCode(cfg, s, r).1.Issued?
    ensures var (s', answer) := RedeemCode(cfg, s, r);
            var item := ItemAt(s.codes, r.code, s.now, None);
            && GivesForCode(cfg, s, r, item, s', answer)
            && MadeFrom(s'.sessions[r.newSession], item.session, r.newSession, s.now, r.jkt)
  {
    hide RedeemCode, EarlyRefusal, Minted, EncodedDigest, ItemAt, MadeFrom;
    SharedMaps.RedeemCodeFields(cfg, s, r);
    MintedIsMadeFrom(ItemAt(s.codes, r.code, s.now, None).session, r.newSession, s.now, r.jkt);
    PassesExactly(cfg, s.codes, s.now, r);
  }

  lemma {:induction false} CodeGrantGives(cfg: Config, s: State, r: CodeRequest)
    requires r.code in s.codes && s.now < s.codes[r.code].expires && r.newSession != r.code
    requires RedeemCode(cfg, s, r).1.Issued?
    ensures var (s', answer) := RedeemCode(cfg, s, r);
            && GivesForCode(cfg, s, r, s.codes[r.code].value, s', answer)
            && MadeFrom(s'.sessions[r.newSession], s.codes[r.code].value.session, r.newSession, s.now, r.jkt)
  {
    hide RedeemCode, MadeFrom;
    CodeGives(cfg, s, r);
  }

  /** A refused one leaves all as it was, but for the session already made when the code cannot be deleted. */
  lemma {:induction false} RefusedCodeLeaves(cfg: Config, s: State, r: CodeRequest)
    requires r.newSession != r.code && RedeemCode(cfg, s, r).1.Denied?
    ensures var (s', answer) := RedeemCode(cfg, s, r);
            if answer != Denied(CleanupFailed) then s' == s
            else
              && s' == s.(sessions := s'.sessions) && r.newSession in s'.sessions
              && s'.sessions.Keys == s.sessions.Keys + {r.newSession} - (if r.faults.tempDelete then {} else {r.code})
  {
    hide RedeemCode, EarlyRefusal, Minted, ItemAt, RefreshKey, OriginAt, Authenticate;
    SharedMaps.RedeemCodeFields(cfg, s, r);
    EarlyIsNoCleanup(cfg, s, r);
    assert s.log + [] == s.log;
  }

  lemma EarlyIsNoCleanup(cfg: Config, s: State, r: CodeRequest)
    ensures EarlyRefusal(cfg, s.codes, s.now, r) != Some(CleanupFailed)
  {
    hide ItemAt, VerifierMatches;
  }

  // --- pre-authorized codes ---------------------------------------------------------------

  /** A wallet proves itself where there is one, and there is one where there has to be. */
  predicate ProvesWallet(cfg: Config, r: PreAuthRequest) {
    if r.wallet.None? then !cfg.requireAttestationPreauth else ProvesClient(cfg, ByWallet(r.wallet.value), r.jkt)
  }

  /** The client named beside the code is one that has to use DPoP, and the request has no key. */
  predicate LacksKey(cfg: Config, r: PreAuthRequest) {
    r.jkt == [] && r.clientID.Some? && r.clientID.value != [] && r.clientID.value in cfg.clients
      && cfg.clients[r.clientID.value].dpopBound
  }

  /** The number a presented tx_code is compared with: 0 where none is cached. */
  function StoredTx(s: State, code: GoString): int {
    if code in s.txCodes && s.now < s.txCodes[code].expires then s.txCodes[code].value else 0
  }

  /**
    The pre-authorized grant asks for no verifier. It honours any live item, an offer's or a callback's, whatever
    its challenge, exactly if a wallet proves itself where there is one or has to be one, no DPoP key is missing, and,
    unless the item goes without a tx_code, the stored number is presented.
   */
  lemma {:induction false} PreAuthGrantsExactly(cfg: Config, s: State, r: PreAuthRequest)
    ensures RedeemPreAuth(cfg, s, r).1.Issued? <==>
              && ProvesWallet(cfg, r) && !LacksKey(cfg, r) && r.code != [] && !r.faults.read && !r.faults.create
              && r.code in s.codes && s.now < s.codes[r.code].expires
              && var item := s.codes[r.code].value;
                 item.code != [] && (item.noTXCode || (!r.faults.txRead && r.txCode == Itoa(StoredTx(s, r.code))))
  {
    hide AfterTxCode, Minted;
  }

  /** What goes wrong with a pre-authorized request, in the order in which it is noticed. */
  lemma {:induction false} PreAuthRefusedAs(cfg: Config, s: State, r: PreAuthRequest)
    ensures var answer := RedeemPreAuth(cfg, s, r).1;
            var live := r.code in s.codes && s.now < s.codes[r.code].expires && s.codes[r.code].value.code != [];
            if r.wallet.None? && cfg.requireAttestationPreauth then answer == Denied(AttestationRequired)
            else if r.wallet.Some? && (!r.wallet.value.configured || r.wallet.value.result.None?) then
              answer == Denied(InvalidClient)
            else if r.wallet.Some? && r.jkt == [] then answer == Denied(DPoPMissing)
            else if r.wallet.Some? && r.wallet.value.requireKeyBinding
              && r.jkt != r.wallet.value.result.value.cnfJKT then
              answer == Denied(DPoPMismatch)
            else if r.code == [] then answer == Denied(MissingParameter)
            else if r.faults.read || !live then answer == Denied(InvalidCode)
            else if !s.codes[r.code].value.noTXCode && (r.faults.txRead || r.txCode != Itoa(StoredTx(s, r.code))) then
              answer == Denied(TxCodeInvalid)
            else if LacksKey(cfg, r) then answer == Denied(DPoPMissing)
            else if r.faults.create then answer == Denied(SessionCreateFailed)
            else answer.Issued?
  {
    hide AfterTxCode, Minted;
  }

  /** What a granted one gives: a session and a token of the item's scope, and no refresh token. */
  lemma {:induction false} PreAuthGrantGives(cfg: Config, s: State, r: PreAuthRequest)
    requires RedeemPreAuth(cfg, s, r).1.Issued?
    ensures r.code in s.codes
    ensures var (s', answer) := RedeemPreAuth(cfg, s, r);
            var item := s.codes[r.code].value;
            && answer == Issued(r.newSession, if r.jkt == [] then "Bearer" else "DPoP", item.scope, [])
            && r.newSession in s'.sessions && MadeFrom(s'.sessions[r.newSession], item.session, r.newSession, s.now,
                                                       r.jkt)
            && s'.codes == (if r.faults.delete then s.codes else s.codes - {r.code})
            && s'.txCodes == (if item.noTXCode || r.faults.txDelete then s.txCodes else s.txCodes - {r.code})
            && s'.refresh == s.refresh && s'.states == s.states && s'.now == s.now
  {
    PreAuthGrantsExactly(cfg, s, r);
    var item := s.codes[r.code].value;
    hide Minted, TxCodeRefused, EarlyPreAuthRefusal, FinishPreAuth;
    MintedIsMadeFrom(item.session, r.newSession, s.now, r.jkt);
    SharedMaps.FinishPreAuthFields(cfg, if item.noTXCode then s else AfterTxCode(s, r), r, item);
  }

  /** A refused one leaves all as it was, but for the tx_code it presented rightly. */
  lemma {:induction false} RefusedPreAuthLeaves(cfg: Config, s: State, r: PreAuthRequest)
    requires RedeemPreAuth(cfg, s, r).1.Denied?
    ensures var (s', answer) := RedeemPreAuth(cfg, s, r);
            s' == s
            || (r.code in s.codes && !s.codes[r.code].value.noTXCode && r.txCode == Itoa(StoredTx(s, r.code))
                && (LacksKey(cfg, r) || r.faults.create)
                && s' == s.(txCodes := if r.faults.txDelete then s.txCodes else s.txCodes - {r.code},
                            log := s.log + [TxPresented(s.codes[r.code].origin, r.txCode)]))
  {
    hide Minted, CheckWallet;
  }

  // --- refresh tokens -----------------------------------------------------------------------

  /** A refresh request is granted exactly if it has a key and presents a live token of that key, and nothing fails. */
  lemma {:induction false} RefreshGrantsExactly(cfg: Config, s: State, r: RefreshRequest)
    ensures var key := EncodedDigest(cfg.sha, r.token);
            RedeemRefresh(cfg, s, r).1.Issued? <==>
              && r.jkt != [] && r.token != [] && key in s.refresh && s.now < s.refresh[key].expires
              && s.refresh[key].value.jkt == r.jkt && !r.faults.read && !r.faults.create
  {
    hide EncodedDigest, Minted, NextTemplate;
  }

  lemma {:induction false} RefreshRefusedAs(cfg: Config, s: State, r: RefreshRequest)
    ensures var key := EncodedDigest(cfg.sha, r.token);
            var answer := RedeemRefresh(cfg, s, r).1;
            if r.jkt == [] then answer == Denied(DPoPMissing)
            else if r.token == [] then answer == Denied(MissingParameter)
            else if r.faults.read || key !in s.refresh || s.refresh[key].expires <= s.now then
              answer == Denied(InvalidRefreshToken)
            else if s.refresh[key].value.jkt != r.jkt then answer == Denied(DPoPMismatch)
            else if r.faults.create then answer == Denied(SessionCreateFailed)
            else answer.Issued?
  {
    hide EncodedDigest, Minted, NextTemplate;
  }

  /**
    What a granted one gives: a session made from the token's template, and a new token for the same client, scope and
    key, with a template for the same person, for the refresh lifetime. The old token is gone.
   */
  lemma {:induction false} RefreshGrantGives(cfg: Config, s: State, r: RefreshRequest)
    requires RedeemRefresh(cfg, s, r).1.Issued? && FreshToken(cfg, s, r.newToken)
    ensures var key, next := EncodedDigest(cfg.sha, r.token), EncodedDigest(cfg.sha, r.newToken);
            var (s', answer) := RedeemRefresh(cfg, s, r);
            && key in s.refresh
            && var item := s.refresh[key].value;
               && answer == Issued(r.newSession, "DPoP", item.scope, if r.faults.issue then [] else r.newToken)
               && s'.sessions.Keys == s.sessions.Keys + {r.newSession}
               && MadeFrom(s'.sessions[r.newSession], item.session, r.newSession, s.now, r.jkt)
               && s'.codes == s.codes && s'.states == s.states && s'.txCodes == s.txCodes && s'.now == s.now
               && s'.refresh.Keys == s.refresh.Keys - {key} + (if r.faults.issue then {} else {next})
               && (forall k :: k in s.refresh && k != key ==> s'.refresh[k] == s.refresh[k])
               && (!r.faults.issue ==>
                     var e := s'.refresh[next];
                     && e.expires == s.now + cfg.refreshTTL && e.origin == s.refresh[key].origin
                     && e.value.clientID == item.clientID && e.value.scope == item.scope && e.value.jkt == r.jkt
                     && SamePerson(e.value.session, item.session)
                       && SameButKey(e.value.session.meta, item.session.meta))
  {
    RefreshGrantsExactly(cfg, s, r);
    hide Minted, NextTemplate, EncodedDigest;
    var item := s.refresh[EncodedDigest(cfg.sha, r.token)].value;
    MintedIsMadeFrom(item.session, r.newSession, s.now, r.jkt);
    NextKeepsPerson(item.session, r.jkt);
  }

  /** A refused one leaves all as it was, but for a token that was read and did not match or got no session. */
  lemma {:induction false} RefusedRefreshLeaves(cfg: Config, s: State, r: RefreshRequest)
    requires RedeemRefresh(cfg, s, r).1.Denied?
    ensures var (s', answer) := RedeemRefresh(cfg, s, r);
            var key := EncodedDigest(cfg.sha, r.token);
            var read := r.jkt != [] && r.token != [] && !r.faults.read && key in s.refresh
              && s.now < s.refresh[key].expires;
            s' == if read then s.(refresh := s.refresh - {key}) else s
  {
    hide Minted, NextTemplate, EncodedDigest;
  }

  lemma NextKeepsPerson(template: SessionV, jkt: GoString)
    ensures SamePerson(NextTemplate(template, jkt), template)
            && SameButKey(NextTemplate(template, jkt).meta, template.meta)
  {
  }
}
