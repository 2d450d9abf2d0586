/**
  What a metadata map shared between a cached code and the request that redeems it does to the state
  (authorizationcode/token.go). A cache may hand out and keep the map it holds or a copy; writing
  dpop_jkt into a map handed out by reference writes it into the cached code, and into every session
  that was given the same map.
 */
module SharedMaps {
  import opened GoStrings
  import opened Items
  import opened TtlCache
  import opened Grants
  import opened Lifecycle

  /** Which storage operations of a request pass maps by reference. */
  datatype Sharing = Sharing(read: bool, create: bool, issue: bool)

  /** The sessions whose map is the map of a cached code, each with that code. */
  type Ties = map<GoString, GoString>

  /** A request that gets as far as creating a session from a code. */
  datatype Redemption = Redemption(code: GoString, jkt: GoString, session: GoString, createFails: bool,
                                   deleteFails: bool,
                                   grants: bool, drop: set<GoString>)

  function PreAuthRefused(cfg: Config, s: State, r: PreAuthRequest): bool {
    EarlyPreAuthRefusal(cfg, s.codes, s.now, r).Some? || TxCodeRefused(s, r) || NeedsDPoP(cfg, r)
  }

  function RedemptionOf(cfg: Config, s: State, op: Op): Option<Redemption> {
    match op
    case Code(r) =>
      if EarlyRefusal(cfg, s.codes, s.now, r).Some? then None
      else Some(Redemption(r.code, r.jkt, r.newSession, r.faults.create, r.faults.delete,
                           !r.faults.create && !r.faults.delete, Dropped(r)))
    case PreAuth(r) =>
      if PreAuthRefused(cfg, s, r) then None
      else Some(Redemption(r.code, r.jkt, r.newSession, r.faults.create, r.faults.delete, !r.faults.create, {}))
    case _ => None
  }

  /** The session template of a live code; the zero session, which has no map, when there is none. */
  function TemplateOf(s: State, code: GoString): SessionV {
    ItemAt(s.codes, code, s.now, None).session
  }

  /** The request writes its key into the map of the cached code. */
  predicate Writes(s: State, code: GoString, jkt: GoString, sharing: Sharing) {
    sharing.read && jkt != [] && TemplateOf(s, code).meta.Some?
  }

  function WithKey(sess: SessionV, jkt: GoString): SessionV {
    sess.(meta := Bind(sess.meta, jkt))
  }

  function MarkCodes(codes: Table<CodeItemV>, code: GoString, jkt: GoString): Table<CodeItemV> {
    map k | k in codes :: if k == code then
      codes[k].(value := codes[k].value.(session := WithKey(codes[k].value.session, jkt))) else codes[k]
  }

  predicate TiedTo(ties: Ties, id: GoString, code: GoString) {
    id in ties && ties[id] == code
  }

  function MarkSessions(sessions: map<GoString, SessionV>, ties: Ties, code: GoString, jkt: GoString): map<GoString,
    SessionV> {
    map id | id in sessions :: if TiedTo(ties, id, code) then WithKey(sessions[id], jkt) else sessions[id]
  }

  /** The state once the request has written to the map it was given. */
  function Marked(s: State, ties: Ties, code: GoString, jkt: GoString, sharing: Sharing): State {
    if Writes(s, code, jkt, sharing) then
      s.(codes := MarkCodes(s.codes, code, jkt), sessions := MarkSessions(s.sessions, ties, code, jkt))
    else s
  }

  function MarkedFor(cfg: Config, s: State, ties: Ties, op: Op, sharing: Sharing): State {
    match RedemptionOf(cfg, s, op)
    case None => s
    case Some(p) => Marked(s, ties, p.code, p.jkt, sharing)
  }

  lemma BindAgain(template: SessionV, id: GoString, now: int, jkt: GoString)
    requires jkt != []
    ensures Minted(WithKey(template, jkt), id, now, jkt) == Minted(template, id, now, jkt)
  {
    var m := if template.meta.Some? then template.meta.value else map[];
    assert m[DPOP_JKT := jkt][DPOP_JKT := jkt] == m[DPOP_JKT := jkt];
  }

  /** The mark is in the metadata alone: the redemption finds the same item and mints the same session. */
  lemma MarkedItem(s: State, ties: Ties, code: GoString, jkt: GoString, sharing: Sharing, id: GoString)
    ensures var s1 := Marked(s, ties, code, jkt, sharing);
            var item, item1 := ItemAt(s.codes, code, s.now, None), ItemAt(s1.codes, code, s1.now, None);
            && item1 == item.(session := item1.session) && item1.session == item.session.(meta := item1.session.meta)
            && Minted(item1.session, id, s.now, jkt) == Minted(item.session, id, s.now, jkt)
            && OriginAt(s1.codes, code, s1.now) == OriginAt(s.codes, code, s.now)
  {
    if Writes(s, code, jkt, sharing) {
      BindAgain(TemplateOf(s, code), id, s.now, jkt);
    }
  }

  // --- the handlers, component by component ---------------------------------

  lemma RedeemCodeFields(cfg: Config, s: State, r: CodeRequest)
    ensures var early := EarlyRefusal(cfg, s.codes, s.now, r);
            var (s', answer) := RedeemCode(cfg, s, r);
            if early.Some? || r.faults.create then
              s' == s && answer == Denied(if early.Some? then early.value else SessionCreateFailed)
            else
              var item := ItemAt(s.codes, r.code, s.now, None);
              var sess := Minted(item.session, r.newSession, s.now, r.jkt);
              var g := Grant(r.newSession, item.session.subject, Authenticate(cfg, r.client, r.jkt).clientID,
                             item.scope, r.jkt);
              var entry := Entry(RefreshTokenItem(g.clientID, item.scope, r.jkt, sess), s.now + cfg.refreshTTL,
                                 |s.log|);
              && answer == (if r.faults.delete then Denied(CleanupFailed) else CodeAnswer(g, r))
              && s'.now == s.now && s'.states == s.states && s'.txCodes == s.txCodes
              && s'.codes == (if r.faults.delete then s.codes else s.codes - {r.code})
              && s'.sessions == s.sessions[r.newSession := sess] - Dropped(r)
              && s'.refresh == (if r.faults.delete || !IssuesRefresh(r) then s.refresh
                                else s.refresh[RefreshKey(cfg, r.newToken) := entry])
              && s'.log == s.log + if r.faults.delete then []
                else [CodeRedeemed(false, OriginAt(s.codes, r.code, s.now), g)]
  {
  }

  lemma FinishPreAuthFields(cfg: Config, s: State, r: PreAuthRequest, item: CodeItemV)
    ensures var (s', answer) := FinishPreAuth(cfg, s, r, item);
            if NeedsDPoP(cfg, r) || r.faults.create then
              s' == s && answer == Denied(if NeedsDPoP(cfg, r) then DPoPMissing else SessionCreateFailed)
            else
              var sess := Minted(item.session, r.newSession, s.now, r.jkt);
              var g := Grant(r.newSession, item.session.subject, [], item.scope, r.jkt);
              && answer == Issued(r.newSession, TokenType(r.jkt), item.scope, [])
              && s'.now == s.now && s'.states == s.states && s'.txCodes == s.txCodes && s'.refresh == s.refresh
              && s'.codes == (if r.faults.delete then s.codes else s.codes - {r.code})
              && s'.sessions == s.sessions[r.newSession := sess]
              && s'.log == s.log + [CodeRedeemed(true, OriginAt(s.codes, r.code, s.now), g)]
  {
  }

  // --- who is tied afterwards -----------------------------------------------

  function Without(ties: Ties, code: GoString): Ties {
    map id | id in ties && ties[id] != code :: ties[id]
  }

  /** A created session is tied to the code when its map went from the cache to the session store by reference. */
  function TiesWith(ties: Ties, session: GoString, code: GoString, tied: bool): Ties {
    if tied then ties[session := code] else ties - {session}
  }

  function TiesAfter(s: State, ties: Ties, p: Redemption, sharing: Sharing): Ties {
    if p.createFails then ties
    else
      var created := TiesWith(ties, p.session, p.code, sharing.read && sharing.create
                              && TemplateOf(s, p.code).meta.Some?);
      var kept := created - p.drop;
      if p.deleteFails then kept else Without(kept, p.code)
  }

  /** The operation puts something on record. */
  predicate Acts(cfg: Config, s: State, op: Op) {
    |Apply(cfg, s, op).log| > |s.log|
  }

  function TiesFor(cfg: Config, s: State, ties: Ties, op: Op, sharing: Sharing): Ties {
    match op
    case Callback(r) => if Acts(cfg, s, op) then Without(ties, r.id) else ties
    case Offer(r) => if Acts(cfg, s, op) then Without(ties, r.code) else ties
    case Refresh(r) => if Acts(cfg, s, op) then ties - {r.newSession} else ties
    case _ => match RedemptionOf(cfg, s, op) case None => ties case Some(p) => TiesAfter(s, ties, p, sharing)
  }

  // --- the handlers, step by step ----------------------------------------------

  lemma MarkedIsNoRefusal(cfg: Config, s: State, ties: Ties, r: CodeRequest, sharing: Sharing)
    ensures var s1 := Marked(s, ties, r.code, r.jkt, sharing);
            EarlyRefusal(cfg, s1.codes, s1.now, r) == EarlyRefusal(cfg, s.codes, s.now, r)
  {
    hide Authenticate;
    MarkedItem(s, ties, r.code, r.jkt, sharing, r.newSession);
  }

  /** The state after a request that created its session, put together from its steps. */
  function AfterCreation(cfg: Config, s: State, r: CodeRequest, g: Grant, sess: SessionV): (State, Answer) {
    var created := s.(sessions := s.sessions[r.newSession := sess] - Dropped(r));
    var entry := Entry(RefreshTokenItem(g.clientID, g.scope, g.jkt, sess), s.now + cfg.refreshTTL, |s.log|);
    if r.faults.delete then (created, Denied(CleanupFailed))
    else (created.(codes := s.codes - {r.code},
                   refresh := if IssuesRefresh(r) then s.refresh[RefreshKey(cfg, r.newToken) := entry] else s.refresh,
                   log := s.log + [CodeRedeemed(false, OriginAt(s.codes, r.code, s.now), g)]),
          CodeAnswer(g, r))
  }

  lemma CodeTies(cfg: Config, s: State, ties: Ties, r: CodeRequest, sharing: Sharing)
    requires EarlyRefusal(cfg, s.codes, s.now, r).None?
    ensures var tied := sharing.read && TemplateOf(s, r.code).meta.Some?;
            var created := TiesWith(ties, r.newSession, r.code, tied && sharing.create);
            TiesFor(cfg, s, ties, Code(r), sharing) ==
            if r.faults.create then ties
            else if r.faults.delete then created - Dropped(r) else Without(created - Dropped(r), r.code)
  {
  }

  lemma StepsMakeTheHandler(cfg: Config, s: State, ties: Ties, r: CodeRequest, sharing: Sharing)
    requires EarlyRefusal(cfg, s.codes, s.now, r).None?
    ensures var s1 := MarkedFor(cfg, s, ties, Code(r), sharing);
            var item := ItemAt(s.codes, r.code, s.now, None);
            var g := Grant(r.newSession, item.session.subject, Authenticate(cfg, r.client, r.jkt).clientID, item.scope,
                           r.jkt);
            && s1 == Marked(s, ties, r.code, r.jkt, sharing)
            && RedeemCode(cfg, s1, r) ==
               if r.faults.create then (s1, Denied(SessionCreateFailed))
               else AfterCreation(cfg, s1, r, g, Minted(item.session, r.newSession, s.now, r.jkt))
  {
    hide MarkCodes, MarkSessions, Writes, EarlyRefusal, ItemAt, Minted, Authenticate, CodeAnswer, OriginAt;
    MarkedItem(s, ties, r.code, r.jkt, sharing, r.newSession);
    MarkedIsNoRefusal(cfg, s, ties, r, sharing);
    RedeemCodeFields(cfg, Marked(s, ties, r.code, r.jkt, sharing), r);
  }

  function PreAuthRedemption(r: PreAuthRequest): Redemption {
    Redemption(r.code, r.jkt, r.newSession, r.faults.create, r.faults.delete, !r.faults.create, {})
  }

  lemma PreAuthTies(s: State, ties: Ties, r: PreAuthRequest, sharing: Sharing)
    ensures var tied := sharing.read && TemplateOf(s, r.code).meta.Some?;
            var created := TiesWith(ties, r.newSession, r.code, tied && sharing.create);
            TiesAfter(s, ties, PreAuthRedemption(r), sharing) ==
            if r.faults.create then ties else if r.faults.delete then created else Without(created, r.code)
  {
    var created := TiesWith(ties, r.newSession, r.code, sharing.read && sharing.create
                            && TemplateOf(s, r.code).meta.Some?);
    assert created - {} == created;
  }

  /** The tx_code step and the mark are in different places. */
  lemma MarkAfterTxCode(s: State, ties: Ties, r: PreAuthRequest, sharing: Sharing)
    ensures var t := AfterTxCode(s, r);
            && Marked(t, ties, r.code, r.jkt, sharing) == AfterTxCode(Marked(s, ties, r.code, r.jkt, sharing), r)
            && TemplateOf(t, r.code) == TemplateOf(s, r.code)
            && Marked(t, ties, r.code, r.jkt, sharing).codes == Marked(s, ties, r.code, r.jkt, sharing).codes
            && Marked(t, ties, r.code, r.jkt, sharing).now == Marked(s, ties, r.code, r.jkt, sharing).now
  {
    MarkedItem(s, ties, r.code, r.jkt, sharing, r.newSession);
  }

  /** A marked state refuses what the state before refused. */
  lemma MarkedPreAuthRefusal(cfg: Config, s: State, ties: Ties, r: PreAuthRequest, sharing: Sharing)
    ensures var s1 := Marked(s, ties, r.code, r.jkt, sharing);
            && EarlyPreAuthRefusal(cfg, s1.codes, s1.now, r) == EarlyPreAuthRefusal(cfg, s.codes, s.now, r)
            && TxCodeRefused(s1, r) == TxCodeRefused(s, r)
  {
    hide CheckWallet;
    MarkedItem(s, ties, r.code, r.jkt, sharing, r.newSession);
  }

  /** HandlePreAuthorized in the order of its steps. */
  lemma PreAuthSteps(cfg: Config, s: State, ties: Ties, r: PreAuthRequest, sharing: Sharing)
    requires EarlyPreAuthRefusal(cfg, s.codes, s.now, r).None? && !TxCodeRefused(s, r)
    ensures var t := if ItemAt(s.codes, r.code, s.now, None).noTXCode then s else AfterTxCode(s, r);
            var t1 := Marked(t, ties, r.code, r.jkt, sharing);
            RedeemPreAuth(cfg, MarkedFor(cfg, s, ties, PreAuth(r), sharing), r) ==
            if NeedsDPoP(cfg, r) then (t, Denied(DPoPMissing))
              else FinishPreAuth(cfg, t1, r, ItemAt(t1.codes, r.code, t1.now, None))
  {
    hide EarlyPreAuthRefusal, TxCodeRefused, Marked, ItemAt, AfterTxCode, FinishPreAuth;
    FinishPreAuthFields(cfg, if ItemAt(s.codes, r.code, s.now, None).noTXCode then s else AfterTxCode(s, r), r,
                        ItemAt(s.codes, r.code, s.now, None));
    MarkAfterTxCode(s, ties, r, sharing);
    MarkedPreAuthRefusal(cfg, s, ties, r, sharing);
    MarkedItem(s, ties, r.code, r.jkt, sharing, r.newSession);
  }

  lemma PreAuthTiesFor(cfg: Config, s: State, ties: Ties, r: PreAuthRequest, sharing: Sharing)
    requires EarlyPreAuthRefusal(cfg, s.codes, s.now, r).None? && !TxCodeRefused(s, r)
    ensures var t := if ItemAt(s.codes, r.code, s.now, None).noTXCode then s else AfterTxCode(s, r);
            TiesFor(cfg, s, ties, PreAuth(r), sharing) ==
            if NeedsDPoP(cfg, r) then ties else TiesAfter(t, ties, PreAuthRedemption(r), sharing)
  {
    hide EarlyPreAuthRefusal, TxCodeRefused, ItemAt, AfterTxCode, Acts, TiesWith, Without;
    MarkAfterTxCode(s, ties, r, sharing);
  }

  lemma RefreshSteps(cfg: Config, s: State, r: RefreshRequest)
    requires r.jkt != [] && r.token != []
    ensures var key := RefreshKey(cfg, r.token);
            var found := Lookup(s.refresh, key, s.now);
            var s1 := s.(refresh := s.refresh - {key});
            && RedeemRefresh(cfg, s, r) ==
               (if found.None? || r.faults.read then (s, Denied(InvalidRefreshToken))
                else if found.value.value.jkt != r.jkt then (s1, Denied(DPoPMismatch))
                else if r.faults.create then (s1, Denied(SessionCreateFailed))
                else FinishRefresh(cfg, s1, r, found.value))
            && (Acts(cfg, s, Refresh(r)) <==>
                  found.Some? && !r.faults.read && found.value.value.jkt == r.jkt && !r.faults.create)
  {
    hide RefreshKey, Minted, NextTemplate;
  }

  lemma RefusedRefresh(cfg: Config, s: State, r: RefreshRequest)
    requires r.jkt == [] || r.token == []
    ensures RedeemRefresh(cfg, s, r) == (s, Denied(if r.jkt == [] then DPoPMissing else MissingParameter))
    ensures !Acts(cfg, s, Refresh(r))
  {
  }
}
