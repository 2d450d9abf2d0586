/**
  authorizationcode/token.go on real references. Every handler is proved to leave exactly the state and
  to give exactly the answer that Grants specifies, started from the state in which its write to a
  shared map has been made (SharedMaps), for every combination of storage faults and of sharing.
 */
module TokenHandlers {
  import opened GoStrings
  import opened Digests
  import opened Items
  import opened TtlCache
  import opened Grants
  import opened Lifecycle
  import opened StoreModel
  import opened SharedMaps
  import opened MapViews

  // --- client authentication ---------------------------------------------------

  method AuthenticateWallet(w: Wallet, jkt: GoString) returns (a: Authentication)
    ensures a == CheckWallet(w, jkt)
  {
    if !w.configured {
      return Refused(InvalidClient);
    }
    if w.result.None? {
      return Refused(InvalidClient);
    }
    if jkt == [] {
      return Refused(DPoPMissing);
    }
    if w.requireKeyBinding && jkt != w.result.value.cnfJKT {
      return Refused(DPoPMismatch);
    }
    return Known(w.result.value.clientID, true);
  }

  method AuthenticateClient(cfg: Config, p: ClientProof, jkt: GoString) returns (a: Authentication)
    ensures a == Authenticate(cfg, p, jkt)
  {
    match p {
      case ByWallet(w) => a := AuthenticateWallet(w, jkt);
      case NoHeader =>
        return Refused(MissingAuthHeader);
      case Undecodable =>
        return Refused(AuthHeaderInvalid);
      case Basic(id, secret) =>
        if id !in cfg.clients {
          return Refused(ClientLookupFailed);
        }
        if secret !in cfg.clients[id].secrets {
          return Refused(InvalidClient);
        }
        if cfg.clients[id].dpopBound && jkt == [] {
          return Refused(DPoPMissing);
        }
        return Known(id, false);
    }
  }

  // --- a code's session template -------------------------------------------------

  /** A handed-out map is the cached item's own or, where storage copies, new to everybody. */
  ghost predicate Borrowed(store: Store, sessions: SessionStore, code: GoString, m: Metadata?, shared: bool)
    reads store, sessions
  {
    if shared then m == ItemAt(store.codes, code, store.now, null).session.meta
    else m !in CodeMetas(store.codes) && m !in RefreshMetas(store.refresh) && m !in SessionMetas(sessions.table)
  }

  method FetchItem(store: Store, sessions: SessionStore, code: GoString, verifier: Option<GoString>, fails: bool,
                   shared: bool)
    returns (item: Option<CodeItemR>)
    ensures var value := ItemAt(CodesOf(store.codes), code, store.now, None);
            item.Some? <==> !fails && match verifier
                                      case None => value.code != []
                                      case Some(v) => VerifierMatches(store.cfg.sha, value, v)
    ensures item.Some? ==>
              && ItemOf(item.value) == ItemAt(CodesOf(store.codes), code, store.now, None)
              && Borrowed(store, sessions, code, item.value.session.meta, shared)
              && var m := item.value.session.meta; m == null || m in CodeMetas(store.codes) || fresh(m)
  {
    hide CodesOf;
    ghost var maps := (CodeMetas(store.codes), RefreshMetas(store.refresh), SessionMetas(sessions.table));
    ItemValue(store.codes, code, store.now);
    match verifier {
      case None => item := store.GetPreAuthItem(code, fails, shared);
      case Some(v) => item := store.GetItem(code, v, fails, shared);
    }
  }

  /** tempData.Session.Metadata["dpop_jkt"] = jkt, making the map first if it is nil. */
  method BindInPlace(s: SessionR, jkt: GoString) returns (t: SessionR)
    modifies s.meta
    ensures t == s.(meta := t.meta)
    ensures t.meta != null && (if s.meta == null then fresh(t.meta) else t.meta == s.meta)
    ensures MetaOf(t.meta) == Bind(old(MetaOf(s.meta)), jkt)
  {
    t := s;
    if s.meta == null {
      var m := new Metadata(map[]);
      t := t.(meta := m);
    }
    t.meta.m := t.meta.m[DPOP_JKT := jkt];
  }

  /** Identity and key of the session to be created. */
  method FillTemplate(template: SessionR, id: GoString, now: int, jkt: GoString) returns (sess: SessionR)
    modifies template.meta
    ensures sess.id == id && sess.subject == template.subject
            && SessionOf(sess) == Minted(old(SessionOf(template)), id, now, jkt)
    ensures if template.meta == null then sess.meta == null || fresh(sess.meta) else sess.meta == template.meta
    ensures jkt == [] ==> MetaOf(template.meta) == old(MetaOf(template.meta))
    ensures jkt != [] ==> HoldsKey(sess, jkt)
    ensures template.meta != null && jkt != [] ==> MetaOf(template.meta) == Bind(old(MetaOf(template.meta)), jkt)
  {
    sess := template.(id := id, lastAccessed := Some(now));
    if jkt != [] {
      sess := BindInPlace(sess, jkt);
    }
  }

  /** A write to a map that no cache and no session has goes unnoticed. */
  method FillForeign(template: SessionR, id: GoString, now: int, jkt: GoString,
                     ghost codes: Table<CodeItemR>, ghost refresh: Table<RefreshItemR>, ghost table: map<GoString,
                       SessionR>)
    returns (sess: SessionR)
    requires template.meta !in CodeMetas(codes) && template.meta !in RefreshMetas(refresh)
             && template.meta !in SessionMetas(table)
    modifies template.meta
    ensures sess.id == id && sess.subject == template.subject
            && SessionOf(sess) == Minted(old(SessionOf(template)), id, now, jkt)
    ensures sess.meta !in CodeMetas(codes) && (jkt != [] ==> HoldsKey(sess, jkt))
    ensures CodesOf(codes) == old(CodesOf(codes)) && RefreshesOf(refresh) == old(RefreshesOf(refresh))
    ensures SessionsOf(table) == old(SessionsOf(table))
            && (old(RefreshMapsBound(refresh)) ==> RefreshMapsBound(refresh))
  {
    hide CodesOf, RefreshesOf, SessionsOf, RefreshMapsBound;
    sess := FillTemplate(template, id, now, jkt);
  }

  lemma CodeSplit(codes: Table<CodeItemR>, code: GoString)
    requires code in codes
    ensures var e := codes[code];
            CodesOf(codes) == CodesOf(codes - {code})[code := Entry(ItemOf(e.value), e.expires, e.origin)]
  {
  }

  /** A write to a cached code's map marks that code and the sessions tied to it, and nothing else. */
  method FillShared(template: SessionR, id: GoString, now: int, jkt: GoString, ghost code: GoString,
                    ghost codes: Table<CodeItemR>, ghost refresh: Table<RefreshItemR>, ghost table: map<GoString,
                      SessionR>, ghost ties: Ties)
    returns (sess: SessionR)
    requires code in codes && template.meta != null && codes[code].value.session.meta == template.meta
    requires CodeMapsApart(codes, refresh) && TiesAre(codes, table, ties)
    modifies template.meta
    ensures sess.id == id && sess.subject == template.subject
            && SessionOf(sess) == Minted(old(SessionOf(template)), id, now, jkt)
    ensures sess.meta == template.meta && (jkt != [] ==> HoldsKey(sess, jkt))
    ensures CodesOf(codes) == if jkt == [] then old(CodesOf(codes)) else MarkCodes(old(CodesOf(codes)), code, jkt)
    ensures RefreshesOf(refresh) == old(RefreshesOf(refresh))
            && (old(RefreshMapsBound(refresh)) ==> RefreshMapsBound(refresh))
    ensures SessionsOf(table) == if jkt == [] then old(SessionsOf(table))
            else MarkSessions(old(SessionsOf(table)), ties, code, jkt)
  {
    hide CodesOf, RefreshesOf, RefreshMapsBound, CodeMapsApart, Minted;
    ghost var maps := (RefreshMetas(refresh), CodeMetas(codes - {code}));
    OwnMapIsApart(codes, refresh, code);
    CodeSplit(codes, code);
    sess := FillTemplate(template, id, now, jkt);
    CodeSplit(codes, code);
  }

  /** The session got the cached code's own map, or one that no cached code has. */
  ghost predicate Holding(store: Store, code: GoString, m: Metadata?, tied: bool)
    reads store
  {
    if tied then code in store.codes && m != null
      && store.codes[code].value.session.meta == m else m !in CodeMetas(store.codes)
  }

  /** The template is filled in; a write to a shared map marks the state, and nobody is tied or untied. */
  method FillFromCode(store: Store, sessions: SessionStore, template: SessionR, id: GoString, jkt: GoString,
                      code: GoString,
                      sharing: Sharing, ghost ties: Ties)
    returns (sess: SessionR)
    requires Separated(store, sessions, ties) && Borrowed(store, sessions, code, template.meta, sharing.read)
    modifies template.meta
    ensures sess.id == id && sess.subject == template.subject
    ensures SessionOf(sess) == Minted(old(SessionOf(template)), id, store.now, jkt)
            && (jkt != [] ==> HoldsKey(sess, jkt))
    ensures StateOf(store, sessions) == Marked(old(StateOf(store, sessions)), ties, code, jkt, sharing)
    ensures Separated(store, sessions, ties)
    ensures Holding(store, code, sess.meta, sharing.read && TemplateOf(old(StateOf(store, sessions)), code).meta.Some?)
  {
    hide CodesOf, RefreshesOf, SessionsOf, CodeMapsApart, TiesAre, RefreshMapsBound, MarkCodes, MarkSessions;
    ItemValue(store.codes, code, store.now);
    if sharing.read && template.meta != null {
      sess := FillShared(template, id, store.now, jkt, code, store.codes, store.refresh, sessions.table, ties);
    } else {
      sess := FillForeign(template, id, store.now, jkt, store.codes, store.refresh, sessions.table);
    }
  }

  /** Session().Create: the session store keeps the session with the map it is given or a copy. */
  method KeepSession(store: Store, sessions: SessionStore, sess: SessionR, fails: bool, shared: bool, ghost ties: Ties,
                     ghost code: GoString, ghost tied: bool)
    returns (ok: bool)
    requires Separated(store, sessions, ties) && Holding(store, code, sess.meta, tied)
    modifies sessions
    ensures ok == !fails && SessionOf(sess) == old(SessionOf(sess))
    ensures var s := old(StateOf(store, sessions));
            StateOf(store, sessions) == if ok then s.(sessions := s.sessions[sess.id := old(SessionOf(sess))]) else s
    ensures Separated(store, sessions, if ok then TiesWith(ties, sess.id, code, tied && shared) else ties)
    ensures Holding(store, code, sess.meta, tied)
  {
    hide CodesOf, RefreshesOf, SessionsOf, CodeMapsApart, TiesAre, RefreshMapsBound;
    ghost var maps := (CodeMetas(store.codes), RefreshMetas(store.refresh), SessionMetas(sessions.table));
    ghost var before := sessions.table;
    ghost var kept;
    ok, kept := sessions.Create(sess, fails, shared);
    if ok {
      SharingWithSession(store.codes, store.refresh, before, ties, sess.id, kept, code, tied && shared);
      SessionsWith(before, sess.id, kept);
    }
  }

  /** Session().Delete of the temporary session that a provider's callback left under the code. */
  method DropSession(store: Store, sessions: SessionStore, id: GoString, fails: bool, ghost ties: Ties)
    requires Separated(store, sessions, ties)
    modifies sessions
    ensures var s, drop := old(StateOf(store, sessions)), if fails then {} else {id};
            StateOf(store, sessions) == s.(sessions := s.sessions - drop) && Separated(store, sessions, ties - drop)
  {
    hide CodesOf, RefreshesOf, SessionsOf, CodeMapsApart, TiesAre, RefreshMapsBound;
    ghost var maps := (CodeMetas(store.codes), RefreshMetas(store.refresh), SessionMetas(sessions.table));
    ghost var before, drop := sessions.table, if fails then {} else {id};
    SharingWithoutSession(store.codes, before, ties, drop);
    SessionsWithout(before, drop);
    sessions.Delete(id, fails);
  }

  /** DeleteItem: whoever was tied to the code is tied to nothing now. */
  method DropCode(store: Store, sessions: SessionStore, code: GoString, fails: bool, ghost ties: Ties)
    returns (ok: bool)
    requires Separated(store, sessions, ties)
    modifies store`codes
    ensures ok == !fails
    ensures store.codes == if fails then old(store.codes) else old(store.codes) - {code}
    ensures var s := old(StateOf(store, sessions)); StateOf(store, sessions) == if ok then
            s.(codes := s.codes - {code}) else s
    ensures Separated(store, sessions, if ok then Without(ties, code) else ties)
  {
    hide CodesOf, RefreshesOf, SessionsOf, CodeMapsApart, TiesAre, RefreshMapsBound;
    ghost var maps := (CodeMetas(store.codes), RefreshMetas(store.refresh), SessionMetas(sessions.table));
    CodesWithout(store.codes, code);
    SharingWithoutCode(store.codes, store.refresh, sessions.table, ties, code);
    ok := store.DeleteItem(code, fails);
  }

  /** The stored entry is the intended one, its session's map being the given one or a new equal one. */
  twostate predicate IsRefreshEntry(new e: Entry<RefreshItemR>, new want: Entry<RefreshItemR>)
    reads e.value.session.meta, want.value.session.meta
  {
    && e.expires == want.expires && e.origin == want.origin
    && RefreshOf(e.value) == RefreshOf(want.value)
    && (e.value.session.meta == want.value.session.meta
        || (e.value.session.meta != null && fresh(e.value.session.meta)))
  }

  method IssueToken(store: Store, item: RefreshItemR, token: GoString, origin: nat, fails: bool, shared: bool)
    returns (issued: GoString)
    modifies store`refresh
    ensures issued == if fails then [] else token
    ensures fails ==> store.refresh == old(store.refresh)
    ensures !fails ==>
              var key := RefreshKey(store.cfg, token);
              && key in store.refresh && store.refresh == old(store.refresh)[key := store.refresh[key]]
              && IsRefreshEntry(store.refresh[key], Entry(item, store.now + store.cfg.refreshTTL, origin))
  {
    ghost var kept;
    issued, kept := store.IssueRefreshToken(item, token, origin, fails, shared);
  }

  /** IssueRefreshToken, for an item whose map holds its key and is no cached code's. */
  method StoreToken(store: Store, sessions: SessionStore, item: RefreshItemR, token: GoString, origin: nat,
                    fails: bool, shared: bool,
                    ghost ties: Ties)
    returns (issued: GoString)
    requires Separated(store, sessions, ties) && HoldsKey(item.session, item.jkt)
             && item.session.meta !in CodeMetas(store.codes)
    modifies store`refresh
    ensures issued == if fails then [] else token
    ensures var s, entry := old(StateOf(store, sessions)),
            Entry(old(RefreshOf(item)), store.now + store.cfg.refreshTTL, origin);
            StateOf(store, sessions) == if fails then s
              else s.(refresh := s.refresh[RefreshKey(store.cfg, token) := entry])
    ensures Separated(store, sessions, ties)
  {
    hide CodesOf, RefreshesOf, SessionsOf, CodeMapsApart, TiesAre, RefreshMapsBound, RefreshKey;
    ghost var maps := (CodeMetas(store.codes), RefreshMetas(store.refresh), SessionMetas(sessions.table));
    ghost var before, key := store.refresh, RefreshKey(store.cfg, token);
    issued := IssueToken(store, item, token, origin, fails, shared);
    if !fails {
      RefreshesWith(before, key, store.refresh[key]);
      SharingWithToken(store.codes, before, key, store.refresh[key]);
    }
  }

  method Record(store: Store, sessions: SessionStore, e: Event, ghost ties: Ties)
    requires Separated(store, sessions, ties)
    modifies store`log
    ensures var s := old(StateOf(store, sessions)); StateOf(store, sessions) == s.(log := s.log + [e])
    ensures Separated(store, sessions, ties)
  {
    hide CodesOf, RefreshesOf, SessionsOf, CodeMapsApart, TiesAre, RefreshMapsBound;
    ghost var maps := (CodeMetas(store.codes), RefreshMetas(store.refresh), SessionMetas(sessions.table));
    store.log := store.log + [e];
  }

  // --- authorization codes ---------------------------------------------------------

  /** HandleAuthorization up to the point where it starts to change things. */
  method CheckCodeRequest(store: Store, sessions: SessionStore, r: CodeRequest, shared: bool)
    returns (refusal: Option<TokenError>, clientID: GoString, item: CodeItemR)
    ensures refusal == EarlyRefusal(store.cfg, CodesOf(store.codes), store.now, r)
    ensures refusal.None? ==>
              && clientID == Authenticate(store.cfg, r.client, r.jkt).clientID
              && ItemOf(item) == ItemAt(CodesOf(store.codes), r.code, store.now, None)
              && Borrowed(store, sessions, r.code, item.session.meta, shared)
              && var m := item.session.meta; m == null || m in CodeMetas(store.codes) || fresh(m)
  {
    hide CodesOf, Borrowed, ItemAt;
    item := ZeroItem(null);
    clientID := [];
    var a := AuthenticateClient(store.cfg, r.client, r.jkt);
    if a.Refused? {
      return Some(a.error), clientID, item;
    }
    clientID := a.clientID;
    var found := FetchItem(store, sessions, r.code, Some(r.verifier), r.faults.read, shared);
    if found.None? {
      return Some(InvalidCode), clientID, item;
    }
    item := found.value;
    if item.redirectURI != r.redirectURI {
      return Some(RedirectMismatch), clientID, item;
    }
    if a.attested && item.clientID != a.clientID {
      return Some(WrongClient), clientID, item;
    }
    return None, clientID, item;
  }

  /** Once its code is gone, a created session's map is no cached code's. */
  lemma HeldMapIsFree(store: Store, code: GoString, m: Metadata?, tied: bool)
    requires CodeMapsApart(store.codes, store.refresh) && Holding(store, code, m, tied)
    ensures m !in CodeMetas(store.codes - {code})
  {
    assert CodeMetas(store.codes - {code}) <= CodeMetas(store.codes);
    if tied {
      OwnMapIsApart(store.codes, store.refresh, code);
    }
  }

  /** Deleting the code, issuing the refresh token of a DPoP grant, recording the event. */
  method FinishAuthorization(store: Store, sessions: SessionStore, r: CodeRequest, clientID: GoString, item: CodeItemR,
                             sess: SessionR,
                             shared: bool, ghost ties: Ties, ghost tied: bool)
    returns (answer: Answer)
    requires Separated(store, sessions, ties) && Holding(store, r.code, sess.meta, tied)
             && (r.jkt != [] ==> HoldsKey(sess, r.jkt))
    modifies store`codes, store`refresh, store`log
    ensures var s := old(StateOf(store, sessions));
            var g := Grant(sess.id, sess.subject, clientID, item.scope, r.jkt);
            var entry := Entry(RefreshTokenItem(clientID, item.scope, r.jkt, old(SessionOf(sess))),
                               s.now + store.cfg.refreshTTL, |s.log|);
            if r.faults.delete then StateOf(store, sessions) == s && answer == Denied(CleanupFailed)
            else
              && answer == CodeAnswer(g, r)
              && StateOf(store, sessions) == s.(
                   codes := s.codes - {r.code},
                   refresh := if IssuesRefresh(r) then s.refresh[RefreshKey(store.cfg, r.newToken) := entry]
                     else s.refresh,
                   log := s.log + [CodeRedeemed(false, OriginAt(s.codes, r.code, s.now), g)])
    ensures Separated(store, sessions, if r.faults.delete then ties else Without(ties, r.code))
  {
    hide CodesOf, RefreshesOf, SessionsOf, CodeMapsApart, TiesAre, RefreshMapsBound, RefreshKey, OriginAt, SessionOf;
    ItemValue(store.codes, r.code, store.now);
    HeldMapIsFree(store, r.code, sess.meta, tied);
    var origin, place := OriginAt(store.codes, r.code, store.now), |store.log|;
    var deleted := DropCode(store, sessions, r.code, r.faults.delete, ties);
    if !deleted {
      return Denied(CleanupFailed);
    }
    var refreshToken: GoString := [];
    if TokenType(r.jkt) == DPOP {
      refreshToken := StoreToken(store, sessions, RefreshTokenItem(clientID, item.scope, r.jkt, sess), r.newToken,
                                 place,
                                 r.faults.issue, shared, Without(ties, r.code));
    }
    Record(store, sessions, CodeRedeemed(false, origin, Grant(sess.id, sess.subject, clientID, item.scope, r.jkt)),
           Without(ties, r.code));
    return Issued(sess.id, TokenType(r.jkt), item.scope, refreshToken);
  }

  /** HandleAuthorization from Session().Delete on. */
  method FinishCreated(store: Store, sessions: SessionStore, r: CodeRequest, clientID: GoString, item: CodeItemR,
                       sess: SessionR,
                       shared: bool, ghost ties: Ties, ghost tied: bool, ghost s: State)
    returns (answer: Answer)
    requires Separated(store, sessions, ties) && Holding(store, r.code, sess.meta, tied)
             && (r.jkt != [] ==> HoldsKey(sess, r.jkt))
    requires sess.id == r.newSession && sess.subject == item.session.subject
    requires StateOf(store, sessions) == s.(sessions := s.sessions[r.newSession := SessionOf(sess)])
    modifies store, sessions
    ensures (StateOf(store, sessions), answer) ==
            AfterCreation(store.cfg, s, r, Grant(r.newSession, item.session.subject, clientID, item.scope, r.jkt),
                          old(SessionOf(sess)))
    ensures Separated(store, sessions, if r.faults.delete then ties - Dropped(r)
                      else Without(ties - Dropped(r), r.code))
  {
    hide CodesOf, RefreshesOf, SessionsOf, CodeMapsApart, TiesAre, RefreshMapsBound, Holding, IssuesRefresh,
         RefreshKey, OriginAt, CodeAnswer;
    DropSession(store, sessions, r.code, r.faults.tempDelete, ties);
    answer := FinishAuthorization(store, sessions, r, clientID, item, sess, shared, ties - Dropped(r), tied);
  }

  /** HandleAuthorization from the point where it starts to change things. */
  method GrantCode(store: Store, sessions: SessionStore, r: CodeRequest, clientID: GoString, item: CodeItemR,
                   sharing: Sharing,
                   ghost ties: Ties)
    returns (answer: Answer)
    requires Separated(store, sessions, ties) && Borrowed(store, sessions, r.code, item.session.meta, sharing.read)
    requires EarlyRefusal(store.cfg, CodesOf(store.codes), store.now, r).None?
    requires clientID == Authenticate(store.cfg, r.client, r.jkt).clientID
    requires ItemOf(item) == ItemAt(CodesOf(store.codes), r.code, store.now, None)
    modifies store, sessions, item.session.meta
    ensures var s := old(StateOf(store, sessions));
            (StateOf(store, sessions), answer) ==
              RedeemCode(store.cfg, MarkedFor(store.cfg, s, ties, Code(r), sharing), r)
    ensures Separated(store, sessions, TiesFor(store.cfg, old(StateOf(store, sessions)), ties, Code(r), sharing))
  {
    hide CodesOf, RefreshesOf, SessionsOf, CodeMapsApart, TiesAre, RefreshMapsBound, Borrowed, Holding, Separated;
    hide RedeemCode, EarlyRefusal, Marked, MarkedFor, Minted, ItemAt, Authenticate, AfterCreation, TiesWith, Without,
         TiesFor;
    ghost var s := StateOf(store, sessions);
    ghost var s1 := Marked(s, ties, r.code, r.jkt, sharing);
    ghost var tied := sharing.read && TemplateOf(s, r.code).meta.Some?;
    CodeTies(store.cfg, s, ties, r, sharing);
    StepsMakeTheHandler(store.cfg, s, ties, r, sharing);
    var sess := FillFromCode(store, sessions, item.session, r.newSession, r.jkt, r.code, sharing, ties);
    var ok := KeepSession(store, sessions, sess, r.faults.create, sharing.create, ties, r.code, tied);
    if !ok {
      return Denied(SessionCreateFailed);
    }
    ghost var ties2 := TiesWith(ties, sess.id, r.code, tied && sharing.create);
    answer := FinishCreated(store, sessions, r, clientID, item, sess, sharing.issue, ties2, tied, s1);
  }

  /**
    HandleAuthorization: for every sharing and every fault, the effect specified for values on the state
    in which the key has been written to the map that was handed out.
   */
  method HandleAuthorization(store: Store, sessions: SessionStore, r: CodeRequest, sharing: Sharing, ghost ties: Ties)
    returns (answer: Answer)
    requires Separated(store, sessions, ties)
    modifies store, sessions, CodeMetas(store.codes)
    ensures var s := old(StateOf(store, sessions));
            (StateOf(store, sessions), answer) ==
              RedeemCode(store.cfg, MarkedFor(store.cfg, s, ties, Code(r), sharing), r)
    ensures Separated(store, sessions, TiesFor(store.cfg, old(StateOf(store, sessions)), ties, Code(r), sharing))
  {
    hide CodesOf, RefreshesOf, SessionsOf, CodeMapsApart, TiesAre, RefreshMapsBound, Borrowed, EarlyRefusal, Marked,
         TiesAfter;
    ghost var maps := (CodeMetas(store.codes), RefreshMetas(store.refresh), SessionMetas(sessions.table));
    var refusal, clientID, item := CheckCodeRequest(store, sessions, r, sharing.read);
    if refusal.Some? {
      return Denied(refusal.value);
    }
    answer := GrantCode(store, sessions, r, clientID, item, sharing, ties);
  }

  // --- pre-authorized codes ----------------------------------------------------------

  method CheckPreAuthRequest(store: Store, sessions: SessionStore, r: PreAuthRequest, shared: bool)
    returns (refusal: Option<TokenError>, item: CodeItemR)
    ensures refusal == EarlyPreAuthRefusal(store.cfg, CodesOf(store.codes), store.now, r)
    ensures refusal.None? ==>
              && ItemOf(item) == ItemAt(CodesOf(store.codes), r.code, store.now, None)
              && Borrowed(store, sessions, r.code, item.session.meta, shared)
              && var m := item.session.meta; m == null || m in CodeMetas(store.codes) || fresh(m)
  {
    hide CodesOf, Borrowed, ItemAt;
    item := ZeroItem(null);
    if r.wallet.Some? {
      var a := AuthenticateWallet(r.wallet.value, r.jkt);
      if a.Refused? {
        return Some(a.error), item;
      }
    } else if store.cfg.requireAttestationPreauth {
      return Some(AttestationRequired), item;
    }
    if r.code == [] {
      return Some(MissingParameter), item;
    }
    var found := FetchItem(store, sessions, r.code, None, r.faults.read, shared);
    if found.None? {
      return Some(InvalidCode), item;
    }
    return None, found.value;
  }

  /** ValidateTXCode and, after a correct presentation, DeleteTXCode. */
  method PresentTxCode(store: Store, r: PreAuthRequest) returns (ok: bool)
    modifies store`txCodes, store`log
    ensures ok <==> !r.faults.txRead && TxCodeMatches(old(store.txCodes), r.code, store.now, r.txCode)
    ensures !ok ==> store.txCodes == old(store.txCodes) && store.log == old(store.log)
    ensures ok ==>
              && store.txCodes == (if r.faults.txDelete then old(store.txCodes) else old(store.txCodes) - {r.code})
              && store.log == old(store.log) + match OriginAt(store.codes, r.code, store.now)
                                               case None => []
                                               case Some(o) => [TxPresented(o, r.txCode)]
  {
    ok := store.ValidateTXCode(r.code, r.txCode, r.faults.txRead);
    if ok {
      store.DeleteTXCode(r.code, r.faults.txDelete);
      var origin := OriginAt(store.codes, r.code, store.now);
      if origin.Some? {
        store.log := store.log + [TxPresented(origin.value, r.txCode)];
      }
    }
  }

  /** The tx_code step on values: it changes no map and unties nobody. */
  method SettleTxCode(store: Store, sessions: SessionStore, r: PreAuthRequest, shared: bool, m: Metadata?,
                      ghost ties: Ties)
    returns (ok: bool)
    requires Separated(store, sessions, ties) && Borrowed(store, sessions, r.code, m, shared)
    modifies store`txCodes, store`log
    ensures ok <==> !r.faults.txRead && TxCodeMatches(old(store.txCodes), r.code, store.now, r.txCode)
    ensures StateOf(store, sessions) == if ok then AfterTxCode(old(StateOf(store, sessions)), r)
            else old(StateOf(store, sessions))
    ensures Separated(store, sessions, ties) && Borrowed(store, sessions, r.code, m, shared)
  {
    hide CodesOf, RefreshesOf, SessionsOf, CodeMapsApart, TiesAre, RefreshMapsBound, TxCodeMatches, OriginAt;
    ghost var maps := (CodeMetas(store.codes), RefreshMetas(store.refresh), SessionMetas(sessions.table));
    ItemValue(store.codes, r.code, store.now);
    ok := PresentTxCode(store, r);
  }

  /** HandlePreAuthorized from the session template on. */
  method GrantPreAuth(store: Store, sessions: SessionStore, r: PreAuthRequest, item: CodeItemR, sharing: Sharing,
                      ghost ties: Ties)
    returns (answer: Answer)
    requires Separated(store, sessions, ties) && Borrowed(store, sessions, r.code, item.session.meta, sharing.read)
    requires !NeedsDPoP(store.cfg, r) && ItemOf(item) == ItemAt(CodesOf(store.codes), r.code, store.now, None)
    modifies store, sessions, item.session.meta
    ensures var s1 := Marked(old(StateOf(store, sessions)), ties, r.code, r.jkt, sharing);
            (StateOf(store, sessions), answer) ==
              FinishPreAuth(store.cfg, s1, r, ItemAt(s1.codes, r.code, s1.now, None))
    ensures Separated(store, sessions, TiesAfter(old(StateOf(store, sessions)), ties, PreAuthRedemption(r), sharing))
  {
    hide CodesOf, RefreshesOf, SessionsOf, CodeMapsApart, TiesAre, RefreshMapsBound, Borrowed, Holding, Separated;
    hide FinishPreAuth, MarkCodes, MarkSessions, Writes, Minted, ItemAt, OriginAt, TiesWith, Without, TiesAfter,
         NeedsDPoP;
    ghost var s := StateOf(store, sessions);
    ghost var s1 := Marked(s, ties, r.code, r.jkt, sharing);
    ghost var tied := sharing.read && TemplateOf(s, r.code).meta.Some?;
    PreAuthTies(s, ties, r, sharing);
    MarkedItem(s, ties, r.code, r.jkt, sharing, r.newSession);
    FinishPreAuthFields(store.cfg, s1, r, ItemAt(s1.codes, r.code, s1.now, None));
    ItemValue(store.codes, r.code, store.now);
    var origin := OriginAt(store.codes, r.code, store.now);
    var sess := FillFromCode(store, sessions, item.session, r.newSession, r.jkt, r.code, sharing, ties);
    var ok := KeepSession(store, sessions, sess, r.faults.create, sharing.create, ties, r.code, tied);
    if !ok {
      return Denied(SessionCreateFailed);
    }
    var g := Grant(sess.id, sess.subject, [], item.scope, r.jkt);
    EndPreAuth(store, sessions, r, CodeRedeemed(true, origin, g),
               TiesWith(ties, sess.id, r.code, tied && sharing.create));
    return Issued(sess.id, TokenType(r.jkt), item.scope, []);
  }

  /** The grant stands whether or not its code can be deleted. */
  method EndPreAuth(store: Store, sessions: SessionStore, r: PreAuthRequest, e: Event, ghost ties: Ties)
    requires Separated(store, sessions, ties)
    modifies store`codes, store`log
    ensures var s := old(StateOf(store, sessions));
            StateOf(store, sessions) == s.(codes := if r.faults.delete then s.codes else s.codes - {r.code},
                                           log := s.log + [e])
    ensures Separated(store, sessions, if r.faults.delete then ties else Without(ties, r.code))
  {
    hide CodesOf, RefreshesOf, SessionsOf, Separated;
    var deleted := DropCode(store, sessions, r.code, r.faults.delete, ties);
    Record(store, sessions, e, if deleted then Without(ties, r.code) else ties);
  }

  /** HandlePreAuthorized, likewise for every sharing and every fault. */
  method HandlePreAuthorized(store: Store, sessions: SessionStore, r: PreAuthRequest, sharing: Sharing,
                             ghost ties: Ties)
    returns (answer: Answer)
    requires Separated(store, sessions, ties)
    modifies store, sessions, CodeMetas(store.codes)
    ensures var s := old(StateOf(store, sessions));
            (StateOf(store, sessions), answer) ==
              RedeemPreAuth(store.cfg, MarkedFor(store.cfg, s, ties, PreAuth(r), sharing), r)
    ensures Separated(store, sessions, TiesFor(store.cfg, old(StateOf(store, sessions)), ties, PreAuth(r), sharing))
  {
    hide CodesOf, RefreshesOf, SessionsOf, CodeMapsApart, TiesAre, RefreshMapsBound, Borrowed;
    hide ItemAt, FinishPreAuth, EarlyPreAuthRefusal, TxCodeMatches, AfterTxCode, Marked, TiesAfter;
    ghost var maps := (CodeMetas(store.codes), RefreshMetas(store.refresh), SessionMetas(sessions.table));
    ghost var s := StateOf(store, sessions);
    var refusal, item := CheckPreAuthRequest(store, sessions, r, sharing.read);
    if refusal.Some? {
      return Denied(refusal.value);
    }
    if !item.noTXCode {
      var valid := SettleTxCode(store, sessions, r, sharing.read, item.session.meta, ties);
      if !valid {
        return Denied(TxCodeInvalid);
      }
    }
    PreAuthSteps(store.cfg, s, ties, r, sharing);
    PreAuthTiesFor(store.cfg, s, ties, r, sharing);
    if r.clientID.Some? && r.clientID.value != [] && r.jkt == [] {
      if r.clientID.value in store.cfg.clients && store.cfg.clients[r.clientID.value].dpopBound {
        return Denied(DPoPMissing);
      }
    }
    answer := GrantPreAuth(store, sessions, r, item, sharing, ties);
  }

  // --- refresh tokens ------------------------------------------------------------------

  /** RedeemRefreshToken as a step on values. */
  method TakeRefreshToken(store: Store, sessions: SessionStore, r: RefreshRequest, shared: bool, ghost ties: Ties)
    returns (e: Option<Entry<RefreshItemR>>)
    requires Separated(store, sessions, ties)
    modifies store`refresh
    ensures var s := old(StateOf(store, sessions));
            var found := Lookup(s.refresh, RefreshKey(store.cfg, r.token), s.now);
            if found.None? || r.faults.read then e.None? && StateOf(store, sessions) == s
            else
              && e.Some? && StateOf(store, sessions) == s.(refresh := s.refresh - {RefreshKey(store.cfg, r.token)})
              && found.value == Entry(RefreshOf(e.value.value), e.value.expires, e.value.origin)
              && HoldsKey(e.value.value.session, e.value.value.jkt)
              && e.value.value.session.meta !in CodeMetas(store.codes)
              && var m := e.value.value.session.meta; m == null || m in old(RefreshMetas(store.refresh)) || fresh(m)
    ensures Separated(store, sessions, ties)
  {
    hide CodesOf, RefreshesOf, SessionsOf, CodeMapsApart, TiesAre, RefreshMapsBound, RefreshKey;
    ghost var key := RefreshKey(store.cfg, r.token);
    ghost var maps := (CodeMetas(store.codes), RefreshMetas(store.refresh), SessionMetas(sessions.table));
    ghost var left := RefreshMetas(store.refresh - {key});
    RefreshValue(store.refresh, key, store.now);
    SharingWithoutToken(store.codes, store.refresh, key);
    e := store.RedeemRefreshToken(r.token, r.faults.read, shared);
  }

  /**
    Writing the key a map already holds changes no table, though the map may be that of earlier sessions of the chain.
   */
  method FillBound(template: SessionR, id: GoString, now: int, jkt: GoString,
                   ghost codes: Table<CodeItemR>, ghost refresh: Table<RefreshItemR>, ghost table: map<GoString,
                     SessionR>)
    returns (sess: SessionR)
    requires jkt != [] && HoldsKey(template, jkt) && template.meta !in CodeMetas(codes)
    modifies template.meta
    ensures sess.id == id && sess.subject == template.subject
            && SessionOf(sess) == Minted(old(SessionOf(template)), id, now, jkt)
    ensures SessionOf(template) == old(SessionOf(template)) && HoldsKey(template, jkt) && sess.meta !in CodeMetas(codes)
    ensures CodesOf(codes) == old(CodesOf(codes)) && RefreshesOf(refresh) == old(RefreshesOf(refresh))
    ensures SessionsOf(table) == old(SessionsOf(table))
            && (old(RefreshMapsBound(refresh)) ==> RefreshMapsBound(refresh))
  {
    hide CodesOf, Minted;
    ghost var maps := CodeMetas(codes);
    sess := FillTemplate(template, id, now, jkt);
    assert template.meta != null ==> template.meta.m == old(template.meta.m);
  }

  /** The session of a refresh request. */
  method CreateFromToken(store: Store, sessions: SessionStore, template: SessionR, r: RefreshRequest, shared: bool,
                         ghost ties: Ties)
    returns (ok: bool, sess: SessionR)
    requires Separated(store, sessions, ties)
    requires r.jkt != [] && HoldsKey(template, r.jkt) && template.meta !in CodeMetas(store.codes)
    modifies sessions, template.meta
    ensures ok == !r.faults.create && sess.id == r.newSession && sess.subject == template.subject
    ensures SessionOf(template) == old(SessionOf(template)) && HoldsKey(template, r.jkt)
    ensures var s := old(StateOf(store, sessions));
            StateOf(store, sessions) ==
            if ok then s.(sessions := s.sessions[r.newSession := Minted(old(SessionOf(template)), r.newSession, s.now,
                  r.jkt)]) else s
    ensures Separated(store, sessions, if ok then ties - {r.newSession} else ties)
  {
    hide CodesOf, RefreshesOf, SessionsOf, CodeMapsApart, TiesAre, RefreshMapsBound;
    sess := FillBound(template, r.newSession, store.now, r.jkt, store.codes, store.refresh, sessions.table);
    ok := KeepSession(store, sessions, sess, r.faults.create, shared, ties, [], false);
  }

  lemma TemplateIsBound(s: SessionR, jkt: GoString)
    requires HoldsKey(s, jkt)
    ensures NextTemplate(SessionOf(s), jkt) == SessionOf(s)
  {
    if s.meta != null {
      assert s.meta.m[DPOP_JKT := jkt] == s.meta.m;
    }
  }

  /** HandleRefreshToken once the token's key has been found to be the request's. */
  method GrantRefresh(store: Store, sessions: SessionStore, r: RefreshRequest, item: RefreshItemR, origin: nat,
                      sharing: Sharing,
                      ghost ties: Ties)
    returns (answer: Answer)
    requires Separated(store, sessions, ties) && r.jkt != []
    requires item.jkt == r.jkt && HoldsKey(item.session, r.jkt) && item.session.meta !in CodeMetas(store.codes)
    modifies store, sessions, item.session.meta
    ensures var s := old(StateOf(store, sessions));
            (StateOf(store, sessions), answer) ==
            if r.faults.create then (s, Denied(SessionCreateFailed))
            else FinishRefresh(store.cfg, s, r, Entry(old(RefreshOf(item)), store.now, origin))
    ensures Separated(store, sessions, if r.faults.create then ties else ties - {r.newSession})
  {
    hide CodesOf, RefreshesOf, SessionsOf, RefreshKey, Separated;
    TemplateIsBound(item.session, r.jkt);
    var ok, sess := CreateFromToken(store, sessions, item.session, r, sharing.create, ties);
    if !ok {
      return Denied(SessionCreateFailed);
    }
    var next := RefreshTokenItem(item.clientID, item.scope, r.jkt, item.session);
    var token := StoreToken(store, sessions, next, r.newToken, origin, r.faults.issue, sharing.issue,
                            ties - {r.newSession});
    Record(store, sessions, Refreshed(origin, Grant(sess.id, sess.subject, item.clientID, item.scope, r.jkt)),
           ties - {r.newSession});
    return Issued(sess.id, DPOP, item.scope, token);
  }

  /** HandleRefreshToken has the effect specified for values, for every sharing and every fault. */
  method HandleRefreshToken(store: Store, sessions: SessionStore, r: RefreshRequest, sharing: Sharing, ghost ties: Ties)
    returns (answer: Answer)
    requires Separated(store, sessions, ties)
    modifies store, sessions, RefreshMetas(store.refresh)
    ensures (StateOf(store, sessions), answer) == RedeemRefresh(store.cfg, old(StateOf(store, sessions)), r)
    ensures Separated(store, sessions, TiesFor(store.cfg, old(StateOf(store, sessions)), ties, Refresh(r), sharing))
  {
    hide CodesOf, RefreshesOf, SessionsOf, CodeMapsApart, TiesAre, RefreshMapsBound, RefreshKey, Separated,
         RedeemRefresh, Acts;
    ghost var s := StateOf(store, sessions);
    if r.jkt == [] {
      RefusedRefresh(store.cfg, s, r);
      return Denied(DPoPMissing);
    }
    if r.token == [] {
      RefusedRefresh(store.cfg, s, r);
      return Denied(MissingParameter);
    }
    RefreshSteps(store.cfg, s, r);
    var e := TakeRefreshToken(store, sessions, r, sharing.read, ties);
    if e.None? {
      return Denied(InvalidRefreshToken);
    }
    var item := e.value.value;
    if item.jkt != r.jkt {
      return Denied(DPoPMismatch);
    }
    answer := GrantRefresh(store, sessions, r, item, e.value.origin, sharing, ties);
  }
}
