/**
  Runs of a server whose storage may hand out and keep metadata maps by reference, with any faults.
  Answers and history are those of the runs on values; what can differ is the key a session is bound
  to, and when exactly it does is stated here.
 */
module SharedRuns {
  import opened GoStrings
  import opened Items
  import opened TtlCache
  import opened Grants
  import opened Lifecycle
  import opened RunTheorems
  import opened SharedMaps
  import opened GrantRules

  datatype World = World(state: State, ties: Ties)
  datatype Call = Call(op: Op, sharing: Sharing)

  const START: World := World(INITIAL, map[])

  function Step(cfg: Config, w: World, c: Call): World {
    World(Apply(cfg, MarkedFor(cfg, w.state, w.ties, c.op, c.sharing), c.op),
          TiesFor(cfg, w.state, w.ties, c.op, c.sharing))
  }

  function Serve(cfg: Config, calls: seq<Call>): World {
    if calls == [] then START else Step(cfg, Serve(cfg, calls[..|calls| - 1]), calls[|calls| - 1])
  }

  function Ops(calls: seq<Call>): (ops: seq<Op>)
    ensures |ops| == |calls| && forall i :: 0 <= i < |ops| ==> ops[i] == calls[i].op
  {
    seq(|calls|, i requires 0 <= i < |calls| => calls[i].op)
  }

  // --- sharing shows in maps only -----------------------------------------------

  /** The same session, with the same metadata but for the key. */
  ghost predicate SameSession(a: SessionV, b: SessionV) {
    a == b.(meta := a.meta) && SameButKey(a.meta, b.meta)
  }

  ghost predicate SameCode(a: Entry<CodeItemV>, b: Entry<CodeItemV>) {
    a == b.(value := b.value.(session := a.value.session)) && SameSession(a.value.session, b.value.session)
  }

  ghost predicate SameToken(a: Entry<RefreshItemV>, b: Entry<RefreshItemV>) {
    a == b.(value := b.value.(session := a.value.session)) && SameSession(a.value.session, b.value.session)
  }

  ghost predicate SameCodes(a: Table<CodeItemV>, b: Table<CodeItemV>) {
    a.Keys == b.Keys && forall k :: k in a ==> SameCode(a[k], b[k])
  }

  ghost predicate SameTokens(a: Table<RefreshItemV>, b: Table<RefreshItemV>) {
    a.Keys == b.Keys && forall k :: k in a ==> SameToken(a[k], b[k])
  }

  ghost predicate SameSessions(a: map<GoString, SessionV>, b: map<GoString, SessionV>) {
    a.Keys == b.Keys && forall id :: id in a ==> SameSession(a[id], b[id])
  }

  lemma SessionsStaySame(a: map<GoString, SessionV>, b: map<GoString, SessionV>, id: GoString, x: SessionV,
                         y: SessionV, drop: set<GoString>)
    requires SameSessions(a, b) && SameSession(x, y)
    ensures SameSessions(a[id := x], b[id := y]) && SameSessions(a - drop, b - drop)
            && SameSessions(a[id := x] - drop, b[id := y] - drop)
  {
  }

  lemma TokensStaySame(a: Table<RefreshItemV>, b: Table<RefreshItemV>, key: GoString, x: Entry<RefreshItemV>,
                       y: Entry<RefreshItemV>)
    requires SameTokens(a, b)
    ensures SameTokens(a - {key}, b - {key}) && (SameToken(x, y) ==> SameTokens(a[key := x], b[key := y]))
  {
  }

  lemma CodesStaySame(a: Table<CodeItemV>, b: Table<CodeItemV>, code: GoString, x: Entry<CodeItemV>)
    requires SameCodes(a, b)
    ensures SameCodes(a - {code}, b - {code}) && SameCodes(a[code := x], b[code := x])
  {
  }

  /** Equal but for the contents of metadata maps. */
  ghost predicate SameButMaps(a: State, b: State) {
    && a.now == b.now && a.states == b.states && a.txCodes == b.txCodes && a.log == b.log
    && SameCodes(a.codes, b.codes) && SameTokens(a.refresh, b.refresh) && SameSessions(a.sessions, b.sessions)
  }

  lemma MarkedIsSame(a: State, b: State, ties: Ties, code: GoString, jkt: GoString, sharing: Sharing)
    requires SameButMaps(a, b)
    ensures SameButMaps(Marked(a, ties, code, jkt, sharing), b)
  {
    hide SameSession, WithKey;
    forall x: SessionV, y: SessionV | SameSession(x, y) ensures SameSession(WithKey(x, jkt), y) {
      KeyedIsSame(x, y, jkt);
    }
    assert SameCodes(MarkCodes(a.codes, code, jkt), b.codes) by { CodesKeyed(a.codes, b.codes, code, jkt); }
  }

  lemma KeyedIsSame(x: SessionV, y: SessionV, jkt: GoString)
    requires SameSession(x, y)
    ensures SameSession(WithKey(x, jkt), y)
  {
  }

  lemma CodesKeyed(a: Table<CodeItemV>, b: Table<CodeItemV>, code: GoString, jkt: GoString)
    requires SameCodes(a, b)
    ensures SameCodes(MarkCodes(a, code, jkt), b)
  {
    hide SameButKey;
    forall k | k in a ensures SameCode(MarkCodes(a, code, jkt)[k], b[k]) {
      KeyedIsSame(a[k].value.session, b[k].value.session, jkt);
    }
  }

  lemma SameItem(a: State, b: State, code: GoString)
    requires SameButMaps(a, b)
    ensures var x, y := ItemAt(a.codes, code, a.now, None), ItemAt(b.codes, code, b.now, None);
            x == y.(session := x.session) && SameSession(x.session, y.session)
    ensures OriginAt(a.codes, code, a.now) == OriginAt(b.codes, code, b.now)
  {
  }

  lemma CodeIsSame(cfg: Config, a: State, b: State, r: CodeRequest)
    requires SameButMaps(a, b)
    ensures SameButMaps(RedeemCode(cfg, a, r).0, RedeemCode(cfg, b, r).0)
            && RedeemCode(cfg, a, r).1 == RedeemCode(cfg, b, r).1
  {
    hide Authenticate, ItemAt, OriginAt, RefreshKey, CodeAnswer, IssuesRefresh, RedeemCode, Minted, CodeRefusal;
    hide SameCodes, SameTokens, SameSessions, Dropped;
    SameItem(a, b, r.code);
    RedeemCodeFields(cfg, a, r);
    RedeemCodeFields(cfg, b, r);
    SameRefusal(cfg, a, b, r);
    var x, y := ItemAt(a.codes, r.code, a.now, None), ItemAt(b.codes, r.code, b.now, None);
    SameMinted(x.session, y.session, r.newSession, a.now, r.jkt);
    var m, n := Minted(x.session, r.newSession, a.now, r.jkt), Minted(y.session, r.newSession, b.now, r.jkt);
    var known := Authenticate(cfg, r.client, r.jkt);
    var clientID := if known.Known? then known.clientID else [];
    SessionsStaySame(a.sessions, b.sessions, r.newSession, m, n, Dropped(r));
    TokensStaySame(a.refresh, b.refresh, RefreshKey(cfg, r.newToken),
                   Entry(RefreshTokenItem(clientID, x.scope, r.jkt, m), a.now + cfg.refreshTTL, |a.log|),
                   Entry(RefreshTokenItem(clientID, x.scope, r.jkt, n), b.now + cfg.refreshTTL, |b.log|));
    CodesStaySame(a.codes, b.codes, r.code, Entry(x, 0, 0));
  }

  lemma SameRefusal(cfg: Config, a: State, b: State, r: CodeRequest)
    requires SameButMaps(a, b)
    ensures EarlyRefusal(cfg, a.codes, a.now, r) == EarlyRefusal(cfg, b.codes, b.now, r)
  {
    hide Authenticate;
    SameItem(a, b, r.code);
  }

  lemma SameMinted(x: SessionV, y: SessionV, id: GoString, now: int, jkt: GoString)
    requires SameSession(x, y)
    ensures SameSession(Minted(x, id, now, jkt), Minted(y, id, now, jkt))
  {
  }

  lemma PreAuthIsSame(cfg: Config, a: State, b: State, r: PreAuthRequest)
    requires SameButMaps(a, b)
    ensures SameButMaps(RedeemPreAuth(cfg, a, r).0, RedeemPreAuth(cfg, b, r).0)
    ensures RedeemPreAuth(cfg, a, r).1 == RedeemPreAuth(cfg, b, r).1
  {
    hide CheckWallet, ItemAt, OriginAt, TxCodeMatches, Minted, FinishPreAuth, NeedsDPoP, AfterTxCode;
    SameItem(a, b, r.code);
    var x, y := ItemAt(a.codes, r.code, a.now, None), ItemAt(b.codes, r.code, b.now, None);
    AfterTxCodeIsSame(a, b, r);
    FinishPreAuthIsSame(cfg, a, b, r, x, y);
    FinishPreAuthIsSame(cfg, AfterTxCode(a, r), AfterTxCode(b, r), r, x, y);
  }

  lemma AfterTxCodeIsSame(a: State, b: State, r: PreAuthRequest)
    requires SameButMaps(a, b)
    ensures SameButMaps(AfterTxCode(a, r), AfterTxCode(b, r))
  {
    SameItem(a, b, r.code);
  }

  lemma FinishPreAuthIsSame(cfg: Config, a: State, b: State, r: PreAuthRequest, x: CodeItemV, y: CodeItemV)
    requires SameButMaps(a, b) && x == y.(session := x.session) && SameSession(x.session, y.session)
    ensures SameButMaps(FinishPreAuth(cfg, a, r, x).0, FinishPreAuth(cfg, b, r, y).0)
    ensures FinishPreAuth(cfg, a, r, x).1 == FinishPreAuth(cfg, b, r, y).1
  {
    hide NeedsDPoP, OriginAt, Minted, FinishPreAuth;
    SameItem(a, b, r.code);
    SameMinted(x.session, y.session, r.newSession, a.now, r.jkt);
    FinishPreAuthFields(cfg, a, r, x);
    FinishPreAuthFields(cfg, b, r, y);
  }

  lemma RefreshIsSame(cfg: Config, a: State, b: State, r: RefreshRequest)
    requires SameButMaps(a, b)
    ensures SameButMaps(RedeemRefresh(cfg, a, r).0, RedeemRefresh(cfg, b, r).0)
    ensures RedeemRefresh(cfg, a, r).1 == RedeemRefresh(cfg, b, r).1
  {
    hide RefreshKey, Minted, NextTemplate, SameCodes, SameSessions;
    var key, e, d := RefreshKey(cfg, r.token), Lookup(a.refresh, RefreshKey(cfg, r.token), a.now),
      Lookup(b.refresh, RefreshKey(cfg, r.token), b.now);
    if e.Some? {
      FinishRefreshIsSame(cfg, a, b, r, e.value, d.value);
    }
  }

  lemma FinishRefreshIsSame(cfg: Config, a: State, b: State, r: RefreshRequest, e: Entry<RefreshItemV>,
                            d: Entry<RefreshItemV>)
    requires SameButMaps(a, b) && SameToken(e, d)
    ensures var key := RefreshKey(cfg, r.token);
            var a1, b1 := a.(refresh := a.refresh - {key}), b.(refresh := b.refresh - {key});
            && SameButMaps(a1, b1) && SameButMaps(FinishRefresh(cfg, a1, r, e).0, FinishRefresh(cfg, b1, r, d).0)
            && FinishRefresh(cfg, a1, r, e).1 == FinishRefresh(cfg, b1, r, d).1
  {
    hide RefreshKey, NextTemplate, SameCodes, SameSessions, SameTokens;
    var key, next := RefreshKey(cfg, r.token), RefreshKey(cfg, r.newToken);
    var x, y := e.value, d.value;
    SameMinted(x.session, y.session, r.newSession, a.now, r.jkt);
    SameNext(x.session, y.session, r.jkt);
    SessionsStaySame(a.sessions, b.sessions, r.newSession, Minted(x.session, r.newSession, a.now, r.jkt),
                     Minted(y.session, r.newSession, b.now, r.jkt), {});
    TokensStaySame(a.refresh, b.refresh, key, e, d);
    TokensStaySame(a.refresh - {key}, b.refresh - {key}, next,
                   Entry(RefreshTokenItem(x.clientID, x.scope, r.jkt, NextTemplate(x.session, r.jkt)),
                         a.now + cfg.refreshTTL, e.origin),
                   Entry(RefreshTokenItem(y.clientID, y.scope, r.jkt, NextTemplate(y.session, r.jkt)),
                         b.now + cfg.refreshTTL, d.origin));
  }

  lemma SameNext(x: SessionV, y: SessionV, jkt: GoString)
    requires SameSession(x, y)
    ensures SameSession(NextTemplate(x, jkt), NextTemplate(y, jkt))
  {
  }

  lemma AuthorizeIsSame(cfg: Config, a: State, b: State, r: AuthorizeRequest)
    requires SameButMaps(a, b)
    ensures SameButMaps(SaveState(cfg, a, r).0, SaveState(cfg, b, r).0)
  {
    hide ParametersValid, SameCodes, SameTokens, SameSessions;
  }

  lemma CallbackIsSame(cfg: Config, a: State, b: State, r: CallbackRequest)
    requires SameButMaps(a, b)
    ensures SameButMaps(ProviderReturn(cfg, a, r), ProviderReturn(cfg, b, r))
  {
    hide CallbackItem, SameCodes, SameTokens, SameSessions;
    if Lookup(a.states, r.state, a.now).Some? {
      var st := Lookup(a.states, r.state, a.now).value.value;
      CodesStaySame(a.codes, b.codes, r.id, Entry(CallbackItem(r, st, a.now), a.now + cfg.authCodeTTL, |a.log|));
    }
  }

  lemma OfferIsSame(cfg: Config, a: State, b: State, r: OfferRequest)
    requires SameButMaps(a, b)
    ensures SameButMaps(MakeOffer(cfg, a, r), MakeOffer(cfg, b, r))
  {
    hide OfferItem, SameCodes, SameTokens, SameSessions;
    CodesStaySame(a.codes, b.codes, r.code, Entry(OfferItem(r), a.now + cfg.authCodeTTL, |a.log|));
  }

  lemma SameEnabled(cfg: Config, a: State, b: State, op: Op)
    requires SameButMaps(a, b)
    ensures Enabled(cfg, a, op) <==> Enabled(cfg, b, op)
  {
    hide RefreshKey, SameCode, SameToken;
  }

  lemma {:induction false} ApplyIsSame(cfg: Config, a: State, b: State, op: Op)
    requires SameButMaps(a, b)
    ensures SameButMaps(Apply(cfg, a, op), Apply(cfg, b, op))
    ensures op.Code? || op.PreAuth? || op.Refresh? ==> AnswerTo(cfg, a, op) == AnswerTo(cfg, b, op)
  {
    hide RedeemCode, RedeemPreAuth, RedeemRefresh, SaveState, ProviderReturn, MakeOffer, SameCodes, SameTokens,
         SameSessions;
    match op
    case Tick(_) =>
    case Authorize(r) => AuthorizeIsSame(cfg, a, b, r);
    case Callback(r) => CallbackIsSame(cfg, a, b, r);
    case Offer(r) => OfferIsSame(cfg, a, b, r);
    case Code(r) => CodeIsSame(cfg, a, b, r);
    case PreAuth(r) => PreAuthIsSame(cfg, a, b, r);
    case Refresh(r) => RefreshIsSame(cfg, a, b, r);
  }

  /**
    Whatever maps are shared and whatever fails, a server gives the answers, keeps the history and fills
    the caches of the run on values, up to the contents of metadata maps. So every result about that
    history holds of every server.
   */
  lemma {:induction false} SharingShowsInMapsOnly(cfg: Config, calls: seq<Call>)
    ensures SameButMaps(Serve(cfg, calls).state, Exec(cfg, Ops(calls)))
    ensures Serve(cfg, calls).state.log == Exec(cfg, Ops(calls)).log
  {
    hide SameButMaps, Apply, MarkedFor;
    if calls == [] {
      assert SameButMaps(START.state, INITIAL) by { AreSame(INITIAL); }
    } else {
      var front, c := calls[..|calls| - 1], calls[|calls| - 1];
      SharingShowsInMapsOnly(cfg, front);
      assert Ops(calls)[..|calls| - 1] == Ops(front);
      var w := Serve(cfg, front);
      MarkedForIsSame(cfg, w, Exec(cfg, Ops(front)), c);
      ApplyIsSame(cfg, MarkedFor(cfg, w.state, w.ties, c.op, c.sharing), Exec(cfg, Ops(front)), c.op);
    }
    SameHistory(Serve(cfg, calls).state, Exec(cfg, Ops(calls)));
  }

  lemma AreSame(a: State)
    ensures SameButMaps(a, a)
  {
  }

  lemma SameHistory(a: State, b: State)
    requires SameButMaps(a, b)
    ensures a.log == b.log && a.sessions.Keys == b.sessions.Keys
  {
  }

  lemma MarkedForIsSame(cfg: Config, w: World, b: State, c: Call)
    requires SameButMaps(w.state, b)
    ensures SameButMaps(MarkedFor(cfg, w.state, w.ties, c.op, c.sharing), b)
  {
    hide RedemptionOf, Marked, SameButMaps;
    var p := RedemptionOf(cfg, w.state, c.op);
    if p.Some? {
      MarkedIsSame(w.state, b, w.ties, p.value.code, p.value.jkt, c.sharing);
    }
  }

  /** Answers included. */
  lemma {:induction false} AnswersAreShared(cfg: Config, calls: seq<Call>, c: Call)
    requires c.op.Code? || c.op.PreAuth? || c.op.Refresh?
    ensures AnswerTo(cfg, Serve(cfg, calls).state, c.op) == AnswerTo(cfg, Exec(cfg, Ops(calls)), c.op)
  {
    SharingShowsInMapsOnly(cfg, calls);
    ApplyIsSame(cfg, Serve(cfg, calls).state, Exec(cfg, Ops(calls)), c.op);
  }
}
