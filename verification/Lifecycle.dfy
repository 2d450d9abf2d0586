/**
  Runs of the token endpoint: any sequence of requests, handled one at a time, with the clock moving
  between them. Storage faults may strike anywhere; results say where they must not.
 */
module Lifecycle {
  import opened GoStrings
  import opened Items
  import opened TtlCache
  import opened Grants
  import Scopes

  datatype Op =
    | Tick(d: nat)
    | Authorize(authorize: AuthorizeRequest)
    | Callback(callback: CallbackRequest)
    | Offer(offer: OfferRequest)
    | Code(code: CodeRequest)
    | PreAuth(preAuth: PreAuthRequest)
    | Refresh(refresh: RefreshRequest)

  function Apply(cfg: Config, s: State, op: Op): State {
    match op
    case Tick(d) => s.(now := s.now + d)
    case Authorize(r) => SaveState(cfg, s, r).0
    case Callback(r) => ProviderReturn(cfg, s, r)
    case Offer(r) => MakeOffer(cfg, s, r)
    case Code(r) => RedeemCode(cfg, s, r).0
    case PreAuth(r) => RedeemPreAuth(cfg, s, r).0
    case Refresh(r) => RedeemRefresh(cfg, s, r).0
  }

  // --- fresh identifiers --------------------------------------------------

  predicate IsGrant(e: Event) {
    e.CodeRedeemed? || e.Refreshed?
  }

  /** A new session identifier occurs nowhere yet. */
  predicate FreshSession(s: State, id: GoString) {
    && id !in s.sessions
    && forall i :: 0 <= i < |s.log| && IsGrant(s.log[i]) ==> s.log[i].grant.session != id
  }

  /** A new refresh token's key is not in use. */
  predicate FreshToken(cfg: Config, s: State, token: GoString) {
    token != [] && RefreshKey(cfg, token) !in s.refresh
  }

  /** ULIDs and random tokens are new, and a tx_code has five digits. */
  predicate Enabled(cfg: Config, s: State, op: Op) {
    match op
    case Offer(r) => r.code != [] && r.code !in s.codes && r.code !in s.txCodes && 10000 <= r.txCode < 100000
    case Code(r) => FreshSession(s, r.newSession) && r.newSession != r.code && FreshToken(cfg, s, r.newToken)
    case PreAuth(r) => FreshSession(s, r.newSession)
    case Refresh(r) => FreshSession(s, r.newSession) && FreshToken(cfg, s, r.newToken)
    case _ => true
  }

  // --- runs ---------------------------------------------------------------

  function Exec(cfg: Config, ops: seq<Op>): State {
    if ops == [] then INITIAL else Apply(cfg, Exec(cfg, ops[..|ops| - 1]), ops[|ops| - 1])
  }

  predicate Run(cfg: Config, ops: seq<Op>) {
    forall i :: 0 <= i < |ops| ==> Enabled(cfg, Exec(cfg, ops[..i]), ops[i])
  }

  lemma RunPrefix(cfg: Config, ops: seq<Op>)
    requires Run(cfg, ops) && ops != []
    ensures Run(cfg, ops[..|ops| - 1])
    ensures Enabled(cfg, Exec(cfg, ops[..|ops| - 1]), ops[|ops| - 1])
  {
    var front := ops[..|ops| - 1];
    assert forall i :: 0 <= i < |front| ==> front[..i] == ops[..i];
  }

  lemma RunExtends(cfg: Config, ops: seq<Op>, op: Op)
    requires Run(cfg, ops) && Enabled(cfg, Exec(cfg, ops), op)
    ensures Run(cfg, ops + [op]) && Exec(cfg, ops + [op]) == Apply(cfg, Exec(cfg, ops), op)
  {
    var all := ops + [op];
    assert all[..|ops|] == ops;
    forall i | 0 <= i < |all| ensures Enabled(cfg, Exec(cfg, all[..i]), all[i]) {
      if i < |ops| {
        assert all[..i] == ops[..i];
      }
    }
  }

  // --- the shape of a step -------------------------------------------------

  predicate Shrinks<T(==)>(t: Table<T>, t': Table<T>) {
    forall k :: k in t' ==> k in t && t'[k] == t[k]
  }

  /** Sessions come and go, but a session that stays is the same session. */
  predicate SessionsKept(m: map<GoString, SessionV>, m': map<GoString, SessionV>) {
    forall id :: id in m && id in m' ==> m'[id] == m[id]
  }

  /** No event: time passes, a state or refresh token is used up, a session without a grant may appear. */
  ghost predicate Quiet(s: State, s': State) {
    && s.now <= s'.now && s'.log == s.log
    && s'.codes == s.codes && s'.txCodes == s.txCodes
    && Shrinks(s.states, s'.states) && Shrinks(s.refresh, s'.refresh) && SessionsKept(s.sessions, s'.sessions)
    && (forall id :: id in s'.sessions && id !in s.sessions ==> FreshSession(s, id))
  }

  function StoredItem(e: Event): Option<CodeItemV> {
    match e
    case CodeStored(item, _) => Some(item)
    case OfferStored(item, _) => Some(item)
    case _ => None
  }

  predicate Stores(cfg: Config, s: State, s': State, item: CodeItemV) {
    && s'.codes == s.codes[item.code := Entry(item, s.now + cfg.authCodeTTL, |s.log|)]
    && BoundKey(item.session) == []
    && s'.refresh == s.refresh && s'.sessions == s.sessions
  }

  /** A grant adds its session, bound to its key; other sessions may go but not change. */
  predicate Mints(s: State, s': State, g: Grant, template: SessionV) {
    && FreshSession(s, g.session)
    && g.session in s'.sessions && s'.sessions[g.session].subject == g.subject == template.subject
    && BoundKey(s'.sessions[g.session]) == (if g.jkt == [] then BoundKey(template) else g.jkt)
    && SessionsKept(s.sessions, s'.sessions)
    && s'.sessions.Keys <= s.sessions.Keys + {g.session}
  }

  /** Putting a refresh item that agrees with the grant under an unused key, or nothing at all. */
  predicate Issues(cfg: Config, s: State, before: Table<RefreshItemV>, after: Table<RefreshItemV>, g: Grant,
                   origin: nat) {
    || after == before
    || exists key :: key in after && key !in s.refresh
         && after == before[key := after[key]]
         && after[key].origin == origin && after[key].expires == s.now + cfg.refreshTTL
         && Carries(after[key].value, g)
  }

  /** The item carries the grant's client, scope, key and subject. */
  predicate Carries(item: RefreshItemV, g: Grant) {
    item.clientID == g.clientID && item.scope == g.scope && item.jkt == g.jkt && item.session.subject == g.subject
      && g.jkt != []
  }

  predicate LiveCode(s: State, k: GoString, o: nat) {
    k in s.codes && s.now < s.codes[k].expires && s.codes[k].origin == o
  }

  ghost predicate Saving(cfg: Config, s: State, s': State, item: StateItem) {
    && Scopes.IsSupported(cfg.scopes, item.scope) && item.responseType == CODE
    && s' == s.(log := s'.log, states := s.states[item.state := Entry(item, s.now + cfg.stateTTL, |s.log|)])
  }

  ghost predicate CallingBack(cfg: Config, s: State, s': State, item: CodeItemV, o: nat) {
    && Stores(cfg, s, s', item) && s'.txCodes == s.txCodes
    && exists k :: && k in s.states && s'.states == s.states - {k}
                   && s.states[k].origin == o && s.states[k].value.scope == item.scope
  }

  ghost predicate Offering(cfg: Config, s: State, s': State, item: CodeItemV, tx: Option<int>) {
    && Stores(cfg, s, s', item) && s'.states == s.states
    && item.code !in s.codes && item.code !in s.txCodes
    && (tx.Some? <==> !item.noTXCode) && (tx.Some? ==> 10000 <= tx.value < 100000)
    && (s'.txCodes == s.txCodes || (tx.Some?
                                    && s'.txCodes ==
                                      s.txCodes[item.code := Entry(tx.value, s.now + cfg.preAuthTTL, |s.log|)]))
  }

  ghost predicate Presenting(s: State, s': State, o: nat, presented: GoString) {
    && s' == s.(log := s'.log, txCodes := s'.txCodes)
    && exists k :: LiveCode(s, k, o) && TxCodeMatches(s.txCodes, k, s.now, presented)
                   && (s'.txCodes == s.txCodes || s'.txCodes == s.txCodes - {k})
  }

  /** Some presentation of a tx_code for the offer has been recorded. */
  predicate Presented(log: seq<Event>, o: nat) {
    exists i :: 0 <= i < |log| && log[i].TxPresented? && log[i].offer == o
  }

  ghost predicate Redeeming(cfg: Config, s: State, s': State, preAuth: bool, g: Grant) {
    && s'.states == s.states && s'.txCodes == s.txCodes
    && if preAuth then s'.refresh == s.refresh else Issues(cfg, s, s.refresh, s'.refresh, g, |s.log|)
  }

  /** The grant rests on the live item stored under k. */
  ghost predicate RedeemingItem(s: State, s': State, preAuth: bool, o: nat, g: Grant, k: GoString) {
    && LiveCode(s, k, o) && (s'.codes == s.codes || s'.codes == s.codes - {k})
    && g.scope == s.codes[k].value.scope && Mints(s, s', g, s.codes[k].value.session)
    && (preAuth && !s.codes[k].value.noTXCode ==> Presented(s.log, o))
  }

  ghost predicate Refreshing(cfg: Config, s: State, s': State, f: nat, g: Grant) {
    && s'.codes == s.codes && s'.states == s.states && s'.txCodes == s.txCodes
    && exists key :: key in s.refresh && s.refresh[key].origin == f && Carries(s.refresh[key].value, g)
                     && Mints(s, s', g, s.refresh[key].value.session)
                     && Issues(cfg, s, s.refresh - {key}, s'.refresh, g, f)
  }

  /** One event is appended, and the caches change as that event says. */
  ghost predicate Records(cfg: Config, s: State, s': State) {
    && |s'.log| == |s.log| + 1 && s'.log[..|s.log|] == s.log && s'.now == s.now
    && match s'.log[|s.log|]
       case StateSaved(item) => Saving(cfg, s, s', item)
       case CodeStored(item, o) => CallingBack(cfg, s, s', item, o)
       case OfferStored(item, tx) => Offering(cfg, s, s', item, tx)
       case TxPresented(o, presented) => Presenting(s, s', o, presented)
       case CodeRedeemed(preAuth, None, g) =>
         Redeeming(cfg, s, s', preAuth, g) && Shrinks(s.codes, s'.codes) && Mints(s, s', g, ZeroSession(None))
       case CodeRedeemed(preAuth, Some(o), g) =>
         Redeeming(cfg, s, s', preAuth, g) && exists k :: RedeemingItem(s, s', preAuth, o, g, k)
       case Refreshed(f, g) => Refreshing(cfg, s, s', f, g)
  }

  /** The unit all invariants are checked on. */
  ghost predicate Micro(cfg: Config, s: State, s': State) {
    Quiet(s, s') || Records(cfg, s, s')
  }

  lemma AuthorizeShape(cfg: Config, s: State, r: AuthorizeRequest)
    ensures Micro(cfg, s, SaveState(cfg, s, r).0)
  {
  }

  lemma CallbackShape(cfg: Config, s: State, r: CallbackRequest)
    ensures Micro(cfg, s, ProviderReturn(cfg, s, r))
  {
    assert DPOP_JKT != EXTRA_CLAIMS by { assert DPOP_JKT[0] == 'd' && EXTRA_CLAIMS[0] == 'e'; }
  }

  lemma OfferShape(cfg: Config, s: State, r: OfferRequest)
    requires Enabled(cfg, s, Offer(r))
    ensures Micro(cfg, s, MakeOffer(cfg, s, r))
  {
  }

  lemma IssuesNew(cfg: Config, s: State, before: Table<RefreshItemV>, key: GoString, item: RefreshItemV, g: Grant,
                  o: nat)
    requires key !in s.refresh && Carries(item, g)
    ensures Issues(cfg, s, before, before[key := Entry(item, s.now + cfg.refreshTTL, o)], g, o)
  {
    var after := before[key := Entry(item, s.now + cfg.refreshTTL, o)];
    assert key in after && after == before[key := after[key]];
  }

  lemma MintedBinds(template: SessionV, id: GoString, now: int, jkt: GoString)
    ensures BoundKey(Minted(template, id, now, jkt)) == if jkt == [] then BoundKey(template) else jkt
  {
  }

  lemma MintsNew(s: State, s': State, template: SessionV, g: Grant, drop: set<GoString>)
    requires FreshSession(s, g.session) && g.subject == template.subject && g.session !in drop
    requires s'.sessions == s.sessions[g.session := Minted(template, g.session, s.now, g.jkt)] - drop
    ensures Mints(s, s', g, template)
  {
    MintedBinds(template, g.session, s.now, g.jkt);
  }

  lemma CodeIssues(cfg: Config, s: State, r: CodeRequest)
    requires Enabled(cfg, s, Code(r)) && CodeRequestRefusal(cfg, s, r).None?
    ensures var g := CodeGrant(cfg, s, r);
            Issues(cfg, s, s.refresh, WithCodeGrant(cfg, WithCodeSession(s, r), r, g,
                                                    OriginAt(s.codes, r.code, s.now)).refresh, g, |s.log|)
  {
    var g := CodeGrant(cfg, s, r);
    if IssuesRefresh(r) {
      var template := ItemAt(s.codes, r.code, s.now, None).session;
      var item := RefreshTokenItem(g.clientID, g.scope, g.jkt, Minted(template, r.newSession, s.now, r.jkt));
      IssuesNew(cfg, s, s.refresh, RefreshKey(cfg, r.newToken), item, g, |s.log|);
    }
  }

  lemma CodeGrantShape(cfg: Config, s: State, r: CodeRequest)
    requires Enabled(cfg, s, Code(r)) && CodeRequestRefusal(cfg, s, r).None?
    ensures Records(cfg, s, WithCodeGrant(cfg, WithCodeSession(s, r), r, CodeGrant(cfg, s, r),
                                          OriginAt(s.codes, r.code, s.now)))
  {
    var g := CodeGrant(cfg, s, r);
    var item := ItemAt(s.codes, r.code, s.now, None);
    var origin := OriginAt(s.codes, r.code, s.now);
    var s' := WithCodeGrant(cfg, WithCodeSession(s, r), r, g, origin);
    MintsNew(s, s', item.session, g, Dropped(r));
    CodeIssues(cfg, s, r);
    assert Redeeming(cfg, s, s', false, g);
    if origin.Some? {
      assert RedeemingItem(s, s', false, origin.value, g, r.code);
    }
  }

  lemma CodeShape(cfg: Config, s: State, r: CodeRequest)
    requires Enabled(cfg, s, Code(r))
    ensures Micro(cfg, s, RedeemCode(cfg, s, r).0)
  {
    if CodeRequestRefusal(cfg, s, r).Some? {
      assert Quiet(s, s);
    } else if r.faults.delete {
      assert Quiet(s, WithCodeSession(s, r));
    } else {
      CodeGrantShape(cfg, s, r);
    }
  }

  lemma RefreshEffect(cfg: Config, s: State, r: RefreshRequest)
    ensures var s' := RedeemRefresh(cfg, s, r).0;
            var key := RefreshKey(cfg, r.token);
            && s'.codes == s.codes && s'.states == s.states && s'.txCodes == s.txCodes && s'.now == s.now
            && if s'.log == s.log then (s'.refresh == s.refresh || s'.refresh == s.refresh - {key})
              && s'.sessions == s.sessions
               else
                 && key in s.refresh && s.refresh[key].value.jkt == r.jkt != []
                 && var item := s.refresh[key].value;
                    var next := RefreshTokenItem(item.clientID, item.scope, r.jkt, NextTemplate(item.session, r.jkt));
                    && s'.log == s.log + [Refreshed(s.refresh[key].origin,
                                                    Grant(r.newSession, item.session.subject, item.clientID,
                                                          item.scope, r.jkt))]
                    && s'.sessions == s.sessions[r.newSession := Minted(item.session, r.newSession, s.now, r.jkt)]
                    && (s'.refresh == s.refresh - {key}
                        || s'.refresh == (s.refresh - {key})[RefreshKey(cfg, r.newToken) :=
                             Entry(next, s.now + cfg.refreshTTL, s.refresh[key].origin)])
  {
  }

  lemma RefreshShape(cfg: Config, s: State, r: RefreshRequest)
    requires Enabled(cfg, s, Refresh(r))
    ensures Micro(cfg, s, RedeemRefresh(cfg, s, r).0)
  {
    var s' := RedeemRefresh(cfg, s, r).0;
    RefreshEffect(cfg, s, r);
    if s'.log != s.log {
      var key := RefreshKey(cfg, r.token);
      var e := s.refresh[key];
      var g := Grant(r.newSession, e.value.session.subject, e.value.clientID, e.value.scope, r.jkt);
      MintsNew(s, s', e.value.session, g, {});
      IssuesNew(cfg, s, s.refresh - {key}, RefreshKey(cfg, r.newToken),
                RefreshTokenItem(e.value.clientID, e.value.scope, r.jkt, NextTemplate(e.value.session, r.jkt)), g,
                  e.origin);
      assert Refreshing(cfg, s, s', e.origin, g);
    }
  }

  // --- faults that matter --------------------------------------------------

  /** The event that the step appends, if it appends one. */
  function Appended(s: State, s': State): Option<Event> {
    if |s'.log| > |s.log| then Some(s'.log[|s.log|]) else None
  }

  /** A grant on a stored item removes that item. */
  ghost predicate RemovesCode(s: State, s': State) {
    var e := Appended(s, s');
    e.Some? && e.value.CodeRedeemed? && e.value.code.Some? ==>
      exists k :: LiveCode(s, k, e.value.code.value) && s'.codes == s.codes - {k}
  }

  /** An offer that announces a tx_code stores it. */
  predicate StoresTxCode(cfg: Config, s: State, s': State) {
    var e := Appended(s, s');
    e.Some? && e.value.OfferStored? && e.value.txCode.Some? ==>
      s'.txCodes == s.txCodes[e.value.item.code := Entry(e.value.txCode.value, s.now + cfg.preAuthTTL, |s.log|)]
  }

  /** The deletion that ends a pre-authorized grant, the one whose failure the handler ignores, succeeds. */
  predicate DeletionHolds(op: Op) {
    op.PreAuth? ==> !op.preAuth.faults.delete
  }

  /** The offer's item is stored, and then its tx_code is not. */
  predicate LosesTxCode(op: Op) {
    op.Offer? && op.offer.scope != [] && !op.offer.setFails && !op.offer.noTXCode && op.offer.setTxFails
  }

  /** A pre-authorized grant may record two events: the presentation of its tx_code, then the redemption. */
  lemma PreAuthShape(cfg: Config, s: State, r: PreAuthRequest) returns (mid: State)
    requires Enabled(cfg, s, PreAuth(r))
    ensures Micro(cfg, s, mid) && Micro(cfg, mid, RedeemPreAuth(cfg, s, r).0)
    ensures RemovesCode(s, mid) && (!r.faults.delete ==> RemovesCode(mid, RedeemPreAuth(cfg, s, r).0))
    ensures StoresTxCode(cfg, s, mid) && StoresTxCode(cfg, mid, RedeemPreAuth(cfg, s, r).0)
  {
    var (s', answer) := RedeemPreAuth(cfg, s, r);
    var item := ItemAt(s.codes, r.code, s.now, None);
    mid := s;
    if s' != s {
      assert Lookup(s.codes, r.code, s.now).Some?;
      if !item.noTXCode {
        mid := AfterTxCode(s, r);
        assert LiveCode(s, r.code, s.codes[r.code].origin);
        assert mid.log[|s.log|] == TxPresented(s.codes[r.code].origin, r.txCode);
        assert Records(cfg, s, mid);
      }
      FinishPreAuthShape(cfg, mid, r);
    }
  }

  lemma FinishPreAuthShape(cfg: Config, s: State, r: PreAuthRequest)
    requires FreshSession(s, r.newSession) && Lookup(s.codes, r.code, s.now).Some?
    requires !s.codes[r.code].value.noTXCode ==> Presented(s.log, s.codes[r.code].origin)
    ensures var s' := FinishPreAuth(cfg, s, r, s.codes[r.code].value).0;
            Micro(cfg, s, s') && (!r.faults.delete ==> RemovesCode(s, s')) && StoresTxCode(cfg, s, s')
  {
    hide MetaGet, Bind, Presented;
    var e := s.codes[r.code];
    var s' := FinishPreAuth(cfg, s, r, e.value).0;
    if s'.log != s.log {
      var sess := Minted(e.value.session, r.newSession, s.now, r.jkt);
      var g := Grant(sess.id, sess.subject, [], e.value.scope, r.jkt);
      MintedBinds(e.value.session, r.newSession, s.now, r.jkt);
      assert s'.log[|s.log|] == CodeRedeemed(true, Some(e.origin), g);
      assert RedeemingItem(s, s', true, e.origin, g, r.code);
    } else {
      assert Quiet(s, s');
    }
  }

  lemma CodeRemoves(cfg: Config, s: State, r: CodeRequest)
    ensures RemovesCode(s, RedeemCode(cfg, s, r).0)
  {
    var o := OriginAt(s.codes, r.code, s.now);
    assert o.Some? ==> LiveCode(s, r.code, o.value);
  }

  /** Every operation is two micro-steps, the first of them usually idle. */
  lemma StepShape(cfg: Config, s: State, op: Op) returns (mid: State)
    requires Enabled(cfg, s, op)
    ensures Micro(cfg, s, mid) && Micro(cfg, mid, Apply(cfg, s, op))
    ensures DeletionHolds(op) ==> RemovesCode(s, mid) && RemovesCode(mid, Apply(cfg, s, op))
    ensures !op.PreAuth? ==> mid == s
    ensures !LosesTxCode(op) ==> StoresTxCode(cfg, s, mid) && StoresTxCode(cfg, mid, Apply(cfg, s, op))
  {
    mid := s;
    assert Quiet(s, s);
    match op
    case Tick(d) => assert Quiet(s, Apply(cfg, s, op));
    case Authorize(r) => AuthorizeShape(cfg, s, r);
    case Callback(r) => CallbackShape(cfg, s, r);
    case Offer(r) => OfferShape(cfg, s, r);
    case Code(r) => CodeShape(cfg, s, r); CodeRemoves(cfg, s, r);
    case PreAuth(r) => mid := PreAuthShape(cfg, s, r);
    case Refresh(r) => RefreshShape(cfg, s, r); RefreshEffect(cfg, s, r);
  }
}
