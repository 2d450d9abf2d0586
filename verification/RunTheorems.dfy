/**
  What the history of any run says about rights: rotation, scopes, sessions. These are runs on values, in which
  every session has a metadata map of its own; SharedRuns says what carries over to servers that share maps.
 */
module RunTheorems {
  import opened GoStrings
  import opened Items
  import opened Grants
  import opened Lifecycle
  import opened Invariants
  import Scopes

  /** The index of the code redemption a grant descends from: itself, or the root of its refresh family. */
  function RootOf(log: seq<Event>, i: nat): nat
    requires i < |log|
  {
    if log[i].Refreshed? then log[i].family else i
  }

  /**
    Rotation keeps rights, section 5 of RFC 9449. However long the chain of refreshes, and whatever
    faults struck on the way, every refresh grant has the client, scope, subject and key of the
    authorization_code grant that started its family, and that key is not empty.
   */
  lemma {:induction false} RotationKeepsRights(cfg: Config, ops: seq<Op>, i: nat)
    requires Run(cfg, ops) && i < |Exec(cfg, ops).log| && Exec(cfg, ops).log[i].Refreshed?
    ensures var log := Exec(cfg, ops).log;
            var g, root := log[i].grant, log[i].family;
            && root < i && log[root].CodeRedeemed? && !log[root].preAuth
            && g.clientID == log[root].grant.clientID && g.scope == log[root].grant.scope
            && g.subject == log[root].grant.subject && g.jkt == log[root].grant.jkt != []
  {
    var log := Exec(cfg, ops).log;
    RunInv(cfg, ops);
    assert RootedAt(log[..i], log[i].family, log[i].grant);
  }

  /** The same for every refresh token still cached: what it will grant is what its family's code granted. */
  lemma {:induction false} CachedRefreshTokensKeepRights(cfg: Config, ops: seq<Op>, key: GoString)
    requires Run(cfg, ops) && key in Exec(cfg, ops).refresh
    ensures var s := Exec(cfg, ops);
            var item, root := s.refresh[key].value, s.refresh[key].origin;
            && root < |s.log| && s.log[root].CodeRedeemed? && !s.log[root].preAuth
            && item.clientID == s.log[root].grant.clientID && item.scope == s.log[root].grant.scope
            && item.session.subject == s.log[root].grant.subject && item.jkt == s.log[root].grant.jkt != []
  {
    RunInv(cfg, ops);
    var s := Exec(cfg, ops);
    assert RootedAt(s.log, s.refresh[key].origin, ItemGrant(s.refresh[key].value));
  }

  /** Code items made by provider callbacks never outnumber the accepted authorize requests that stored a state. */
  lemma {:induction false} CallbacksNeverOutnumberSaves(cfg: Config, ops: seq<Op>)
    requires Run(cfg, ops)
    ensures Callbacks(Exec(cfg, ops).log) <= Saves(Exec(cfg, ops).log)
  {
    RunInv(cfg, ops);
  }

  /**
    Scope from the allowlist to the last refresh: a grant, direct or refreshed, that descends from an
    item a callback stored has the scope of the authorize request that was accepted for it; that scope is not blank,
    and each of its space-separated pieces is configured.
   */
  lemma {:induction false} ScopeDescends(cfg: Config, ops: seq<Op>, i: nat)
    requires Run(cfg, ops) && i < |Exec(cfg, ops).log| && IsGrant(Exec(cfg, ops).log[i])
    ensures var log := Exec(cfg, ops).log;
            var root := RootOf(log, i);
            && root < |log| && log[root].CodeRedeemed? && log[root].grant.scope == log[i].grant.scope
            && (log[root].code.Some? ==>
                  var o := log[root].code.value;
                  && o < root && StoredItem(log[o]).Some?
                  && (log[o].CodeStored? ==>
                        && log[o].savedState < o && log[log[o].savedState].StateSaved?
                        && log[log[o].savedState].state.scope == log[i].grant.scope
                        && (exists p :: p in Split(log[i].grant.scope, ' ') && p != [])
                        && forall p :: p in Split(log[i].grant.scope, ' ') && p != [] ==> p in cfg.scopes))
  {
    Scopes.SupportedByPieces(cfg.scopes, Exec(cfg, ops).log[i].grant.scope);
    var log := Exec(cfg, ops).log;
    RunInv(cfg, ops);
    if log[i].Refreshed? {
      RotationKeepsRights(cfg, ops, i);
    }
    assert RedemptionLogged(log, RootOf(log, i));
  }

  /**
    With a map of its own, every session that a grant made, as long as it exists, has the grant's subject
    and is bound to the grant's key, and unbound for a Bearer grant.
   */
  lemma {:induction false} SessionsCarryTheirKey(cfg: Config, ops: seq<Op>, i: nat)
    requires Run(cfg, ops) && i < |Exec(cfg, ops).log| && IsGrant(Exec(cfg, ops).log[i])
    requires Exec(cfg, ops).log[i].grant.session in Exec(cfg, ops).sessions
    ensures var s := Exec(cfg, ops);
            var g := s.log[i].grant;
            BoundKey(s.sessions[g.session]) == g.jkt && s.sessions[g.session].subject == g.subject
  {
    RunInv(cfg, ops);
  }

  /** The handler's answer to a request for a token. */
  function AnswerTo(cfg: Config, s: State, op: Op): Answer
    requires op.Code? || op.PreAuth? || op.Refresh?
  {
    if op.Code? then RedeemCode(cfg, s, op.code).1
    else if op.PreAuth? then RedeemPreAuth(cfg, s, op.preAuth).1
    else RedeemRefresh(cfg, s, op.refresh).1
  }

  /** A token is issued exactly when a grant is recorded, and the two agree on session, scope and kind of token. */
  predicate Agrees(s: State, s': State, answer: Answer) {
    var recorded := |s'.log| > |s.log| && IsGrant(s'.log[|s'.log| - 1]);
    && (answer.Issued? <==> recorded)
    && (recorded ==>
          var g := s'.log[|s'.log| - 1].grant;
          answer == Issued(g.session, TokenType(g.jkt), g.scope, answer.refreshToken))
  }

  lemma CodeAnswersAgree(cfg: Config, s: State, r: CodeRequest)
    ensures Agrees(s, RedeemCode(cfg, s, r).0, RedeemCode(cfg, s, r).1)
  {
    hide CodeRequestRefusal, OriginAt, ItemAt, TokenType, Minted;
  }

  lemma PreAuthAnswersAgree(cfg: Config, s: State, r: PreAuthRequest)
    ensures Agrees(s, RedeemPreAuth(cfg, s, r).0, RedeemPreAuth(cfg, s, r).1)
  {
    hide CheckWallet, TxCodeMatches, ItemAt, TokenType;
  }

  lemma RefreshAnswersAgree(cfg: Config, s: State, r: RefreshRequest)
    ensures Agrees(s, RedeemRefresh(cfg, s, r).0, RedeemRefresh(cfg, s, r).1)
  {
    hide RefreshKey, NextTemplate;
  }

  lemma AnswersMatchEvents(cfg: Config, s: State, op: Op)
    requires op.Code? || op.PreAuth? || op.Refresh?
    ensures Agrees(s, Apply(cfg, s, op), AnswerTo(cfg, s, op))
  {
    hide Agrees, RedeemCode, RedeemPreAuth, RedeemRefresh;
    match op
    case Code(r) => CodeAnswersAgree(cfg, s, r);
    case PreAuth(r) => PreAuthAnswersAgree(cfg, s, r);
    case Refresh(r) => RefreshAnswersAgree(cfg, s, r);
  }
}
