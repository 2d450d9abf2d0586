/** A wallet that keeps using its refresh token keeps it; one that pauses for the lifetime loses it. */
module WalletChain {
  import opened GoStrings
  import opened Items
  import opened TtlCache
  import opened Grants
  import opened Lifecycle

  function ExecFrom(cfg: Config, s: State, ops: seq<Op>): State
    decreases |ops|
  {
    if ops == [] then s else ExecFrom(cfg, Apply(cfg, s, ops[0]), ops[1..])
  }

  /**
    The operation uses the token stored under this key up: a refresh request that presents it while it is live,
    with any DPoP key at all, and whose read does not fail. The entry is popped before its key is compared.
   */
  predicate UsesUp(cfg: Config, s: State, op: Op, key: GoString) {
    && op.Refresh? && op.refresh.token != [] && op.refresh.jkt != [] && RefreshKey(cfg, op.refresh.token) == key
    && Lookup(s.refresh, key, s.now).Some? && !op.refresh.faults.read
  }

  lemma CodeLeavesTokens(cfg: Config, s: State, r: CodeRequest, key: GoString)
    requires FreshToken(cfg, s, r.newToken) && key in s.refresh
    ensures key in RedeemCode(cfg, s, r).0.refresh && RedeemCode(cfg, s, r).0.refresh[key] == s.refresh[key]
  {
    hide RefreshKey, Minted, EarlyRefusal, ItemAt;
  }

  lemma RefreshTakesExactly(cfg: Config, s: State, r: RefreshRequest, key: GoString)
    requires FreshToken(cfg, s, r.newToken) && key in s.refresh
    ensures var s' := RedeemRefresh(cfg, s, r).0;
            && (key !in s'.refresh <==> UsesUp(cfg, s, Refresh(r), key))
            && (key in s'.refresh ==> s'.refresh[key] == s.refresh[key])
    ensures UsesUp(cfg, s, Refresh(r), key) && r.jkt != s.refresh[key].value.jkt ==>
              RedeemRefresh(cfg, s, r) == (s.(refresh := s.refresh - {key}), Denied(DPoPMismatch))
  {
    hide RefreshKey, Minted, NextTemplate;
  }

  /**
    When a token leaves the cache: exactly if an operation uses it up. With the token's own key that is a redemption;
    with another the request is refused and the token is lost to its wallet all the same.
   */
  lemma {:induction false} TokenLeavesExactly(cfg: Config, s: State, op: Op, key: GoString)
    requires Enabled(cfg, s, op) && key in s.refresh
    ensures key !in Apply(cfg, s, op).refresh <==> UsesUp(cfg, s, op, key)
    ensures key in Apply(cfg, s, op).refresh ==> Apply(cfg, s, op).refresh[key] == s.refresh[key]
    ensures UsesUp(cfg, s, op, key) && op.refresh.jkt != s.refresh[key].value.jkt ==>
              RedeemRefresh(cfg, s, op.refresh) == (s.(refresh := s.refresh - {key}), Denied(DPoPMismatch))
  {
    hide RefreshKey, RedeemCode, RedeemRefresh, FreshSession;
    match op
    case Code(r) => CodeLeavesTokens(cfg, s, r, key);
    case Refresh(r) => RefreshTakesExactly(cfg, s, r, key);
    case _ =>
  }

  /** Operations that leave this token to its wallet: enabled, and none of them uses it up. */
  predicate Others(cfg: Config, s: State, ops: seq<Op>, key: GoString)
    decreases |ops|
  {
    ops == [] ||
    (&& Enabled(cfg, s, ops[0])
     && !UsesUp(cfg, s, ops[0], key)
     && Others(cfg, Apply(cfg, s, ops[0]), ops[1..], key))
  }

  /** The token is cached for this key, put there at the instant issued. */
  predicate Holds(cfg: Config, s: State, token: GoString, jkt: GoString, issued: int) {
    var key := RefreshKey(cfg, token);
    && token != [] && jkt != [] && key in s.refresh
    && s.refresh[key].value.jkt == jkt && s.refresh[key].expires == issued + cfg.refreshTTL
  }

  lemma {:induction false} OthersLeaveToken(cfg: Config, s: State, ops: seq<Op>, token: GoString, jkt: GoString,
                                            issued: int)
    requires Holds(cfg, s, token, jkt, issued) && Others(cfg, s, ops, RefreshKey(cfg, token))
    ensures Holds(cfg, ExecFrom(cfg, s, ops), token, jkt, issued)
    decreases |ops|
  {
    if ops != [] {
      TokenLeavesExactly(cfg, s, ops[0], RefreshKey(cfg, token));
      OthersLeaveToken(cfg, Apply(cfg, s, ops[0]), ops[1..], token, jkt, issued);
    }
  }

  /** The wallet's own request: its current token, its own key, fresh identifiers, no storage faults. */
  predicate OwnRequest(cfg: Config, s: State, r: RefreshRequest, token: GoString, jkt: GoString) {
    r.token == token && r.jkt == jkt && Enabled(cfg, s, Refresh(r)) && !r.faults.read && !r.faults.create
      && !r.faults.issue
  }

  /** Such a request succeeds exactly when less than the lifetime has passed since the token was issued. */
  lemma OwnRequestSucceedsExactly(cfg: Config, s: State, r: RefreshRequest, jkt: GoString, issued: int)
    requires Holds(cfg, s, r.token, jkt, issued) && OwnRequest(cfg, s, r, r.token, jkt)
    ensures var (s', answer) := RedeemRefresh(cfg, s, r);
            if s.now < issued + cfg.refreshTTL then
              && answer == Issued(r.newSession, DPOP, s.refresh[RefreshKey(cfg, r.token)].value.scope, r.newToken)
              && Holds(cfg, s', r.newToken, jkt, s.now)
            else answer == Denied(InvalidRefreshToken) && s' == s
  {
  }

  /** Operations that leave the wallet its token, then one request of the wallet. */
  datatype Round = Round(others: seq<Op>, request: RefreshRequest)

  /** Each of the wallet's requests comes less than the lifetime after the one before. */
  predicate Active(cfg: Config, s: State, token: GoString, jkt: GoString, issued: int, rounds: seq<Round>)
    decreases |rounds|
  {
    rounds == [] ||
    (var before := ExecFrom(cfg, s, rounds[0].others);
     var r := rounds[0].request;
     && Others(cfg, s, rounds[0].others, RefreshKey(cfg, token))
     && before.now < issued + cfg.refreshTTL
     && OwnRequest(cfg, before, r, token, jkt)
     && Active(cfg, Apply(cfg, before, Refresh(r)), r.newToken, jkt, before.now, rounds[1..]))
  }

  predicate AllSucceed(cfg: Config, s: State, rounds: seq<Round>)
    decreases |rounds|
  {
    rounds == [] ||
    (var before := ExecFrom(cfg, s, rounds[0].others);
     var (after, answer) := RedeemRefresh(cfg, before, rounds[0].request);
     && answer.Issued? && answer.tokenType == DPOP && answer.refreshToken == rounds[0].request.newToken
     && AllSucceed(cfg, after, rounds[1..]))
  }

  /**
    An actively used wallet never loses its chain, over any number of rounds, if others leave it its current tokens.
   */
  lemma {:induction false} ActiveWalletNeverLosesItsChain(cfg: Config, s: State, token: GoString, jkt: GoString,
                                                          issued: int,
                                                          rounds: seq<Round>)
    requires Holds(cfg, s, token, jkt, issued) && Active(cfg, s, token, jkt, issued, rounds)
    ensures AllSucceed(cfg, s, rounds)
    decreases |rounds|
  {
    if rounds != [] {
      var before := ExecFrom(cfg, s, rounds[0].others);
      var r := rounds[0].request;
      OthersLeaveToken(cfg, s, rounds[0].others, token, jkt, issued);
      OwnRequestSucceedsExactly(cfg, before, r, jkt, issued);
      ActiveWalletNeverLosesItsChain(cfg, Apply(cfg, before, Refresh(r)), r.newToken, jkt, before.now, rounds[1..]);
    }
  }

  /** A DPoP grant on a code starts such a chain; a token left alone for the lifetime ends it. */
  lemma ChainStartsAndEnds(cfg: Config, s: State, r: CodeRequest, ops: seq<Op>, late: RefreshRequest)
    requires Enabled(cfg, s, Code(r)) && r.jkt != [] && !r.faults.issue && RedeemCode(cfg, s, r).1.Issued?
    requires Others(cfg, RedeemCode(cfg, s, r).0, ops, RefreshKey(cfg, r.newToken))
    requires late.token == r.newToken && late.jkt != []
    ensures var s1 := RedeemCode(cfg, s, r).0;
            && Holds(cfg, s1, r.newToken, r.jkt, s.now)
            && (s.now + cfg.refreshTTL <= ExecFrom(cfg, s1, ops).now ==>
                  RedeemRefresh(cfg, ExecFrom(cfg, s1, ops), late).1 == Denied(InvalidRefreshToken))
  {
    var s1 := RedeemCode(cfg, s, r).0;
    OthersLeaveToken(cfg, s1, ops, r.newToken, r.jkt, s.now);
  }
}
