/**
  Runs in which a shared map misbinds a session. Both start with any authorize request the server
  accepts and a provider's return that carries extra claims, so that the stored code has a map.
 */
module SharedFaults {
  import opened GoStrings
  import opened Digests
  import opened FormEncoding
  import opened Items
  import opened Grants
  import opened Lifecycle
  import opened RunTheorems
  import opened SharedMaps
  import opened SharedRuns
  import opened KeyBinding
  import opened SampleRuns

  const BY_REFERENCE: Sharing := Sharing(true, true, true)

  function ByReference(ops: seq<Op>): (calls: seq<Call>)
    ensures |calls| == |ops| && forall i :: 0 <= i < |ops| ==> calls[i] == Call(ops[i], BY_REFERENCE)
  {
    seq(|ops|, i requires 0 <= i < |ops| => Call(ops[i], BY_REFERENCE))
  }

  lemma ServedPrefix(cfg: Config, ops: seq<Op>)
    requires forall i :: 0 <= i < |ops| ==> ops[i].Authorize? || ops[i].Callback?
    ensures Ops(ByReference(ops)) == ops && Serve(cfg, ByReference(ops)) == World(Exec(cfg, ops), map[])
  {
    hide Serve;
    assert Ops(ByReference(ops)) == ops;
    assert Traceless(cfg, ByReference(ops));
    TracelessRunsCopy(cfg, ByReference(ops));
  }

  lemma ServeOneMore(cfg: Config, calls: seq<Call>, c: Call)
    ensures Serve(cfg, calls + [c]) == Step(cfg, Serve(cfg, calls), c) && Ops(calls + [c]) == Ops(calls) + [c.op]
  {
    hide Step;
    assert (calls + [c])[..|calls|] == calls;
  }

  // --- a request that fails leaves its key in the code ---------------------------------

  /** A confidential client that may use Bearer tokens. */
  predicate IsBearerClient(cfg: Config, id: GoString, secret: GoString) {
    id in cfg.clients && secret in cfg.clients[id].secrets && !cfg.clients[id].dpopBound
  }

  /** The client that made the authorize request redeems its code, with the verifier of its challenge. */
  function OwnRedemption(a: AuthorizeRequest, secret: GoString, verifier: GoString, jkt: GoString, session: GoString,
                         faults: Faults): CodeRequest {
    CodeRequest(Basic(a.clientID, secret), "c", verifier, Parameter(a, "redirect_uri"), jkt, session, "n", faults)
  }

  function KeyedRequest(a: AuthorizeRequest, secret: GoString, verifier: GoString): CodeRequest {
    OwnRedemption(a, secret, verifier, "k", "t", NO_FAULTS.(create := true))
  }

  function BearerRequest(a: AuthorizeRequest, secret: GoString, verifier: GoString): CodeRequest {
    OwnRedemption(a, secret, verifier, [], "tt", NO_FAULTS)
  }

  /** The request came from a confidential client that may use Bearer tokens and knows the verifier. */
  predicate ByBearerClient(cfg: Config, a: AuthorizeRequest, secret: GoString, verifier: GoString) {
    IsBearerClient(cfg, a.clientID, secret)
      && First(a.query, "code_challenge") == Some(EncodedDigest(cfg.sha, verifier))
  }

  lemma PassesChecks(cfg: Config, a: AuthorizeRequest, s: State, r: CodeRequest, secret: GoString, verifier: GoString)
    requires ByBearerClient(cfg, a, secret, verifier)
             && r == OwnRedemption(a, secret, verifier, r.jkt, r.newSession, r.faults)
    requires !r.faults.read && "c" in s.codes && s.now < s.codes["c"].expires && IsSampleItem(a, s.codes["c"].value)
    ensures EarlyRefusal(cfg, s.codes, s.now, r).None?
    ensures Authenticate(cfg, r.client, r.jkt) == Known(a.clientID, false)
  {
  }

  lemma KeyStays(cfg: Config, a: AuthorizeRequest, s: State, secret: GoString, verifier: GoString)
    requires SampleState(a, s) && ByBearerClient(cfg, a, secret, verifier)
    ensures var op := Code(KeyedRequest(a, secret, verifier));
            var w := Step(cfg, World(s, map[]), Call(op, BY_REFERENCE));
            && Enabled(cfg, s, op) && Apply(cfg, s, op) == s
            && w == World(s.(codes := MarkCodes(s.codes, "c", "k")), map[])
  {
    hide Authenticate, CodeRefusal, RefreshKey, RedeemCode;
    var r := KeyedRequest(a, secret, verifier);
    PassesChecks(cfg, a, s, r, secret, verifier);
    StepsMakeTheHandler(cfg, s, map[], r, BY_REFERENCE);
    StepsMakeTheHandler(cfg, s, map[], r, Sharing(false, false, false));
    MarkShows(s, "c", "k", BY_REFERENCE);
    assert TemplateOf(s, "c") == s.codes["c"].value.session;
  }

  lemma BearerGetsTheKey(cfg: Config, a: AuthorizeRequest, s: State, secret: GoString, verifier: GoString)
    requires SampleState(a, s) && ByBearerClient(cfg, a, secret, verifier)
    ensures var op := Code(BearerRequest(a, secret, verifier));
            var s1 := s.(codes := MarkCodes(s.codes, "c", "k"));
            var s' := Step(cfg, World(s1, map[]), Call(op, BY_REFERENCE)).state;
            && Enabled(cfg, s, op) && AnswerTo(cfg, s1, op) == Issued("tt", BEARER, s.codes["c"].value.scope, [])
            && "tt" in s'.sessions && BoundKey(s'.sessions["tt"]) == "k"
            && |s'.log| == 3 && IsGrant(s'.log[2]) && s'.log[2].grant.session == "tt" && s'.log[2].grant.jkt == []
  {
    hide Authenticate, CodeRefusal, RefreshKey, RedeemCode;
    var r, s1 := BearerRequest(a, secret, verifier), s.(codes := MarkCodes(s.codes, "c", "k"));
    PassesChecks(cfg, a, s1, r, secret, verifier);
    StepsMakeTheHandler(cfg, s1, map[], r, BY_REFERENCE);
    StepsMakeTheHandler(cfg, s1, map[], r, Sharing(false, false, false));
    assert BoundKey(s1.codes["c"].value.session) == "k";
    assert "tt" !in Dropped(r) && r.newSession == "tt" && |r.newSession| == 2;
  }

  /**
    For every authorize request that the server accepts from a confidential client that may use Bearer tokens
    and sent the challenge of a verifier: the client's DPoP request whose session cannot be created leaves its
    key in the cached code, and its next request is answered Bearer while the session is reported as DPoP for
    that key.
   */
  lemma {:induction false} FailedRequestLeavesItsKey(cfg: Config, a: AuthorizeRequest, secret: GoString,
                                                     verifier: GoString)
    returns (calls: seq<Call>)
    requires ValidConfig(cfg) && Acts(cfg, INITIAL, Authorize(a)) && ByBearerClient(cfg, a, secret, verifier)
    ensures |calls| == 4 && Run(cfg, Ops(calls))
    ensures var answer := AnswerTo(cfg, Exec(cfg, Ops(calls[..3])), Code(BearerRequest(a, secret, verifier)));
            var sessions := Serve(cfg, calls).state.sessions;
            && calls[3].op == Code(BearerRequest(a, secret, verifier))
              && calls[2].op == Code(KeyedRequest(a, secret, verifier))
            && answer.Issued? && answer.tokenType == BEARER
            && answer.accessToken in sessions
              && BoundKey(sessions[answer.accessToken]) == KeyedRequest(a, secret, verifier).jkt != []
    ensures !Honest(Serve(cfg, calls).state)
  {
    hide RedeemCode, Step, Serve, SampleState, Enabled, Acts, Apply, BoundKey;
    var ops := ReturnRun(cfg, a);
    var s := Exec(cfg, ops);
    ServedPrefix(cfg, ops);
    KeyStays(cfg, a, s, secret, verifier);
    BearerGetsTheKey(cfg, a, s, secret, verifier);
    var c1, c2 := Call(Code(KeyedRequest(a, secret, verifier)), BY_REFERENCE),
      Call(Code(BearerRequest(a, secret, verifier)), BY_REFERENCE);
    RunExtends(cfg, ops, c1.op);
    RunExtends(cfg, ops + [c1.op], c2.op);
    ServeOneMore(cfg, ByReference(ops), c1);
    ServeOneMore(cfg, ByReference(ops) + [c1], c2);
    calls := ByReference(ops) + [c1] + [c2];
    assert calls[..3] == ByReference(ops) + [c1];
    AnswersAreShared(cfg, calls[..3], c2);
  }

  // --- a later redemption changes an earlier session's key --------------------------------

  /** The state after a wallet's grant on the sample item, started from a state in which its map holds what it may. */
  lemma WalletGrant(cfg: Config, a: AuthorizeRequest, s: State, ties: Ties, r: PreAuthRequest)
    requires r == WalletRequest(r.jkt, r.newSession, r.faults.delete) && r.jkt != []
    requires "c" in s.codes && s.now < s.codes["c"].expires && IsSampleItem(a, s.codes["c"].value)
             && s.txCodes == map[]
    requires s.codes["c"].value.session.meta.Some?
    ensures var s1 := Marked(s, ties, "c", r.jkt, BY_REFERENCE);
            var w := Step(cfg, World(s, ties), Call(PreAuth(r), BY_REFERENCE));
            var sess := Minted(s.codes["c"].value.session, r.newSession, s.now, r.jkt);
            var g := Grant(r.newSession, s.codes["c"].value.session.subject, [], s.codes["c"].value.scope, r.jkt);
            && s1 == s.(codes := MarkCodes(s.codes, "c", r.jkt), sessions := MarkSessions(s.sessions, ties, "c", r.jkt))
            && w.state.now == s.now && w.state.txCodes == map[] && w.state.refresh == s.refresh
            && w.state.codes == (if r.faults.delete then s1.codes else s1.codes - {"c"})
            && w.state.sessions == s1.sessions[r.newSession := sess]
            && w.state.log == s.log + [TxPresented(s.codes["c"].origin, "0")]
              + [CodeRedeemed(true, Some(s.codes["c"].origin), g)]
            && (r.faults.delete ==> w.ties == ties[r.newSession := "c"])
            && AnswerTo(cfg, s, PreAuth(r)) == Issued(r.newSession, DPOP, s.codes["c"].value.scope, [])
  {
    assert s.txCodes - {"c"} == s.txCodes;
    hide EarlyPreAuthRefusal, TxCodeRefused, NeedsDPoP, Minted, ItemAt, MarkCodes, MarkSessions, RedeemPreAuth,
         FinishPreAuth;
    PassesPreAuthChecks(cfg, a, s, r);
    PreAuthSteps(cfg, s, ties, r, BY_REFERENCE);
    PreAuthSteps(cfg, s, ties, r, Sharing(false, false, false));
    PreAuthTiesFor(cfg, s, ties, r, BY_REFERENCE);
    var t := AfterTxCode(s, r);
    var t1 := Marked(t, ties, "c", r.jkt, BY_REFERENCE);
    MarkAfterTxCode(s, ties, r, BY_REFERENCE);
    MarkedItem(t, ties, "c", r.jkt, BY_REFERENCE, r.newSession);
    MarksDiffer(t, ties, "c", r.jkt, BY_REFERENCE);
    PreAuthTies(t, ties, r, BY_REFERENCE);
    FinishPreAuthFields(cfg, t1, r, ItemAt(t1.codes, "c", t1.now, None));
    FinishPreAuthFields(cfg, t, r, ItemAt(t.codes, "c", t.now, None));
  }

  /** What the first grant leaves when its code survives and shares the session's map. */
  lemma FirstGrant(cfg: Config, a: AuthorizeRequest, s: State) returns (w: World)
    requires SampleState(a, s)
    ensures var op := PreAuth(WalletRequest("k", "t", true));
            && Enabled(cfg, s, op) && w == Step(cfg, World(s, map[]), Call(op, BY_REFERENCE))
            && AnswerTo(cfg, s, op) == Issued("t", DPOP, s.codes["c"].value.scope, [])
    ensures w.ties == map["t" := "c"] && w.state.sessions.Keys == {"t"} && BoundKey(w.state.sessions["t"]) == "k"
    ensures w.state.now == 0 && w.state.txCodes == map[] && "c" in w.state.codes && 0 < w.state.codes["c"].expires
    ensures IsSampleItem(a, w.state.codes["c"].value) && w.state.codes["c"].value.session.meta.Some?
    ensures |w.state.log| == 4 && IsGrant(w.state.log[3]) && w.state.log[3].grant.session == "t"
            && w.state.log[3].grant.jkt == "k"
    ensures forall i :: 0 <= i < 3 ==> !IsGrant(w.state.log[i])
  {
    hide Step, AfterTxCode, RedeemPreAuth;
    var r := WalletRequest("k", "t", true);
    WalletGrant(cfg, a, s, map[], r);
    w := Step(cfg, World(s, map[]), Call(PreAuth(r), BY_REFERENCE));
  }

  lemma SecondGrant(cfg: Config, a: AuthorizeRequest, w: World) returns (w': World)
    requires w.ties == map["t" := "c"] && w.state.sessions.Keys == {"t"}
    requires w.state.now == 0 && w.state.txCodes == map[] && "c" in w.state.codes && 0 < w.state.codes["c"].expires
    requires IsSampleItem(a, w.state.codes["c"].value) && w.state.codes["c"].value.session.meta.Some?
    requires |w.state.log| == 4 && IsGrant(w.state.log[3]) && w.state.log[3].grant.session == "t"
             && w.state.log[3].grant.jkt == "k"
    requires forall i :: 0 <= i < 3 ==> !IsGrant(w.state.log[i])
    ensures var op := PreAuth(WalletRequest("kk", "tt", false));
            && Enabled(cfg, w.state, op) && w' == Step(cfg, w, Call(op, BY_REFERENCE))
            && "t" in w'.state.sessions && BoundKey(w'.state.sessions["t"]) == "kk" && !Honest(w'.state)
  {
    hide Step, AfterTxCode, RedeemPreAuth, Minted, MarkCodes;
    var r := WalletRequest("kk", "tt", false);
    assert r.newSession == "tt" && |r.newSession| == 2 && |r.jkt| == 2;
    WalletGrant(cfg, a, w.state, w.ties, r);
    w' := Step(cfg, w, Call(PreAuth(r), BY_REFERENCE));
    assert TiedTo(w.ties, "t", "c");
    assert w'.state.log[3] == w.state.log[3];
  }

  /**
    For every configuration that accepts some authorize request: a grant answered as DPoP for one key,
    whose code could not be deleted and shares the session's map, is reported for another key once that
    key redeems the code again.
   */
  lemma {:induction false} LaterRedemptionRekeysTheSession(cfg: Config, a: AuthorizeRequest) returns (calls: seq<Call>)
    requires ValidConfig(cfg) && Acts(cfg, INITIAL, Authorize(a))
    ensures |calls| == 4 && Run(cfg, Ops(calls))
    ensures var answer := AnswerTo(cfg, Exec(cfg, Ops(calls[..2])), PreAuth(WalletRequest("k", "t", true)));
            var sessions := Serve(cfg, calls).state.sessions;
            && calls[2].op == PreAuth(WalletRequest("k", "t", true))
              && calls[3].op == PreAuth(WalletRequest("kk", "tt", false))
            && answer.Issued? && answer.tokenType == DPOP
            && answer.accessToken in sessions && BoundKey(sessions[answer.accessToken]) == "kk"
    ensures !Honest(Serve(cfg, calls).state)
  {
    hide RedeemPreAuth, Step, Serve, SampleState, Enabled, Acts, Apply, BoundKey, Honest, AnswerTo, IsSampleItem,
         SameCodes, SameTokens, SameSessions;
    var ops := ReturnRun(cfg, a);
    var s := Exec(cfg, ops);
    ServedPrefix(cfg, ops);
    var w := FirstGrant(cfg, a, s);
    var w' := SecondGrant(cfg, a, w);
    var c1 := Call(PreAuth(WalletRequest("k", "t", true)), BY_REFERENCE);
    var c2 := Call(PreAuth(WalletRequest("kk", "tt", false)), BY_REFERENCE);
    var front := ByReference(ops) + [c1];
    RunExtends(cfg, ops, c1.op);
    ServeOneMore(cfg, ByReference(ops), c1);
    SharingShowsInMapsOnly(cfg, front);
    SameEnabled(cfg, w.state, Exec(cfg, ops + [c1.op]), c2.op);
    RunExtends(cfg, ops + [c1.op], c2.op);
    ServeOneMore(cfg, front, c2);
    calls := front + [c2];
    assert calls[..2] == ByReference(ops);
  }
}
