/**
  The handlers on real references refine the runs that the theorems are about: a new server is the
  start of a run, and every call takes it to the next point of the run, whatever fails and whichever
  maps the storage layers share.
 */
module ServerRuns {
  import opened GoStrings
  import opened Items
  import opened Grants
  import opened StoreModel
  import opened SharedMaps
  import opened MapViews
  import opened TokenHandlers
  import opened AuthorizeHandlers
  import opened Lifecycle
  import opened RunTheorems
  import opened SharedRuns
  import opened KeyBinding
  import Introspection
  import Backing
  import Provenance

  /** The server stands at this point of a run. */
  ghost predicate At(store: Store, sessions: SessionStore, w: World)
    reads store, sessions, CodeMetas(store.codes), RefreshMetas(store.refresh), SessionMetas(sessions.table)
  {
    StateOf(store, sessions) == w.state && Separated(store, sessions, w.ties)
  }

  method NewServer(cfg: Config) returns (store: Store, sessions: SessionStore)
    ensures fresh(store) && fresh(sessions) && store.cfg == cfg
    ensures At(store, sessions, Serve(cfg, []))
  {
    store := new Store(cfg);
    sessions := new SessionStore();
  }

  method Wait(store: Store, sessions: SessionStore, d: nat, ghost ties: Ties)
    requires Separated(store, sessions, ties)
    modifies store`now
    ensures var s := old(StateOf(store, sessions)); StateOf(store, sessions) == s.(now := s.now + d)
    ensures Separated(store, sessions, ties)
  {
    hide CodesOf, RefreshesOf, SessionsOf, CodeMapsApart, TiesAre, RefreshMapsBound;
    ghost var maps := (CodeMetas(store.codes), RefreshMetas(store.refresh), SessionMetas(sessions.table));
    store.now := store.now + d;
  }

  /** One call, dispatched to its handler. */
  method Dispatch(store: Store, sessions: SessionStore, c: Call, ghost w: World) returns (answer: Option<Answer>)
    requires At(store, sessions, w)
    modifies store, sessions, CodeMetas(store.codes), RefreshMetas(store.refresh)
    ensures At(store, sessions, Step(store.cfg, w, c))
    ensures answer.Some? <==> c.op.Code? || c.op.PreAuth? || c.op.Refresh?
    ensures answer.Some? ==>
              answer.value == AnswerTo(store.cfg, MarkedFor(store.cfg, w.state, w.ties, c.op, c.sharing), c.op)
  {
    hide CodesOf, RefreshesOf, SessionsOf, StateOf, Separated, Acts, Marked;
    hide RedeemCode, RedeemPreAuth, RedeemRefresh, SaveState, ProviderReturn, MakeOffer, EarlyRefusal, PreAuthRefused,
         TiesAfter;
    answer := None;
    match c.op {
      case Tick(d) =>
        Wait(store, sessions, d, w.ties);
      case Authorize(r) =>
        var _ := ValidateAndSaveState(store, sessions, r, w.ties);
      case Callback(r) =>
        ProviderCallback(store, sessions, r, w.ties);
      case Offer(r) =>
        var _ := PreauthGenerate(store, sessions, r, w.ties);
      case Code(r) =>
        var a := HandleAuthorization(store, sessions, r, c.sharing, w.ties);
        answer := Some(a);
      case PreAuth(r) =>
        var a := HandlePreAuthorized(store, sessions, r, c.sharing, w.ties);
        answer := Some(a);
      case Refresh(r) =>
        var a := HandleRefreshToken(store, sessions, r, c.sharing, w.ties);
        answer := Some(a);
    }
  }

  /**
    From any point of any run, a call leads to the next point, and its answer is the one the run on
    values gives: neither faults nor sharing can be seen in an answer.
   */
  method ServeOne(store: Store, sessions: SessionStore, c: Call, ghost calls: seq<Call>)
    returns (answer: Option<Answer>)
    requires At(store, sessions, Serve(store.cfg, calls))
    modifies store, sessions, CodeMetas(store.codes), RefreshMetas(store.refresh)
    ensures At(store, sessions, Serve(store.cfg, calls + [c]))
    ensures answer == if c.op.Code? || c.op.PreAuth? || c.op.Refresh?
                      then Some(AnswerTo(store.cfg, Exec(store.cfg, Ops(calls)), c.op)) else None
  {
    hide At, Step, AnswerTo, SameButMaps, MarkedFor;
    ghost var w := Serve(store.cfg, calls);
    assert (calls + [c])[..|calls|] == calls;
    SharingShowsInMapsOnly(store.cfg, calls);
    MarkedForIsSame(store.cfg, w, Exec(store.cfg, Ops(calls)), c);
    ApplyIsSame(store.cfg, MarkedFor(store.cfg, w.state, w.ties, c.op, c.sharing), Exec(store.cfg, Ops(calls)), c.op);
    answer := Dispatch(store, sessions, c, w);
  }

  lemma SessionAt(store: Store, sessions: SessionStore, s: State, id: GoString)
    requires StateOf(store, sessions) == s && id in sessions.table
    ensures id in s.sessions && s.sessions[id] == SessionOf(sessions.table[id]) && s.log == store.log
  {
  }

  /** On values and on a server a granted session has its grant's subject. */
  lemma SubjectIsKept(cfg: Config, calls: seq<Call>, i: nat)
    requires Run(cfg, Ops(calls))
    requires var s := Serve(cfg, calls).state; i < |s.log| && IsGrant(s.log[i]) && s.log[i].grant.session in s.sessions
    ensures var s := Serve(cfg, calls).state; s.sessions[s.log[i].grant.session].subject == s.log[i].grant.subject
  {
    hide Run, Serve, Exec, SameCodes, SameTokens;
    SharingShowsInMapsOnly(cfg, calls);
    SessionsCarryTheirKey(cfg, Ops(calls), i);
  }

  /**
    What introspection reports, at any point of any run of a server, about a session that a grant made: the grant's
    subject; an exp that counts the timeout from the instant of that grant, however often its token was rotated
    before; no scope, as no grant puts one into a session; the names and claims of the template stored with the item
    its family rests on; and the key the session is bound to. That is the key the grant was answered for
    exactly if the session is bound to it; KeyBinding.HonestExactly says when all are.
   */
  method Introspect(store: Store, sessions: SessionStore, id: GoString, issuer: GoString, timeout: int,
                    parse: Introspection.JsonParser,
                    ghost calls: seq<Call>, ghost i: nat)
    returns (r: Introspection.Response, ghost t: nat)
    requires At(store, sessions, Serve(store.cfg, calls)) && Run(store.cfg, Ops(calls))
    requires i < |store.log| && IsGrant(store.log[i]) && store.log[i].grant.session == id && id in sessions.table
    ensures r.iss == issuer && r.clientID == id && r.sub == r.username == store.log[i].grant.subject
    ensures Backing.MadeBy(store.cfg, Ops(calls), t, i)
            && r.exp == (Backing.At(store.cfg, Ops(calls), t).now + timeout) / 1_000_000_000
    ensures var template := Provenance.StoredTemplate(store.log, RootOf(store.log, i));
            r.scope == []
            && forall k :: Introspection.Reported(r, k) == Introspection.ClaimOf(template, parse, k)
    ensures Honest(Serve(store.cfg, calls).state) ==>
              && r.tokenType == TokenType(store.log[i].grant.jkt)
              && forall k :: k != [] ==> (r.cnfJkt == Some(k) <==> store.log[i].grant.jkt == k)
    ensures var s := Serve(store.cfg, calls).state;
            && id in s.sessions && r.tokenType == TokenType(BoundKey(s.sessions[id]))
            && forall k :: k != [] ==> (r.cnfJkt == Some(k) <==> BoundKey(s.sessions[id]) == k)
  {
    hide StateOf, Separated, SessionOf, Serve, Run, Provenance.StoredTemplate, Introspection.ClaimOf, BoundKey,
         Introspection.ExtraClaims, Introspection.NamedClaims, Exec;
    ghost var s := Serve(store.cfg, calls).state;
    SessionAt(store, sessions, s, id);
    SubjectIsKept(store.cfg, calls, i);
    t := Provenance.ServedSessionsDescend(store.cfg, calls, i);
    SharingShowsInMapsOnly(store.cfg, calls);
    Provenance.TemplatesHaveNoScope(store.cfg, Ops(calls), RootOf(store.log, i));
    ghost var template := Provenance.StoredTemplate(store.log, RootOf(store.log, i));
    forall k ensures Introspection.ClaimOf(s.sessions[id], parse, k) == Introspection.ClaimOf(template, parse, k) {
      Provenance.ClaimsDescend(s.sessions[id], template, parse, k);
    }
    r := Introspection.BuildIntrospectionResponse(SessionOf(sessions.table[id]), issuer, timeout, parse);
  }
}
