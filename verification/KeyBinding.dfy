/**
  When a session is bound to the key its grant was answered for, on servers that may share metadata
  maps and with any faults: the exact conditions, and runs in which they fail.
 */
module KeyBinding {
  import opened GoStrings
  import opened Items
  import opened TtlCache
  import opened Grants
  import opened Lifecycle
  import opened RunTheorems
  import opened SharedMaps
  import opened SharedRuns

  // --- what a redemption does ----------------------------------------------------

  function CodesOut(codes: Table<CodeItemV>, p: Redemption): Table<CodeItemV> {
    if p.createFails || p.deleteFails then codes else codes - {p.code}
  }

  function SessionsOut(sessions: map<GoString, SessionV>, p: Redemption, sess: SessionV): map<GoString, SessionV> {
    if p.createFails then sessions else sessions[p.session := sess] - p.drop
  }

  /** A grant is recorded last, for the session and key of the redemption, and only if it is one. */
  predicate Records(log: seq<Event>, log': seq<Event>, p: Redemption) {
    && log <= log'
    && (forall i :: |log| <= i < |log'| - 1 ==> !IsGrant(log'[i]))
    && (if p.grants then
          && |log'| > |log| && IsGrant(log'[|log'| - 1])
          && log'[|log'| - 1].grant.session == p.session && log'[|log'| - 1].grant.jkt == p.jkt
        else |log'| > |log| ==> !IsGrant(log'[|log'| - 1]))
  }

  predicate Does(s: State, s': State, p: Redemption, sess: SessionV) {
    && s'.codes == CodesOut(s.codes, p) && s'.sessions == SessionsOut(s.sessions, p, sess)
    && Records(s.log, s'.log, p)
  }

  /** From the marked state s1 and from the unmarked one the redemption does the same. */
  predicate DoesBoth(s: State, s1: State, a: State, b: State, p: Redemption) {
    var sess := Minted(TemplateOf(s, p.code), p.session, s.now, p.jkt);
    Does(s1, a, p, sess) && Does(s, b, p, sess) && a == b.(codes := a.codes, sessions := a.sessions)
  }

  /** Where the mark can show. */
  predicate DiffersInMarks(s: State, s1: State, code: GoString) {
    && s1 == s.(codes := s1.codes, sessions := s1.sessions)
    && OriginAt(s1.codes, code, s.now) == OriginAt(s.codes, code, s.now)
  }

  lemma MarksDiffer(s: State, ties: Ties, code: GoString, jkt: GoString, sharing: Sharing)
    ensures DiffersInMarks(s, Marked(s, ties, code, jkt, sharing), code)
    ensures Marked(s, ties, code, jkt, Sharing(false, false, false)) == s
  {
    MarkedItem(s, ties, code, jkt, sharing, []);
  }

  lemma AfterCreationDoes(cfg: Config, s: State, s1: State, r: CodeRequest, g: Grant, sess: SessionV, p: Redemption)
    requires DiffersInMarks(s, s1, r.code) && sess == Minted(TemplateOf(s, r.code), r.newSession, s.now, r.jkt)
    requires p == Redemption(r.code, r.jkt, r.newSession, r.faults.create, r.faults.delete,
                             !r.faults.create && !r.faults.delete, Dropped(r))
    requires g.session == r.newSession && g.jkt == r.jkt
    ensures var a, b := AfterCreation(cfg, s1, r, g, sess).0, AfterCreation(cfg, s, r, g, sess).0;
            if p.createFails then DoesBoth(s, s1, s1, s, p) else DoesBoth(s, s1, a, b, p)
  {
    hide OriginAt, Minted, TemplateOf, RefreshKey, IssuesRefresh, Dropped, CodeAnswer;
  }

  lemma CodeEffect(cfg: Config, s: State, ties: Ties, r: CodeRequest, sharing: Sharing)
    requires RedemptionOf(cfg, s, Code(r)).Some?
    ensures var s1 := Marked(s, ties, r.code, r.jkt, sharing);
            DoesBoth(s, s1, RedeemCode(cfg, s1, r).0, RedeemCode(cfg, s, r).0, RedemptionOf(cfg, s, Code(r)).value)
  {
    hide CodeRefusal, Minted, Authenticate, Marked, ItemAt, RedeemCode, DoesBoth, AfterCreation, DiffersInMarks,
         Dropped;
    StepsMakeTheHandler(cfg, s, ties, r, sharing);
    StepsMakeTheHandler(cfg, s, ties, r, Sharing(false, false, false));
    MarksDiffer(s, ties, r.code, r.jkt, sharing);
    var item := ItemAt(s.codes, r.code, s.now, None);
    var g := Grant(r.newSession, item.session.subject, Authenticate(cfg, r.client, r.jkt).clientID, item.scope, r.jkt);
    AfterCreationDoes(cfg, s, Marked(s, ties, r.code, r.jkt, sharing), r, g,
                      Minted(item.session, r.newSession, s.now, r.jkt),
                      RedemptionOf(cfg, s, Code(r)).value);
  }

  lemma FinishPreAuthDoes(cfg: Config, s: State, s1: State, r: PreAuthRequest, x: CodeItemV, y: CodeItemV)
    requires DiffersInMarks(s, s1, r.code) && !NeedsDPoP(cfg, r) && x == ItemAt(s.codes, r.code, s.now, None)
    requires y == x.(session := y.session) && y.session.subject == x.session.subject
    requires Minted(y.session, r.newSession, s.now, r.jkt) == Minted(x.session, r.newSession, s.now, r.jkt)
    ensures DoesBoth(s, s1, FinishPreAuth(cfg, s1, r, y).0, FinishPreAuth(cfg, s, r, x).0, PreAuthRedemption(r))
  {
    hide OriginAt, Minted, NeedsDPoP, FinishPreAuth, ItemAt;
    FinishPreAuthFields(cfg, s, r, x);
    FinishPreAuthFields(cfg, s1, r, y);
    assert forall m: map<GoString, SessionV> :: m - {} == m;
  }

  /** Presenting the tx_code first adds a record that is not a grant. */
  lemma AfterPresentation(s: State, s1: State, t: State, t1: State, a: State, b: State, r: PreAuthRequest,
                          p: Redemption)
    requires DoesBoth(t, t1, a, b, p) && p.code == r.code
    requires (t, t1) == (s, s1) || (t, t1) == (AfterTxCode(s, r), AfterTxCode(s1, r))
    ensures DoesBoth(s, s1, a, b, p)
  {
    hide Minted, OriginAt;
  }

  lemma PreAuthEffect(cfg: Config, s: State, ties: Ties, r: PreAuthRequest, sharing: Sharing)
    requires RedemptionOf(cfg, s, PreAuth(r)).Some?
    ensures var s1 := Marked(s, ties, r.code, r.jkt, sharing);
            DoesBoth(s, s1, RedeemPreAuth(cfg, s1, r).0, RedeemPreAuth(cfg, s, r).0,
                     RedemptionOf(cfg, s, PreAuth(r)).value)
  {
    hide EarlyPreAuthRefusal, Minted, Marked, ItemAt, RedeemPreAuth, FinishPreAuth, TxCodeRefused, NeedsDPoP, DoesBoth,
         DiffersInMarks;
    hide AfterTxCode;
    var t := if ItemAt(s.codes, r.code, s.now, None).noTXCode then s else AfterTxCode(s, r);
    var t1 := Marked(t, ties, r.code, r.jkt, sharing);
    var x, y := ItemAt(t.codes, r.code, t.now, None), ItemAt(t1.codes, r.code, t1.now, None);
    MarksDiffer(s, ties, r.code, r.jkt, sharing);
    MarksDiffer(t, ties, r.code, r.jkt, sharing);
    PreAuthSteps(cfg, s, ties, r, sharing);
    PreAuthSteps(cfg, s, ties, r, Sharing(false, false, false));
    MarkedItem(t, ties, r.code, r.jkt, sharing, r.newSession);
    MarkAfterTxCode(s, ties, r, sharing);
    FinishPreAuthDoes(cfg, t, t1, r, x, y);
    AfterPresentation(s, Marked(s, ties, r.code, r.jkt, sharing), t, t1, FinishPreAuth(cfg, t1, r, y).0,
                      FinishPreAuth(cfg, t, r, x).0,
                      r, PreAuthRedemption(r));
  }

  /** The effect of a call that redeems a code, on the world it finds and on the same world with all maps copied. */
  lemma RedemptionEffect(cfg: Config, s: State, ties: Ties, c: Call)
    requires RedemptionOf(cfg, s, c.op).Some?
    ensures var p := RedemptionOf(cfg, s, c.op).value;
            var s1 := Marked(s, ties, p.code, p.jkt, c.sharing);
            && s1 == MarkedFor(cfg, s, ties, c.op, c.sharing)
            && DoesBoth(s, s1, Apply(cfg, s1, c.op), Apply(cfg, s, c.op), p)
            && TiesFor(cfg, s, ties, c.op, c.sharing) == TiesAfter(s, ties, p, c.sharing)
  {
    hide EarlyRefusal, PreAuthRefused, Marked, RedeemCode, RedeemPreAuth, DoesBoth, TiesAfter, Acts;
    if c.op.Code? {
      CodeEffect(cfg, s, ties, c.op.code, c.sharing);
    } else {
      PreAuthEffect(cfg, s, ties, c.op.preAuth, c.sharing);
    }
  }

  // --- when sharing leaves a trace ---------------------------------------------------

  /** The map holds this key already. */
  predicate HoldsAlready(m: Meta, jkt: GoString) {
    m.Some? && DPOP_JKT in m.value && m.value[DPOP_JKT] == jkt
  }

  /**
    The request passes every check, the map it is handed is the cached code's own, and the code outlives
    the request although its map was changed or given to the new session.
   */
  predicate LeavesTrace(cfg: Config, s: State, c: Call) {
    match RedemptionOf(cfg, s, c.op)
    case None => false
    case Some(p) =>
      var m := TemplateOf(s, p.code).meta;
      && c.sharing.read && m.Some?
      && (|| (p.jkt != [] && !HoldsAlready(m, p.jkt) && (p.createFails || p.deleteFails))
          || (c.sharing.create && !p.createFails && p.deleteFails && p.session !in p.drop))
  }

  lemma MarkShows(s: State, code: GoString, jkt: GoString, sharing: Sharing)
    ensures Marked(s, map[], code, jkt, sharing).sessions == s.sessions
    ensures Marked(s, map[], code, jkt, sharing).codes - {code} == s.codes - {code}
    ensures Marked(s, map[], code, jkt, sharing) == s <==>
              !Writes(s, code, jkt, sharing) || HoldsAlready(TemplateOf(s, code).meta, jkt)
    ensures Marked(s, map[], code, jkt, sharing).codes == s.codes ==> Marked(s, map[], code, jkt, sharing) == s
  {
    var s1 := Marked(s, map[], code, jkt, sharing);
    if Writes(s, code, jkt, sharing) {
      var m := TemplateOf(s, code).meta.value;
      assert s1.codes[code].value.session.meta == Some(m[DPOP_JKT := jkt]);
      if HoldsAlready(Some(m), jkt) {
        assert m[DPOP_JKT := jkt] == m;
        assert s1.codes == s.codes;
      } else {
        assert m[DPOP_JKT := jkt][DPOP_JKT] == jkt;
      }
    }
  }

  lemma TiesFromNone(s: State, p: Redemption, sharing: Sharing)
    ensures TiesAfter(s, map[], p, sharing) == map[] <==>
              !(sharing.read && sharing.create && TemplateOf(s, p.code).meta.Some? && !p.createFails && p.deleteFails
                && p.session !in p.drop)
  {
    hide TemplateOf;
    var none: Ties := map[];
    assert none - {p.session} == none && none - p.drop == none;
    var one: Ties := none[p.session := p.code];
    assert Without(one - p.drop, p.code) == none && Without(none, p.code) == none;
    assert p.session in p.drop ==> one - p.drop == none;
    assert p.session !in p.drop ==> p.session in one - p.drop;
  }

  lemma OutcomesDiffer(s: State, s1: State, a: State, b: State, p: Redemption)
    requires DoesBoth(s, s1, a, b, p) && s1.sessions == s.sessions && s1.codes - {p.code} == s.codes - {p.code}
    ensures a == b <==> !(p.createFails || p.deleteFails) || s1.codes == s.codes
  {
    hide Minted, TemplateOf;
  }

  lemma WritesMeans(s: State, p: Redemption, sharing: Sharing)
    ensures Writes(s, p.code, p.jkt, sharing) <==> sharing.read && p.jkt != [] && TemplateOf(s, p.code).meta.Some?
  {
  }

  /**
    Where no session shares a map with a cached code, a call leaves the server as if every map were
    copied, with nobody sharing, exactly when it leaves no trace.
   */
  lemma {:induction false} TracesExactly(cfg: Config, s: State, c: Call)
    ensures Step(cfg, World(s, map[]), c) == World(Apply(cfg, s, c.op), map[]) <==> !LeavesTrace(cfg, s, c)
  {
    hide RedemptionOf, Marked, Apply, Writes, HoldsAlready, TemplateOf, MarkedFor, TiesFor;
    var found := RedemptionOf(cfg, s, c.op);
    if found.None? {
      NothingShared(cfg, s, c);
    } else {
      var p := found.value;
      RedemptionEffect(cfg, s, map[], c);
      MarkShows(s, p.code, p.jkt, c.sharing);
      TiesFromNone(s, p, c.sharing);
      var s1 := Marked(s, map[], p.code, p.jkt, c.sharing);
      OutcomesDiffer(s, s1, Apply(cfg, s1, c.op), Apply(cfg, s, c.op), p);
      WritesMeans(s, p, c.sharing);
    }
  }

  lemma NothingShared(cfg: Config, s: State, c: Call)
    requires RedemptionOf(cfg, s, c.op).None?
    ensures MarkedFor(cfg, s, map[], c.op, c.sharing) == s && TiesFor(cfg, s, map[], c.op, c.sharing) == map[]
  {
    hide RedemptionOf, Acts;
  }

  /** No call of the run leaves a trace; a caller can tell before each call. */
  predicate Traceless(cfg: Config, calls: seq<Call>) {
    forall n :: 0 <= n < |calls| ==> !LeavesTrace(cfg, Serve(cfg, calls[..n]).state, calls[n])
  }

  /** Then the server is, map for map, the run on values. */
  lemma {:induction false} TracelessRunsCopy(cfg: Config, calls: seq<Call>)
    requires Traceless(cfg, calls)
    ensures Serve(cfg, calls) == World(Exec(cfg, Ops(calls)), map[])
  {
    hide LeavesTrace, Apply;
    if calls != [] {
      var front, c := calls[..|calls| - 1], calls[|calls| - 1];
      assert forall n :: 0 <= n < |front| ==> front[..n] == calls[..n];
      TracelessRunsCopy(cfg, front);
      assert Ops(calls)[..|calls| - 1] == Ops(front);
      TracesExactly(cfg, Exec(cfg, Ops(front)), c);
      assert !LeavesTrace(cfg, Serve(cfg, calls[..|calls| - 1]).state, calls[|calls| - 1]);
    }
  }

  // --- when introspection is right ------------------------------------------------------

  /** Every session that a grant made is bound to the key the grant was answered for. */
  predicate Honest(s: State) {
    forall i :: 0 <= i < |s.log| && IsGrant(s.log[i]) && s.log[i].grant.session in s.sessions ==>
      BoundKey(s.sessions[s.log[i].grant.session]) == s.log[i].grant.jkt
  }

  /** The i-th event granted a session that shares the map being written to, stays, and was answered for another key. */
  predicate Rekeyed(w: World, p: Redemption, i: nat)
    requires i < |w.state.log|
  {
    && IsGrant(w.state.log[i])
    && var g := w.state.log[i].grant;
       TiedTo(w.ties, g.session, p.code) && (p.createFails || g.session !in p.drop) && g.jkt != p.jkt
  }

  /**
    A Bearer grant on a code whose cached map holds a key, or a write to a map that a session granted
    for another key shares.
   */
  predicate Misbinds(cfg: Config, w: World, c: Call) {
    match RedemptionOf(cfg, w.state, c.op)
    case None => false
    case Some(p) =>
      || (p.grants && p.jkt == [] && BoundKey(TemplateOf(w.state, p.code)) != [])
      || (Writes(w.state, p.code, p.jkt, c.sharing) && exists i :: 0 <= i < |w.state.log| && Rekeyed(w, p, i))
  }

  predicate TiesAreSessions(w: World) {
    w.ties.Keys <= w.state.sessions.Keys
  }

  /** What a redemption binds, session by session. */
  lemma BoundAfter(s: State, ties: Ties, p: Redemption, sharing: Sharing, a: State, id: GoString)
    requires Does(Marked(s, ties, p.code, p.jkt, sharing), a, p, Minted(TemplateOf(s, p.code), p.session, s.now, p.jkt))
    requires id in a.sessions && ties.Keys <= s.sessions.Keys
    ensures if !p.createFails && id == p.session then
              BoundKey(a.sessions[id]) == if p.jkt == [] then BoundKey(TemplateOf(s, p.code)) else p.jkt
            else
              && id in s.sessions
              && BoundKey(a.sessions[id]) ==
                 if Writes(s, p.code, p.jkt, sharing) && TiedTo(ties, id, p.code) then p.jkt
                 else BoundKey(s.sessions[id])
  {
    hide TemplateOf, MarkCodes;
  }

  /** Who is there after a redemption. */
  lemma ThereAfter(s: State, ties: Ties, p: Redemption, sharing: Sharing, a: State)
    requires Does(Marked(s, ties, p.code, p.jkt, sharing), a, p, Minted(TemplateOf(s, p.code), p.session, s.now, p.jkt))
    ensures a.sessions.Keys == if p.createFails then s.sessions.Keys else s.sessions.Keys + {p.session} - p.drop
    ensures Records(s.log, a.log, p)
  {
    hide TemplateOf, MarkCodes;
  }

  lemma RedemptionHonest(s: State, ties: Ties, p: Redemption, sharing: Sharing, a: State)
    requires Does(Marked(s, ties, p.code, p.jkt, sharing), a, p, Minted(TemplateOf(s, p.code), p.session, s.now, p.jkt))
    requires Honest(s) && ties.Keys <= s.sessions.Keys && FreshSession(s, p.session) && p.session !in p.drop
    requires p.grants ==> !p.createFails
    ensures Honest(a) <==>
              && !(p.grants && p.jkt == [] && BoundKey(TemplateOf(s, p.code)) != [])
              && !(Writes(s, p.code, p.jkt, sharing) && exists i :: 0 <= i < |s.log| && Rekeyed(World(s, ties), p, i))
  {
    hide Does, TemplateOf, Marked, Writes, Minted;
    ThereAfter(s, ties, p, sharing, a);
    forall id | id in a.sessions
      ensures if !p.createFails && id == p.session then
                BoundKey(a.sessions[id]) == if p.jkt == [] then BoundKey(TemplateOf(s, p.code)) else p.jkt
              else
                && id in s.sessions
                && BoundKey(a.sessions[id]) ==
                   if Writes(s, p.code, p.jkt, sharing) && TiedTo(ties, id, p.code) then p.jkt
                   else BoundKey(s.sessions[id])
    {
      BoundAfter(s, ties, p, sharing, a, id);
    }
    if p.grants && p.jkt == [] && BoundKey(TemplateOf(s, p.code)) != [] {
      assert IsGrant(a.log[|a.log| - 1]) && a.log[|a.log| - 1].grant.session in a.sessions;
      assert !Honest(a);
    } else if Writes(s, p.code, p.jkt, sharing) && exists i :: 0 <= i < |s.log| && Rekeyed(World(s, ties), p, i) {
      var i :| 0 <= i < |s.log| && Rekeyed(World(s, ties), p, i);
      assert a.log[i] == s.log[i] && a.log[i].grant.session in a.sessions;
      assert !Honest(a);
    } else {
      forall i | 0 <= i < |a.log| && IsGrant(a.log[i]) && a.log[i].grant.session in a.sessions
        ensures BoundKey(a.sessions[a.log[i].grant.session]) == a.log[i].grant.jkt
      {
        if i < |s.log| {
          assert a.log[i] == s.log[i];
          assert Rekeyed(World(s, ties), p, i) || !TiedTo(ties, s.log[i].grant.session, p.code)
                 || (!p.createFails && s.log[i].grant.session in p.drop) || s.log[i].grant.jkt == p.jkt;
        }
      }
    }
  }

  /** The calls that redeem no code: a refresh binds its session to its key, the others grant nothing. */
  lemma OtherHonest(cfg: Config, s: State, op: Op)
    requires RedemptionOf(cfg, s, op).None? && Enabled(cfg, s, op) && Honest(s)
    ensures Honest(Apply(cfg, s, op))
  {
    hide RedeemPreAuth, RedeemCode, RedeemRefresh, ParametersValid, CallbackItem, OfferItem;
    var s' := Apply(cfg, s, op);
    match op
    case Refresh(r) =>
      RefreshEffect(cfg, s, r);
      if s'.log != s.log {
        MintedBinds(s.refresh[RefreshKey(cfg, r.token)].value.session, r.newSession, s.now, r.jkt);
      }
    case Code(r) => RefusedCode(cfg, s, r);
    case PreAuth(r) => RefusedPreAuth(cfg, s, r);
    case _ =>
  }

  lemma RefusedCode(cfg: Config, s: State, r: CodeRequest)
    requires RedemptionOf(cfg, s, Code(r)).None?
    ensures RedeemCode(cfg, s, r).0 == s
  {
    hide EarlyRefusal;
  }

  lemma RefusedPreAuth(cfg: Config, s: State, r: PreAuthRequest)
    requires RedemptionOf(cfg, s, PreAuth(r)).None?
    ensures var s' := RedeemPreAuth(cfg, s, r).0;
            s'.sessions == s.sessions && (s' == s || s' == AfterTxCode(s, r))
  {
    hide EarlyPreAuthRefusal, TxCodeRefused, ItemAt, NeedsDPoP;
  }

  /** From honest bindings a call leads to honest bindings exactly when it does not misbind. */
  lemma {:induction false} StepHonestExactly(cfg: Config, w: World, c: Call)
    requires TiesAreSessions(w) && Enabled(cfg, w.state, c.op) && Honest(w.state)
    ensures Honest(Step(cfg, w, c).state) <==> !Misbinds(cfg, w, c)
  {
    hide Honest, Apply, TiesFor, Marked, Writes, Enabled, Minted, TemplateOf, Does;
    var found := RedemptionOf(cfg, w.state, c.op);
    if found.None? {
      OtherHonest(cfg, w.state, c.op);
    } else {
      var p := found.value;
      RedemptionEffect(cfg, w.state, w.ties, c);
      FreshRedemption(cfg, w.state, c.op);
      RedemptionHonest(w.state, w.ties, p, c.sharing,
                       Apply(cfg, Marked(w.state, w.ties, p.code, p.jkt, c.sharing), c.op));
    }
  }

  lemma FreshRedemption(cfg: Config, s: State, op: Op)
    requires Enabled(cfg, s, op) && RedemptionOf(cfg, s, op).Some?
    ensures var p := RedemptionOf(cfg, s, op).value;
            FreshSession(s, p.session) && p.session !in p.drop && (p.grants ==> !p.createFails)
  {
    hide EarlyRefusal, PreAuthRefused, FreshSession, RefreshKey;
  }

  lemma StepTies(cfg: Config, w: World, c: Call)
    requires TiesAreSessions(w)
    ensures TiesAreSessions(Step(cfg, w, c))
  {
    hide Marked, Minted, TemplateOf, DoesBoth, Without;
    var found := RedemptionOf(cfg, w.state, c.op);
    if found.Some? {
      var p := found.value;
      RedemptionEffect(cfg, w.state, w.ties, c);
      TiesGrow(w.state, w.ties, p, c.sharing);
      RedeemedSessions(w.state, w.ties, p, c.sharing,
                       Apply(cfg, Marked(w.state, w.ties, p.code, p.jkt, c.sharing), c.op),
                       Apply(cfg, w.state, c.op));
    } else {
      OtherSessions(cfg, w.state, w.ties, c);
    }
  }

  lemma TiesGrow(s: State, ties: Ties, p: Redemption, sharing: Sharing)
    ensures TiesAfter(s, ties, p, sharing).Keys <= if p.createFails then ties.Keys else ties.Keys + {p.session} - p.drop
  {
    hide TemplateOf;
  }

  lemma RedeemedSessions(s: State, ties: Ties, p: Redemption, sharing: Sharing, a: State, b: State)
    requires DoesBoth(s, Marked(s, ties, p.code, p.jkt, sharing), a, b, p)
    ensures a.sessions.Keys == if p.createFails then s.sessions.Keys else s.sessions.Keys + {p.session} - p.drop
  {
    hide TemplateOf, Marked;
    ThereAfter(s, ties, p, sharing, a);
  }

  lemma OtherSessions(cfg: Config, s: State, ties: Ties, c: Call)
    requires RedemptionOf(cfg, s, c.op).None? && ties.Keys <= s.sessions.Keys
    ensures TiesFor(cfg, s, ties, c.op, c.sharing).Keys <= Apply(cfg, s, c.op).sessions.Keys
  {
    hide RedeemPreAuth, RedeemCode, RedeemRefresh, ParametersValid, CallbackItem, OfferItem;
    match c.op
    case Refresh(r) => RefreshEffect(cfg, s, r);
    case Code(r) => RefusedCode(cfg, s, r);
    case PreAuth(r) => RefusedPreAuth(cfg, s, r);
    case _ =>
  }

  lemma {:induction false} ServedTies(cfg: Config, calls: seq<Call>)
    ensures TiesAreSessions(Serve(cfg, calls))
  {
    hide Step;
    if calls != [] {
      ServedTies(cfg, calls[..|calls| - 1]);
      StepTies(cfg, Serve(cfg, calls[..|calls| - 1]), calls[|calls| - 1]);
    }
  }

  /** The point of a served run before its n-th call. */
  function Before(cfg: Config, calls: seq<Call>, n: nat): World
    requires n <= |calls|
  {
    Serve(cfg, calls[..n])
  }

  lemma ServedStep(cfg: Config, calls: seq<Call>, n: nat)
    requires n < |calls| && Run(cfg, Ops(calls))
    ensures Before(cfg, calls, n + 1) == Step(cfg, Before(cfg, calls, n), calls[n])
    ensures TiesAreSessions(Before(cfg, calls, n)) && Enabled(cfg, Before(cfg, calls, n).state, calls[n].op)
  {
    hide Step, Enabled;
    assert calls[..n + 1][..n] == calls[..n];
    ServedTies(cfg, calls[..n]);
    SharingShowsInMapsOnly(cfg, calls[..n]);
    assert Ops(calls)[..n] == Ops(calls[..n]);
    SameEnabled(cfg, Serve(cfg, calls[..n]).state, Exec(cfg, Ops(calls)[..n]), calls[n].op);
  }

  /**
    Introspection over the runs of a server, with any sharing of maps and any faults: at every point
    every granted session is bound to the key its grant was answered for, and so reported, if and only if
    no call is a Bearer grant on a code whose cached map holds a key, or a write to a map that a session
    granted for another key shares.
   */
  lemma {:induction false} HonestExactly(cfg: Config, calls: seq<Call>)
    requires Run(cfg, Ops(calls))
    ensures (forall n :: 0 <= n <= |calls| ==> Honest(Before(cfg, calls, n).state))
            <==> (forall n :: 0 <= n < |calls| ==> !Misbinds(cfg, Before(cfg, calls, n), calls[n]))
  {
    hide Honest, Misbinds, Step, Before;
    if forall n :: 0 <= n <= |calls| ==> Honest(Before(cfg, calls, n).state) {
      forall n | 0 <= n < |calls| ensures !Misbinds(cfg, Before(cfg, calls, n), calls[n]) {
        ServedStep(cfg, calls, n);
        assert Honest(Before(cfg, calls, n).state) && Honest(Before(cfg, calls, n + 1).state);
        StepHonestExactly(cfg, Before(cfg, calls, n), calls[n]);
      }
    }
    if forall n :: 0 <= n < |calls| ==> !Misbinds(cfg, Before(cfg, calls, n), calls[n]) {
      forall n | 0 <= n <= |calls| ensures Honest(Before(cfg, calls, n).state) {
        HonestFromStart(cfg, calls, n);
      }
    }
  }

  lemma {:induction false} HonestFromStart(cfg: Config, calls: seq<Call>, n: nat)
    requires Run(cfg, Ops(calls)) && n <= |calls|
    requires forall m :: 0 <= m < n ==> !Misbinds(cfg, Before(cfg, calls, m), calls[m])
    ensures Honest(Before(cfg, calls, n).state)
  {
    hide Honest, Misbinds, Step, Serve;
    if n == 0 {
      StartsHonest(cfg, calls);
    } else {
      HonestFromStart(cfg, calls, n - 1);
      ServedStep(cfg, calls, n - 1);
      StepHonestExactly(cfg, Before(cfg, calls, n - 1), calls[n - 1]);
    }
  }

  lemma StartsHonest(cfg: Config, calls: seq<Call>)
    ensures Honest(Before(cfg, calls, 0).state)
  {
    assert calls[..0] == [];
  }

  /**
    A run that leaves no trace misbinds nothing. In particular storage that copies maps, or does not fail, is honest.
   */
  lemma {:induction false} TracelessRunsAreHonest(cfg: Config, calls: seq<Call>)
    requires Run(cfg, Ops(calls)) && Traceless(cfg, calls)
    ensures Honest(Serve(cfg, calls).state)
  {
    hide BoundKey;
    TracelessRunsCopy(cfg, calls);
    var s := Exec(cfg, Ops(calls));
    forall i: nat | i < |s.log| && IsGrant(s.log[i]) && s.log[i].grant.session in s.sessions
      ensures BoundKey(s.sessions[s.log[i].grant.session]) == s.log[i].grant.jkt
    {
      SessionsCarryTheirKey(cfg, Ops(calls), i);
    }
  }

  /** Copying caches, or deletes and creates that succeed, leave no trace. */
  lemma {:induction false} NoTraceWithout(cfg: Config, s: State, c: Call)
    requires !c.sharing.read || (c.op.Code? ==> !c.op.code.faults.create && !c.op.code.faults.delete)
    requires !c.sharing.read || (c.op.PreAuth? ==> !c.op.preAuth.faults.create && !c.op.preAuth.faults.delete)
    ensures !LeavesTrace(cfg, s, c)
  {
    hide EarlyRefusal, PreAuthRefused, TemplateOf, HoldsAlready;
  }
}
