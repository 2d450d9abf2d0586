/** routes/token.go on real references: the two verifiers, then the handler. */
module TokenServer {
  import opened GoStrings
  import opened Grants
  import opened Lifecycle
  import opened RunTheorems
  import opened StoreModel
  import opened SharedMaps
  import opened MapViews
  import opened SharedRuns
  import opened ServerRuns
  import opened TokenEndpoint
  import opened TokenGates
  import Dpop
  import Attestation

  /** Both verifiers have their identifier caches, two different ones. */
  predicate Configured(v: Dpop.Validator, ver: Attestation.Verifier?) {
    v.replay != null && (ver != null ==> ver.replay != null && ver.replay != v.replay)
  }

  function FrontOf(cfg: Config, v: Dpop.Validator, ver: Attestation.Verifier?, onCurve: GoString -> bool): Front
    requires Configured(v, ver)
  {
    Front(cfg, v.htus, v.iatWindow, v.replay.ttl,
          if ver == null then None else Some(Attest(ver.audiences, ver.iatWindow, ver.requireKeyBinding)),
          if ver == null then 0 else ver.replay.ttl, onCurve)
  }

  /** The key a request holds, from its proof; None ends it. */
  method DpopJkt(v: Dpop.Validator, ver: Attestation.Verifier?, a: Arrival, cfg: Config, onCurve: GoString -> bool,
                 now: int, ghost p: Point)
    returns (jkt: Option<GoString>)
    requires Configured(v, ver) && ForToken(a.work) && p.state.now == now && p.proofs == v.replay.seen
    modifies v.replay
    ensures var d := FrontOf(cfg, v, ver, onCurve);
            jkt == KeyOf(d, p, a) && v.replay.seen == SeenNext(d, p, a, ProofGate)
  {
    if a.proof.None? {
      return Some([]);
    }
    jkt := v.Validate(a.proof.value, POST, [], now, a.proofFaults, onCurve, cfg.sha);
  }

  /** A wallet's attestation, looked at only where there is a header for it. */
  method CheckAttestation(v: Dpop.Validator, ver: Attestation.Verifier?, a: Arrival, cfg: Config,
                          onCurve: GoString -> bool, now: int, ghost p: Point)
    returns (w: Wallet)
    requires Configured(v, ver) && LooksAtWallet(a.work) && a.attestation.Some? && p.state.now == now
    requires ver != null ==> p.pops == ver.replay.seen
    requires KeyOf(FrontOf(cfg, v, ver, onCurve), p, a).Some?
    modifies if ver == null then null else ver.replay
    ensures var d := FrontOf(cfg, v, ver, onCurve);
            w == WalletOf(d, p, a) && (ver != null ==> ver.replay.seen == SeenNext(d, p, a, PopGate))
  {
    hide KeyOf;
    if ver == null {
      return Wallet(false, None, false);
    }
    var h := a.attestation.value;
    var res := ver.Verify(h.wia, h.pop, h.leaf, now, a.popFaults, onCurve, cfg.sha);
    w := Wallet(true, res, ver.requireKeyBinding);
  }

  /**
    After these arrivals: the handlers stand at the point of the run they have served, and the two caches hold what
    the endpoint's run says.
   */
  ghost predicate Stands(store: Store, sessions: SessionStore, v: Dpop.Validator, ver: Attestation.Verifier?,
                         onCurve: GoString -> bool, arrivals: seq<Arrival>, served: seq<Call>)
    requires Configured(v, ver)
    reads store, sessions, CodeMetas(store.codes), RefreshMetas(store.refresh), SessionMetas(sessions.table)
    reads v.replay, if ver == null then null else ver.replay
  {
    var d := FrontOf(store.cfg, v, ver, onCurve);
    && At(store, sessions, Serve(store.cfg, served)) && Ops(served) == Handled(d, arrivals)
    && v.replay.seen == After(d, arrivals).proofs && (ver != null ==> ver.replay.seen == After(d, arrivals).pops)
  }

  /** routes/par.go: the client a push comes from, by its attestation. */
  method CheckPush(v: Dpop.Validator, ver: Attestation.Verifier?, a: Arrival, cfg: Config, onCurve: GoString -> bool,
                   now: int, ghost p: Point)
    returns (client: Option<GoString>)
    requires Configured(v, ver) && a.work.Push? && p.state.now == now
    requires ver != null ==> p.pops == ver.replay.seen
    modifies if ver == null then null else ver.replay
    ensures var d := FrontOf(cfg, v, ver, onCurve);
            client == AttestedClient(d, p, a) && (ver != null ==> ver.replay.seen == SeenNext(d, p, a, PopGate))
  {
    if ver == null || a.attestation.None? {
      return None;
    }
    var h := a.attestation.value;
    var res := ver.Verify(h.wia, h.pop, h.leaf, now, a.popFaults, onCurve, cfg.sha);
    client := if res.None? then None else Some(res.value.clientID);
  }

  /** What the verifiers found: the key of a token request, the client of a push. */
  function Found(d: Front, p: Point, a: Arrival): Option<GoString> {
    if a.work.Push? then AttestedClient(d, p, a) else if ForToken(a.work) then KeyOf(d, p, a) else None
  }

  /** A new server with empty caches stands at the start. */
  lemma StandsAtStart(store: Store, sessions: SessionStore, v: Dpop.Validator, ver: Attestation.Verifier?,
                      onCurve: GoString -> bool)
    requires Configured(v, ver) && At(store, sessions, Serve(store.cfg, []))
    requires v.replay.seen == map[] && (ver != null ==> ver.replay.seen == map[])
    ensures Stands(store, sessions, v, ver, onCurve, [], [])
    ensures Served(FrontOf(store.cfg, v, ver, onCurve), [])
  {
  }

  /** The two verifiers turn a call into the request its handler gets, if it gets one. */
  method Admit(v: Dpop.Validator, ver: Attestation.Verifier?, a: Arrival, cfg: Config, onCurve: GoString -> bool,
               now: int, ghost p: Point)
    returns (op: Option<Op>, found: Option<GoString>)
    requires Configured(v, ver) && p.state.now == now
    requires p.proofs == v.replay.seen && (ver != null ==> p.pops == ver.replay.seen)
    modifies v.replay, if ver == null then null else ver.replay
    ensures var d := FrontOf(cfg, v, ver, onCurve);
            && op == Admitted(d, p, a) && found == Found(d, p, a)
            && v.replay.seen == SeenNext(d, p, a, ProofGate)
            && (ver != null ==> ver.replay.seen == SeenNext(d, p, a, PopGate))
  {
    hide Passed, ProofPasses, PopPasses, WalletOf;
    if a.work.Push? {
      found := CheckPush(v, ver, a, cfg, onCurve, now, p);
      return None, found;
    }
    if !ForToken(a.work) {
      return Some(a.work.op), None;
    }
    found := DpopJkt(v, ver, a, cfg, onCurve, now, p);
    if found.None? || a.work.ClientCredentials? {
      return None, found;
    }
    op := HandOn(v, ver, a, cfg, onCurve, now, found.value, p);
  }

  /** A grant's request with its key, and with its wallet if it has attestation headers. */
  method HandOn(v: Dpop.Validator, ver: Attestation.Verifier?, a: Arrival, cfg: Config, onCurve: GoString -> bool,
                now: int, jkt: GoString, ghost p: Point)
    returns (op: Option<Op>)
    requires Configured(v, ver) && a.work.Handle? && IsRedemption(a.work.op) && p.state.now == now
    requires KeyOf(FrontOf(cfg, v, ver, onCurve), p, a) == Some(jkt) && (ver != null ==> p.pops == ver.replay.seen)
    modifies if ver == null then null else ver.replay
    ensures var d := FrontOf(cfg, v, ver, onCurve);
            op == Admitted(d, p, a) && (ver != null ==> ver.replay.seen == SeenNext(d, p, a, PopGate))
  {
    hide Passed, ProofPasses, PopPasses, WalletOf, KeyOf;
    match a.work.op {
      case Code(r) =>
        var client := r.client;
        if a.attestation.Some? {
          var w := CheckAttestation(v, ver, a, cfg, onCurve, now, p);
          client := ByWallet(w);
        }
        op := Some(Code(r.(jkt := jkt, client := client)));
      case PreAuth(r) =>
        var wallet: Option<Wallet> := None;
        if a.attestation.Some? {
          var w := CheckAttestation(v, ver, a, cfg, onCurve, now, p);
          wallet := Some(w);
        }
        op := Some(PreAuth(r.(jkt := jkt, wallet := wallet)));
      case Refresh(r) =>
        op := Some(Refresh(r.(jkt := jkt)));
    }
  }

  lemma PointsAgree(cfg: Config, served: seq<Call>, d: Front, arrivals: seq<Arrival>)
    requires d.cfg == cfg && Served(d, arrivals) && Ops(served) == Handled(d, arrivals)
    ensures Serve(cfg, served).state.now == After(d, arrivals).state.now
    ensures Exec(cfg, Ops(served)) == After(d, arrivals).state
  {
    hide Serve, Exec, Served, After, SameCodes, SameTokens, SameSessions;
    ServedIsARun(d, arrivals);
    SharingShowsInMapsOnly(cfg, served);
  }

  lemma NowAt(store: Store, sessions: SessionStore, w: World)
    requires At(store, sessions, w)
    ensures store.now == w.state.now
  {
    hide Separated;
  }

  function HandedOn(served: seq<Call>, op: Option<Op>, sharing: Sharing): seq<Call> {
    match op case None => served case Some(v) => served + [Call(v, sharing)]
  }

  lemma ArrivalIsHandled(d: Front, arrivals: seq<Arrival>, a: Arrival, served: seq<Call>, sharing: Sharing)
    requires Ops(served) == Handled(d, arrivals)
    ensures After(d, arrivals + [a]) == Enter(d, After(d, arrivals), a)
    ensures Ops(HandedOn(served, Admitted(d, After(d, arrivals), a), sharing)) == Handled(d, arrivals + [a])
  {
    hide Enter, Admitted, After, Handled, Ops;
    assert (arrivals + [a])[..|arrivals|] == arrivals;
    LastCall(d, arrivals + [a]);
    LastHandled(d, arrivals + [a]);
    var op := Admitted(d, After(d, arrivals), a);
    if op.Some? {
      OneMoreOp(served, Call(op.value, sharing));
    }
  }

  lemma OneMoreOp(served: seq<Call>, c: Call)
    ensures Ops(served + [c]) == Ops(served) + [c.op]
  {
  }

  /** The answer of the handler, if the call reaches one that answers with a token or a refusal of one. */
  function AnswerOf(d: Front, p: Point, a: Arrival): Option<Answer> {
    match Admitted(d, p, a)
    case None => None
    case Some(op) => if IsRedemption(op) then Some(AnswerTo(d.cfg, p.state, op)) else None
  }

  /**
    The endpoints on real references, for every call: one whose proof does not pass is refused and reaches no
    handler; any other is handed on with the key and the wallet established for it, answered as in the run on
    values, and leads to the next point of the endpoints' run.
   */
  method Arrive(store: Store, sessions: SessionStore, v: Dpop.Validator, ver: Attestation.Verifier?, a: Arrival,
                sharing: Sharing, onCurve: GoString -> bool, ghost arrivals: seq<Arrival>, ghost served: seq<Call>)
    returns (answer: Option<Answer>, found: Option<GoString>, ghost more: seq<Call>)
    requires Configured(v, ver)
    requires Stands(store, sessions, v, ver, onCurve, arrivals, served)
    requires Served(FrontOf(store.cfg, v, ver, onCurve), arrivals)
    modifies store, sessions, CodeMetas(store.codes), RefreshMetas(store.refresh)
    modifies v.replay, if ver == null then null else ver.replay
    ensures Stands(store, sessions, v, ver, onCurve, arrivals + [a], more)
    ensures var d := FrontOf(store.cfg, v, ver, onCurve);
            answer == AnswerOf(d, After(d, arrivals), a) && found == Found(d, After(d, arrivals), a)
  {
    hide At, Serve, Admitted, Enter, After, Handled, Served, AnswerTo, Exec, Found;
    ghost var maps := (CodeMetas(store.codes), RefreshMetas(store.refresh), SessionMetas(sessions.table));
    ghost var d := FrontOf(store.cfg, v, ver, onCurve);
    ghost var p := After(d, arrivals);
    PointsAgree(store.cfg, served, d, arrivals);
    NowAt(store, sessions, Serve(store.cfg, served));
    ArrivalIsHandled(d, arrivals, a, served, sharing);
    EnterLeavesSeen(d, p, a, ProofGate);
    EnterLeavesSeen(d, p, a, PopGate);
    var op;
    op, found := Admit(v, ver, a, store.cfg, onCurve, store.now, p);
    if op.None? {
      answer, more := None, served;
    } else {
      answer := ServeOne(store, sessions, Call(op.value, sharing), served);
      more := served + [Call(op.value, sharing)];
    }
  }
}
