/**
  The endpoints in front of the handlers: the token endpoint (routes/token.go) validates the DPoP proof, then the
  wallet's attestation, each against its own cache of identifiers, and what they establish is what the handler is
  given. The PAR endpoint (routes/par.go) checks attestations against the same cache.
 */
module TokenEndpoint {
  import opened GoStrings
  import opened Grants
  import opened Lifecycle
  import opened ReplayTheory
  import opened Jwt
  import Jwk
  import ReplayCache
  import Dpop
  import Attestation

  const POST: GoString := "POST"

  /** The attestation verifier's configuration. */
  datatype Attest = Attest(audiences: set<GoString>, window: int, requireKeyBinding: bool)

  /**
    The configured server: what DPoP proofs are checked for, what attestations are if any are accepted, the
    lifetimes of the two identifier caches, and which points lie on the curve.
   */
  datatype Front = Front(cfg: Config, htus: set<GoString>, window: int, proofTTL: int,
                         attest: Option<Attest>, popTTL: int, onCurve: GoString -> bool)

  /** Attestation headers as Attestation.Verifier.Verify takes them. */
  datatype Headers = Headers(wia: Option<Token>, pop: Option<Token>, leaf: Option<GoString>)

  /**
    What a request is for: an operation of the runs, a grant by client credentials, or a pushed authorization
    request. The key in op, and its wallet where there are attestation headers, are what the endpoint puts there.
   */
  datatype Work = Handle(op: Op) | ClientCredentials | Push

  /** A request with its headers. */
  datatype Arrival = Arrival(work: Work, proof: Option<Token>, attestation: Option<Headers>,
                             proofFaults: ReplayCache.Faults,
                             popFaults: ReplayCache.Faults)

  datatype Point = Point(state: State, proofs: Seen, pops: Seen)

  const START: Point := Point(INITIAL, map[], map[])

  /** The three grants that have handlers. */
  predicate IsRedemption(op: Op) {
    op.Code? || op.PreAuth? || op.Refresh?
  }

  predicate ForToken(w: Work) {
    w.ClientCredentials? || (w.Handle? && IsRedemption(w.op))
  }

  /** The two grants whose handlers look at attestation headers. */
  predicate LooksAtWallet(w: Work) {
    w.Handle? && (w.op.Code? || w.op.PreAuth?)
  }

  // --- what the two verifiers find ---------------------------------------------

  datatype Gate = ProofGate | PopGate

  function PolicyOf(g: Gate): Policy {
    if g.ProofGate? then StrictSet else LenientSet
  }

  function LifetimeOf(d: Front, g: Gate): int {
    if g.ProofGate? then d.proofTTL else d.popTTL
  }

  function SeenAt(p: Point, g: Gate): Seen {
    if g.ProofGate? then p.proofs else p.pops
  }

  function Thumb(d: Front, key: Option<Jwk.Members>): GoString {
    match key case None => []
    case Some(k) => Jwk.Thumbprint(d.cfg.sha, Jwk.TextOf(k, "x"), Jwk.TextOf(k, "y"))
  }

  predicate ProofPasses(d: Front, proof: Token, now: int) {
    Dpop.ProofPasses(d.htus, d.window, proof, POST, [], now, d.onCurve, d.cfg.sha)
  }

  predicate PopPasses(d: Front, h: Headers, now: int) {
    d.attest.Some?
    && Attestation.HeadersPass(d.attest.value.audiences, d.attest.value.window, h.wia, h.pop, h.leaf, now, d.onCurve)
  }

  function JtiOf(token: Option<Token>): GoString {
    match token case None => [] case Some(t) => t.claims.jti
  }

  function ProofRequest(d: Front, p: Point, a: Arrival): Option<Request> {
    if !ForToken(a.work) || a.proof.None? then None
    else Some(Request(p.state.now, JtiOf(a.proof), ProofPasses(d, a.proof.value, p.state.now), a.proofFaults.getFails,
                      a.proofFaults.setFails))
  }

  predicate Passed(d: Front, p: Point, g: Gate, r: Option<Request>) {
    r.Some? && Step(PolicyOf(g), LifetimeOf(d, g), SeenAt(p, g), r.value).1
  }

  /** The key a request is taken to hold: none without a proof, and no request at all with a bad one. */
  function KeyOf(d: Front, p: Point, a: Arrival): Option<GoString> {
    if a.proof.None? then Some([])
    else if Passed(d, p, ProofGate, ProofRequest(d, p, a)) then Some(Thumb(d, a.proof.value.jwk))
    else None
  }

  function PopRequest(d: Front, p: Point, a: Arrival): Option<Request> {
    if a.attestation.None? || d.attest.None? then None
    else if !a.work.Push? && (!LooksAtWallet(a.work) || KeyOf(d, p, a).None?) then None
    else
      var h := a.attestation.value;
      Some(Request(p.state.now, JtiOf(h.pop), PopPasses(d, h, p.state.now), a.popFaults.getFails, a.popFaults.setFails))
  }

  function RequestAt(d: Front, p: Point, a: Arrival, g: Gate): Option<Request> {
    if g.ProofGate? then ProofRequest(d, p, a) else PopRequest(d, p, a)
  }

  function WalletOf(d: Front, p: Point, a: Arrival): Wallet
    requires a.attestation.Some?
  {
    if d.attest.None? then Wallet(false, None, false)
    else
      var wia := a.attestation.value.wia;
      Wallet(true,
             if Passed(d, p, PopGate, PopRequest(d, p, a)) && wia.Some? then
               Some(Attestation.Result(wia.value.claims.sub, Thumb(d, wia.value.claims.cnf)))
             else None,
             d.attest.value.requireKeyBinding)
  }

  /** The client a push is accepted from. */
  function AttestedClient(d: Front, p: Point, a: Arrival): Option<GoString> {
    if a.work.Push? && a.attestation.Some? && a.attestation.value.wia.Some?
      && Passed(d, p, PopGate, PopRequest(d, p, a))
    then Some(a.attestation.value.wia.value.claims.sub) else None
  }

  /** The request the handler gets. */
  function Admitted(d: Front, p: Point, a: Arrival): Option<Op> {
    if !a.work.Handle? then None
    else if !ForToken(a.work) then Some(a.work.op)
    else
      match KeyOf(d, p, a)
      case None => None
      case Some(jkt) =>
        match a.work.op
        case Code(r) =>
          Some(Code(r.(jkt := jkt, client := if a.attestation.Some? then ByWallet(WalletOf(d, p, a)) else r.client)))
        case PreAuth(r) =>
          Some(PreAuth(r.(jkt := jkt, wallet := if a.attestation.Some? then Some(WalletOf(d, p, a)) else None)))
        case Refresh(r) => Some(Refresh(r.(jkt := jkt)))
  }

  function SeenNext(d: Front, p: Point, a: Arrival, g: Gate): Seen {
    match RequestAt(d, p, a, g)
    case None => SeenAt(p, g)
    case Some(r) => Step(PolicyOf(g), LifetimeOf(d, g), SeenAt(p, g), r).0
  }

  function Enter(d: Front, p: Point, a: Arrival): Point {
    Point(match Admitted(d, p, a) case None => p.state case Some(op) => Apply(d.cfg, p.state, op),
          SeenNext(d, p, a, ProofGate), SeenNext(d, p, a, PopGate))
  }

  // --- runs --------------------------------------------------------------------

  function After(d: Front, calls: seq<Arrival>): Point {
    if calls == [] then START else Enter(d, After(d, calls[..|calls| - 1]), calls[|calls| - 1])
  }

  /** Identifiers are fresh, and without attestation headers a client authenticates otherwise. */
  predicate Arrives(d: Front, p: Point, a: Arrival) {
    a.work.Handle? ==>
      && Enabled(d.cfg, p.state, a.work.op)
      && (a.work.op.Code? && a.attestation.None? ==> !a.work.op.code.client.ByWallet?)
  }

  predicate Served(d: Front, calls: seq<Arrival>) {
    forall i :: 0 <= i < |calls| ==> Arrives(d, After(d, calls[..i]), calls[i])
  }

  lemma ServedPrefix(d: Front, calls: seq<Arrival>, t: nat)
    requires Served(d, calls) && t <= |calls|
    ensures Served(d, calls[..t])
    ensures t < |calls| ==> Arrives(d, After(d, calls[..t]), calls[t])
  {
    assert forall i :: 0 <= i < t ==> calls[..t][..i] == calls[..i];
  }

  lemma NextPoint(d: Front, calls: seq<Arrival>, t: nat)
    requires t < |calls|
    ensures After(d, calls[..t + 1]) == Enter(d, After(d, calls[..t]), calls[t])
  {
    assert calls[..t + 1][..t] == calls[..t];
  }

  lemma AdmittedIsEnabled(d: Front, p: Point, a: Arrival)
    requires Arrives(d, p, a) && Admitted(d, p, a).Some?
    ensures Enabled(d.cfg, p.state, Admitted(d, p, a).value)
  {
    hide KeyOf, WalletOf;
  }

  lemma LastCall(d: Front, calls: seq<Arrival>)
    requires calls != []
    ensures After(d, calls) == Enter(d, After(d, calls[..|calls| - 1]), calls[|calls| - 1])
  {
    hide Enter;
  }

  lemma EnterActs(d: Front, p: Point, a: Arrival)
    ensures Enter(d, p, a).state ==
            match Admitted(d, p, a) case None => p.state case Some(op) => Apply(d.cfg, p.state, op)
  {
    hide Admitted, Apply, SeenNext;
  }

  function WithOp(ops: seq<Op>, op: Option<Op>): seq<Op> {
    match op case None => ops case Some(v) => ops + [v]
  }

  /** The operations the handlers saw. */
  function Handled(d: Front, calls: seq<Arrival>): seq<Op> {
    if calls == [] then []
    else
      var front := calls[..|calls| - 1];
      WithOp(Handled(d, front), Admitted(d, After(d, front), calls[|front|]))
  }

  lemma LastHandled(d: Front, calls: seq<Arrival>)
    requires calls != []
    ensures var front := calls[..|calls| - 1];
            Handled(d, calls) == WithOp(Handled(d, front), Admitted(d, After(d, front), calls[|front|]))
  {
    hide Admitted, After, WithOp;
  }

  lemma CallExtendsRun(d: Front, p: Point, a: Arrival, ops: seq<Op>)
    requires Arrives(d, p, a) && Run(d.cfg, ops) && Exec(d.cfg, ops) == p.state
    ensures var all := WithOp(ops, Admitted(d, p, a)); Run(d.cfg, all) && Exec(d.cfg, all) == Enter(d, p, a).state
  {
    hide Admitted, Run, Exec, Enabled, Apply, Enter, Arrives;
    EnterActs(d, p, a);
    if Admitted(d, p, a).Some? {
      AdmittedIsEnabled(d, p, a);
      RunExtends(d.cfg, ops, Admitted(d, p, a).value);
    }
  }

  lemma NothingServed(d: Front)
    ensures Run(d.cfg, Handled(d, [])) && Exec(d.cfg, Handled(d, [])) == After(d, []).state
  {
  }

  /** What the endpoint serves is a run, so whatever holds over all runs holds behind the endpoint. */
  lemma {:induction false} ServedIsARun(d: Front, calls: seq<Arrival>)
    requires Served(d, calls)
    ensures Run(d.cfg, Handled(d, calls)) && Exec(d.cfg, Handled(d, calls)) == After(d, calls).state
  {
    hide Admitted, Run, Exec, Enter, Served, After, WithOp, Arrives;
    if calls == [] {
      NothingServed(d);
    } else {
      var front := calls[..|calls| - 1];
      ServedPrefix(d, calls, |front|);
      ServedIsARun(d, front);
      LastCall(d, calls);
      CallExtendsRun(d, After(d, front), calls[|front|], Handled(d, front));
    }
  }
}
