/**
  What becomes of one redemption among others: its read decides, overlapping ones are all granted, and run without
  interruption it is the handler.
 */
module RedemptionRuns {
  import opened GoStrings
  import opened Items
  import opened TtlCache
  import opened Grants
  import opened Redemption
  import opened SharedMaps

  /** A grant to this request on this item, or on none. */
  predicate GrantedOn(s: Shared, req: nat, origin: Option<nat>) {
    exists i :: 0 <= i < |s.grants| && s.grants[i].req == req && s.grants[i].origin == origin
  }

  /** A request that passed its read is under way or was granted; one that did not has been refused. */
  predicate OnCourse(s: Shared, req: nat, r: CodeRequest, passed: bool, origin: Option<nat>) {
    if passed then
      || (req in s.pending && req !in s.answers && s.pending[req].request == ByCode(r)
          && s.pending[req].origin == origin)
      || (req !in s.pending && req in s.answers && s.answers[req].Issued? && GrantedOn(s, req, origin))
    else req !in s.pending && req in s.answers && s.answers[req].Denied?
  }

  lemma DeleteKeepsOnCourse(s: Shared, q: nat, req: nat, r: CodeRequest, passed: bool, origin: Option<nat>)
    requires q in s.pending && OnCourse(s, req, r, passed, origin) && !r.faults.delete
    ensures OnCourse(DoDelete(s, q), req, r, passed, origin)
  {
    hide GrantedOn;
    var s' := DoDelete(s, q);
    assert s.grants <= s'.grants;
    if GrantedOn(s, req, origin) {
      GrantStays(s, s', req, origin);
    }
    if q == req {
      NewGrant(s, s', req, origin);
    }
  }

  lemma GrantStays(s: Shared, s': Shared, req: nat, origin: Option<nat>)
    requires s.grants <= s'.grants && GrantedOn(s, req, origin)
    ensures GrantedOn(s', req, origin)
  {
    var i :| 0 <= i < |s.grants| && s.grants[i].req == req && s.grants[i].origin == origin;
    assert s'.grants[i] == s.grants[i];
  }

  lemma NewGrant(s: Shared, s': Shared, req: nat, origin: Option<nat>)
    requires |s'.grants| == |s.grants| + 1 && s'.grants[|s.grants|].req == req
             && s'.grants[|s.grants|].origin == origin
    ensures GrantedOn(s', req, origin)
  {
  }

  predicate Moves(m: Move, req: nat) {
    match m
    case Read(q, _) => q == req
    case Validate(q) => q == req
    case DropTx(q) => q == req
    case Create(q) => q == req
    case Delete(q) => q == req
    case _ => false
  }

  lemma OnlyTheMoverMoves(cfg: Config, s: Shared, m: Move, req: nat)
    requires CanMove(s, m) && !m.Delete? && !m.Create? && !Moves(m, req)
    ensures var s' := Do(cfg, s, m);
            && s'.grants == s.grants && (req in s'.pending <==> req in s.pending)
            && (req in s'.answers <==> req in s.answers)
            && (req in s.pending ==> s'.pending[req] == s.pending[req])
            && (req in s.answers ==> s'.answers[req] == s.answers[req])
  {
    hide Refusal, ItemAt, OriginAt, TxCodeMatches, DoDelete, DoCreate;
    match m
    case Read(q, request) => hide DoValidate, DoDropTx;
    case _ => hide DoRead;
  }

  lemma CreateKeepsOnCourse(cfg: Config, s: Shared, q: nat, req: nat, r: CodeRequest, passed: bool,
                            origin: Option<nat>)
    requires q in s.pending && OnCourse(s, req, r, passed, origin) && !r.faults.create
    ensures OnCourse(DoCreate(cfg, s, q), req, r, passed, origin)
  {
    hide DoCreate, GrantedOn, NeedsDPoP;
    CreateEffect(cfg, s, q);
    if GrantedOn(s, req, origin) {
      GrantStays(s, DoCreate(cfg, s, q), req, origin);
    }
  }

  lemma MoveKeepsOnCourse(cfg: Config, s: Shared, m: Move, req: nat, r: CodeRequest, passed: bool,
                          origin: Option<nat>)
    requires CanMove(s, m) && OnCourse(s, req, r, passed, origin) && !r.faults.create && !r.faults.delete
    ensures OnCourse(Do(cfg, s, m), req, r, passed, origin)
  {
    hide DoRead, DoValidate, DoDropTx, DoCreate, DoDelete;
    if m.Delete? {
      DeleteKeepsOnCourse(s, m.req, req, r, passed, origin);
    } else if m.Create? {
      CreateKeepsOnCourse(cfg, s, m.req, req, r, passed, origin);
    } else {
      OnlyTheMoverMoves(cfg, s, m, req);
    }
  }

  lemma AfterPrefix(cfg: Config, ms: seq<Move>, t: nat)
    requires After(cfg, ms).Some? && t < |ms|
    ensures After(cfg, ms[..t]).Some? && CanMove(After(cfg, ms[..t]).value, ms[t])
    decreases |ms|
  {
    hide CanMove, Do;
    var front := ms[..|ms| - 1];
    if t < |front| {
      AfterPrefix(cfg, front, t);
      assert front[..t] == ms[..t];
    }
  }

  /**
    The read decides: an authorization_code request whose own session and deletion do not fail is granted, on the
    item it read, if and only if it passed its checks then, whoever else redeems the code in the meantime.
   */
  lemma {:induction false} TheReadDecides(cfg: Config, ms: seq<Move>, t: nat, req: nat, r: CodeRequest)
    requires After(cfg, ms).Some? && t < |ms| && ms[t] == Read(req, ByCode(r))
    requires !r.faults.create && !r.faults.delete
    ensures After(cfg, ms[..t]).Some?
    ensures var s, s' := After(cfg, ms[..t]).value, After(cfg, ms).value;
            var passed, origin := EarlyRefusal(cfg, s.codes, s.now, r).None?, OriginAt(s.codes, r.code, s.now);
            && OnCourse(s', req, r, passed, origin)
            && (req in s'.answers ==> (s'.answers[req].Issued? <==> passed) && (passed ==> GrantedOn(s', req, origin)))
    decreases |ms|
  {
    hide CanMove, Do, EarlyRefusal;
    AfterPrefix(cfg, ms, t);
    var s := After(cfg, ms[..t]).value;
    var passed, origin := EarlyRefusal(cfg, s.codes, s.now, r).None?, OriginAt(s.codes, r.code, s.now);
    var front := ms[..|ms| - 1];
    if t == |front| {
      JustRead(cfg, s, req, r);
    } else {
      assert front[..t] == ms[..t] && front[t] == ms[t];
      TheReadDecides(cfg, front, t, req, r);
      MoveKeepsOnCourse(cfg, After(cfg, front).value, ms[|front|], req, r, passed, origin);
    }
  }

  lemma JustRead(cfg: Config, s: Shared, req: nat, r: CodeRequest)
    requires CanMove(s, Read(req, ByCode(r)))
    ensures OnCourse(Do(cfg, s, Read(req, ByCode(r))), req, r, EarlyRefusal(cfg, s.codes, s.now, r).None?,
                     OriginAt(s.codes, r.code, s.now))
  {
    hide EarlyRefusal, ItemAt;
  }

  lemma OneMore(cfg: Config, ms: seq<Move>, m: Move)
    requires After(cfg, ms).Some? && CanMove(After(cfg, ms).value, m)
    ensures After(cfg, ms + [m]) == Some(Do(cfg, After(cfg, ms).value, m))
  {
    hide Do, CanMove;
    assert (ms + [m])[..|ms|] == ms;
  }

  predicate Clean(r: CodeRequest) {
    !r.faults.read && !r.faults.create && !r.faults.delete
  }

  /** Two requests for one code that both read before either deletes. */
  function Overlapping(item: CodeItemV, a: CodeRequest, b: CodeRequest): seq<Move> {
    [Store(item, None), Read(0, ByCode(a)), Read(1, ByCode(b))] + [Create(0), Create(1), Delete(0), Delete(1)]
  }

  lemma BothHaveRead(cfg: Config, item: CodeItemV, a: CodeRequest, b: CodeRequest) returns (s: Shared)
    requires ValidConfig(cfg) && a.code == item.code == b.code && Clean(a) && Clean(b)
    requires forall r :: r in {a, b} ==>
               EarlyRefusal(cfg, map[item.code := Entry(item, cfg.authCodeTTL, 0)], 0, r).None?
    ensures After(cfg, Overlapping(item, a, b)[..3]) == Some(s)
    ensures s.pending == map[0 := Pending(ByCode(a), item, Some(0), 0, 0, ToCreate),
                             1 := Pending(ByCode(b), item, Some(0), 0, 0, ToCreate)]
    ensures s.grants == [] && s.answers == map[] && s.sessions == map[]
  {
    hide EarlyRefusal;
    var ms := [Store(item, None)];
    assert ms[..0] == [];
    var s1 := Do(cfg, EMPTY, Store(item, None));
    assert s1.codes == map[item.code := Entry(item, cfg.authCodeTTL, 0)];
    assert After(cfg, ms) == Some(s1);
    OneMore(cfg, ms, Read(0, ByCode(a)));
    OneMore(cfg, ms + [Read(0, ByCode(a))], Read(1, ByCode(b)));
    assert Overlapping(item, a, b)[..3] == ms + [Read(0, ByCode(a))] + [Read(1, ByCode(b))];
    s := After(cfg, Overlapping(item, a, b)[..3]).value;
  }

  /**
    The failing run: any two code requests that answer an item are both granted on it if both read before either
    deletes it. The deletion of what is already gone succeeds.
   */
  lemma {:induction false} OverlappingRequestsAreBothGranted(cfg: Config, item: CodeItemV, a: CodeRequest,
                                                             b: CodeRequest)
    requires ValidConfig(cfg) && a.code == item.code == b.code && Clean(a) && Clean(b)
    requires forall r :: r in {a, b} ==>
               EarlyRefusal(cfg, map[item.code := Entry(item, cfg.authCodeTTL, 0)], 0, r).None?
    ensures After(cfg, Overlapping(item, a, b)).Some?
    ensures var s := After(cfg, Overlapping(item, a, b)).value;
            && |s.grants| == 2 && s.grants[0].origin == s.grants[1].origin == Some(0)
            && s.grants[0].request == ByCode(a) && s.grants[1].request == ByCode(b)
  {
    hide EarlyRefusal, After, DoCreate, AnswerFor;
    var s := BothHaveRead(cfg, item, a, b);
    var ms := Overlapping(item, a, b)[..3];
    CreateEffect(cfg, s, 0);
    OneMore(cfg, ms, Create(0));
    CreateEffect(cfg, After(cfg, ms + [Create(0)]).value, 1);
    OneMore(cfg, ms + [Create(0)], Create(1));
    OneMore(cfg, ms + [Create(0)] + [Create(1)], Delete(0));
    OneMore(cfg, ms + [Create(0)] + [Create(1)] + [Delete(0)], Delete(1));
    assert Overlapping(item, a, b) == ms + [Create(0)] + [Create(1)] + [Delete(0)] + [Delete(1)];
  }

  // --- the handler is one of the interleavings -------------------------------------------------

  predicate Agrees(h: Shared, s: State) {
    h.now == s.now && h.codes == s.codes && h.txCodes == s.txCodes && h.sessions == s.sessions
  }

  function Finish(cfg: Config, h: Shared, req: nat): Shared
    requires InPhase(h, req, ToCreate)
  {
    var h1 := DoCreate(cfg, h, req);
    if req in h1.pending then DoDelete(h1, req) else h1
  }

  function FromTxCode(cfg: Config, h: Shared, req: nat): (h': Shared)
    requires InPhase(h, req, ToValidate) && h.pending[req].request.ByPreAuth?
  {
    var h1 := DoValidate(h, req);
    if req in h1.pending then Finish(cfg, DoDropTx(h1, req), req) else h1
  }

  /** The moves of one request without interruption. */
  function Uninterrupted(cfg: Config, h: Shared, request: Request, req: nat): Shared
    requires req !in h.pending && req !in h.answers
  {
    var h1 := DoRead(cfg, h, req, request);
    if req !in h1.pending then h1
    else if h1.pending[req].phase == ToValidate then FromTxCode(cfg, h1, req)
    else Finish(cfg, h1, req)
  }

  lemma FinishIsTheCodeHandler(cfg: Config, s: State, h: Shared, r: CodeRequest, req: nat)
    requires Agrees(h, s) && InPhase(h, req, ToCreate) && h.pending[req].request == ByCode(r)
    requires h.pending[req].item == ItemAt(s.codes, r.code, s.now, None)
    requires EarlyRefusal(cfg, s.codes, s.now, r).None?
    ensures var h' := Finish(cfg, h, req);
            var (s', answer) := RedeemCode(cfg, s, r);
            Agrees(h', s') && req in h'.answers && h'.answers[req] == answer
  {
    hide RedeemCode, EarlyRefusal, Minted, ItemAt, OriginAt, RefreshKey, Authenticate, TokenType;
    RedeemCodeFields(cfg, s, r);
  }

  /** Uninterrupted, the moves of a request leave codes, tx_codes and sessions, and answer, just as the handler does. */
  lemma {:induction false} SerialCodeRequestIsTheHandler(cfg: Config, s: State, h: Shared, r: CodeRequest, req: nat)
    requires Agrees(h, s) && req !in h.pending && req !in h.answers
    ensures var h' := Uninterrupted(cfg, h, ByCode(r), req);
            var (s', answer) := RedeemCode(cfg, s, r);
            Agrees(h', s') && req in h'.answers && h'.answers[req] == answer
  {
    hide EarlyRefusal, ItemAt, OriginAt, Finish, WithCodeGrant, WithCodeSession, CodeGrant, CodeAnswer;
    var h1 := DoRead(cfg, h, req, ByCode(r));
    if req in h1.pending {
      FinishIsTheCodeHandler(cfg, s, h1, r, req);
    }
  }

  lemma FinishIsTheEnd(cfg: Config, s: State, h: Shared, r: PreAuthRequest, req: nat)
    requires Agrees(h, s) && InPhase(h, req, ToCreate) && h.pending[req].request == ByPreAuth(r)
    ensures var h' := Finish(cfg, h, req);
            var (s', answer) := FinishPreAuth(cfg, s, r, h.pending[req].item);
            Agrees(h', s') && req in h'.answers && h'.answers[req] == answer
  {
    hide OriginAt, NeedsDPoP, Minted, FinishPreAuth;
    FinishPreAuthFields(cfg, s, r, h.pending[req].item);
  }

  lemma FromTxCodeIsTheRest(cfg: Config, s: State, h: Shared, r: PreAuthRequest, req: nat)
    requires Agrees(h, s) && InPhase(h, req, ToValidate) && h.pending[req].request == ByPreAuth(r)
    requires EarlyPreAuthRefusal(cfg, s.codes, s.now, r).None?
    requires h.pending[req].item == ItemAt(s.codes, r.code, s.now, None) && !h.pending[req].item.noTXCode
    ensures var h' := FromTxCode(cfg, h, req);
            var (s', answer) := RedeemPreAuth(cfg, s, r);
            Agrees(h', s') && req in h'.answers && h'.answers[req] == answer
  {
    hide EarlyPreAuthRefusal, ItemAt, OriginAt, TxCodeMatches, Finish, FinishPreAuth;
    var h1 := DoValidate(h, req);
    if req in h1.pending {
      FinishIsTheEnd(cfg, AfterTxCode(s, r), DoDropTx(h1, req), r, req);
    }
  }

  lemma {:induction false} SerialPreAuthRequestIsTheHandler(cfg: Config, s: State, h: Shared, r: PreAuthRequest,
                                                            req: nat)
    requires Agrees(h, s) && req !in h.pending && req !in h.answers
    ensures var h' := Uninterrupted(cfg, h, ByPreAuth(r), req);
            var (s', answer) := RedeemPreAuth(cfg, s, r);
            Agrees(h', s') && req in h'.answers && h'.answers[req] == answer
  {
    hide EarlyPreAuthRefusal, ItemAt, OriginAt, TxCodeMatches, Finish, FinishPreAuth, FromTxCode, AfterTxCode;
    var h1 := DoRead(cfg, h, req, ByPreAuth(r));
    if InPhase(h1, req, ToValidate) {
      FromTxCodeIsTheRest(cfg, s, h1, r, req);
    } else if req in h1.pending {
      FinishIsTheEnd(cfg, s, h1, r, req);
    }
  }
}
