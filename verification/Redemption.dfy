/**
  HandleAuthorization and HandlePreAuthorized split at their storage operations: the read of the code, for an
  offer the read and the deletion of its tx_code, the creation of the session, and the deletion of the code. The
  store's mutex is held for one of these at a time, so any number of requests interleave at these points.
 */
module Redemption {
  import opened GoStrings
  import opened Items
  import opened TtlCache
  import opened Grants
  import opened GrantRules

  datatype Request = ByCode(code: CodeRequest) | ByPreAuth(preAuth: PreAuthRequest)

  function CodeIn(r: Request): GoString {
    match r case ByCode(c) => c.code case ByPreAuth(p) => p.code
  }

  /** What a request does next. */
  datatype Phase = ToValidate | ToDropTx | ToCreate | ToDelete

  /**
    A request that passed its checks: the item it read, if one was cached, how many grants there were then, and
    when that was.
   */
  datatype Pending = Pending(request: Request, item: CodeItemV, origin: Option<nat>, since: nat, readAt: int,
                             phase: Phase)

  /** A token response. */
  datatype Given = Given(req: nat, request: Request, item: CodeItemV, origin: Option<nat>, since: nat)

  /** An item as it was stored, with the tx_code stored for it, if one was, and the end of its lifetime. */
  datatype Stored = Stored(item: CodeItemV, tx: Option<int>, deadline: int)

  /**
    stored: every item ever stored; an entry's origin is its number there. shown: the tx_codes accepted for items.
   */
  datatype Shared = Shared(now: int, codes: Table<CodeItemV>, txCodes: Table<int>, sessions: map<GoString, SessionV>,
                           stored: seq<Stored>, pending: map<nat, Pending>, grants: seq<Given>,
                           answers: map<nat, Answer>, shown: set<(nat, GoString)>)

  datatype Move =
    | Wait(d: nat)
    | Store(item: CodeItemV, tx: Option<int>)
    | Read(req: nat, request: Request)
    | Validate(req: nat)
    | DropTx(req: nat)
    | Create(req: nat)
    | Delete(req: nat)

  const EMPTY: Shared := Shared(0, map[], map[], map[], [], map[], [], map[], {})

  predicate InPhase(s: Shared, req: nat, phase: Phase) {
    req in s.pending && s.pending[req].phase == phase
  }

  /**
    Codes are new ones, and a tx_code has five digits. Nobody learns an offer's code before both are stored, so the
    two are stored in one move.
   */
  predicate CanMove(s: Shared, m: Move) {
    match m
    case Wait(_) => true
    case Store(item, tx) =>
      && (forall o :: 0 <= o < |s.stored| ==> s.stored[o].item.code != item.code)
      && (tx.Some? ==> !item.noTXCode && 10000 <= tx.value < 100000)
    case Read(req, _) => req !in s.pending && req !in s.answers
    case Validate(req) => InPhase(s, req, ToValidate) && s.pending[req].request.ByPreAuth?
    case DropTx(req) => InPhase(s, req, ToDropTx) && s.pending[req].request.ByPreAuth?
    case Create(req) => InPhase(s, req, ToCreate)
    case Delete(req) => InPhase(s, req, ToDelete)
  }

  function Do(cfg: Config, s: Shared, m: Move): Shared
    requires CanMove(s, m)
  {
    match m
    case Wait(d) => s.(now := s.now + d)
    case Store(item, tx) =>
      s.(codes := s.codes[item.code := Entry(item, s.now + cfg.authCodeTTL, |s.stored|)],
         txCodes := if tx.None? then s.txCodes
                    else s.txCodes[item.code := Entry(tx.value, s.now + cfg.preAuthTTL, |s.stored|)],
         stored := s.stored + [Stored(item, tx, s.now + cfg.authCodeTTL)])
    case Read(req, request) => DoRead(cfg, s, req, request)
    case Validate(req) => DoValidate(s, req)
    case DropTx(req) => DoDropTx(s, req)
    case Create(req) => DoCreate(cfg, s, req)
    case Delete(req) => DoDelete(s, req)
  }

  function Refusal(cfg: Config, s: Shared, request: Request): Option<TokenError> {
    match request
    case ByCode(r) => EarlyRefusal(cfg, s.codes, s.now, r)
    case ByPreAuth(r) => EarlyPreAuthRefusal(cfg, s.codes, s.now, r)
  }

  function DoRead(cfg: Config, s: Shared, req: nat, request: Request): Shared {
    match Refusal(cfg, s, request)
    case Some(e) => s.(answers := s.answers[req := Denied(e)])
    case None =>
      var item := ItemAt(s.codes, CodeIn(request), s.now, None);
      var phase := if request.ByCode? || item.noTXCode then ToCreate else ToValidate;
      s.(pending := s.pending[req := Pending(request, item, OriginAt(s.codes, CodeIn(request), s.now), |s.grants|,
                                             s.now, phase)])
  }

  function DoValidate(s: Shared, req: nat): Shared
    requires req in s.pending && s.pending[req].request.ByPreAuth?
  {
    var r := s.pending[req].request.preAuth;
    if r.faults.txRead || !TxCodeMatches(s.txCodes, r.code, s.now, r.txCode) then Refuse(s, req, TxCodeInvalid)
    else s.(pending := s.pending[req := s.pending[req].(phase := ToDropTx)],
            shown := s.shown + match s.pending[req].origin case None => {} case Some(o) => {(o, r.txCode)})
  }

  function DoDropTx(s: Shared, req: nat): Shared
    requires req in s.pending && s.pending[req].request.ByPreAuth?
  {
    var r := s.pending[req].request.preAuth;
    s.(txCodes := if r.faults.txDelete then s.txCodes else s.txCodes - {r.code},
       pending := s.pending[req := s.pending[req].(phase := ToCreate)])
  }

  function Refuse(s: Shared, req: nat, e: TokenError): Shared {
    s.(pending := s.pending - {req}, answers := s.answers[req := Denied(e)])
  }

  function DoCreate(cfg: Config, s: Shared, req: nat): Shared
    requires req in s.pending
  {
    var p := s.pending[req];
    var s1 := s.(pending := s.pending[req := p.(phase := ToDelete)]);
    match p.request
    case ByCode(r) =>
      if r.faults.create then Refuse(s, req, SessionCreateFailed)
      else s1.(sessions := s.sessions[r.newSession := Minted(p.item.session, r.newSession, s.now, r.jkt)] - Dropped(r))
    case ByPreAuth(r) =>
      if NeedsDPoP(cfg, r) then Refuse(s, req, DPoPMissing)
      else if r.faults.create then Refuse(s, req, SessionCreateFailed)
      else s1.(sessions := s.sessions[r.newSession := Minted(p.item.session, r.newSession, s.now, r.jkt)])
  }

  /** Deleting a code that is no longer there succeeds. A pre-authorized request goes on if its deletion fails. */
  function DoDelete(s: Shared, req: nat): Shared
    requires req in s.pending
  {
    var p := s.pending[req];
    var given := s.(pending := s.pending - {req},
                    grants := s.grants + [Given(req, p.request, p.item, p.origin, p.since)],
                    answers := s.answers[req := AnswerFor(p)]);
    if !DeletionFails(p.request) then given.(codes := s.codes - {CodeIn(p.request)})
    else if p.request.ByPreAuth? then given
    else Refuse(s, req, CleanupFailed)
  }

  predicate DeletionFails(request: Request) {
    match request case ByCode(r) => r.faults.delete case ByPreAuth(r) => r.faults.delete
  }

  function AnswerFor(p: Pending): Answer {
    match p.request
    case ByCode(r) => Issued(r.newSession, TokenType(r.jkt), p.item.scope, if IssuesRefresh(r) then r.newToken else [])
    case ByPreAuth(r) => Issued(r.newSession, TokenType(r.jkt), p.item.scope, [])
  }

  function After(cfg: Config, ms: seq<Move>): Option<Shared> {
    if ms == [] then Some(EMPTY)
    else
      match After(cfg, ms[..|ms| - 1])
      case None => None
      case Some(s) => if CanMove(s, ms[|ms| - 1]) then Some(Do(cfg, s, ms[|ms| - 1])) else None
  }

  // --- the invariant ---------------------------------------------------------

  predicate StoredAt(s: Shared, o: nat, item: CodeItemV) {
    o < |s.stored| && s.stored[o].item == item
  }

  /** Cached items are stored ones, under their own codes, each under one. */
  predicate CodesStored(s: Shared) {
    forall k :: k in s.codes ==> StoredAt(s, s.codes[k].origin, s.codes[k].value) && s.codes[k].value.code == k
  }

  /**
    The request holds the stored item it names, and goes with it if it is an authorization_code request. A
    pre-authorized one holds an item, and its wallet proved itself.
   */
  predicate Backed(cfg: Config, s: Shared, request: Request, item: CodeItemV, origin: Option<nat>) {
    && (origin.Some? ==> StoredAt(s, origin.value, item) && item.code == CodeIn(request))
    && (request.ByCode? ==> Entitled(cfg, request.code, item))
    && (request.ByPreAuth? ==> origin.Some? && ProvesWallet(cfg, request.preAuth))
  }

  predicate AllBacked(cfg: Config, s: Shared) {
    && (forall q :: q in s.pending ==>
          Backed(cfg, s, s.pending[q].request, s.pending[q].item, s.pending[q].origin))
    && (forall i :: 0 <= i < |s.grants| ==>
          Backed(cfg, s, s.grants[i].request, s.grants[i].item, s.grants[i].origin))
  }

  /** The grant left its item: a pre-authorized one whose deletion failed. */
  predicate LeftItem(g: Given) {
    g.request.ByPreAuth? && g.request.preAuth.faults.delete
  }

  /** The grant rests on this item, and the item is gone since. */
  predicate Spends(g: Given, o: nat) {
    g.origin == Some(o) && !LeftItem(g)
  }

  /** A spent item is not cached, and whoever still holds it, or was granted it later, had read it before. */
  predicate SpentBefore(s: Shared) {
    && (forall q :: q in s.pending ==> s.pending[q].since <= |s.grants|)
    && (forall i, k :: 0 <= i < |s.grants| && k in s.codes ==> !Spends(s.grants[i], s.codes[k].origin))
    && (forall i, q :: 0 <= i < |s.grants| && q in s.pending && s.pending[q].origin.Some? ==>
          Spends(s.grants[i], s.pending[q].origin.value) ==> s.pending[q].since <= i)
    && (forall i, j :: 0 <= i < j < |s.grants| && s.grants[j].origin.Some? ==>
          Spends(s.grants[i], s.grants[j].origin.value) ==> s.grants[j].since <= i)
  }

  ghost predicate Inv(cfg: Config, s: Shared) {
    CodesStored(s) && AllBacked(cfg, s) && SpentBefore(s)
  }

  /** Nothing is stored, read or granted; requests go on or end. */
  predicate Quiet(s: Shared, s': Shared) {
    && s'.codes == s.codes && s'.stored == s.stored && s'.grants == s.grants
    && forall q :: q in s'.pending ==>
         q in s.pending && s'.pending[q] == s.pending[q].(phase := s'.pending[q].phase)
  }

  /** The request is refused instead of being given a session. */
  predicate CreationFails(cfg: Config, request: Request) {
    match request case ByCode(r) => r.faults.create case ByPreAuth(r) => NeedsDPoP(cfg, r) || r.faults.create
  }

  lemma CreateEffect(cfg: Config, s: Shared, req: nat)
    requires req in s.pending
    ensures var s' := DoCreate(cfg, s, req);
            if CreationFails(cfg, s.pending[req].request) then
              req in s'.answers && s' == s.(pending := s.pending - {req}, answers := s.answers[req := s'.answers[req]])
            else
              s' == s.(pending := s.pending[req := s.pending[req].(phase := ToDelete)], sessions := s'.sessions)
  {
    hide Minted, NeedsDPoP, Dropped;
  }

  lemma CreateIsQuiet(cfg: Config, s: Shared, req: nat)
    requires req in s.pending
    ensures Quiet(s, DoCreate(cfg, s, req))
  {
    hide DoCreate, CreationFails;
    CreateEffect(cfg, s, req);
  }

  lemma MoveIsQuiet(cfg: Config, s: Shared, m: Move)
    requires CanMove(s, m)
    ensures m.Store? || m.Delete? || (m.Read? && Refusal(cfg, s, m.request).None?) || Quiet(s, Do(cfg, s, m))
  {
    hide Refusal, ItemAt, OriginAt, TxCodeMatches, DoCreate, DoDelete;
    if m.Create? {
      CreateIsQuiet(cfg, s, m.req);
    }
  }

  lemma QuietKeepsInv(cfg: Config, s: Shared, s': Shared)
    requires Quiet(s, s') && Inv(cfg, s)
    ensures Inv(cfg, s')
  {
    hide Entitled, ProvesWallet;
  }

  lemma StoreKeepsInv(cfg: Config, s: Shared, m: Move)
    requires m.Store? && CanMove(s, m) && Inv(cfg, s)
    ensures Inv(cfg, Do(cfg, s, m))
  {
    hide SpentBefore, Backed;
    var s' := Do(cfg, s, m);
    BackedStays(cfg, s, s');
    assert CodesStored(s');
    StoreKeepsSpentBefore(cfg, s, m);
  }

  lemma StoreKeepsSpentBefore(cfg: Config, s: Shared, m: Move)
    requires m.Store? && CanMove(s, m) && Inv(cfg, s)
    ensures SpentBefore(Do(cfg, s, m))
  {
    hide Entitled, ProvesWallet, LeftItem;
    forall i | 0 <= i < |s.grants| ensures s.grants[i].origin != Some(|s.stored|) {
      assert Backed(cfg, s, s.grants[i].request, s.grants[i].item, s.grants[i].origin);
    }
  }

  lemma BackedStays(cfg: Config, s: Shared, s': Shared)
    requires s.stored <= s'.stored
    ensures forall request, item, origin :: Backed(cfg, s, request, item, origin) ==>
              Backed(cfg, s', request, item, origin)
  {
    hide Entitled, ProvesWallet;
  }

  lemma PassedRequestIsBacked(cfg: Config, s: Shared, request: Request)
    requires CodesStored(s) && Refusal(cfg, s, request).None?
    ensures Backed(cfg, s, request, ItemAt(s.codes, CodeIn(request), s.now, None),
                   OriginAt(s.codes, CodeIn(request), s.now))
  {
    hide EarlyRefusal, Entitled;
    match request
    case ByCode(r) => PassesExactly(cfg, s.codes, s.now, r);
    case ByPreAuth(r) =>
  }

  lemma ReadKeepsInv(cfg: Config, s: Shared, req: nat, request: Request)
    requires req !in s.pending && Refusal(cfg, s, request).None? && Inv(cfg, s)
    ensures Inv(cfg, DoRead(cfg, s, req, request))
  {
    hide Refusal, ItemAt;
    PassedRequestIsBacked(cfg, s, request);
    var s' := DoRead(cfg, s, req, request);
    BackedStays(cfg, s, s');
    assert CodesStored(s');
    assert AllBacked(cfg, s') by { hide Backed; }
    assert SpentBefore(s') by { hide Entitled, ProvesWallet; }
  }

  /** A grant whose item is gone, or was left behind, on what a request holds. */
  predicate GivesOut(s: Shared, s': Shared, req: nat, g: Given)
    requires req in s.pending
  {
    && s'.stored == s.stored && s'.pending == s.pending - {req} && s'.grants == s.grants + [g]
    && g.origin == s.pending[req].origin && g.since == s.pending[req].since
    && g.request == s.pending[req].request && g.item == s.pending[req].item
    && (forall k :: k in s'.codes ==> k in s.codes && s'.codes[k] == s.codes[k] && !Spends(g, s.codes[k].origin))
  }

  lemma GrantKeepsSpentBefore(s: Shared, s': Shared, req: nat, g: Given)
    requires req in s.pending && SpentBefore(s) && GivesOut(s, s', req, g)
    ensures SpentBefore(s')
  {
    hide LeftItem;
  }

  lemma GrantKeepsInv(cfg: Config, s: Shared, s': Shared, req: nat, g: Given)
    requires req in s.pending && Inv(cfg, s) && GivesOut(s, s', req, g)
    ensures Inv(cfg, s')
  {
    hide SpentBefore, Spends;
    GrantKeepsSpentBefore(s, s', req, g);
    BackedStays(cfg, s, s');
    assert CodesStored(s');
    assert AllBacked(cfg, s') by { hide Backed; }
  }

  /** The item a request holds is cached under the code the request names, or not at all. */
  lemma HeldItemIsUnderItsCode(cfg: Config, s: Shared, req: nat)
    requires req in s.pending && CodesStored(s) && AllBacked(cfg, s)
    ensures var p := s.pending[req];
            forall k :: k in s.codes && p.origin == Some(s.codes[k].origin) ==> k == CodeIn(p.request)
  {
    hide Entitled, ProvesWallet;
    var p := s.pending[req];
    assert Backed(cfg, s, p.request, p.item, p.origin);
  }

  lemma DeleteGrants(cfg: Config, s: Shared, req: nat)
    requires req in s.pending && CodesStored(s) && AllBacked(cfg, s)
    ensures var p, s' := s.pending[req], DoDelete(s, req);
            if p.request.ByCode? && DeletionFails(p.request) then Quiet(s, s')
            else GivesOut(s, s', req, Given(req, p.request, p.item, p.origin, p.since))
  {
    hide AnswerFor, CodesStored, AllBacked;
    HeldItemIsUnderItsCode(cfg, s, req);
  }

  lemma DeleteKeepsInv(cfg: Config, s: Shared, req: nat)
    requires req in s.pending && Inv(cfg, s)
    ensures Inv(cfg, DoDelete(s, req))
  {
    hide DoDelete, Quiet, GivesOut, CodesStored, AllBacked, SpentBefore;
    var p := s.pending[req];
    DeleteGrants(cfg, s, req);
    if p.request.ByCode? && DeletionFails(p.request) {
      QuietKeepsInv(cfg, s, DoDelete(s, req));
    } else {
      GrantKeepsInv(cfg, s, DoDelete(s, req), req, Given(req, p.request, p.item, p.origin, p.since));
    }
  }

  lemma KeepsInv(cfg: Config, s: Shared, m: Move)
    requires CanMove(s, m) && Inv(cfg, s)
    ensures Inv(cfg, Do(cfg, s, m))
  {
    hide Inv, Refusal, DoDelete, DoCreate, DoDropTx, DoValidate, Quiet;
    MoveIsQuiet(cfg, s, m);
    if m.Store? {
      StoreKeepsInv(cfg, s, m);
    } else if m.Delete? {
      DeleteKeepsInv(cfg, s, m.req);
    } else if m.Read? && Refusal(cfg, s, m.request).None? {
      ReadKeepsInv(cfg, s, m.req, m.request);
    } else {
      QuietKeepsInv(cfg, s, Do(cfg, s, m));
    }
  }

  lemma {:induction false} RunInv(cfg: Config, ms: seq<Move>)
    requires After(cfg, ms).Some?
    ensures Inv(cfg, After(cfg, ms).value)
  {
    if ms != [] {
      hide CanMove, Do, Inv;
      RunInv(cfg, ms[..|ms| - 1]);
      KeepsInv(cfg, After(cfg, ms[..|ms| - 1]).value, ms[|ms| - 1]);
    }
  }

  // --- who had read what when ------------------------------------------------

  /** The request was read when n grants had been made. */
  ghost predicate ReadAfter(cfg: Config, ms: seq<Move>, req: nat, request: Request, n: nat) {
    exists t :: 0 <= t < |ms| && ms[t] == Read(req, request)
                && After(cfg, ms[..t]).Some? && |After(cfg, ms[..t]).value.grants| == n
  }

  lemma ReadAfterExtends(cfg: Config, ms: seq<Move>, req: nat, request: Request, n: nat)
    requires ms != [] && ReadAfter(cfg, ms[..|ms| - 1], req, request, n)
    ensures ReadAfter(cfg, ms, req, request, n)
  {
    var front := ms[..|ms| - 1];
    var t :| 0 <= t < |front| && front[t] == Read(req, request)
      && After(cfg, front[..t]).Some? && |After(cfg, front[..t]).value.grants| == n;
    assert front[..t] == ms[..t] && ms[t] == front[t];
  }

  /** Who holds an item after a move read it with that move or held it before. */
  lemma HoldersOfMove(cfg: Config, s: Shared, m: Move)
    requires CanMove(s, m) && Inv(cfg, s)
    ensures var s' := Do(cfg, s, m);
            && (forall q :: q in s'.pending ==>
                  || (q in s.pending && s'.pending[q].request == s.pending[q].request
                      && s'.pending[q].since == s.pending[q].since)
                  || (m == Read(q, s'.pending[q].request) && s'.pending[q].since == |s.grants|))
            && (forall i :: 0 <= i < |s'.grants| ==>
                  || (i < |s.grants| && s'.grants[i] == s.grants[i])
                  || (s'.grants[i].req in s.pending && s'.grants[i].request == s.pending[s'.grants[i].req].request
                      && s'.grants[i].since == s.pending[s'.grants[i].req].since))
  {
    hide Refusal, DoDelete, DoCreate, DoDropTx, DoValidate, CodesStored, AllBacked, SpentBefore, ItemAt, OriginAt;
    MoveIsQuiet(cfg, s, m);
    if m.Delete? {
      DeleteGrants(cfg, s, m.req);
    }
  }

  lemma {:induction false} HoldersHaveRead(cfg: Config, ms: seq<Move>)
    requires After(cfg, ms).Some?
    ensures var s := After(cfg, ms).value;
            && (forall q :: q in s.pending ==> ReadAfter(cfg, ms, q, s.pending[q].request, s.pending[q].since))
            && (forall i :: 0 <= i < |s.grants| ==>
                  ReadAfter(cfg, ms, s.grants[i].req, s.grants[i].request, s.grants[i].since))
  {
    if ms != [] {
      hide CanMove, Do, Inv, ReadAfter;
      var front, m := ms[..|ms| - 1], ms[|ms| - 1];
      var s, s' := After(cfg, front).value, After(cfg, ms).value;
      HoldersHaveRead(cfg, front);
      RunInv(cfg, front);
      HoldersOfMove(cfg, s, m);
      forall req: nat, request, n: nat | ReadAfter(cfg, front, req, request, n)
        ensures ReadAfter(cfg, ms, req, request, n) {
        ReadAfterExtends(cfg, ms, req, request, n);
      }
      forall q: nat, request | m == Read(q, request) ensures ReadAfter(cfg, ms, q, request, |s.grants|) {
        NowRead(cfg, ms, q, request);
      }
    }
  }

  lemma NowRead(cfg: Config, ms: seq<Move>, req: nat, request: Request)
    requires ms != [] && ms[|ms| - 1] == Read(req, request) && After(cfg, ms[..|ms| - 1]).Some?
    ensures ReadAfter(cfg, ms, req, request, |After(cfg, ms[..|ms| - 1]).value.grants|)
  {
  }

  // --- results ---------------------------------------------------------------

  /**
    Single use in every interleaving, whatever fails: if an item backs two grants, the earlier one was a
    pre-authorized grant whose own deletion failed, or the later one's request had read the item before the
    earlier grant was made.
   */
  lemma {:induction false} SecondGrantHadReadBefore(cfg: Config, ms: seq<Move>, i: nat, j: nat)
    requires After(cfg, ms).Some? && i < j < |After(cfg, ms).value.grants|
    requires var grants := After(cfg, ms).value.grants;
             grants[i].origin.Some? && grants[i].origin == grants[j].origin && !LeftItem(grants[i])
    ensures var second := After(cfg, ms).value.grants[j];
            exists t :: && 0 <= t < |ms| && ms[t] == Read(second.req, second.request)
                        && After(cfg, ms[..t]).Some? && |After(cfg, ms[..t]).value.grants| <= i
  {
    hide After, AllBacked, CodesStored;
    RunInv(cfg, ms);
    HoldersHaveRead(cfg, ms);
    var grants := After(cfg, ms).value.grants;
    assert Spends(grants[i], grants[j].origin.value);
    assert ReadAfter(cfg, ms, grants[j].req, grants[j].request, grants[j].since);
  }

  /**
    What came with a grant, in every interleaving and whatever fails. An authorization_code grant came from a client
    that proved who it is, and if it rests on a stored item, with a verifier for that item's challenge, with its
    redirect URI, and, from a wallet, for the client it was issued to. A pre-authorized one rests on a stored item,
    and its wallet proved itself.
   */
  lemma {:induction false} GrantsCameWithTheVerifier(cfg: Config, ms: seq<Move>, i: nat)
    requires After(cfg, ms).Some? && i < |After(cfg, ms).value.grants|
    ensures var s := After(cfg, ms).value;
            var g := s.grants[i];
            && (g.origin.Some? ==>
                  g.origin.value < |s.stored| && s.stored[g.origin.value].item.code == CodeIn(g.request))
            && (g.request.ByCode? ==> ProvesClient(cfg, g.request.code.client, g.request.code.jkt))
            && (g.origin.Some? && g.request.ByCode? ==>
                  var item, r := s.stored[g.origin.value].item, g.request.code;
                  && Answers(cfg.sha, item, r.verifier) && item.redirectURI == r.redirectURI
                  && (r.client.ByWallet? ==> item.clientID == ProvenClient(r.client)))
            && (g.request.ByPreAuth? ==> g.origin.Some? && ProvesWallet(cfg, g.request.preAuth))
  {
    hide After, ProvesClient, Answers, ProvesWallet;
    RunInv(cfg, ms);
    var s := After(cfg, ms).value;
    assert Backed(cfg, s, s.grants[i].request, s.grants[i].item, s.grants[i].origin);
  }
}
