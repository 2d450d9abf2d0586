/**
  HandleRefreshToken split at its storage operations: the atomic Pop, the creation of the session, and
  the Set of the next token. Any number of requests run at once and interleave at these points.
 */
module Rotation {
  import opened GoStrings
  import opened Items
  import opened TtlCache
  import opened Grants
  import opened SharedMaps

  /** A request holding an item it popped, with the identifier of its session once that exists. */
  datatype Pending = Pending(parent: GoString, entry: Entry<RefreshItemV>, created: Option<GoString>)

  /**
    cache: refresh tokens by key; pending: requests that popped an item and have not yet reissued it;
    used: every key ever set; redeemed: the tokens popped so far; edges: popped key to reissued key;
    started: the items code redemptions started families with; an entry's origin is the index of its family.
    answers: what each request was told.
   */
  datatype Shared = Shared(now: int, cache: Table<RefreshItemV>, pending: map<nat, Pending>, used: set<GoString>,
                           redeemed: seq<GoString>, edges: seq<(GoString, GoString)>, started: seq<RefreshItemV>,
                           sessions: map<GoString, SessionV>, answers: map<nat, Answer>)

  datatype Move =
    | Wait(d: nat)
    | Start(token: GoString, item: RefreshItemV)
    | Pop(req: nat, token: GoString, jkt: GoString, fails: bool)
    | Create(req: nat, session: GoString, fails: bool)
    | Reissue(req: nat, token: GoString, fails: bool)

  const EMPTY: Shared := Shared(0, map[], map[], {}, [], [], [], map[], map[])

  /** New tokens have keys never used before; a request pops once, creates, then reissues. */
  predicate CanMove(cfg: Config, s: Shared, m: Move) {
    match m
    case Wait(_) => true
    case Start(token, _) => RefreshKey(cfg, token) !in s.used
    case Pop(req, _, _, _) => req !in s.pending && req !in s.answers
    case Create(req, _, _) => req in s.pending && s.pending[req].created.None?
    case Reissue(req, token, _) => req in s.pending && s.pending[req].created.Some? && RefreshKey(cfg, token) !in s.used
  }

  function Do(cfg: Config, s: Shared, m: Move): Shared
    requires CanMove(cfg, s, m)
  {
    match m
    case Wait(d) => s.(now := s.now + d)
    case Start(token, item) =>
      var key := RefreshKey(cfg, token);
      s.(cache := s.cache[key := Entry(item, s.now + cfg.refreshTTL, |s.started|)], used := s.used + {key},
         started := s.started + [item])
    case Pop(req, token, jkt, fails) => DoPop(cfg, s, req, token, jkt, fails)
    case Create(req, session, fails) => DoCreate(s, req, session, fails)
    case Reissue(req, token, fails) => DoReissue(cfg, s, req, token, fails)
  }

  /** Pop takes the entry out at once; a key mismatch then ends the request with the token spent. */
  function DoPop(cfg: Config, s: Shared, req: nat, token: GoString, jkt: GoString, fails: bool): Shared {
    var key := RefreshKey(cfg, token);
    var found := Lookup(s.cache, key, s.now);
    if found.None? || fails then s.(answers := s.answers[req := Denied(InvalidRefreshToken)])
    else
      var e := found.value;
      var popped := s.(cache := s.cache - {key}, redeemed := s.redeemed + [token]);
      if e.value.jkt == jkt then popped.(pending := s.pending[req := Pending(key, e, None)])
      else popped.(answers := s.answers[req := Denied(DPoPMismatch)])
  }

  function DoCreate(s: Shared, req: nat, session: GoString, fails: bool): Shared
    requires req in s.pending
  {
    var item := s.pending[req].entry.value;
    if fails then s.(pending := s.pending - {req}, answers := s.answers[req := Denied(SessionCreateFailed)])
    else s.(pending := s.pending[req := s.pending[req].(created := Some(session))],
            sessions := s.sessions[session := Minted(item.session, session, s.now, item.jkt)])
  }

  function DoReissue(cfg: Config, s: Shared, req: nat, token: GoString, fails: bool): Shared
    requires req in s.pending && s.pending[req].created.Some?
  {
    var p := s.pending[req];
    var key := RefreshKey(cfg, token);
    var item := p.entry.value.(session := NextTemplate(p.entry.value.session, p.entry.value.jkt));
    var answer := Issued(p.created.value, DPOP, item.scope, if fails then [] else token);
    var s1 := s.(pending := s.pending - {req}, used := s.used + {key}, answers := s.answers[req := answer]);
    if fails then s1
    else s1.(cache := s.cache[key := Entry(item, s.now + cfg.refreshTTL, p.entry.origin)],
             edges := s.edges + [(p.parent, key)])
  }

  function After(cfg: Config, ms: seq<Move>): Option<Shared> {
    if ms == [] then Some(EMPTY)
    else
      match After(cfg, ms[..|ms| - 1])
      case None => None
      case Some(s) => if CanMove(cfg, s, ms[|ms| - 1]) then Some(Do(cfg, s, ms[|ms| - 1])) else None
  }

  // --- the invariant -------------------------------------------------------

  /** Whoever holds a family's right to a next token: a cached token or a request. */
  datatype Holder = Token(key: GoString) | Request(id: nat)

  predicate Holds(s: Shared, h: Holder, family: nat) {
    match h
    case Token(key) => key in s.cache && s.cache[key].origin == family
    case Request(id) => id in s.pending && s.pending[id].entry.origin == family
  }

  ghost predicate OneHolder(s: Shared) {
    forall h1, h2, f: nat :: Holds(s, h1, f) && Holds(s, h2, f) ==> h1 == h2
  }

  ghost predicate FamiliesStarted(s: Shared) {
    forall h, f: nat :: Holds(s, h, f) ==> f < |s.started|
  }

  /** Popped keys are used up: not cached again, each popped once, each reissued at most once. */
  predicate KeysUsedUp(cfg: Config, s: Shared) {
    && s.cache.Keys <= s.used
    && (forall i :: 0 <= i < |s.redeemed| ==>
        RefreshKey(cfg, s.redeemed[i]) in s.used && RefreshKey(cfg, s.redeemed[i]) !in s.cache)
    && (forall i, j :: 0 <= i < j < |s.redeemed| ==> RefreshKey(cfg, s.redeemed[i]) != RefreshKey(cfg, s.redeemed[j]))
  }

  predicate EdgesInjective(s: Shared) {
    && (forall i :: 0 <= i < |s.edges| ==> s.edges[i].1 in s.used && s.edges[i].0 in s.used && s.edges[i].0 !in s.cache)
    && (forall r :: r in s.pending ==> s.pending[r].parent in s.used && s.pending[r].parent !in s.cache)
    && (forall r, q :: r in s.pending && q in s.pending && s.pending[r].parent == s.pending[q].parent ==> r == q)
    && (forall r, i :: r in s.pending && 0 <= i < |s.edges| ==> s.pending[r].parent != s.edges[i].0)
    && (forall i, j :: 0 <= i < j < |s.edges| ==> s.edges[i].0 != s.edges[j].0 && s.edges[i].1 != s.edges[j].1)
  }

  /** The item grants what the item its family started with granted. */
  predicate Keeps(s: Shared, e: Entry<RefreshItemV>) {
    && e.origin < |s.started|
    && var start := s.started[e.origin];
       && e.value.clientID == start.clientID && e.value.scope == start.scope && e.value.jkt == start.jkt
       && e.value.session.subject == start.session.subject
  }

  predicate RightsKept(s: Shared) {
    && (forall key :: key in s.cache ==> Keeps(s, s.cache[key]))
    && (forall req :: req in s.pending ==> Keeps(s, s.pending[req].entry))
  }

  ghost predicate Inv(cfg: Config, s: Shared) {
    OneHolder(s) && FamiliesStarted(s) && KeysUsedUp(cfg, s) && EdgesInjective(s) && RightsKept(s)
  }

  /** What a move with this outcome adds to and takes from cache and requests is enough to say who keeps what. */
  lemma RightsOfMove(s: Shared, s': Shared)
    requires RightsKept(s) && s.started <= s'.started
    requires forall key :: key in s'.cache ==>
             (key in s.cache && s'.cache[key] == s.cache[key]) || Keeps(s', s'.cache[key])
    requires forall req :: req in s'.pending ==>
               (req in s.pending && s'.pending[req].entry == s.pending[req].entry) || Keeps(s', s'.pending[req].entry)
    ensures RightsKept(s')
  {
    forall e: Entry<RefreshItemV> | Keeps(s, e) ensures Keeps(s', e) {
      assert s'.started[e.origin] == s.started[e.origin];
    }
  }

  lemma KeepsRights(cfg: Config, s: Shared, m: Move)
    requires CanMove(cfg, s, m) && RightsKept(s)
    ensures RightsKept(Do(cfg, s, m))
  {
    hide RefreshKey, NextTemplate, Minted, RightsKept;
    var s' := Do(cfg, s, m);
    match m
    case Wait(_) => RightsOfMove(s, s');
    case Start(_, item) =>
      assert s'.started[|s.started|] == item;
      RightsOfMove(s, s');
    case Pop(req, token, jkt, fails) => PopKeepsRights(cfg, s, req, token, jkt, fails);
    case Create(req, session, fails) => CreateKeepsRights(s, req, session, fails);
    case Reissue(req, token, fails) => ReissueKeepsRights(cfg, s, req, token, fails);
  }

  lemma PopKeepsRights(cfg: Config, s: Shared, req: nat, token: GoString, jkt: GoString, fails: bool)
    requires RightsKept(s)
    ensures RightsKept(DoPop(cfg, s, req, token, jkt, fails))
  {
    hide RefreshKey, Keeps;
    assert Lookup(s.cache, RefreshKey(cfg, token), s.now).Some? ==> Keeps(s, s.cache[RefreshKey(cfg, token)]);
    KeepsNeedsStartedOnly(s, DoPop(cfg, s, req, token, jkt, fails));
  }

  lemma CreateKeepsRights(s: Shared, req: nat, session: GoString, fails: bool)
    requires RightsKept(s) && req in s.pending
    ensures RightsKept(DoCreate(s, req, session, fails))
  {
    hide Keeps, Minted;
    KeepsNeedsStartedOnly(s, DoCreate(s, req, session, fails));
  }

  lemma ReissueKeepsRights(cfg: Config, s: Shared, req: nat, token: GoString, fails: bool)
    requires RightsKept(s) && req in s.pending && s.pending[req].created.Some?
    ensures RightsKept(DoReissue(cfg, s, req, token, fails))
  {
    hide RefreshKey, NextTemplate;
    var e := s.pending[req].entry;
    assert Keeps(s, e);
    NextKeepsSubject(e.value.session, e.value.jkt);
    RightsOfMove(s, DoReissue(cfg, s, req, token, fails));
  }

  lemma KeepsNeedsStartedOnly(s: Shared, s': Shared)
    requires s.started == s'.started
    ensures forall e: Entry<RefreshItemV> :: Keeps(s, e) == Keeps(s', e)
  {
  }

  lemma NextKeepsSubject(template: SessionV, jkt: GoString)
    ensures NextTemplate(template, jkt).subject == template.subject
  {
  }

  lemma KeepsOneHolder(cfg: Config, s: Shared, m: Move)
    requires CanMove(cfg, s, m) && OneHolder(s) && FamiliesStarted(s)
    ensures OneHolder(Do(cfg, s, m)) && FamiliesStarted(Do(cfg, s, m))
  {
    hide RefreshKey, NextTemplate, Minted;
    var s' := Do(cfg, s, m);
    forall h, f: nat | Holds(s', h, f)
      ensures Holds(s, Former(cfg, m, h), f) || (m.Start? && f == |s.started| && h == Token(RefreshKey(cfg, m.token)))
    {
    }
  }

  /** Who held the right before the move that made h its holder. */
  function Former(cfg: Config, m: Move, h: Holder): Holder {
    match m
    case Pop(req, token, _, _) => if h == Request(req) then Token(RefreshKey(cfg, token)) else h
    case Reissue(req, token, fails) => if !fails && h == Token(RefreshKey(cfg, token)) then Request(req) else h
    case _ => h
  }

  lemma KeepsKeysUsedUp(cfg: Config, s: Shared, m: Move)
    requires CanMove(cfg, s, m) && KeysUsedUp(cfg, s)
    ensures KeysUsedUp(cfg, Do(cfg, s, m))
  {
    hide RefreshKey, NextTemplate, Minted, Lookup;
    match m
    case Pop(req, token, jkt, fails) => PopKeepsKeysUsedUp(cfg, s, req, token, jkt, fails);
    case _ => hide DoPop;
  }

  lemma PopKeepsKeysUsedUp(cfg: Config, s: Shared, req: nat, token: GoString, jkt: GoString, fails: bool)
    requires KeysUsedUp(cfg, s)
    ensures KeysUsedUp(cfg, DoPop(cfg, s, req, token, jkt, fails))
  {
    hide RefreshKey;
    var s' := DoPop(cfg, s, req, token, jkt, fails);
    assert s'.redeemed == s.redeemed || s'.redeemed == s.redeemed + [token];
    assert s'.cache.Keys <= s.cache.Keys && s'.used == s.used;
  }

  lemma KeepsEdgesInjective(cfg: Config, s: Shared, m: Move)
    requires CanMove(cfg, s, m) && EdgesInjective(s) && s.cache.Keys <= s.used
    ensures EdgesInjective(Do(cfg, s, m))
  {
    hide RefreshKey, NextTemplate, Minted, EdgesInjective, DoPop, DoCreate, DoReissue;
    match m
    case Wait(_) => SameEdges(s, Do(cfg, s, m));
    case Start(token, _) => StartKeepsEdges(cfg, s, m);
    case Pop(req, token, jkt, fails) => PopKeepsEdges(cfg, s, req, token, jkt, fails);
    case Create(req, session, fails) => CreateKeepsEdges(s, req, session, fails);
    case Reissue(req, token, fails) => ReissueKeepsEdges(cfg, s, req, token, fails);
  }

  lemma SameEdges(s: Shared, s': Shared)
    requires EdgesInjective(s) && s'.edges == s.edges && s'.pending == s.pending && s'.used == s.used
             && s'.cache == s.cache
    ensures EdgesInjective(s')
  {
  }

  lemma StartKeepsEdges(cfg: Config, s: Shared, m: Move)
    requires CanMove(cfg, s, m) && EdgesInjective(s) && m.Start?
    ensures EdgesInjective(Do(cfg, s, m))
  {
    hide RefreshKey, DoPop, DoCreate, DoReissue;
  }

  lemma PopKeepsEdges(cfg: Config, s: Shared, req: nat, token: GoString, jkt: GoString, fails: bool)
    requires EdgesInjective(s) && s.cache.Keys <= s.used && req !in s.pending
    ensures EdgesInjective(DoPop(cfg, s, req, token, jkt, fails))
  {
    hide RefreshKey;
  }

  lemma CreateKeepsEdges(s: Shared, req: nat, session: GoString, fails: bool)
    requires EdgesInjective(s) && req in s.pending
    ensures EdgesInjective(DoCreate(s, req, session, fails))
  {
    hide Minted;
  }

  lemma ReissueKeepsEdges(cfg: Config, s: Shared, req: nat, token: GoString, fails: bool)
    requires EdgesInjective(s) && req in s.pending && s.pending[req].created.Some? && RefreshKey(cfg, token) !in s.used
    ensures EdgesInjective(DoReissue(cfg, s, req, token, fails))
  {
    hide RefreshKey, NextTemplate;
  }

  lemma {:induction false} RunInv(cfg: Config, ms: seq<Move>)
    requires After(cfg, ms).Some?
    ensures Inv(cfg, After(cfg, ms).value)
  {
    if ms != [] {
      var front := ms[..|ms| - 1];
      RunInv(cfg, front);
      var s := After(cfg, front).value;
      KeepsOneHolder(cfg, s, ms[|ms| - 1]);
      KeepsKeysUsedUp(cfg, s, ms[|ms| - 1]);
      KeepsEdgesInjective(cfg, s, ms[|ms| - 1]);
      KeepsRights(cfg, s, ms[|ms| - 1]);
    }
  }

  // --- results -------------------------------------------------------------

  function LiveTokens(s: Shared, f: nat): set<GoString> {
    set k | k in s.cache && s.cache[k].origin == f && s.now < s.cache[k].expires
  }

  function Requests(s: Shared, f: nat): set<nat> {
    set r | r in s.pending && s.pending[r].entry.origin == f
  }

  lemma AtMostOneElement<T>(a: set<T>)
    requires forall x, y :: x in a && y in a ==> x == y
    ensures |a| <= 1
  {
    if x :| x in a {
      assert a == {x};
    }
  }

  /**
    In every interleaving each family has at most one live token or request in flight: live stored
    tokens plus requests holding a popped item not yet reissued never exceed one.
   */
  lemma FamilyHasOneHolder(cfg: Config, ms: seq<Move>, f: nat)
    requires After(cfg, ms).Some?
    ensures var s := After(cfg, ms).value; |LiveTokens(s, f)| + |Requests(s, f)| <= 1
  {
    RunInv(cfg, ms);
    var s := After(cfg, ms).value;
    var tokens, requests := LiveTokens(s, f), Requests(s, f);
    forall k, q | k in tokens && q in tokens ensures k == q {
      assert Holds(s, Token(k), f) && Holds(s, Token(q), f);
    }
    forall r, q | r in requests && q in requests ensures r == q {
      assert Holds(s, Request(r), f) && Holds(s, Request(q), f);
    }
    AtMostOneElement(tokens);
    AtMostOneElement(requests);
    if k :| k in tokens {
      forall r ensures r !in requests {
        TokenExcludesRequest(s, k, r, f);
      }
      assert requests == {};
    }
  }

  lemma TokenExcludesRequest(s: Shared, k: GoString, r: nat, f: nat)
    requires OneHolder(s) && Holds(s, Token(k), f)
    ensures !Holds(s, Request(r), f)
  {
    assert Token(k) != Request(r);
  }

  /** No token is redeemed twice, in any interleaving. */
  lemma NoTokenIsRedeemedTwice(cfg: Config, ms: seq<Move>, i: nat, j: nat)
    requires After(cfg, ms).Some? && i < j < |After(cfg, ms).value.redeemed|
    ensures After(cfg, ms).value.redeemed[i] != After(cfg, ms).value.redeemed[j]
  {
    RunInv(cfg, ms);
  }

  /** A chain never forks and never merges: each token has at most one successor and one predecessor. */
  lemma ChainsDoNotFork(cfg: Config, ms: seq<Move>, i: nat, j: nat)
    requires After(cfg, ms).Some? && i < j < |After(cfg, ms).value.edges|
    ensures After(cfg, ms).value.edges[i].0 != After(cfg, ms).value.edges[j].0
    ensures After(cfg, ms).value.edges[i].1 != After(cfg, ms).value.edges[j].1
  {
    RunInv(cfg, ms);
  }

  /**
    Rotation keeps rights in every interleaving: whatever a family's cached token or request in flight
    will grant, it has the client, scope, subject and key of the item its code redemption started it with.
   */
  lemma {:induction false} InterleavedRotationKeepsRights(cfg: Config, ms: seq<Move>, h: Holder, f: nat)
    requires After(cfg, ms).Some? && Holds(After(cfg, ms).value, h, f)
    ensures var s := After(cfg, ms).value;
            var item := if h.Token? then s.cache[h.key].value else s.pending[h.id].entry.value;
            && f < |s.started|
            && item.clientID == s.started[f].clientID && item.scope == s.started[f].scope
            && item.jkt == s.started[f].jkt && item.session.subject == s.started[f].session.subject
  {
    RunInv(cfg, ms);
  }

  /** The moves of one request without interruption. */
  function Uninterrupted(cfg: Config, h: Shared, r: RefreshRequest, req: nat): Shared
    requires req !in h.pending && req !in h.answers && RefreshKey(cfg, r.newToken) !in h.used
  {
    var h1 := Do(cfg, h, Pop(req, r.token, r.jkt, r.faults.read));
    if req !in h1.pending then h1
    else
      var h2 := Do(cfg, h1, Create(req, r.newSession, r.faults.create));
      if req !in h2.pending then h2 else Do(cfg, h2, Reissue(req, r.newToken, r.faults.issue))
  }

  /**
    Uninterrupted, the moves of a request leave the cache and the sessions, and answer, just as the serial handler
    does.
   */
  lemma {:induction false} SerialRequestIsTheHandler(cfg: Config, s: State, h: Shared, r: RefreshRequest, req: nat)
    requires h.now == s.now && h.cache == s.refresh && h.sessions == s.sessions && req !in h.pending
             && req !in h.answers
    requires r.jkt != [] && r.token != [] && RefreshKey(cfg, r.newToken) !in h.used
    ensures var h' := Uninterrupted(cfg, h, r, req);
            var (s', answer) := RedeemRefresh(cfg, s, r);
            h'.cache == s'.refresh && h'.sessions == s'.sessions && req in h'.answers && h'.answers[req] == answer
  {
    hide RefreshKey, NextTemplate, RedeemRefresh, Acts;
    RefreshSteps(cfg, s, r);
    var found := Lookup(s.refresh, RefreshKey(cfg, r.token), s.now);
    if found.Some? && !r.faults.read && found.value.value.jkt == r.jkt {
      var h1 := Do(cfg, h, Pop(req, r.token, r.jkt, false));
      AfterPop(cfg, s.(refresh := s.refresh - {RefreshKey(cfg, r.token)}), h1, r, req, found.value);
    }
  }

  lemma AfterPop(cfg: Config, s: State, h1: Shared, r: RefreshRequest, req: nat, e: Entry<RefreshItemV>)
    requires h1.now == s.now && h1.cache == s.refresh && h1.sessions == s.sessions && e.value.jkt == r.jkt
    requires req in h1.pending && h1.pending[req].entry == e && h1.pending[req].created.None?
    requires RefreshKey(cfg, r.newToken) !in h1.used
    ensures var h2 := Do(cfg, h1, Create(req, r.newSession, r.faults.create));
            if r.faults.create then
              req !in h2.pending && h2.cache == s.refresh && h2.sessions == s.sessions
                && h2.answers[req] == Denied(SessionCreateFailed)
            else
              && CanMove(cfg, h2, Reissue(req, r.newToken, r.faults.issue))
              && var h3 := Do(cfg, h2, Reissue(req, r.newToken, r.faults.issue));
                 var (s', answer) := FinishRefresh(cfg, s, r, e);
                 h3.cache == s'.refresh && h3.sessions == s'.sessions && req in h3.answers && h3.answers[req] == answer
  {
    hide RefreshKey, NextTemplate;
  }
}
