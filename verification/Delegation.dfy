/**
  Pushed authorization requests and the authorization endpoint: routes/par.go, routes/authorization.go
  and the PAR half of authorizationcode/store.go. A request that presents a request_uri is split
  after the atomic Pop, so any number of requests may interleave there.
 */
module Delegation {
  import opened GoStrings
  import opened Items
  import opened TtlCache
  import opened FormEncoding
  import opened Grants
  import ErrorRedirect
  import Scopes

  const CLIENT_ID: GoString := "client_id"
  const REDIRECT_URI: GoString := "redirect_uri"
  const RESPONSE_TYPE: GoString := "response_type"
  const REQUEST_URI: GoString := "request_uri"
  const SCOPE: GoString := "scope"
  const CODE_CHALLENGE: GoString := "code_challenge"
  const CODE_CHALLENGE_METHOD: GoString := "code_challenge_method"
  const PAR_URN_PREFIX: GoString := "urn:ietf:params:oauth:request_uri:"

  // --- what a request has to be ---------------------------------------------

  /** Sections 4.1.1 of RFC 6749 and 4.3 of RFC 7636, as strict as the endpoint is. */
  predicate ValidRequest(cfg: Config, q: seq<Pair>) {
    && RedirectRegistered(cfg, q)
    && First(q, RESPONSE_TYPE) == Some(CODE)
    && ParametersValid(cfg, First(q, CLIENT_ID).value, q)
    && First(q, SCOPE).Some? && Scopes.IsSupported(cfg.scopes, First(q, SCOPE).value)
  }

  /** A known client and a redirect URI registered for it: errors may be reported there. */
  predicate RedirectRegistered(cfg: Config, q: seq<Pair>) {
    var id, uri := First(q, CLIENT_ID), First(q, REDIRECT_URI);
    && id.Some? && id.value != [] && id.value in cfg.clients
    && uri.Some? && uri.value in cfg.clients[id.value].redirectURIs
  }

  /**
    A request in order, parameter by parameter: a known client, a redirect URI of that client, response_type code, an
    S256 challenge of 43 to 128 characters, and a scope that is not blank with every space-separated piece configured.
   */
  predicate InOrder(cfg: Config, q: seq<Pair>) {
    var client, redirect, challenge, scope := First(q, "client_id"), First(q, "redirect_uri"),
      First(q, "code_challenge"), First(q, "scope");
    && client.Some? && client.value != [] && client.value in cfg.clients
    && redirect.Some? && redirect.value in cfg.clients[client.value].redirectURIs
    && First(q, "response_type") == Some("code")
    && challenge.Some? && 43 <= |challenge.value| <= 128 && First(q, "code_challenge_method") == Some("S256")
    && scope.Some? && (exists p :: p in Split(scope.value, ' ') && p != [])
    && forall p :: p in Split(scope.value, ' ') && p != [] ==> p in cfg.scopes
  }

  lemma ValidExactly(cfg: Config, q: seq<Pair>)
    ensures ValidRequest(cfg, q) <==> InOrder(cfg, q)
  {
    hide First, Scopes.IsSupported;
    if First(q, "scope").Some? {
      Scopes.SupportedByPieces(cfg.scopes, First(q, "scope").value);
    }
  }

  /** Only the values under each key matter to these checks. */
  lemma SameValuesSameValidity(cfg: Config, a: seq<Pair>, b: seq<Pair>)
    requires SameValues(a, b)
    ensures ValidRequest(cfg, a) == ValidRequest(cfg, b)
    ensures forall k :: First(a, k) == First(b, k)
  {
    forall k ensures First(a, k) == First(b, k) {
      assert ValuesOf(a, k) == ValuesOf(b, k);
    }
  }

  // --- the shared state -------------------------------------------------------

  /**
    A request a wallet pushed: who proved to be the sender, what it sent, when, and under which identifier it was
    kept.
   */
  datatype Push = Push(client: GoString, form: seq<Pair>, at: int, id: GoString)

  /** A request that popped an item and has not answered yet. */
  datatype Claim = Claim(item: PARItem, origin: nat, clientID: GoString, at: int)

  /**
    A redirect to the delegate path: its query, the push it came from, the client named beside the request_uri, the
    time of the Pop.
   */
  datatype Delegated = Delegated(query: GoString, push: Option<nat>, clientID: GoString, at: int)

  datatype Shared = Shared(now: int, pars: Table<PARItem>, claims: map<nat, Claim>, pushes: seq<Push>,
                           delegations: seq<Delegated>)

  const EMPTY: Shared := Shared(0, map[], map[], [], [])

  /** attested is the client a verified attestation names; None when no verifier is configured or it refuses. */
  datatype PushRequest = PushRequest(attested: Option<GoString>, body: GoString, id: GoString, setFails: bool)

  datatype Move =
    | Wait(d: nat)
    | PushOne(push: PushRequest)
    | Present(req: nat, rawQuery: GoString, popFails: bool)
    | Finish(req: nat)

  // --- the endpoints -----------------------------------------------------------

  /** What par may find wrong, in the order in which it looks. */
  datatype PushError =
    | NotAttested | NoClientID | OtherClient | UnknownClient | BadRedirectURI | BadResponseType
    | BadCodeChallenge | BadChallengeMethod | UnsupportedScope | StoreFailed

  function FirstPushError(cfg: Config, r: PushRequest): Option<PushError> {
    var form := Parse(r.body);
    var id, uri, challenge := First(form, CLIENT_ID), First(form, REDIRECT_URI), First(form, CODE_CHALLENGE);
    if r.attested.None? then Some(NotAttested)
    else if id.None? || id.value == [] then Some(NoClientID)
    else if r.attested != id then Some(OtherClient)
    else if id.value !in cfg.clients then Some(UnknownClient)
    else if uri.None? || uri.value !in cfg.clients[id.value].redirectURIs then Some(BadRedirectURI)
    else if First(form, RESPONSE_TYPE) != Some(CODE) then Some(BadResponseType)
    else if challenge.None? || |challenge.value| < 43 || 128 < |challenge.value| then Some(BadCodeChallenge)
    else if First(form, CODE_CHALLENGE_METHOD) != Some(S256) then Some(BadChallengeMethod)
    else if First(form, SCOPE).None? || !Scopes.IsSupported(cfg.scopes, First(form, SCOPE).value) then
      Some(UnsupportedScope)
    else None
  }

  /** Nothing wrong is exactly a valid request of the attested client. */
  lemma AcceptedExactlyWithoutError(cfg: Config, r: PushRequest)
    ensures FirstPushError(cfg, r).None? <==> PushAccepted(cfg, r)
  {
    hide First, Parse, Scopes.IsSupported;
  }

  /** The checks that both endpoints end with, in the order of the source. */
  function CodeFlowChecks(cfg: Config, q: seq<Pair>): (checks: seq<bool>)
    ensures |checks| == 4
  {
    var challenge, scope := First(q, "code_challenge"), First(q, "scope");
    [First(q, "response_type") == Some("code"), challenge.Some? && 43 <= |challenge.value| <= 128,
     First(q, "code_challenge_method") == Some("S256"),
     scope.Some? && (exists p :: p in Split(scope.value, ' ') && p != [])
     && forall p :: p in Split(scope.value, ' ') && p != [] ==> p in cfg.scopes]
  }

  /** The checks of par before them. */
  function PushChecks(cfg: Config, attested: Option<GoString>, q: seq<Pair>): (checks: seq<bool>)
    ensures |checks| == 5
  {
    var client, redirect := First(q, "client_id"), First(q, "redirect_uri");
    [attested.Some?, client.Some? && client.value != [], attested == client,
     client.Some? && client.value in cfg.clients,
     client.Some? && client.value in cfg.clients && redirect.Some?
     && redirect.value in cfg.clients[client.value].redirectURIs]
  }

  /** Which check fails first, if any does. */
  function FirstFailed(checks: seq<bool>): (k: nat)
    ensures k <= |checks| && (k < |checks| ==> !checks[k]) && forall j :: 0 <= j < k ==> checks[j]
  {
    if checks == [] || !checks[0] then 0 else 1 + FirstFailed(checks[1..])
  }

  lemma CodeFlowFails(cfg: Config, q: seq<Pair>)
    ensures var k := FirstFailed(CodeFlowChecks(cfg, q));
            FirstComplaint(cfg, q) == if k == 0 then Some(NotCode)
                                      else if k == 1 then Some(BadChallenge)
                                      else if k == 2 then Some(NotS256)
                                      else if k == 3 then Some(BadScope) else None
  {
    hide First, Scopes.IsSupported, FirstFailed;
    if First(q, "scope").Some? {
      Scopes.SupportedByPieces(cfg.scopes, First(q, "scope").value);
    }
    var checks := CodeFlowChecks(cfg, q);
    var k := FirstFailed(checks);
    assert k < 4 ==> !checks[k];
    assert forall j :: 0 <= j < k ==> checks[j];
    assert checks[0] <==> First(q, RESPONSE_TYPE) == Some(CODE);
    assert checks[1] <==> First(q, CODE_CHALLENGE).Some? && 43 <= |First(q, CODE_CHALLENGE).value| <= 128;
    assert checks[2] <==> First(q, CODE_CHALLENGE_METHOD) == Some(S256);
    assert checks[3] <==> First(q, SCOPE).Some? && Scopes.IsSupported(cfg.scopes, First(q, SCOPE).value);
  }

  /** par reports the first check that fails, and each check has an error of its own. */
  lemma {:induction false} PushErrorsInOrder(cfg: Config, r: PushRequest)
    ensures var q := Parse(r.body);
            var k := FirstFailed(PushChecks(cfg, r.attested, q) + CodeFlowChecks(cfg, q));
            FirstPushError(cfg, r) == if k == 0 then Some(NotAttested)
                                      else if k == 1 then Some(NoClientID)
                                      else if k == 2 then Some(OtherClient)
                                      else if k == 3 then Some(UnknownClient)
                                      else if k == 4 then Some(BadRedirectURI)
                                      else if k == 5 then Some(BadResponseType)
                                      else if k == 6 then Some(BadCodeChallenge)
                                      else if k == 7 then Some(BadChallengeMethod)
                                      else if k == 8 then Some(UnsupportedScope) else None
  {
    hide First, Parse, Scopes.IsSupported, FirstFailed;
    var q := Parse(r.body);
    var a, b := PushChecks(cfg, r.attested, q), CodeFlowChecks(cfg, q);
    var k := FirstFailed(a + b);
    assert forall i :: 0 <= i < 5 ==> a[i] == (a + b)[i];
    assert k < 5 ==> !a[k];
    assert forall j :: 0 <= j < k && j < 5 ==> a[j];
    assert a[0] <==> r.attested.Some?;
    var client, redirect := First(q, CLIENT_ID), First(q, REDIRECT_URI);
    assert a[1] <==> client.Some? && client.value != [];
    assert a[2] <==> r.attested == client;
    assert a[3] <==> client.Some? && client.value in cfg.clients;
    assert a[4] <==> client.Some? && client.value in cfg.clients && redirect.Some?
                     && redirect.value in cfg.clients[client.value].redirectURIs;
    if k >= 5 {
      FailsLater(a, b);
      CodeFlowFails(cfg, q);
    }
  }

  lemma {:induction false} FailsLater(a: seq<bool>, b: seq<bool>)
    requires forall i :: 0 <= i < |a| ==> a[i]
    ensures FirstFailed(a + b) == |a| + FirstFailed(b)
  {
    if a == [] {
      assert a + b == b;
    } else {
      assert (a + b)[1..] == a[1..] + b;
      FailsLater(a[1..], b);
    }
  }

  /** par's checks. */
  predicate PushAccepted(cfg: Config, r: PushRequest) {
    r.attested.Some? && First(Parse(r.body), CLIENT_ID) == r.attested && ValidRequest(cfg, Parse(r.body))
  }

  ghost function DoPush(cfg: Config, s: Shared, r: PushRequest): Shared {
    if !PushAccepted(cfg, r) || r.setFails then s
    else
      var item := PARItem(r.attested.value, Encode(FormOf(Parse(r.body))));
      s.(pars := s.pars[r.id := Entry(item, s.now + cfg.parTTL, |s.pushes|)],
         pushes := s.pushes + [Push(r.attested.value, Parse(r.body), s.now, r.id)])
  }

  /** What authorizationV3 answers. */
  datatype Outcome = BadRequest | ErrorTo(location: GoString) | DelegateTo(query: GoString)

  /** What authorizationV3 may find wrong once the redirect URI is known to be the client's. */
  datatype Complaint = NotCode | BadChallenge | NotS256 | BadScope

  function ErrorCode(c: Complaint): GoString {
    match c
    case NotCode => "unsupported_response_type"
    case BadChallenge => "invalid_request"
    case NotS256 => "invalid_request"
    case BadScope => "invalid_scope"
  }

  function Description(c: Complaint): GoString {
    match c
    case NotCode => "only response_type=code is supported"
    case BadChallenge => "code_challenge is required (43-128 chars)"
    case NotS256 => "code_challenge_method must be S256"
    case BadScope => "unsupported scope"
  }

  /** The checks after the redirect URI, in their order. */
  function FirstComplaint(cfg: Config, q: seq<Pair>): Option<Complaint> {
    var challenge := First(q, CODE_CHALLENGE);
    if First(q, RESPONSE_TYPE) != Some(CODE) then Some(NotCode)
    else if challenge.None? || |challenge.value| < 43 || 128 < |challenge.value| then Some(BadChallenge)
    else if First(q, CODE_CHALLENGE_METHOD) != Some(S256) then Some(NotS256)
    else if First(q, SCOPE).None? || !Scopes.IsSupported(cfg.scopes, First(q, SCOPE).value) then Some(BadScope)
    else None
  }

  /** The part of authorizationV3 that takes the parameters from the query itself. */
  ghost function Direct(cfg: Config, rawQuery: GoString): Outcome {
    var q := Parse(rawQuery);
    if cfg.requirePAR || !RedirectRegistered(cfg, q) then BadRequest
    else
      match FirstComplaint(cfg, q)
      case None => DelegateTo(rawQuery)
      case Some(c) =>
        var uri, state := First(q, REDIRECT_URI).value, First(q, ErrorRedirect.STATE);
        ErrorTo(ErrorRedirect.ErrorUrl(uri, state, ErrorCode(c), Description(c)))
  }

  /**
    A direct request of a registered redirect URI reports the first check that fails there, as the parameters error
    and error_description, with its own state if that is not empty.
   */
  lemma {:induction false} ComplaintsInOrder(cfg: Config, rawQuery: GoString)
    requires !cfg.requirePAR && RedirectRegistered(cfg, Parse(rawQuery))
    ensures var q := Parse(rawQuery);
            var k := FirstFailed(CodeFlowChecks(cfg, q));
            match Direct(cfg, rawQuery)
            case DelegateTo(d) => k == 4 && d == rawQuery
            case ErrorTo(url) =>
              k < 4 && url == ToldAt(First(q, "redirect_uri"), Told(First(q, "state"), k))
            case BadRequest => false
  {
    hide First, Parse, Scopes.IsSupported, EncodePairs, Encode, ErrorRedirect.ErrorValues, CodeFlowChecks, Told,
         ErrorCode, Description;
    var q := Parse(rawQuery);
    CodeFlowFails(cfg, q);
    var k := FirstFailed(CodeFlowChecks(cfg, q));
    if k < 4 {
      var c := FirstComplaint(cfg, q).value;
      ErrorRedirect.ErrorValuesSorted(First(q, "state"), ErrorCode(c), Description(c));
      ToldAs(First(q, "state"), k, c);
    }
  }

  /** The redirect URI with parameters appended. */
  function ToldAt(uri: Option<GoString>, told: seq<Pair>): GoString {
    match uri case None => [] case Some(u) => u + [if '?' in u then '&' else '?'] + EncodePairs(told)
  }

  /** What the redirect says when the k-th of the four checks fails. */
  function Told(state: Option<GoString>, k: nat): seq<Pair> {
    var code: GoString := if k == 0 then "unsupported_response_type" else if k < 3 then "invalid_request"
                          else "invalid_scope";
    var description: GoString := if k == 0 then "only response_type=code is supported"
                                 else if k == 1 then "code_challenge is required (43-128 chars)"
                                 else if k == 2 then "code_challenge_method must be S256"
                                 else "unsupported scope";
    var error: GoString, error_description: GoString := "error", "error_description";
    [(error, code), (error_description, description)] + StateBack(state)
  }

  function StateBack(state: Option<GoString>): seq<Pair> {
    var name: GoString := "state";
    if state.Some? && state.value != [] then [(name, state.value)] else []
  }

  lemma ToldAs(state: Option<GoString>, k: nat, c: Complaint)
    requires c == if k == 0 then NotCode else if k == 1 then BadChallenge else if k == 2 then NotS256 else BadScope
    ensures ErrorRedirect.ErrorPairs(state, ErrorCode(c), Description(c)) == Told(state, k)
  {
    assert ErrorRedirect.ERROR_DESCRIPTION == "error_description";
  }

  /** The request_uri a query presents; an empty one counts as none. */
  function RequestURI(q: seq<Pair>): Option<GoString> {
    var u := First(q, REQUEST_URI);
    if u.Some? && u.value != [] then u else None
  }

  /** What authorizationV3FromPAR pops, with the client_id that has to come beside it. */
  function PARKey(q: seq<Pair>): Option<(GoString, GoString)> {
    var u, c := RequestURI(q), First(q, CLIENT_ID);
    if u.None? || c.None? || c.value == [] || !HasPrefix(u.value, PAR_URN_PREFIX) then None
    else Some((u.value[|PAR_URN_PREFIX|..], c.value))
  }

  ghost function DoPresent(cfg: Config, s: Shared, req: nat, rawQuery: GoString, popFails: bool): Shared {
    var q := Parse(rawQuery);
    if RequestURI(q).None? then
      if Direct(cfg, rawQuery).DelegateTo? then
        s.(delegations := s.delegations + [Delegated(rawQuery, None, First(q, CLIENT_ID).value, s.now)])
      else s
    else
      match PARKey(q)
      case None => s
      case Some(key) =>
        match if popFails then None else Lookup(s.pars, key.0, s.now)
        case None => s
        case Some(e) => s.(pars := s.pars - {key.0}, claims := s.claims[req := Claim(e.value, e.origin, key.1, s.now)])
  }

  /** Which query presents a pushed request: one with its URN as request_uri and a client_id beside it. */
  lemma {:induction false} KeyIsInTheURN(q: seq<Pair>, id: GoString, client: GoString)
    ensures PARKey(q) == Some((id, client)) <==>
              && First(q, "request_uri") == Some("urn:ietf:params:oauth:request_uri:" + id)
              && First(q, "client_id") == Some(client) && client != []
  {
    hide First;
    assert |PAR_URN_PREFIX| > 0;
    if PARKey(q) == Some((id, client)) {
      assert First(q, REQUEST_URI).value == PAR_URN_PREFIX + First(q, REQUEST_URI).value[|PAR_URN_PREFIX|..];
    }
  }

  /**
    What a request at the authorization endpoint does. With a request_uri it takes a live pushed request out of the
    cache, if it presents one and the cache works, to be delegated or not; otherwise nothing changes. Without one it is
    delegated at once, as it is, exactly if it is in order and pushing is not required.
   */
  lemma {:induction false} PresentsExactly(cfg: Config, s: Shared, req: nat, rawQuery: GoString, popFails: bool)
    ensures var s', q := DoPresent(cfg, s, req, rawQuery, popFails), Parse(rawQuery);
            var uri := First(q, "request_uri");
            if uri.Some? && uri.value != [] then
              match PARKey(q)
              case None => s' == s
              case Some((id, client)) =>
                if popFails || id !in s.pars || s.pars[id].expires <= s.now then s' == s
                else s' == s.(pars := s.pars - {id},
                              claims := s.claims[req := Claim(s.pars[id].value, s.pars[id].origin, client, s.now)])
            else if !cfg.requirePAR && InOrder(cfg, q) then
              && First(q, "client_id").Some?
              && s' == s.(delegations := s.delegations
                                         + [Delegated(rawQuery, None, First(q, "client_id").value, s.now)])
            else s' == s
  {
    hide First, Parse, Scopes.IsSupported, ValidRequest, HasPrefix, ErrorCode, Description, ErrorRedirect.ErrorUrl;
    ValidExactly(cfg, Parse(rawQuery));
    DirectDelegatesExactly(cfg, rawQuery);
    hide Direct;
  }

  lemma DirectDelegatesExactly(cfg: Config, rawQuery: GoString)
    ensures Direct(cfg, rawQuery).DelegateTo? <==> !cfg.requirePAR && ValidRequest(cfg, Parse(rawQuery))
    ensures Direct(cfg, rawQuery).DelegateTo? ==> Direct(cfg, rawQuery).query == rawQuery
  {
    hide First, Parse, Scopes.IsSupported, ErrorCode, Description, ErrorRedirect.ErrorUrl;
  }

  function DoFinish(s: Shared, req: nat): Shared
    requires req in s.claims
  {
    var c := s.claims[req];
    s.(claims := s.claims - {req},
       delegations := if c.item.clientID != c.clientID then s.delegations
                      else s.delegations + [Delegated(c.item.rawQuery, Some(c.origin), c.clientID, c.at)])
  }

  /** ULIDs are new; requests are told apart. */
  predicate CanMove(s: Shared, m: Move) {
    match m
    case Wait(_) => true
    case PushOne(r) => forall i :: 0 <= i < |s.pushes| ==> s.pushes[i].id != r.id
    case Present(req, _, _) => req !in s.claims
    case Finish(req) => req in s.claims
  }

  ghost function Do(cfg: Config, s: Shared, m: Move): Shared
    requires CanMove(s, m)
  {
    match m
    case Wait(d) => s.(now := s.now + d)
    case PushOne(r) => DoPush(cfg, s, r)
    case Present(req, rawQuery, popFails) => DoPresent(cfg, s, req, rawQuery, popFails)
    case Finish(req) => DoFinish(s, req)
  }

  ghost function After(cfg: Config, ms: seq<Move>): Option<Shared> {
    if ms == [] then Some(EMPTY)
    else
      match After(cfg, ms[..|ms| - 1])
      case None => None
      case Some(s) => if CanMove(s, ms[|ms| - 1]) then Some(Do(cfg, s, ms[|ms| - 1])) else None
  }

  // --- the invariant -------------------------------------------------------------

  /** What is kept for a push is what the attested client sent, and it was in order. */
  ghost predicate Faithful(cfg: Config, item: PARItem, p: Push) {
    && item == PARItem(p.client, Encode(FormOf(p.form)))
    && ValidRequest(cfg, p.form) && Proper(p.form) && First(p.form, CLIENT_ID) == Some(p.client)
  }

  ghost predicate StoredFaithfully(cfg: Config, s: Shared) {
    forall id :: id in s.pars ==>
      var e := s.pars[id];
      e.origin < |s.pushes| && Faithful(cfg, e.value, s.pushes[e.origin])
      && s.pushes[e.origin].id == id && e.expires == s.pushes[e.origin].at + cfg.parTTL
  }

  ghost predicate ClaimedFaithfully(cfg: Config, s: Shared) {
    forall req :: req in s.claims ==>
      var c := s.claims[req];
      c.origin < |s.pushes| && Faithful(cfg, c.item, s.pushes[c.origin]) && c.at < s.pushes[c.origin].at + cfg.parTTL
  }

  ghost predicate Sound(cfg: Config, s: Shared, d: Delegated) {
    match d.push
    case None => !cfg.requirePAR && ValidRequest(cfg, Parse(d.query))
      && First(Parse(d.query), CLIENT_ID) == Some(d.clientID)
    case Some(o) =>
      && o < |s.pushes| && Faithful(cfg, PARItem(d.clientID, d.query), s.pushes[o])
      && d.at < s.pushes[o].at + cfg.parTTL
  }

  ghost predicate DelegatedSoundly(cfg: Config, s: Shared) {
    forall i :: 0 <= i < |s.delegations| ==> Sound(cfg, s, s.delegations[i])
  }

  predicate IdsDistinct(s: Shared) {
    forall i, j :: 0 <= i < j < |s.pushes| ==> s.pushes[i].id != s.pushes[j].id
  }

  /** Where a push can be: in the cache, with a request, or delegated. */
  datatype Place = Cached(id: GoString) | Claimed(req: nat) | Gone(i: nat)

  predicate IsAt(s: Shared, p: Place, o: nat) {
    match p
    case Cached(id) => id in s.pars && s.pars[id].origin == o
    case Claimed(req) => req in s.claims && s.claims[req].origin == o
    case Gone(i) => i < |s.delegations| && s.delegations[i].push == Some(o)
  }

  ghost predicate OnePlace(s: Shared) {
    && (forall p, q, o: nat :: IsAt(s, p, o) && IsAt(s, q, o) ==> p == q)
    && (forall p, o: nat :: IsAt(s, p, o) ==> o < |s.pushes|)
  }

  ghost predicate Inv(cfg: Config, s: Shared) {
    StoredFaithfully(cfg, s) && ClaimedFaithfully(cfg, s) && DelegatedSoundly(cfg, s) && IdsDistinct(s) && OnePlace(s)
  }

  lemma PushIsFaithful(cfg: Config, r: PushRequest, now: int)
    requires PushAccepted(cfg, r)
    ensures Faithful(cfg, PARItem(r.attested.value, Encode(FormOf(Parse(r.body)))),
                     Push(r.attested.value, Parse(r.body), now, r.id))
  {
    hide ValidRequest, Encode, FormOf;
    ParsedIsProper(Split(r.body, '&'));
  }

  lemma PushKeepsFaithful(cfg: Config, s: Shared, r: PushRequest)
    requires CanMove(s, PushOne(r)) && StoredFaithfully(cfg, s) && ClaimedFaithfully(cfg, s) && IdsDistinct(s)
    ensures var s' := DoPush(cfg, s, r);
            StoredFaithfully(cfg, s') && ClaimedFaithfully(cfg, s') && IdsDistinct(s')
  {
    hide Faithful, PushAccepted, Parse, Encode, FormOf;
    if PushAccepted(cfg, r) {
      PushIsFaithful(cfg, r, s.now);
    }
  }

  lemma KeepsFaithful(cfg: Config, s: Shared, m: Move)
    requires CanMove(s, m) && StoredFaithfully(cfg, s) && ClaimedFaithfully(cfg, s) && IdsDistinct(s)
    ensures var s' := Do(cfg, s, m);
            StoredFaithfully(cfg, s') && ClaimedFaithfully(cfg, s') && IdsDistinct(s')
  {
    hide Faithful, Direct, PARKey, RequestURI, Parse, First, DoPush;
    match m
    case PushOne(r) => PushKeepsFaithful(cfg, s, r);
    case _ =>
  }

  lemma KeepsSound(cfg: Config, s: Shared, m: Move)
    requires CanMove(s, m) && ClaimedFaithfully(cfg, s) && DelegatedSoundly(cfg, s)
    ensures DelegatedSoundly(cfg, Do(cfg, s, m))
  {
    hide Faithful, RequestURI, Parse, First;
    var s' := Do(cfg, s, m);
    assert s.pushes <= s'.pushes;
    forall i | 0 <= i < |s'.delegations| ensures Sound(cfg, s', s'.delegations[i]) {
      if i < |s.delegations| {
        assert s'.delegations[i] == s.delegations[i];
        assert Sound(cfg, s, s.delegations[i]);
      }
    }
  }

  /** Where a push was before the move that put it where it is. */
  function Formerly(s: Shared, m: Move, p: Place): Place {
    match m
    case Present(req, rawQuery, _) =>
      if p == Claimed(req) && PARKey(Parse(rawQuery)).Some? then Cached(PARKey(Parse(rawQuery)).value.0) else p
    case Finish(req) => if p == Gone(|s.delegations|) then Claimed(req) else p
    case _ => p
  }

  lemma KeepsOnePlace(cfg: Config, s: Shared, m: Move)
    requires CanMove(s, m) && OnePlace(s)
    ensures OnePlace(Do(cfg, s, m))
  {
    hide Direct, PARKey, RequestURI, Parse, First, PushAccepted, Encode, FormOf;
    var s' := Do(cfg, s, m);
    forall p, o: nat | IsAt(s', p, o)
      ensures IsAt(s, Formerly(s, m, p), o) || (m.PushOne? && o == |s.pushes| && p == Cached(m.push.id))
    {
    }
  }

  lemma {:induction false} RunInv(cfg: Config, ms: seq<Move>)
    requires After(cfg, ms).Some?
    ensures Inv(cfg, After(cfg, ms).value)
  {
    if ms != [] {
      var front := ms[..|ms| - 1];
      RunInv(cfg, front);
      var s := After(cfg, front).value;
      KeepsFaithful(cfg, s, ms[|ms| - 1]);
      KeepsSound(cfg, s, ms[|ms| - 1]);
      KeepsOnePlace(cfg, s, ms[|ms| - 1]);
    }
  }

  // --- results ----------------------------------------------------------------------

  /** A kept query parses back to what was pushed. */
  lemma {:induction false} KeptQueryIsThePushedForm(cfg: Config, item: PARItem, p: Push)
    requires Faithful(cfg, item, p)
    ensures SameValues(Parse(item.rawQuery), p.form) && ValidRequest(cfg, Parse(item.rawQuery))
    ensures First(Parse(item.rawQuery), CLIENT_ID) == Some(p.client)
  {
    GroupingIsUnique(FormOf(p.form), p.form);
    EncodedFormParsesBack(p.form, FormOf(p.form));
    SameValuesSameValidity(cfg, Parse(item.rawQuery), p.form);
  }

  /**
    What a push keeps, exactly if it comes from its attested client, is in order and the cache works: what was sent,
    value by value, under its identifier for the lifetime, as that client's.
   */
  lemma {:induction false} PushKeepsWhatWasSent(cfg: Config, s: Shared, r: PushRequest)
    ensures var s', sent := DoPush(cfg, s, r), Parse(r.body);
            if r.attested.Some? && First(sent, "client_id") == r.attested && InOrder(cfg, sent) && !r.setFails then
              && r.id in s'.pars && SameValues(Parse(s'.pars[r.id].value.rawQuery), sent)
              && s'.pars[r.id].value.clientID == r.attested.value
              && s' == s.(pars := s.pars[r.id := Entry(s'.pars[r.id].value, s.now + cfg.parTTL, |s.pushes|)],
                          pushes := s.pushes + [Push(r.attested.value, sent, s.now, r.id)])
            else s' == s
  {
    hide First, Parse, ValidRequest, InOrder, Encode, FormOf, Faithful, SameValues;
    ValidExactly(cfg, Parse(r.body));
    if PushAccepted(cfg, r) {
      PushIsFaithful(cfg, r, s.now);
      KeptQueryIsThePushedForm(cfg, PARItem(r.attested.value, Encode(FormOf(Parse(r.body)))),
                               Push(r.attested.value, Parse(r.body), s.now, r.id));
    }
  }

  /**
    In every interleaving, whatever is delegated is a request in order: a known client, a redirect URI registered for
    it, response_type code, an S256 challenge of 43 to 128 characters, and a scope whose every piece is configured.
   */
  lemma EveryDelegationIsValid(cfg: Config, ms: seq<Move>, i: nat)
    requires After(cfg, ms).Some? && i < |After(cfg, ms).value.delegations|
    ensures InOrder(cfg, Parse(After(cfg, ms).value.delegations[i].query))
  {
    ValidExactly(cfg, Parse(After(cfg, ms).value.delegations[i].query));
    RunInv(cfg, ms);
    var s := After(cfg, ms).value;
    var d := s.delegations[i];
    assert Sound(cfg, s, d);
    if d.push.Some? {
      KeptQueryIsThePushedForm(cfg, PARItem(d.clientID, d.query), s.pushes[d.push.value]);
    }
  }

  /**
    A delegation by request_uri carries, key by key and value by value, what the attested client pushed;
    the client that presented it is that client; and it was presented within the lifetime of the push.
   */
  lemma DelegatedAsPushed(cfg: Config, ms: seq<Move>, i: nat)
    requires After(cfg, ms).Some? && i < |After(cfg, ms).value.delegations|
    requires After(cfg, ms).value.delegations[i].push.Some?
    ensures var s := After(cfg, ms).value;
            var d := s.delegations[i];
            && d.push.value < |s.pushes|
            && var p := s.pushes[d.push.value];
               && SameValues(Parse(d.query), p.form)
               && d.clientID == p.client && First(Parse(d.query), CLIENT_ID) == Some(p.client)
               && d.at < p.at + cfg.parTTL
  {
    RunInv(cfg, ms);
    var s := After(cfg, ms).value;
    var d := s.delegations[i];
    assert Sound(cfg, s, d);
    KeptQueryIsThePushedForm(cfg, PARItem(d.clientID, d.query), s.pushes[d.push.value]);
  }

  /** Section 4 of RFC 9126: in every interleaving a request_uri delegates at most once. */
  lemma RequestURIsAreSingleUse(cfg: Config, ms: seq<Move>, i: nat, j: nat)
    requires After(cfg, ms).Some? && i < j < |After(cfg, ms).value.delegations|
    requires After(cfg, ms).value.delegations[i].push.Some? && After(cfg, ms).value.delegations[j].push.Some?
    ensures var s := After(cfg, ms).value;
            var o, q := s.delegations[i].push.value, s.delegations[j].push.value;
            o < |s.pushes| && q < |s.pushes| && s.pushes[o].id != s.pushes[q].id
  {
    RunInv(cfg, ms);
    var s := After(cfg, ms).value;
    var o, q := s.delegations[i].push.value, s.delegations[j].push.value;
    assert IsAt(s, Gone(i), o) && IsAt(s, Gone(j), q);
    assert Gone(i) != Gone(j);
  }

  /** With RequirePAR every delegation came from a push. */
  lemma {:induction false} RequirePARMeansPushed(cfg: Config, ms: seq<Move>, i: nat)
    requires After(cfg, ms).Some? && i < |After(cfg, ms).value.delegations|
    requires cfg.requirePAR
    ensures After(cfg, ms).value.delegations[i].push.Some?
  {
    RunInv(cfg, ms);
    assert Sound(cfg, After(cfg, ms).value, After(cfg, ms).value.delegations[i]);
  }

  /**
    A kept request delegates when it is presented in time, and exactly for the client that pushed it;
    presented by anyone else it is used up for nothing.
   */
  lemma PresentingDelegatesExactly(cfg: Config, ms: seq<Move>, id: GoString, req: nat, rawQuery: GoString)
    requires After(cfg, ms).Some?
    requires var s := After(cfg, ms).value; Lookup(s.pars, id, s.now).Some? && req !in s.claims
    requires PARKey(Parse(rawQuery)).Some? && PARKey(Parse(rawQuery)).value.0 == id
    ensures var s := After(cfg, ms).value;
            var s2 := DoFinish(DoPresent(cfg, s, req, rawQuery, false), req);
            && id !in s2.pars && s.pars[id].origin < |s.pushes|
            && var p := s.pushes[s.pars[id].origin];
            && (|s2.delegations| > |s.delegations| <==> First(Parse(rawQuery), CLIENT_ID) == Some(p.client))
            && (|s2.delegations| > |s.delegations| ==>
                  SameValues(Parse(s2.delegations[|s.delegations|].query), p.form))
  {
    hide RequestURI, HasPrefix, ValidRequest, Parse;
    RunInv(cfg, ms);
    var s := After(cfg, ms).value;
    var e := s.pars[id];
    KeptQueryIsThePushedForm(cfg, e.value, s.pushes[e.origin]);
  }

  /**
    Answers to a direct request. It is delegated exactly when it is valid. An error is reported at a
    redirect URI registered for the known client in the request and nowhere else, where the client
    finds it beside its own parameters exactly if that URI has no fragment.
   */
  lemma {:induction false} DirectAnswers(cfg: Config, rawQuery: GoString)
    ensures var q := Parse(rawQuery);
            match Direct(cfg, rawQuery)
            case DelegateTo(d) => d == rawQuery && !cfg.requirePAR && ValidRequest(cfg, q)
            case ErrorTo(url) =>
              && RedirectRegistered(cfg, q) && !ValidRequest(cfg, q) && FirstComplaint(cfg, q).Some?
              && var uri, c := First(q, REDIRECT_URI).value, FirstComplaint(cfg, q).value;
                 var told := ErrorRedirect.ErrorPairs(First(q, ErrorRedirect.STATE), ErrorCode(c), Description(c));
                 ErrorRedirect.Params(url) == ErrorRedirect.Params(uri) + told <==> '#' !in uri
            case BadRequest => cfg.requirePAR || !RedirectRegistered(cfg, q)
  {
    hide ErrorCode, Description, Scopes.IsSupported, Parse, First, ErrorRedirect.Params, ErrorRedirect.ErrorPairs;
    var q := Parse(rawQuery);
    if Direct(cfg, rawQuery).ErrorTo? {
      var c := FirstComplaint(cfg, q).value;
      ErrorRedirect.ErrorReachesClient(First(q, REDIRECT_URI).value, First(q, ErrorRedirect.STATE), ErrorCode(c),
                                       Description(c));
    }
  }

  /**
    What the endpoint let through, the library's own validation of the code flow lets through, and its scope is saved.
   */
  lemma DelegatedRequestIsAccepted(cfg: Config, s: State, r: AuthorizeRequest)
    requires ValidRequest(cfg, r.query) && First(r.query, CLIENT_ID) == Some(r.clientID)
    ensures var (s', ok) := SaveState(cfg, s, r);
            && ok == !r.setFails
            && (ok ==> r.state in s'.states && Some(s'.states[r.state].value.scope) == First(r.query, SCOPE)
                       && s'.states[r.state].value.responseType == CODE)
  {
  }
}
