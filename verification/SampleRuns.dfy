/**
  The start of the runs that show what fails: any accepted authorize request, then a provider's return with extra
  claims.
 */
module SampleRuns {
  import opened GoStrings
  import opened Items
  import opened FormEncoding
  import opened Grants
  import opened Lifecycle
  import opened SharedMaps
  import Attestation

  /** A parameter of an accepted request. */
  function Parameter(a: AuthorizeRequest, name: GoString): GoString {
    match First(a.query, name) case None => [] case Some(v) => v
  }

  /** The return for the session that the request started: its state, client, redirect URI and challenge. */
  function SampleReturn(a: AuthorizeRequest): CallbackRequest {
    CallbackRequest(a.state, "c", a.clientID, Parameter(a, "redirect_uri"), Parameter(a, "code_challenge"), S256,
                    "u", [], [], [], Some("e"), false, false)
  }

  predicate IsSampleItem(a: AuthorizeRequest, item: CodeItemV) {
    && item.code == "c" && item.clientID == a.clientID && item.redirectURI == Parameter(a, "redirect_uri")
    && !item.noTXCode
    && item.codeChallengeMethod == S256 && item.codeChallenge == Parameter(a, "code_challenge")
  }

  /** The state after the return: one code, live, with a map that holds no key, and nothing else. */
  predicate SampleState(a: AuthorizeRequest, s: State) {
    && s.now == 0 && s.txCodes == map[] && s.refresh == map[] && s.sessions == map[]
    && s.codes.Keys == {"c"} && 0 < s.codes["c"].expires && s.codes["c"].origin == 1
    && IsSampleItem(a, s.codes["c"].value)
    && s.codes["c"].value.session.meta == Some(map[EXTRA_CLAIMS := "e"])
    && |s.log| == 2 && s.log[0].StateSaved? && s.log[1] == CodeStored(s.codes["c"].value, 0)
  }

  lemma ReturnRun(cfg: Config, a: AuthorizeRequest) returns (ops: seq<Op>)
    requires ValidConfig(cfg) && Acts(cfg, INITIAL, Authorize(a))
    ensures ops == [Authorize(a), Callback(SampleReturn(a))]
    ensures Run(cfg, ops) && SampleState(a, Exec(cfg, ops))
  {
    hide ParametersValid;
    ops := [];
    RunExtends(cfg, ops, Authorize(a));
    ops := ops + [Authorize(a)];
    RunExtends(cfg, ops, Callback(SampleReturn(a)));
    ops := ops + [Callback(SampleReturn(a))];
  }

  /** A wallet's pre-authorized request for the sample code with a zero for its tx_code. */
  function WalletRequest(jkt: GoString, session: GoString, deleteFails: bool): PreAuthRequest {
    PreAuthRequest(Some(Wallet(true, Some(Attestation.Result("w", [])), false)), "c", "0", None, jkt, session,
                   NO_FAULTS.(delete := deleteFails))
  }

  lemma PassesPreAuthChecks(cfg: Config, a: AuthorizeRequest, s: State, r: PreAuthRequest)
    requires r == WalletRequest(r.jkt, r.newSession, r.faults.delete) && r.jkt != []
    requires "c" in s.codes && s.now < s.codes["c"].expires && IsSampleItem(a, s.codes["c"].value)
             && s.txCodes == map[]
    ensures EarlyPreAuthRefusal(cfg, s.codes, s.now, r).None? && !TxCodeRefused(s, r) && !NeedsDPoP(cfg, r)
    ensures ItemAt(s.codes, "c", s.now, None) == s.codes["c"].value && TemplateOf(s, "c") == s.codes["c"].value.session
    ensures OriginAt(s.codes, "c", s.now) == Some(s.codes["c"].origin)
  {
    assert Itoa(0) == "0";
  }
}
