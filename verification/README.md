# idauth: a verified model of the authorization server's protocol core

idauth is an OAuth 2.0 authorization server for wallets. It hands out authorization codes after a
provider has identified the user, pre-authorized codes for credential offers, and refresh tokens that
rotate; tokens may be bound to a key (DPoP); clients may be wallets that prove an attestation; requests
may be pushed ahead of time. This project models that core in Dafny and proves what it is for.

`dafny verify dfyconfig.toml` checks everything.

## How it is organised

**The token lifecycle.** `Grants` gives the effect of each handler on values: a `State` holds the caches
(tables of value, expiry and origin), the sessions and a log of events. `Lifecycle` runs any sequence of
requests, handled one at a time, with the clock moving between them and any storage operation free to
fail; it reduces every handler to small steps, `Invariants` carries the invariants over all runs, and
`SingleUse`, `Backing`, `TxCodes`, `RunTheorems` and `WalletChain` state what follows: when a code can back a
second grant, what came with each grant, for which offers a tx_code precedes the grant, that refresh chains
keep client, scope, subject and key, that scopes come from the allowlist, that an active wallet never loses
its chain. `GrantRules` writes the three grants out, on the fields of requests, items and sessions: when each is
granted, what it answers otherwise, what it gives and what it leaves. `Provenance` follows what a token stands for
through whole runs, from the request that stored its code to the last session of its refresh family.

**Shared maps.** In the server a session's metadata is a Go map, a reference. Caches and the session store
may keep and hand out the map they hold or a copy, and the handlers write `dpop_jkt` into it. `SharedMaps`
says what such a write does: it marks the cached code, and every session tied to it, before the handler
goes on. `SharedRuns` runs a server with any sharing and any faults and shows that answers, history and
caches are those of the run on values but for the contents of maps, so that every result about the history
holds of every server. `KeyBinding` states exactly when sharing leaves a trace and when introspection
reports the key a grant was answered for; `SharedFaults` has the runs in which it does not.

**The handlers in place.** `StoreModel` has `Store`, `SessionStore` and `Metadata` as classes; `MapViews`
reads them as values and keeps track of who shares a map with whom; `TokenHandlers` and `AuthorizeHandlers`
have the handlers as methods that update them step by step, and prove that each leaves exactly the
specified state, for every combination of faults and of sharing. `ServerRuns` puts them together: a new
server is the start of a run, each call moves it to the next point of the run.

**The endpoints.** `TokenEndpoint` puts the two verifiers in front of the handlers: the DPoP proof, then the
attestation, each against its own jti cache, decide what the handler is given; pushed requests and client
credentials use the same caches. `TokenGates` says when a cache lets a call pass, `TokenProofs` which proof
came with each token response and how far apart one proof serves two, and `TokenReuse`, with the runs of
`SampleCalls`, that these bounds are exact. `TokenServer` has the endpoints as methods on real references, from
a call's headers to the handler's answer.

**Interleaving.** `Rotation` splits the refresh grant at its storage operations, `Redemption` splits both
grants on codes (`RedemptionRuns` and `RedemptionTx` build on it), and `Delegation` splits the authorization
endpoint after the atomic Pop of a pushed request; any number of requests interleave. `DelegationHandlers` has
the two endpoints as methods.

**Replay.** `ReplayTheory` describes the jti check once, for the three ways its users treat cache faults, and
`ReplayRace` splits it at its read and its write, for checks that interleave; `Dpop`, `Attestation` and
`ClientAssertion` are the three verifiers with their acceptance intervals.

**Encodings.** `GoStrings`, `Base64Url`, `Digests`, `FormEncoding`, `ErrorRedirect`, `Jwk`, `Scopes`,
`Transforms` and `Introspection` are the text functions the protocol rests on. Strings are byte strings.
SHA-256 is any function to 32 bytes; where a result needs it, "these two inputs do not collide" is a
hypothesis about exactly the inputs concerned.

## Findings

Where a property fails of the code, a lemma gives the run and another the exact condition.

- A pre-authorized grant ignores a failure to delete its code, and the code then grants again
  (`SingleUse.IgnoredDeletionFault`). An item survives the grant made on it exactly in that case
  (`Backing.ItemSurvivesExactly`), so whatever fails elsewhere, a second grant on an item means that the
  earlier one was pre-authorized and its own deletion failed (`Backing.SecondGrantNeedsAFailedDeletion`).
- If a code's map is handed out by reference and creating the session fails, the request's key stays in the
  cached code, and a later Bearer grant on it is reported as DPoP (`SharedFaults.FailedRequestLeavesItsKey`).
  If a code survives its grant and shares the session's map, a later redemption changes the key the first
  session is reported with (`SharedFaults.LaterRedemptionRekeysTheSession`). When a call leaves such a trace:
  `KeyBinding.TracesExactly`. When every report is right: `KeyBinding.HonestExactly`.
- The pre-authorized grant honours codes of the authorization flow too, and asks for no verifier: a callback's
  code is granted for a tx_code of "0" (`Backing.VerifierIsNotAskedFor`). Exactly when it grants:
  `GrantRules.PreAuthGrantsExactly`. Authorization_code grants on a stored item always came with a verifier for its
  challenge and with its redirect URI (`Backing.CodeGrantsCameWithTheVerifier`).
- An authorization_code request for an unknown code is granted, with empty scope and subject, exactly if its client
  proves who it is, it carries no verifier, no redirect URI and no attested client's name, and its read, session
  and deletion do not fail (`Backing.UnbackedGrantsExactly`, `Backing.UnbackedGrantsAreEmpty`).
- Two requests that both read a code before either deletes it are both granted
  (`RedemptionRuns.OverlappingRequestsAreBothGranted`): once such a request has read, no other stops it
  (`RedemptionRuns.TheReadDecides`). Such an overlap and the ignored deletion above are the only ways to a
  second grant, in any interleaving (`Redemption.SecondGrantHadReadBefore`).
- A missing tx_code reads as 0, so "0" is accepted for it. A tx_code may be missing because it expired before
  its code: over all runs, every offer whose tx_code was stored is guarded by it exactly when
  `auth_code_ttl <= pre_auth_ttl` (`TxCodes.TxCodesGuardExactly`); the lifetimes are configured independently,
  and the defaults meet the condition. Or because storing it failed after the offer's item was stored: that
  offer's code is granted for a "0" whatever the lifetimes (`TxCodes.LostTxRunGrants`). With the condition on
  the lifetimes, a grant on an offer came after its announced tx_code if and only if that offer's own tx_code
  was stored (`TxCodes.TxCodeGuardsGrantExactly`); a failure leaves all other offers guarded. A request that
  reads a code and compares its tx_code some time later may find it expired: where requests interleave and may
  take up to some delay for that, offers are guarded exactly when `auth_code_ttl + delay <= pre_auth_ttl`
  (`RedemptionTx.TxCodesGuardExactly`), four minutes by default.
- A refresh token presented with another key than its own is used up and refused
  (`WalletChain.TokenLeavesExactly`).
- A DPoP proof or an exp-less attestation proof can be replayed, with the cache operations of its two uses
  working, exactly when twice the window reaches the five minutes of the jti cache (`Dpop.ProofsAreSingleUse`,
  `Attestation.PoPWithoutExpIsSingleUse`). The window is configurable without that bound; the default of one
  minute is safe. Over the runs of the endpoints, on a server that serves anybody, one DPoP proof can get two
  token responses, both calls reading the cache, exactly then (`TokenReuse.ProofsBackOneTokenExactly`); proofs
  of possession have their exact bounds in `TokenReuse.PopsWithoutExpExactly` and
  `TokenReuse.PopsWithExpExactly`.
- A jti check that cannot read its cache lets the token through (`ReplayTheory.FailedReadAdmitsReplay`): at
  any window, on any such server, one failed read can give one DPoP proof two token responses at one instant
  (`TokenReuse.FailedReadReusesAProof`). Exactly when a call passes, whatever fails: `TokenGates.PassesExactly`.
- The check reads and then writes: two requests with one proof that both read before either writes both pass
  (`ReplayRace.OverlappingChecksBothPass`). A request reads past a recorded identifier only by a failed read
  or a cache lifetime later (`ReplayRace.OnlyEarlierReadsGetPast`).
- An authorization_code request removes the session whose identifier it presents as its code
  (`Backing.SessionsGoExactly`). An access token is such an identifier and no code; where nothing fails its
  session goes exactly if the request authenticates, carries no verifier and no redirect URI, and names no
  attested client (`Backing.PresentedTokenGoesExactly`).
- A client assertion without exp can always be replayed after five minutes
  (`ClientAssertion.AssertionWithoutExpIsNot`): the cap on exp at routes/token.go:257 applies only when
  reading exp fails.
- A registered redirect URI with a fragment hides every error parameter (`ErrorRedirect.ErrorReachesClient`).
- Line breaks in a JWK coordinate change the thumbprint but not the key
  (`Jwk.LineFeedChangesThumbprintOnly`): thumbprints identify keys, but not the other way round.
- None of the three grants puts a scope into the session it creates: whatever the scope of a token, introspection reports none for
  its session, unless the session library adds one (`Provenance.TemplatesHaveNoScope`, `ServerRuns.Introspect`).
- A coordinate of fewer than 32 bytes is filled up on the right, so it does not stand for the same number
  (`Jwk.PointOfShortCoordinates`).
- The comment at authorizationcode/store.go:25-27 says redemption clears the template's identity; the
  handlers overwrite it in a copy, and the stored template keeps the identity it was issued with.

## Model

| member | source | states |
|---|---|---|
| Backing.SecondGrantNeedsAFailedDeletion | authorizationcode/token.go:161-287 | in every run, whatever fails anywhere: if an item backs two grants, the operation that made the earlier one was a pre-authorized request whose own deletion failed |
| Backing.CodeGrantIsLast | authorizationcode/token.go:253-287 | an authorization_code grant is always the last grant on its item, whatever fails |
| Backing.ItemSurvivesExactly | authorizationcode/token.go:520-520 | an item is still cached after the grant on it if and only if that grant was pre-authorized and its own deletion failed |
| SingleUse.CodesAreSingleUse | authorizationcode/token.go:461-552 | the corollary for runs in which no deletion ending a pre-authorized grant fails: each item backs at most one token response over both grants |
| Backing.CodeGrantsCameWithTheVerifier | authorizationcode/token.go:161-182 | in every run the request that made an authorization_code grant on a stored item named that item's code, came with its redirect URI, and carried a verifier of its challenge, by digest for S256 the only one short of a collision |
| GrantRules.CodeGrantsExactly | authorizationcode/token.go:43-259 | an authorization_code request on a live code is granted if and only if the client proves who it is, the verifier answers the item's challenge, the redirect URI is the item's, an attested client is the item's client, and read, session and deletion do not fail |
| GrantRules.CodeRefusedAs | authorizationcode/token.go:43-259 | for every request, live code or not, which of the eleven errors is answered: the first in that order |
| GrantRules.CodeGrantGives | authorizationcode/token.go:200-287 | a grant makes one session, from the item's template, of that instant and for that key; the token has the item's scope and is DPoP exactly with a key; a DPoP grant gets a refresh token for the client, scope and key unless storing it fails; the code is gone |
| GrantRules.RefusedCodeLeaves | authorizationcode/token.go:216-259 | a refused request changes nothing, unless the code could not be deleted, and then only sessions |
| GrantRules.PreAuthRefusedAs | authorizationcode/token.go:380-510 | which error a pre-authorized request is answered with: the first in the order of the source |
| GrantRules.PreAuthGrantGives | authorizationcode/token.go:482-552 | a grant makes one session, from the item's template, of that instant and for that key; the token has the item's scope; there is no refresh token |
| GrantRules.RefusedPreAuthLeaves | authorizationcode/token.go:450-510 | a refused request changes nothing, unless it presented the stored tx_code rightly and had no session made, and then it uses the tx_code up |
| GrantRules.RefreshGrantsExactly | authorizationcode/token.go:293-352 | a refresh request is granted if and only if it has a key, presents a live token of that key, and neither read nor session fails |
| GrantRules.RefreshRefusedAs | authorizationcode/token.go:293-352 | which error it is answered with otherwise |
| GrantRules.RefreshGrantGives | authorizationcode/token.go:336-378 | a grant makes one session, from the token's template, of that instant; the next token keeps client, scope, key, person and metadata, and the old one is gone |
| GrantRules.RefusedRefreshLeaves | authorizationcode/token.go:306-352 | a refused request changes nothing, unless its token was read live, and then it uses that token up |
| Provenance.AuthorizeSavesExactly | authorizationcode/validation.go:15-89 | parameter by parameter, which authorize requests are saved, for the state lifetime, which pass unsaved and which are refused; every non-empty piece of a saved scope is configured and there is one |
| Provenance.CallbackStoresExactly | authorizationcode/authorization.go:24-80 | a live state is used up by a return that can read it, and if it is pending for a code, the item with that request's client, redirect URI, challenge, person and claims is stored for the code lifetime |
| Provenance.OfferStoresExactly | routes/preauth.go:16-87 | an offer with a scope stores the item with its scope, subject and names for the code lifetime, and its tx_code for its own, unless the cache fails |
| Provenance.CallbackItemsAreAsRequested | authorizationcode/authorization.go:51-80 | in every run a callback's item holds what its callback request says, and the scope and issuer state of an authorize request in order, whose state the callback names and which came less than the state lifetime before |
| Provenance.OfferItemsAreAsRequested | routes/preauth.go:52-62 | in every run an offer's item holds what its offer request says, with the tx_code it announced |
| Provenance.GrantsAreInTime | authorizationcode/store.go:124-133 | in every run a grant on an item comes less than the code lifetime after the item was stored |
| Provenance.CodeGrantsComeFromTheirCallback | authorizationcode/token.go:161-198 | in every run an authorization_code grant on a callback's item named the callback's code in its lifetime, with its redirect URI, a verifier for its challenge and, from a wallet, for its client |
| Provenance.SessionsDescend | authorizationcode/token.go:200-222 | in every run, where maps are copied, as long as a granted session exists its last access is the instant of its grant, and its subject, names, person code, state and metadata at every key but dpop_jkt are those of the template stored with the item its family rests on |
| Provenance.ServedSessionsDescend | authorizationcode/token.go:336-352 | the same on every server, whichever maps are shared and whatever fails |
| Provenance.CallbackGrants | authorizationcode/authorization.go:64-80 | on every server, through any number of rotations, a grant descending from a callback's item has that callback request's user as subject, and its session, while it exists, that request's names, person code and extra claims and no other metadata but the key |
| Provenance.OfferGrants | routes/preauth.go:39-62 | likewise a grant descending from an offer's item has the offer request's scope and subject, and its session that request's names and no metadata but the key |
| Provenance.TemplatesHaveNoScope | authorizationcode/authorization.go:64-80 | in every run no template of a stored item has a scope of its own, so no granted session has, whatever the token's scope |
| Backing.CodeGrantsAreAuthenticated | authorizationcode/token.go:43-198 | in every run the client of an authorization_code grant proved who it is; a wallet's grant, or one of a client that has to use DPoP, is bound to a key, with key binding to the attested one; a wallet's code was issued to its client |
| Backing.PreAuthGrantsAreAttested | authorizationcode/token.go:380-448 | with attestation required every pre-authorized grant came with one, and a grant to an attested wallet is bound to a key, with key binding to the attested one |
| GrantRules.PreAuthGrantsExactly | authorizationcode/token.go:380-518 | a pre-authorized request is granted if and only if a wallet proves itself where there is or has to be one, no DPoP key is missing, the stored number, 0 where none is, is presented for a live item of either kind unless it goes without, and neither the reads nor the session fail |
| Backing.VerifierIsNotAskedFor | authorizationcode/token.go:461-480 | for every accepted authorize request, a run in which the callback's code, with that request's client, redirect URI and challenge, is granted without the verifier |
| Backing.UnbackedGrantsExactly | authorizationcode/store.go:139-153 | a request on no live code is granted if and only if its client proves who it is, it carries no verifier and no redirect URI, names no attested client, and its read, session and deletion do not fail |
| Backing.UnbackedGrantsAreEmpty | authorizationcode/token.go:161-287 | in every run a grant on no item is such an authorization_code grant, with neither scope nor subject |
| SingleUse.IgnoredDeletionFault | authorizationcode/token.go:520-530 | the hypothesis is needed: a run in which one failed deletion lets one item back two grants |
| TxCodes.TxCodeGuardsGrantExactly | authorizationcode/token.go:461-480 | offer by offer, in every run, with auth_code_ttl at most pre_auth_ttl: a grant on an offer that announced a tx_code came after a presentation of exactly that number, five digits, if and only if the offer's own tx_code was stored |
| TxCodes.TxCodeAcceptedExactly | authorizationcode/store.go:196-204 | until an offer's right tx_code was presented, what passes for it is exactly the announced number if it was stored, and a zero otherwise |
| TxCodes.TxCodesGuardExactly | authorizationcode/config.go:14-16 | over all runs, whatever fails, every offer whose own tx_code was stored is guarded if and only if auth_code_ttl <= pre_auth_ttl |
| TxCodes.ExpiredTxRunGrants | authorizationcode/store.go:196-204 | otherwise there is a run, nothing in it failing, in which "0" is accepted for an expired tx_code |
| TxCodes.LostTxRunGrants | routes/preauth.go:63-80 | whatever the lifetimes, a run in which the item is stored, SetTXCode fails, and "0" is granted |
| TxCodes.TxCodesGuardGrants | authorizationcode/token.go:461-480 | the corollary for runs in which no tx_code of a stored offer fails to be stored: all offers are guarded |
| Backing.SessionsGoExactly | authorizationcode/token.go:216-251 | an operation removes a session if and only if it is an authorization_code request that presents that identifier as its code, goes with the item of that code or the zero item, can read it, gets its session, and the removal does not fail; all other sessions stay as they are |
| Backing.PresentedTokenGoesExactly | authorizationcode/token.go:249-251 | where the identifier is no live code's, a request that presents it removes that session if and only if it authenticates, carries no verifier and no redirect URI, names no attested client, and its read, the new session and the removal do not fail |
| GoStrings.ItoaInjective | authorizationcode/store.go:196-204 | the decimal text compared with the presented tx_code determines the number |
| GoStrings.ItoaReadsBack | authorizationcode/store.go:196-204 | the decimal text of a natural number is digits without a leading zero and reads back as that number |
| TxCodes.PresentationIsRight | authorizationcode/store.go:191-208 | a presentation accepted for an offer whose tx_code was stored is the decimal of the announced number, or follows one that was |
| RunTheorems.RotationKeepsRights | authorizationcode/token.go:328-363 | every refresh grant, however far down its chain, has the client, scope, subject and non-empty key of the authorization_code grant that started the chain |
| RunTheorems.CachedRefreshTokensKeepRights | authorizationcode/token.go:263-279 | the same for every refresh token still cached |
| RunTheorems.CallbacksNeverOutnumberSaves | authorizationcode/store.go:167-188 | code items made by callbacks never outnumber accepted authorize requests that stored a state |
| RunTheorems.ScopeDescends | authorizationcode/validation.go:62-88 | a grant descending from a callback's item has the scope of the accepted authorize request; that scope is not blank, and each of its space-separated pieces is configured |
| RunTheorems.SessionsCarryTheirKey | authorizationcode/token.go:200-222 | where maps are copied, at any later point of any run a session that a grant made has the grant's subject and is bound to exactly the grant's key |
| RunTheorems.AnswersMatchEvents | authorizationcode/token.go:281-287 | a token is issued exactly when a grant is recorded, and they agree on session, scope and token type |
| SharedRuns.SharingShowsInMapsOnly | authorizationcode/token.go:29-553 | whatever is shared and whatever fails, a server has the history and the caches of the run on values, up to the contents of metadata maps |
| SharedRuns.AnswersAreShared | authorizationcode/token.go:29-553 | and gives the same answers |
| KeyBinding.TracesExactly | authorizationcode/token.go:200-259 | with nobody sharing before, a call leaves the server as if maps were copied if and only if it does not pass its checks with a map by reference that it changes or hands on while its code survives |
| KeyBinding.TracelessRunsCopy | authorizationcode/token.go:200-259 | a run without such a call is the run on values, map for map |
| KeyBinding.NoTraceWithout | authorizationcode/token.go:216-259 | copying storage leaves no trace, nor do creates and deletes that succeed |
| KeyBinding.StepHonestExactly | authorizationcode/token.go:200-222 | from a point where every granted session is bound to its grant's key, a call leads to another such point if and only if it is no Bearer grant on a code whose cached map holds a key and no write to a map that a session granted for another key shares |
| KeyBinding.HonestExactly | routes/introspection.go:138-141 | over every run of a server: every granted session is bound to the key its grant was answered for at every point if and only if no call is of that kind |
| KeyBinding.TracelessRunsAreHonest | routes/introspection.go:138-141 | a run without traces is honest |
| SharedFaults.FailedRequestLeavesItsKey | authorizationcode/token.go:206-222 | for every authorize request accepted from a client that may use Bearer tokens, a run in which the client's own request, whose session could not be created, leaves its key in the code, and its next is answered Bearer and bound to that key |
| SharedFaults.LaterRedemptionRekeysTheSession | authorizationcode/token.go:502-520 | a run in which a surviving code shares the session's map and a later redemption changes the first session's key |
| WalletChain.OwnRequestSucceedsExactly | authorizationcode/store.go:250-274 | a holder's request with the right key and no fault succeeds exactly when less than the lifetime has passed, and restarts it; otherwise nothing changes |
| WalletChain.TokenLeavesExactly | authorizationcode/token.go:316-337 | a cached token leaves the cache if and only if a request presents it while it is live, with any DPoP key and without a read fault; with another key than its own the request is refused |
| WalletChain.OthersLeaveToken | authorizationcode/store.go:267-274 | any number of operations, none of which uses it up, leaves a wallet's current token as it is |
| WalletChain.ActiveWalletNeverLosesItsChain | authorizationcode/config.go:25-29 | any number of redemptions, each less than the lifetime after the last, all succeed, as long as nobody else uses its current token up |
| WalletChain.ChainStartsAndEnds | authorizationcode/token.go:263-279 | a DPoP code grant starts such a chain, and a token left alone for the lifetime is refused |
| Lifecycle.StepShape | authorizationcode/token.go:29-553 | where maps are copied, every operation is at most two recorded steps of a fixed small set, under every combination of faults |
| Invariants.KeepsInv | authorizationcode/token.go:29-553 | every step keeps the invariant that ties caches, sessions and history together |
| Invariants.RunInv | authorizationcode/token.go:29-553 | so, where maps are copied, it holds at every point of every run |
| Grants.ComputedChallengePassesLengthChecks | authorizationcode/utils.go:10-14 | every computed S256 challenge has a length all three endpoints accept |
| Grants.OnlyTheVerifierOpens | authorizationcode/store.go:135-154 | in GetItem's check, the challenge of a verifier answers to that verifier and, without a collision, to no other |
| Rotation.FamilyHasOneHolder | authorizationcode/token.go:316-363 | in every interleaving a refresh family's live tokens plus its requests in flight never exceed one |
| Rotation.NoTokenIsRedeemedTwice | authorizationcode/store.go:267-274 | in every interleaving no refresh token is redeemed twice |
| Rotation.ChainsDoNotFork | authorizationcode/token.go:358-363 | in every interleaving each token has at most one successor and one predecessor |
| Rotation.InterleavedRotationKeepsRights | authorizationcode/token.go:328-363 | in every interleaving what a family's token or request in flight will grant has the client, scope, subject and key its family started with |
| Rotation.SerialRequestIsTheHandler | authorizationcode/token.go:293-378 | run without interruption, faults included, the split request leaves cache and sessions and answers as the handler does |
| Redemption.SecondGrantHadReadBefore | authorizationcode/token.go:161-259 | in every interleaving, whatever fails: if an item backs two grants, the earlier one was pre-authorized and its own deletion failed, or the later request had read the item before the earlier grant was made |
| Redemption.GrantsCameWithTheVerifier | authorizationcode/token.go:161-198 | in every interleaving an authorization_code grant went to a client that proved who it is, and one on a stored item came with its redirect URI, a verifier for its challenge and, from a wallet, for its client; a pre-authorized one rests on a stored item, with its wallet proved |
| RedemptionRuns.TheReadDecides | authorizationcode/token.go:161-259 | in every interleaving a request whose own session and deletion do not fail is granted on the item it read if and only if it passed its checks then |
| RedemptionRuns.OverlappingRequestsAreBothGranted | authorizationcode/store.go:156-165 | any two requests that answer an item are both granted if both read before either deletes |
| RedemptionRuns.SerialCodeRequestIsTheHandler | authorizationcode/token.go:161-287 | run without interruption, faults included, the split request leaves codes, tx_codes and sessions and answers as the handler does |
| RedemptionRuns.SerialPreAuthRequestIsTheHandler | authorizationcode/token.go:450-552 | likewise for the pre-authorized grant |
| RedemptionTx.ComparisonIsRight | authorizationcode/store.go:196-204 | in every interleaving a comparison made at most the delay after the code was read accepts the stored number only, unless that was accepted before |
| RedemptionTx.SlowRequestIsGranted | authorizationcode/token.go:461-480 | otherwise there is an interleaving in which a request reads its code in time, compares late, and "0" is granted |
| RedemptionTx.TxCodesGuardExactly | authorizationcode/token.go:461-480 | over all interleavings, whatever fails, in which requests take at most delay between the two reads: every offer whose tx_code was stored is guarded by it if and only if auth_code_ttl + delay <= pre_auth_ttl |
| TokenEndpoint.ServedIsARun | routes/token.go:53-74 | whatever arrives, what the endpoint hands to the handlers is a run, so every result about runs holds behind the verifiers |
| TokenGates.CacheFollowsTheory | routes/router.go:74-120 | at every point of every run of the endpoints each jti cache holds what the replay theory says |
| TokenGates.PassesExactly | routes/router.go:73-84 | in every run, whatever fails: a call passes a cache exactly if its token passes the checks, its own read fails or no call with that jti passed and left it there within the lifetime, and, for a DPoP proof that could be read for, its own write works |
| TokenGates.PassesAreApart | routes/router.go:73-84 | in every run two calls that pass with one jti are a cache lifetime apart, if the first left it there and the second's own read worked |
| TokenProofs.TokensCameWithTheirProofs | routes/token.go:53-92 | in every run each token response was made for one call, the only one of that call; it is bound to a key exactly if the call carried a DPoP proof, and then that proof was for this endpoint, fresh and signed by that key; a wallet's response came with an attestation in force and a proof signed by the attested key, and an authorization_code one names its client |
| TokenProofs.PushesAreAttested | routes/par.go:24-49 | in every run a push is taken as a client's if and only if its attestation is in force, its proof signed by the attested key and fresh, and its jti not left in the cache within the lifetime or the cache cannot be read; the client is the one the attestation names |
| TokenProofs.RequestsAreHandedOn | routes/token.go:53-92 | in every run a token request reaches its handler if and only if it carries no DPoP proof or one that is well made and fresh, not known to the cache or the cache cannot be read, and recorded if it was read; it gets there as it came, with the proved key and the wallet its headers prove |
| TokenProofs.ProofServesOnce | routes/token.go:76-92 | in every run one DPoP proof lets two calls of any kind pass, client credentials included, only a cache lifetime apart, so not at all with twice the window below it, if the two calls' own reads work |
| TokenProofs.PopServesOnce | routes/par.go:31-35 | in every run one proof of possession lets two calls pass, token requests or pushes, only a cache lifetime apart; without exp not at all with twice the window below it, with exp only if exp and leeway outlast the first use's entry; if the first call's own read and write and the second's read work |
| TokenProofs.NoProofBacksTwoTokens | routes/token.go:76-92 | so two key-bound responses, over all three grants, came with different DPoP proofs or that far apart |
| TokenProofs.NoPopBacksTwoTokens | clientattestation/attestation.go:158-250 | and two wallets' responses with different proofs of possession or that far apart |
| TokenReuse.ProofsBackOneTokenExactly | dpop/dpop.go:99-122 | over all runs, whatever fails but the two calls' own reads: no DPoP proof gets two key-bound responses if and only if twice the window is below the cache lifetime, or the server serves nobody |
| TokenReuse.NobodyIsServed | authorizationcode/token.go:380-417 | a server that insists on attestations, can accept none and has no client with a secret makes no grant in any run |
| TokenReuse.FailedReadReusesAProof | routes/router.go:74-77 | for any window and lifetime, a run in which the second call's failed read alone gives one proof two responses at one instant |
| TokenReuse.PopsWithoutExpExactly | clientattestation/attestation.go:207-215 | over all runs, whatever fails but the two calls' own operations: no proof of possession without exp gets two responses if and only if twice the window is below the cache lifetime |
| TokenReuse.PopsWithExpExactly | clientattestation/attestation.go:194-205 | likewise with exp, first used at a given instant, if and only if exp plus leeway is no later than that use's entry |
| TokenServer.DpopJkt | routes/token.go:76-92 | no proof means no key; a proof that passes gives its key, any other ends the request |
| TokenServer.CheckAttestation | authorizationcode/token.go:45-96 | what the verifier found of the headers, with its cache one step on |
| TokenServer.CheckPush | routes/par.go:24-35 | the client a push comes from, by the same verifier and cache |
| TokenServer.StandsAtStart | routes/router.go:56-66 | a new server with empty caches is the start of the endpoints' runs |
| TokenServer.Arrive | routes/token.go:53-92 | every call on real references is refused, or handed on with the key and wallet established for it, answered as in the run on values, and leads to the next point of the endpoints' run |
| StoreModel.PassSession | authorizationcode/store.go:35-48 | what a cache hands out is the same session, with the same metadata map or an equal new one |
| StoreModel.SessionStore.Create | authorizationcode/token.go:216-222 | keeps the session under its identifier unless it fails |
| StoreModel.SessionStore.Delete | authorizationcode/token.go:249-251 | drops one session and no other |
| StoreModel.Store.SetItem | authorizationcode/store.go:124-133 | stores the item under its code for the code lifetime |
| StoreModel.Store.GetItem | authorizationcode/store.go:135-154 | the cached or zero item, exactly if the verifier answers its challenge |
| StoreModel.Store.DeleteItem | authorizationcode/store.go:156-165 | removes one code |
| StoreModel.Store.SetState | authorizationcode/store.go:167-176 | stores the pending request for the state lifetime |
| StoreModel.Store.PopState | authorizationcode/store.go:178-189 | returns a live state and removes it in one step |
| StoreModel.Store.SetTXCode | authorizationcode/store.go:191-194 | stores the tx_code for the pre-auth lifetime |
| StoreModel.Store.ValidateTXCode | authorizationcode/store.go:196-204 | true exactly when the presented text is the decimal of the stored number, or of 0 if there is none |
| StoreModel.Store.DeleteTXCode | authorizationcode/store.go:206-208 | removes one tx_code |
| StoreModel.Store.GetPreAuthItem | authorizationcode/store.go:211-222 | the cached item without a verifier; the zero item is an error |
| StoreModel.Store.SetPAR | authorizationcode/store.go:226-234 | keeps a pushed request for its lifetime |
| StoreModel.Store.PopPAR | authorizationcode/store.go:238-245 | returns a live pushed request and removes it in one step |
| StoreModel.Store.IssueRefreshToken | authorizationcode/store.go:250-263 | stores the item under the digest of the token for the refresh lifetime |
| StoreModel.Store.RedeemRefreshToken | authorizationcode/store.go:267-274 | returns a live item and removes it in one step |
| TokenHandlers.BindInPlace | authorizationcode/token.go:208-214 | the map, made first if nil, holds the key afterwards and all it held before |
| TokenHandlers.CheckCodeRequest | authorizationcode/token.go:43-198 | refuses exactly the requests the specification refuses and otherwise hands on the cached item's value |
| TokenHandlers.FinishAuthorization | authorizationcode/token.go:253-287 | no token unless the code is deleted; a refresh token only for a DPoP grant |
| TokenHandlers.FillShared | authorizationcode/token.go:200-214 | a write to a cached code's map marks that code and the sessions tied to it, and nothing else |
| TokenHandlers.HandleAuthorization | authorizationcode/token.go:29-288 | for every sharing and every fault, answer, new state and who shares maps afterwards are the specified ones |
| TokenHandlers.PresentTxCode | authorizationcode/token.go:471-480 | a correct presentation uses the tx_code up and is recorded |
| TokenHandlers.HandlePreAuthorized | authorizationcode/token.go:380-553 | likewise |
| TokenHandlers.FillBound | authorizationcode/token.go:336-346 | writing the key a map already holds changes no table, though the map may be that of earlier sessions |
| TokenHandlers.HandleRefreshToken | authorizationcode/token.go:293-378 | answer and new state are the specified ones for every sharing and every fault |
| AuthorizeHandlers.CheckAuthorizeRequest | authorizationcode/validation.go:15-81 | which authorize requests are in order and what state they leave to save |
| AuthorizeHandlers.ValidateAndSaveState | authorizationcode/validation.go:15-89 | result and new state are the specified ones |
| AuthorizeHandlers.MakeCallbackItem | authorizationcode/authorization.go:24-80 | the stored item, its map made only if there are claims to carry |
| AuthorizeHandlers.ProviderCallback | oauth2generic/oauth2generic.go:189-199 | pops the state and stores an item only for a pending code request |
| AuthorizeHandlers.PreauthGenerate | routes/preauth.go:16-87 | stores the item, then the tx_code unless the offer goes without |
| ServerRuns.NewServer | authorizationcode/store.go:83-116 | a new server is the start of a run |
| ServerRuns.ServeOne | routes/token.go:53-74 | every call on real references moves the server to the next point of the run, whatever fails and whatever is shared, and gives the answer of the run on values |
| ServerRuns.Introspect | routes/introspection.go:88-144 | at any point of any run it reports the subject of the grant that made the session, an exp that counts the timeout from that grant's instant, an empty scope, the names and extra claims of the template stored with the item its family rests on, and the key the session is bound to, which is the grant's at every honest point |
| Delegation.EveryDelegationIsValid | routes/authorization.go:24-82 | in every interleaving whatever is delegated has a known client, a redirect URI registered for it, response_type code, an S256 challenge of 43 to 128 characters and a scope, not blank, each of whose space-separated pieces is configured |
| Delegation.PushKeepsWhatWasSent | routes/par.go:82-106 | a push is kept if and only if it comes from its attested client, is in order and the cache works, and then it is what was sent, value by value, for that client and the push lifetime |
| Delegation.PresentsExactly | routes/authorization.go:24-137 | for every query, what the endpoint does: takes a live pushed request out of the cache, delegates a direct request in order, or changes nothing |
| Delegation.KeyIsInTheURN | routes/authorization.go:109-123 | which query presents a pushed request: exactly one with the URN of its identifier as request_uri and a client_id that is not empty |
| Delegation.PushErrorsInOrder | routes/par.go:24-80 | par reports the error of the first of nine checks, in the order of the source, that fails |
| Delegation.ComplaintsInOrder | routes/authorization.go:52-107 | a direct request of a registered redirect URI is delegated if all four checks hold, and otherwise the first that fails is reported there, with its error, its description and the request's own state |
| Delegation.DelegatedAsPushed | routes/authorization.go:111-137 | a delegation by request_uri carries what the attested client pushed, value by value, for that client, within the lifetime |
| Delegation.RequestURIsAreSingleUse | authorizationcode/store.go:238-245 | in every interleaving a request_uri delegates at most once |
| Delegation.RequirePARMeansPushed | routes/authorization.go:32-35 | with RequirePAR every delegation came from a push |
| Delegation.PresentingDelegatesExactly | routes/authorization.go:123-136 | a live request_uri is used up by being presented, and delegates exactly for the client that pushed it |
| Delegation.DirectAnswers | routes/authorization.go:37-82 | a direct request is delegated exactly if valid; errors go only to a redirect URI registered for the client, and reach it exactly if it has no fragment |
| Delegation.DelegatedRequestIsAccepted | authorizationcode/validation.go:15-89 | what the endpoint lets through, the later validation lets through, and its scope is saved |
| Delegation.KeptQueryIsThePushedForm | routes/par.go:82-93 | the stored query parses back to the pushed form, so it is as valid as the form was |
| Delegation.RunInv | routes/authorization.go:111-137 | the invariant of the split endpoint: each push is in one place at a time and is kept faithfully |
| Delegation.AcceptedExactlyWithoutError | routes/par.go:31-80 | par finds nothing wrong exactly with a valid request of the attested client |
| DelegationHandlers.CheckPush | routes/par.go:31-80 | the first thing wrong, in the order in which it looks |
| DelegationHandlers.Par | routes/par.go:20-106 | stores the sorted, escaped form and answers with its URN, or says what is wrong |
| DelegationHandlers.AuthorizationV3FromPAR | routes/authorization.go:111-137 | pops first, then compares the client |
| DelegationHandlers.AuthorizationV3 | routes/authorization.go:24-82 | leaves the cache and delegates as the moves of the shared state say |
| DelegationHandlers.AuthorizationV3Direct | routes/authorization.go:37-82 | the checks in the order that decides which error is reported |
| DelegationHandlers.RedirectError | routes/authorization.go:92-107 | the complaint goes to the redirect URI and nowhere else, where the client reads it after its own parameters exactly if the URI has no fragment |
| ReplayTheory.AcceptedExactly | routes/router.go:73-84 | in every run, whatever fails: a request is accepted exactly if it passes the other checks, its own read fails or no acceptance of its jti was put on record less than the TTL back, and its own write works where it is made and matters |
| ReplayTheory.AcceptancesAreApart | routes/router.go:73-84 | two acceptances of one jti are a TTL apart if the first was put on record and the second's read worked |
| ReplayTheory.FaultlessAcceptance | routes/router.go:73-84 | the corollary for runs without cache faults: exactly if no acceptance of that jti lies less than the TTL back |
| ReplayTheory.ReplayTheorem | routes/router.go:73-84 | over all runs in which a token's two uses, though not others, are recorded and read without fault: it can be accepted twice if and only if two instants at which it passes lie a TTL apart |
| ReplayTheory.AfterFirstAcceptance | routes/router.go:109-120 | the same, counted from a given first acceptance |
| ReplayTheory.FailedReadAdmitsReplay | routes/router.go:74-77 | after any run a request that cannot read is accepted exactly if it passes the other checks |
| ReplayTheory.FailedWriteAdmitsReplay | routes/router.go:83-83 | a cache that cannot be written admits one exactly where the verifier ignores that |
| ReplayRace.ReadRefusesExactly | routes/router.go:74-81 | in every interleaving a read turns away a request that passes the other checks exactly if it works and the jti was put on record less than the TTL back |
| ReplayRace.OnlyEarlierReadsGetPast | routes/router.go:74-83 | in every interleaving a request that gets past a working read after another put its jti on record does so a TTL later |
| ReplayRace.OverlappingChecksBothPass | routes/router.go:74-83 | two requests with one jti that both read before either writes are both accepted |
| ReplayRace.UninterruptedIsOneStep | routes/router.go:73-84 | without interruption read and write are one step of the theory, for every fault |
| ReplayCache.JtiCache.ReplayCheck | routes/router.go:73-84 | the closure is one step of the theory for both its users |
| Dpop.Validator.constructor | dpop/dpop.go:50-62 | the accepted URLs as a set; a window that is not positive becomes one minute |
| Dpop.Validator.Validate | dpop/dpop.go:67-134 | accepts exactly as the theory says and returns the thumbprint of the key that signed |
| Dpop.ProofsAreSingleUse | dpop/dpop.go:99-131 | no proof is accepted twice in any run, its own cache operations working, if and only if twice the window is less than the cache lifetime |
| Dpop.ValidatedProofsAreSingleUse | dpop/dpop.go:67-134 | the same of Validate's own checks: they pass exactly for well-made proofs at their fresh instants, so with twice the window below the cache lifetime no proof is accepted twice |
| Dpop.DefaultsAreSafe | routes/router.go:57-57 | with the default window, one minute, and five minutes of cache none ever is |
| Attestation.NewVerifier | clientattestation/attestation.go:71-93 | an error without trust anchors; the audiences as a set; a window that is not positive becomes one minute |
| Attestation.Verifier.AudienceAccepted | clientattestation/attestation.go:225-232 | true exactly if some audience is accepted |
| Attestation.Verifier.Verify | clientattestation/attestation.go:158-250 | accepts exactly as the theory says and names the attested client and its key |
| Attestation.PoPWithoutExpIsSingleUse | clientattestation/attestation.go:207-215 | single-use for all proofs without exp, their own cache operations working, if and only if twice the window is less than the cache lifetime |
| Attestation.PoPWithExpIsSingleUse | clientattestation/attestation.go:194-205 | after a first acceptance that was put on record, single-use, the read working, if and only if exp plus leeway is no later than the cache entry |
| Attestation.VerifiedProofsAreSingleUse | clientattestation/attestation.go:158-250 | Verify's own checks pass exactly at the instants at which a well attested pair is in force; without exp no proof is accepted twice with twice the window below the cache lifetime, with exp none again if it and leeway run out by the end of the first entry |
| Attestation.PairsPassExactly | clientattestation/attestation.go:158-238 | which pairs of headers pass: if and only if the attestation is signed by the trusted leaf, has an exp not yet past, its typ, a sub and a usable key, and the proof is signed by exactly that key, with its typ, that sub as iss, an accepted audience, a jti, and an exp or else an iat within the window |
| ClientAssertion.CheckAssertion | routes/token.go:257-291 | one step of the theory, going on after failed reads and writes |
| ClientAssertion.InTimeExactly | routes/token.go:197-199 | the time checks: exp, nbf and iat each only where present, each with thirty seconds of leeway |
| ClientAssertion.AssertionWithExpIsSingleUse | routes/token.go:197-199 | after a first acceptance that was put on record, single-use, the read working, if and only if exp plus 30 seconds is no later than the cache entry |
| ClientAssertion.AssertionWithoutExpIsNot | routes/token.go:257-263 | without exp it can always be accepted again |
| FormEncoding.UnescapeEscape | routes/par.go:88-88 | every byte string survives escaping |
| FormEncoding.EscapedText | routes/par.go:88-88 | letters, digits and -_.~ stay, a space becomes a plus sign, every other byte a percent sign and two upper-case hexadecimal digits |
| FormEncoding.UnescapedHex | authorizationcode/validation.go:15-89 | the parameter parser reads a percent sign and two hexadecimal digits of either case as the byte they stand for |
| FormEncoding.UnescapedText | authorizationcode/validation.go:15-89 | it reads a plus sign as a space and every other byte as itself, a percent sign without two such digits included |
| FormEncoding.ParseEncoded | routes/par.go:84-88 | an encoded list parses back to itself exactly if no pair is wholly empty |
| FormEncoding.BuildForm | routes/par.go:82-86 | every key gets its values in the order they were sent |
| FormEncoding.GroupingIsUnique | routes/par.go:82-86 | a list has exactly one such grouping |
| FormEncoding.EncodeValues | routes/par.go:88-88 | keys in sorted order, each with its values in order |
| FormEncoding.OrderIsBytewise | routes/par.go:88-88 | that order: common beginnings do not matter, then the lesser byte or the end comes first |
| FormEncoding.EncodedFormParsesBack | routes/par.go:82-93 | the stored query gives every key its values back, in order, for all byte strings |
| ErrorRedirect.ErrorLocation | routes/authorization.go:92-107 | the URL with the parameters in sorted order |
| ErrorRedirect.ErrorValuesSorted | routes/authorization.go:93-106 | that list is what encoding the handler's map yields |
| ErrorRedirect.ErrorReachesClient | routes/authorization.go:92-107 | the client finds its own parameters, then error, description and any non-empty state, if and only if the redirect URI has no fragment |
| Base64Url.EncodeLength | authorizationcode/utils.go:10-14 | four letters for three bytes, rounded up |
| Base64Url.EncodeByGroups | authorizationcode/utils.go:10-14 | three bytes and their four letters of the URL-safe alphabet are one number; a shorter rest is filled up with zero bits |
| Base64Url.DecodeEncode | dpop/jwk.go:33-41 | decoding an encoding gives the bytes back |
| Base64Url.EncodeInjective | authorizationcode/utils.go:10-14 | equal encodings come from equal bytes |
| Digests.EncodedDigestIsInjective | authorizationcode/store.go:276-280 | without a collision equal encoded digests come from equal texts |
| Jwk.FillPoint | dpop/jwk.go:43-46 | the buffer written in place is the tag and both coordinates, for coordinates of any length |
| Jwk.PointOfFullCoordinates | dpop/jwk.go:43-46 | for 32-byte coordinates it is exactly 0x04, x, y |
| Jwk.PointOfShortCoordinates | dpop/jwk.go:43-46 | shorter coordinates are filled up with zeros on the right |
| Jwk.CanonicalKeysAreAccepted | dpop/jwk.go:19-51 | with canonical coordinates a key is accepted if and only if its type is EC, its curve P-256, it has no private part, and 0x04, x, y lies on the curve; and that is its point |
| Jwk.ThumbprintTextIsRFC7638 | dpop/jwk.go:53-62 | the hashed text is crv, kty, x, y in that order, each coordinate after its own name, without white space |
| Jwk.ParseECJWK | dpop/jwk.go:19-63 | accepts exactly the public P-256 keys on the curve, with their point and thumbprint |
| Jwk.ThumbprintInputInjective | dpop/jwk.go:53-62 | the canonical JSON determines both coordinates, line breaks included |
| Jwk.ThumbprintIdentifiesKey | dpop/jwk.go:53-62 | equal thumbprints mean equal public keys |
| Jwk.CanonicalThumbprintsAreExact | dpop/jwk.go:43-62 | on canonical coordinates thumbprints are equal if and only if the keys are |
| Jwk.LineFeedChangesThumbprintOnly | dpop/jwk.go:33-41 | a trailing line feed changes the thumbprint and not the key |
| Scopes.NewScopeSet | authorizationcode/validation.go:93-104 | the configured scopes, or the built-in ones for an empty list |
| Scopes.Supported | authorizationcode/validation.go:106-124 | the loop decides: some piece between spaces is not empty, and every such piece is allowed |
| Scopes.SupportedExactly | authorizationcode/validation.go:106-124 | any list of scopes written with spaces between them is supported if and only if one at least is not empty and every one that is not is allowed |
| Scopes.SpellingDoesNotMatter | authorizationcode/validation.go:106-124 | order, repetition and extra spaces do not matter |
| Scopes.EveryScopeIsASpelling | authorizationcode/validation.go:106-124 | every scope string is a spelling of its tokens, so that covers all of them |
| Scopes.GluedScopes | authorizationcode/validation.go:106-124 | joining two supported scopes with a space is supported |
| Transforms.StripPrefixesLoop | oauth2generic/transforms.go:15-35 | cuts the first prefix that fits, once |
| Transforms.StripCharsLoop | oauth2generic/transforms.go:15-35 | removes each argument in turn |
| Transforms.FirstFittingPrefixGoes | oauth2generic/transforms.go:15-24 | strip_prefixes gives the value without its first fitting prefix, and the value itself if none fits |
| Transforms.RemoveAllByOccurrence | oauth2generic/transforms.go:26-34 | removing a text keeps all before its first occurrence, drops that, and goes on behind it |
| Transforms.StripCharsRemovesEach | oauth2generic/transforms.go:26-34 | strip_chars removes its arguments one after the other, an empty one removing nothing |
| Transforms.OtherNamesAreErrors | oauth2generic/transforms.go:37-51 | a chain succeeds if and only if all its names are strip_prefixes or strip_chars |
| Transforms.ApplyTransforms | oauth2generic/transforms.go:37-51 | the loop is the chain |
| Transforms.ValidateClaimFieldMap | oauth2generic/transforms.go:53-61 | succeeds exactly if every chain succeeds on the empty string |
| Transforms.MapClaims | oauth2generic/claims.go:15-39 | after a successful bind every field holds its transformed claim; the error branch is never taken |
| Transforms.OneRunDecides | oauth2generic/transforms.go:53-61 | a run on one value decides success for every value |
| Transforms.ChainsCompose | oauth2generic/transforms.go:37-51 | chains compose over concatenation |
| Transforms.ChainKeepsOrder | oauth2generic/transforms.go:37-51 | the output is a subsequence of the input |
| Transforms.StripCharsIsAFilter | oauth2generic/transforms.go:15-35 | with one-letter arguments strip_chars is a filter |
| Transforms.StripCharsOrderAndRepetition | oauth2generic/transforms.go:15-35 | so argument order and repetition do not matter and it is idempotent |
| Transforms.LongerArgumentsAreNotIdempotent | oauth2generic/transforms.go:15-35 | with a longer argument it is not |
| Introspection.MergeExtra | routes/introspection.go:123-132 | the same map for every iteration order |
| Introspection.BuildIntrospectionResponse | routes/introspection.go:88-144 | under each claim name: the session's own field if it is not empty, otherwise what a decodable extra_claims object says, otherwise nothing; claims is absent exactly if there is none; exp counts from the last access; DPoP and cnf exactly for a bound session |
| Introspection.MergedClaim | routes/introspection.go:105-136 | keys are the union and a named claim always wins |

## Left out

- RunTheorems.SessionsCarryTheirKey: says nothing of servers that share maps, where it can fail; KeyBinding.HonestExactly says when it does.
- Lifecycle.StepShape: leaves out writes to shared maps; SharedRuns.SharingShowsInMapsOnly says what they can change.
- Invariants.RunInv: leaves out writes to shared maps; its part about keys is KeyBinding.HonestExactly there, the others carry over.
- SingleUse.CodesAreSingleUse: assumes that no pre-authorized deletion fails, as the corollary of Backing.SecondGrantNeedsAFailedDeletion, which assumes nothing.
- In the runs of Lifecycle handlers run one at a time and read the clock once. Interleaved, with the clock moving between any two storage operations, single use, PKCE and tx_codes are the subject of Redemption, RedemptionRuns and RedemptionTx, and rotation that of Rotation; sharing of maps and sessions is treated for handlers that run one at a time only. The runs of the endpoints take each jti check as one step; interleaved checks are the subject of ReplayRace.
- Redemption stores an offer's item and tx_code in one move, as nobody knows the code before, merges the deletion of a temporary session with the creation of the session, and leaves out refresh tokens, which are Rotation's.
- HTTP plumbing, JSON bodies, status codes, headers, expires_in, the texts of errors other than those sent by redirect, logging, audit and telemetry.
- JWT and X.509 signatures, certificate chains, curve membership and SHA-256 are parameters or hypotheses. JWT parsing is what golang-jwt v5 documents for exp, nbf, iat and leeway.
- The cache library is taken as an ideal table with lifetimes: a miss reads as the zero value, Pop on a miss is an error and atomic; no eviction, no asynchronous writes.
- The lx-idauth session and client stores are a map of sessions with create and delete, and a map of clients. A session's rights and roles, the same for every callback, are left out, and its scope list, which no handler sets, is one string. Its authorize flow between delegation and provider callback is not part of this model.
- net/url, fasthttp and encoding/base64 are modelled from their documented behaviour; wholly empty pairs are dropped by the form parser. Parameter lookup returns the first value under a key.
- Identifiers are fresh where the server draws a ULID or 32 random bytes; the refresh token's encoding is not modelled.
- authorization_details.
- The rest of client_credentials after the jti check (key lookup, session creation); TokenEndpoint has what such requests do to the DPoP cache.
- Providers: edim, Smart-ID, the network half of oauth2generic and their interactive sessions; their shared step from popped state to stored code is modelled once.
- The introspection endpoint before it builds its response: client authentication, the token parameter, the lookup and state of the session.
- Configuration binding, metadata, health checks, provider registration, identifier masking: wiring or easy members.
