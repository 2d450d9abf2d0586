/**
  The jti check shared by three verifiers: a cache of identifiers seen in the last ttl, read and then
  written by each request that passed every other check (routes/router.go, routes/token.go).
 */
module ReplayTheory {
  import opened GoStrings

  /** Identifier to the instant its entry expires. */
  type Seen = map<GoString, int>

  predicate Live(seen: Seen, jti: GoString, now: int) {
    jti in seen && now < seen[jti]
  }

  /** One request: when it comes, its identifier, whether it passes the checks before the jti check. */
  datatype Request = Request(at: int, jti: GoString, passes: bool, getFails: bool, setFails: bool)

  /**
    How a verifier takes cache faults. StrictSet: the DPoP validator, which fails when the identifier
    cannot be recorded. LenientSet: the attestation verifier, which ignores that. BestEffort: the
    client assertion check, which also records after a failed read.
   */
  datatype Policy = StrictSet | LenientSet | BestEffort

  /** The cache afterwards, and whether the request is accepted. */
  function Step(policy: Policy, ttl: int, seen: Seen, r: Request): (Seen, bool) {
    if !r.passes then (seen, false)
    else if r.getFails && policy != BestEffort then (seen, true)
    else if !r.getFails && Live(seen, r.jti, r.at) then (seen, false)
    else if r.setFails then (seen, policy != StrictSet)
    else (seen[r.jti := r.at + ttl], true)
  }

  function SeenAfter(policy: Policy, ttl: int, reqs: seq<Request>): Seen {
    if reqs == [] then map[]
    else Step(policy, ttl, SeenAfter(policy, ttl, reqs[..|reqs| - 1]), reqs[|reqs| - 1]).0
  }

  /** Whether request i of a run that starts with an empty cache is accepted. */
  predicate Accepted(policy: Policy, ttl: int, reqs: seq<Request>, i: nat)
    requires i < |reqs|
  {
    Step(policy, ttl, SeenAfter(policy, ttl, reqs[..i]), reqs[i]).1
  }

  predicate Monotone(reqs: seq<Request>) {
    forall i, j :: 0 <= i < j < |reqs| ==> reqs[i].at <= reqs[j].at
  }

  /** The request's own cache operations put its identifier on record, if it is accepted. */
  predicate OnRecord(policy: Policy, r: Request) {
    !r.setFails && (r.getFails ==> policy == BestEffort)
  }

  /** An earlier request with this identifier that was accepted and put on record, less than ttl ago. */
  ghost predicate RecentlyRecorded(policy: Policy, ttl: int, reqs: seq<Request>, jti: GoString, now: int) {
    exists i :: 0 <= i < |reqs| && reqs[i].jti == jti && Accepted(policy, ttl, reqs, i) && OnRecord(policy, reqs[i])
                && now < reqs[i].at + ttl
  }

  lemma RecentlyRecordedUnfold(policy: Policy, ttl: int, reqs: seq<Request>, jti: GoString, now: int)
    requires reqs != []
    ensures var n := |reqs| - 1;
            RecentlyRecorded(policy, ttl, reqs, jti, now) <==>
              || RecentlyRecorded(policy, ttl, reqs[..n], jti, now)
              || (reqs[n].jti == jti && Accepted(policy, ttl, reqs, n) && OnRecord(policy, reqs[n])
                  && now < reqs[n].at + ttl)
  {
    hide Step, SeenAfter, OnRecord;
    var n := |reqs| - 1;
    var front := reqs[..n];
    forall i: nat | i < n ensures front[i] == reqs[i]
      && Accepted(policy, ttl, front, i) == Accepted(policy, ttl, reqs, i) {
      assert front[..i] == reqs[..i];
    }
    if RecentlyRecorded(policy, ttl, front, jti, now) {
      var i :| 0 <= i < n && front[i].jti == jti && Accepted(policy, ttl, front, i) && OnRecord(policy, front[i])
        && now < front[i].at + ttl;
      assert Accepted(policy, ttl, reqs, i);
    }
  }

  lemma {:induction false} RecentRecordsAreOlder(policy: Policy, ttl: int, reqs: seq<Request>, jti: GoString,
                                                 now: int, t: int)
    requires forall i :: 0 <= i < |reqs| ==> reqs[i].at <= t
    requires RecentlyRecorded(policy, ttl, reqs, jti, now)
    ensures now < t + ttl
  {
  }

  /** Whatever fails, the cache holds exactly the identifiers put on record less than ttl ago. */
  lemma {:induction false} CacheRemembersRecords(policy: Policy, ttl: int, reqs: seq<Request>, jti: GoString, now: int)
    requires Monotone(reqs)
    ensures Live(SeenAfter(policy, ttl, reqs), jti, now) <==> RecentlyRecorded(policy, ttl, reqs, jti, now)
  {
    if reqs != [] {
      var n := |reqs| - 1;
      CacheRemembersRecords(policy, ttl, reqs[..n], jti, now);
      RecentlyRecordedUnfold(policy, ttl, reqs, jti, now);
      if RecentlyRecorded(policy, ttl, reqs[..n], jti, now) {
        RecentRecordsAreOlder(policy, ttl, reqs[..n], jti, now, reqs[n].at);
      }
    }
  }

  /**
    The whole behaviour of the check in one sentence, in every run, whatever fails: a request is accepted exactly
    when it passes the other checks, its read fails or no acceptance of its identifier was put on record less than
    ttl before, and its write succeeds wherever it is made and matters.
   */
  lemma AcceptedExactly(policy: Policy, ttl: int, reqs: seq<Request>, i: nat)
    requires i < |reqs| && Monotone(reqs)
    ensures Accepted(policy, ttl, reqs, i) <==>
              && reqs[i].passes
              && (reqs[i].getFails || !RecentlyRecorded(policy, ttl, reqs[..i], reqs[i].jti, reqs[i].at))
              && (!reqs[i].setFails || policy != StrictSet || reqs[i].getFails)
  {
    CacheRemembersRecords(policy, ttl, reqs[..i], reqs[i].jti, reqs[i].at);
  }

  /** Two acceptances of one identifier are ttl apart, if the first was put on record and the second's read worked. */
  lemma AcceptancesAreApart(policy: Policy, ttl: int, reqs: seq<Request>, i: nat, j: nat)
    requires i < j < |reqs| && Monotone(reqs) && OnRecord(policy, reqs[i]) && !reqs[j].getFails
    requires reqs[i].jti == reqs[j].jti && Accepted(policy, ttl, reqs, i) && Accepted(policy, ttl, reqs, j)
    ensures reqs[i].at + ttl <= reqs[j].at
  {
    AcceptedExactly(policy, ttl, reqs, j);
    assert reqs[..j][..i] == reqs[..i] && reqs[..j][i] == reqs[i];
    assert Accepted(policy, ttl, reqs[..j], i);
  }

  /** No fault that the policy turns into an unrecorded acceptance. */
  predicate Faultless(policy: Policy, reqs: seq<Request>) {
    forall i :: 0 <= i < |reqs| ==> !reqs[i].getFails && (policy.StrictSet? || !reqs[i].setFails)
  }

  /** An earlier accepted request with this identifier, less than ttl ago. */
  ghost predicate RecentlyAccepted(policy: Policy, ttl: int, reqs: seq<Request>, jti: GoString, now: int) {
    exists i :: 0 <= i < |reqs| && reqs[i].jti == jti && Accepted(policy, ttl, reqs, i) && now < reqs[i].at + ttl
  }

  /** The corollary for runs without such faults: there every acceptance is on record. */
  lemma FaultlessAcceptance(policy: Policy, ttl: int, reqs: seq<Request>, i: nat)
    requires i < |reqs| && Monotone(reqs) && Faultless(policy, reqs)
    ensures Accepted(policy, ttl, reqs, i) <==>
              && reqs[i].passes && !reqs[i].setFails
              && !RecentlyAccepted(policy, ttl, reqs[..i], reqs[i].jti, reqs[i].at)
  {
    AcceptedExactly(policy, ttl, reqs, i);
    var front := reqs[..i];
    forall k: nat | k < i && Accepted(policy, ttl, front, k) ensures OnRecord(policy, front[k]) {
      assert front[k] == reqs[k];
    }
    assert RecentlyAccepted(policy, ttl, front, reqs[i].jti, reqs[i].at) <==>
           RecentlyRecorded(policy, ttl, front, reqs[i].jti, reqs[i].at);
  }

  /** Request r presents the token with this identifier, whose other checks pass at exactly the instants ok. */
  predicate Presents(r: Request, jti: GoString, ok: int -> bool) {
    r.jti == jti && r.passes == ok(r.at)
  }

  /** No two instants at which the token passes lie ttl or more apart. */
  ghost predicate Narrow(ok: int -> bool, ttl: int) {
    forall t1, t2 :: ok(t1) && ok(t2) && t1 <= t2 ==> t2 < t1 + ttl
  }

  /**
    A run with a monotone clock in which requests i and j present the token and are both accepted, though the first
    was put on record and the read of the second worked. Any other operation may fail.
   */
  ghost predicate AcceptedTwice(policy: Policy, ttl: int, jti: GoString, ok: int -> bool, reqs: seq<Request>, i: nat,
                                j: nat) {
    && i < j < |reqs| && Monotone(reqs) && OnRecord(policy, reqs[i]) && !reqs[j].getFails
    && Presents(reqs[i], jti, ok) && Presents(reqs[j], jti, ok)
    && Accepted(policy, ttl, reqs, i) && Accepted(policy, ttl, reqs, j)
  }

  ghost predicate CanBeReplayed(policy: Policy, ttl: int, jti: GoString, ok: int -> bool) {
    exists reqs: seq<Request>, i: nat, j: nat :: AcceptedTwice(policy, ttl, jti, ok, reqs, i, j)
  }

  /** As above, the first of the two acceptances falling at t1. */
  ghost predicate CanBeReplayedAfter(policy: Policy, ttl: int, jti: GoString, ok: int -> bool, t1: int) {
    exists reqs: seq<Request>, i: nat, j: nat :: AcceptedTwice(policy, ttl, jti, ok, reqs, i, j) && reqs[i].at == t1
  }

  /** Two presentations ttl apart are both accepted. */
  lemma TwoDistantPresentations(policy: Policy, ttl: int, jti: GoString, ok: int -> bool, t1: int, t2: int)
    requires ok(t1) && ok(t2) && t1 <= t2 && t1 + ttl <= t2
    ensures CanBeReplayedAfter(policy, ttl, jti, ok, t1) && CanBeReplayed(policy, ttl, jti, ok)
  {
    var a, b := Request(t1, jti, true, false, false), Request(t2, jti, true, false, false);
    var reqs := [a, b];
    assert reqs[..0] == [] && reqs[..1] == [a] && [a][..0] == [];
    assert SeenAfter(policy, ttl, [a]) == map[jti := t1 + ttl];
    assert AcceptedTwice(policy, ttl, jti, ok, reqs, 0, 1);
  }

  /**
    The replay theorem, over all runs: a token whose own two presentations meet no fault can be accepted twice
    exactly when its acceptance interval is not narrower than ttl, whatever else fails.
   */
  lemma ReplayTheorem(policy: Policy, ttl: int, jti: GoString, ok: int -> bool)
    ensures CanBeReplayed(policy, ttl, jti, ok) <==> !Narrow(ok, ttl)
  {
    if CanBeReplayed(policy, ttl, jti, ok) {
      var reqs: seq<Request>, i: nat, j: nat :| AcceptedTwice(policy, ttl, jti, ok, reqs, i, j);
      AcceptancesAreApart(policy, ttl, reqs, i, j);
      assert ok(reqs[i].at) && ok(reqs[j].at);
    }
    if !Narrow(ok, ttl) {
      var t1, t2 :| ok(t1) && ok(t2) && t1 <= t2 && t1 + ttl <= t2;
      TwoDistantPresentations(policy, ttl, jti, ok, t1, t2);
    }
  }

  /**
    After a first acceptance at t1 a token can be accepted again exactly when it still passes at some instant from t1
    + ttl on.
   */
  lemma AfterFirstAcceptance(policy: Policy, ttl: int, jti: GoString, ok: int -> bool, t1: int)
    requires ok(t1) && 0 < ttl
    ensures CanBeReplayedAfter(policy, ttl, jti, ok, t1) <==> exists t2 :: t1 + ttl <= t2 && ok(t2)
  {
    if CanBeReplayedAfter(policy, ttl, jti, ok, t1) {
      var reqs: seq<Request>, i: nat, j: nat :| AcceptedTwice(policy, ttl, jti, ok, reqs, i, j) && reqs[i].at == t1;
      AcceptancesAreApart(policy, ttl, reqs, i, j);
      assert ok(reqs[j].at);
    }
    if t2 :| t1 + ttl <= t2 && ok(t2) {
      TwoDistantPresentations(policy, ttl, jti, ok, t1, t2);
    }
  }

  /**
    A failed read is enough for a replay: whatever the policy and whatever was accepted before, a request that passes
    the other checks and cannot read the cache is accepted, at any distance from an earlier one.
   */
  lemma FailedReadAdmitsReplay(policy: Policy, ttl: int, reqs: seq<Request>, r: Request)
    requires r.getFails
    ensures Accepted(policy, ttl, reqs + [r], |reqs|) <==> r.passes
  {
  }

  /** A failed write admits a replay only where the verifier ignores it. */
  lemma FailedWriteAdmitsReplay(policy: Policy, ttl: int, jti: GoString, t: int)
    ensures var r := Request(t, jti, true, false, true);
            Accepted(policy, ttl, [r, r], 0) && Accepted(policy, ttl, [r, r], 1) <==> policy != StrictSet
  {
    var r := Request(t, jti, true, false, true);
    assert [r, r][..0] == [] && [r, r][..1] == [r] && [r][..0] == [];
  }
}
