/** The two identifier caches of the endpoints over whole runs: when a gate lets a call pass. */
module TokenGates {
  import opened GoStrings
  import opened Grants
  import opened Lifecycle
  import opened ReplayTheory
  import opened TokenEndpoint
  import ReplayCache

  /** The checks of one gate, in order. */
  function Requests(d: Front, calls: seq<Arrival>, g: Gate): seq<Request> {
    if calls == [] then []
    else
      var front := calls[..|calls| - 1];
      With(Requests(d, front, g), RequestAt(d, After(d, front), calls[|front|], g))
  }

  function With(reqs: seq<Request>, r: Option<Request>): seq<Request> {
    match r case None => reqs case Some(v) => reqs + [v]
  }

  lemma SeenUnfolds(policy: Policy, ttl: int, reqs: seq<Request>, r: Request)
    ensures SeenAfter(policy, ttl, reqs + [r]) == Step(policy, ttl, SeenAfter(policy, ttl, reqs), r).0
  {
    hide Step;
    assert (reqs + [r])[..|reqs|] == reqs;
  }

  lemma EnterLeavesSeen(d: Front, p: Point, a: Arrival, g: Gate)
    ensures SeenAt(Enter(d, p, a), g) == SeenNext(d, p, a, g)
  {
    hide SeenNext, Admitted;
  }

  lemma NoRequests(d: Front, g: Gate)
    ensures SeenAt(After(d, []), g) == SeenAfter(PolicyOf(g), LifetimeOf(d, g), Requests(d, [], g))
    ensures InOrderUntil(Requests(d, [], g), After(d, []).state.now)
  {
  }

  lemma {:induction false} CacheFollowsTheory(d: Front, calls: seq<Arrival>, g: Gate)
    ensures SeenAt(After(d, calls), g) == SeenAfter(PolicyOf(g), LifetimeOf(d, g), Requests(d, calls, g))
  {
    hide RequestAt, Step, Enter, SeenAt, PolicyOf, LifetimeOf, SeenAfter, After;
    if calls == [] {
      NoRequests(d, g);
    } else {
      var front := calls[..|calls| - 1];
      CacheFollowsTheory(d, front, g);
      LastCall(d, calls);
      EnterLeavesSeen(d, After(d, front), calls[|front|], g);
      var r := RequestAt(d, After(d, front), calls[|front|], g);
      if r.Some? {
        SeenUnfolds(PolicyOf(g), LifetimeOf(d, g), Requests(d, front, g), r.value);
      }
    }
  }

  lemma {:induction false} RequestsGrow(d: Front, calls: seq<Arrival>, g: Gate, t: nat)
    requires t <= |calls|
    ensures Requests(d, calls[..t], g) <= Requests(d, calls, g)
    decreases |calls|
  {
    if t == |calls| {
      assert calls[..t] == calls;
    } else {
      hide RequestAt, After;
      var front := calls[..|calls| - 1];
      RequestsGrow(d, front, g, t);
      assert front[..t] == calls[..t];
    }
  }

  lemma ClockRuns(cfg: Config, s: State, op: Op)
    ensures s.now <= Apply(cfg, s, op).now
  {
    match op
    case Code(r) => hide EarlyRefusal, Minted, RefreshKey, ItemAt, OriginAt;
    case PreAuth(r) => hide EarlyPreAuthRefusal, TxCodeRefused, NeedsDPoP, Minted, ItemAt, OriginAt;
    case Refresh(r) => hide RedeemRefresh; RefreshEffect(cfg, s, r);
    case _ => hide ParametersValid;
  }

  lemma RequestIsNow(d: Front, p: Point, a: Arrival, g: Gate)
    ensures RequestAt(d, p, a, g).Some? ==> RequestAt(d, p, a, g).value.at == p.state.now
    ensures p.state.now <= Enter(d, p, a).state.now
  {
    hide Apply, ProofPasses, PopPasses, KeyOf, Admitted;
    if Admitted(d, p, a).Some? {
      ClockRuns(d.cfg, p.state, Admitted(d, p, a).value);
    }
  }

  predicate InOrderUntil(reqs: seq<Request>, now: int) {
    Monotone(reqs) && forall i :: 0 <= i < |reqs| ==> reqs[i].at <= now
  }

  lemma OneMoreInOrder(reqs: seq<Request>, r: Option<Request>, now: int, later: int)
    requires InOrderUntil(reqs, now) && now <= later && (r.Some? ==> r.value.at == now)
    ensures InOrderUntil(With(reqs, r), later)
  {
  }

  lemma {:induction false} RequestsInOrder(d: Front, calls: seq<Arrival>, g: Gate)
    ensures InOrderUntil(Requests(d, calls, g), After(d, calls).state.now)
  {
    hide RequestAt, Enter, InOrderUntil, With, After;
    if calls == [] {
      NoRequests(d, g);
    } else {
      var front := calls[..|calls| - 1];
      var p, a := After(d, front), calls[|front|];
      RequestsInOrder(d, front, g);
      LastCall(d, calls);
      RequestIsNow(d, p, a, g);
      OneMoreInOrder(Requests(d, front, g), RequestAt(d, p, a, g), p.state.now, After(d, calls).state.now);
    }
  }

  /** The request of the t-th call at a gate, accepted exactly if the call passes the gate. */
  lemma PassedIsAccepted(d: Front, calls: seq<Arrival>, g: Gate, t: nat) returns (k: nat)
    requires t < |calls| && RequestAt(d, After(d, calls[..t]), calls[t], g).Some?
    ensures var r, reqs := RequestAt(d, After(d, calls[..t]), calls[t], g), Requests(d, calls, g);
            && k == |Requests(d, calls[..t], g)| < |reqs| && reqs[k] == r.value
            && (Accepted(PolicyOf(g), LifetimeOf(d, g), reqs, k) <==> Passed(d, After(d, calls[..t]), g, r))
  {
    hide RequestAt, After, Step;
    k := |Requests(d, calls[..t], g)|;
    var r := RequestAt(d, After(d, calls[..t]), calls[t], g);
    assert calls[..t + 1][..t] == calls[..t];
    assert Requests(d, calls[..t + 1], g) == Requests(d, calls[..t], g) + [r.value];
    RequestsGrow(d, calls, g, t);
    RequestsGrow(d, calls, g, t + 1);
    CacheFollowsTheory(d, calls[..t], g);
    assert Requests(d, calls, g)[..k] == Requests(d, calls[..t], g);
  }

  /** What fails of this gate's cache in a call. */
  function FaultsAt(a: Arrival, g: Gate): ReplayCache.Faults {
    if g.ProofGate? then a.proofFaults else a.popFaults
  }

  /**
    A call that passed the gate left its identifier there. A proof whose identifier is not written does not pass; an
    attestation does.
   */
  predicate LeavesIdentifier(a: Arrival, g: Gate) {
    !FaultsAt(a, g).getFails && (g.PopGate? ==> !FaultsAt(a, g).setFails)
  }

  lemma FaultsAreTheRequests(d: Front, p: Point, a: Arrival, g: Gate)
    ensures var r := RequestAt(d, p, a, g);
            r.Some? ==>
              && r.value.getFails == FaultsAt(a, g).getFails && r.value.setFails == FaultsAt(a, g).setFails
              && (Passed(d, p, g, r) && LeavesIdentifier(a, g) ==> OnRecord(PolicyOf(g), r.value))
  {
    hide ProofPasses, PopPasses, KeyOf;
  }

  /**
    Two calls that pass a gate with the same identifier are a cache lifetime apart, if the first left it there and
    the second's read worked. What fails elsewhere, in these calls or in others, does not matter.
   */
  lemma {:induction false} PassesAreApart(d: Front, calls: seq<Arrival>, g: Gate, t1: nat, t2: nat)
    requires t1 < t2 < |calls| && LeavesIdentifier(calls[t1], g) && !FaultsAt(calls[t2], g).getFails
    requires var r1, r2 := RequestAt(d, After(d, calls[..t1]), calls[t1], g),
                           RequestAt(d, After(d, calls[..t2]), calls[t2], g);
             && Passed(d, After(d, calls[..t1]), g, r1) && Passed(d, After(d, calls[..t2]), g, r2)
             && r1.value.jti == r2.value.jti
    ensures After(d, calls[..t1]).state.now + LifetimeOf(d, g) <= After(d, calls[..t2]).state.now
  {
    FaultsAreTheRequests(d, After(d, calls[..t1]), calls[t1], g);
    FaultsAreTheRequests(d, After(d, calls[..t2]), calls[t2], g);
    hide RequestAt, After, Step, Accepted, Monotone, LeavesIdentifier, FaultsAt;
    var k1 := PassedIsAccepted(d, calls, g, t1);
    var k2 := PassedIsAccepted(d, calls, g, t2);
    var reqs := Requests(d, calls, g);
    RequestsInOrder(d, calls, g);
    assert k1 < k2 by {
      PassedComeInOrder(d, calls, g, t1, t2);
    }
    AcceptancesAreApart(PolicyOf(g), LifetimeOf(d, g), reqs, k1, k2);
    RequestIsNow(d, After(d, calls[..t1]), calls[t1], g);
    RequestIsNow(d, After(d, calls[..t2]), calls[t2], g);
  }

  lemma PassedComeInOrder(d: Front, calls: seq<Arrival>, g: Gate, t1: nat, t2: nat)
    requires t1 < t2 < |calls| && RequestAt(d, After(d, calls[..t1]), calls[t1], g).Some?
    ensures |Requests(d, calls[..t1], g)| < |Requests(d, calls[..t2], g)|
  {
    hide RequestAt, After;
    assert calls[..t1 + 1][..t1] == calls[..t1];
    assert calls[..t2][..t1 + 1] == calls[..t1 + 1];
    RequestsGrow(d, calls[..t2], g, t1 + 1);
  }

  /** An earlier call passed the gate with this identifier and left it there, less than the cache lifetime ago. */
  ghost predicate RecentlyLeft(d: Front, calls: seq<Arrival>, g: Gate, jti: GoString, now: int) {
    exists u :: 0 <= u < |calls| && LeftAt(d, calls, g, u, jti, now)
  }

  predicate LeftAt(d: Front, calls: seq<Arrival>, g: Gate, u: nat, jti: GoString, now: int)
    requires u < |calls|
  {
    var p := After(d, calls[..u]);
    var r := RequestAt(d, p, calls[u], g);
    r.Some? && Passed(d, p, g, r) && r.value.jti == jti && LeavesIdentifier(calls[u], g)
      && now < p.state.now + LifetimeOf(d, g)
  }

  lemma {:induction false} CallOf(d: Front, calls: seq<Arrival>, g: Gate, k: nat) returns (u: nat)
    requires k < |Requests(d, calls, g)|
    ensures u < |calls| && RequestAt(d, After(d, calls[..u]), calls[u], g).Some? && k == |Requests(d, calls[..u], g)|
    decreases |calls|
  {
    hide RequestAt, After;
    var front := calls[..|calls| - 1];
    if k < |Requests(d, front, g)| {
      u := CallOf(d, front, g, k);
      assert front[..u] == calls[..u];
    } else {
      u := |front|;
    }
  }

  lemma LeavingIsRecording(d: Front, calls: seq<Arrival>, g: Gate, jti: GoString, now: int)
    ensures RecentlyLeft(d, calls, g, jti, now) <==>
            RecentlyRecorded(PolicyOf(g), LifetimeOf(d, g), Requests(d, calls, g), jti, now)
  {
    hide RequestAt, After, Accepted, Passed, LeavesIdentifier, FaultsAt, OnRecord;
    var reqs := Requests(d, calls, g);
    if RecentlyLeft(d, calls, g, jti, now) {
      var u :| 0 <= u < |calls| && LeftAt(d, calls, g, u, jti, now);
      LeftIsRecorded(d, calls, g, u, jti, now);
    }
    if RecentlyRecorded(PolicyOf(g), LifetimeOf(d, g), reqs, jti, now) {
      var k :| 0 <= k < |reqs| && reqs[k].jti == jti && Accepted(PolicyOf(g), LifetimeOf(d, g), reqs, k)
        && OnRecord(PolicyOf(g), reqs[k]) && now < reqs[k].at + LifetimeOf(d, g);
      var u := CallOf(d, calls, g, k);
      LeftIsRecorded(d, calls, g, u, jti, now);
    }
  }

  lemma LeftIsRecorded(d: Front, calls: seq<Arrival>, g: Gate, u: nat, jti: GoString, now: int)
    requires u < |calls| && RequestAt(d, After(d, calls[..u]), calls[u], g).Some?
    ensures var reqs, k := Requests(d, calls, g), |Requests(d, calls[..u], g)|;
            && k < |reqs|
            && (LeftAt(d, calls, g, u, jti, now) <==>
                  reqs[k].jti == jti && Accepted(PolicyOf(g), LifetimeOf(d, g), reqs, k)
                    && OnRecord(PolicyOf(g), reqs[k])
                  && now < reqs[k].at + LifetimeOf(d, g))
  {
    var p := After(d, calls[..u]);
    FaultsAreTheRequests(d, p, calls[u], g);
    RequestIsNow(d, p, calls[u], g);
    var k := PassedIsAccepted(d, calls, g, u);
    RecordingLeaves(d, p, calls[u], g);
    hide RequestAt, After, Accepted, Passed, LeavesIdentifier, FaultsAt, OnRecord, PolicyOf, LifetimeOf;
  }

  lemma RecordingLeaves(d: Front, p: Point, a: Arrival, g: Gate)
    ensures var r := RequestAt(d, p, a, g);
            r.Some? && OnRecord(PolicyOf(g), r.value) ==> LeavesIdentifier(a, g)
  {
    hide ProofPasses, PopPasses, KeyOf;
  }

  /**
    When a gate lets a call pass, in every run, whatever fails: exactly if its token passes the checks, its read
    fails or no call with this identifier passed and left it there within the cache lifetime, and, at the proof
    gate, its write works unless the read failed.
   */
  lemma {:induction false} PassesExactly(d: Front, calls: seq<Arrival>, a: Arrival, g: Gate)
    requires RequestAt(d, After(d, calls), a, g).Some?
    ensures var p := After(d, calls);
            var r := RequestAt(d, p, a, g).value;
            Passed(d, p, g, Some(r)) <==>
              && r.passes
              && (FaultsAt(a, g).getFails || !RecentlyLeft(d, calls, g, r.jti, p.state.now))
              && (g.PopGate? || FaultsAt(a, g).getFails || !FaultsAt(a, g).setFails)
  {
    var p := After(d, calls);
    var r := RequestAt(d, p, a, g).value;
    FaultsAreTheRequests(d, p, a, g);
    RequestIsNow(d, p, a, g);
    CacheFollowsTheory(d, calls, g);
    RequestsInOrder(d, calls, g);
    CacheRemembersRecords(PolicyOf(g), LifetimeOf(d, g), Requests(d, calls, g), r.jti, r.at);
    LeavingIsRecording(d, calls, g, r.jti, r.at);
    hide RequestAt, After, RecentlyLeft, RecentlyRecorded, SeenAfter, FaultsAt, Requests;
  }
}
