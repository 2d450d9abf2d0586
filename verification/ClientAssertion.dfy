/** routes/token.go, handleClientCredentials: the time and jti checks on a client assertion. */
module ClientAssertion {
  import opened GoStrings
  import opened ReplayTheory
  import opened ReplayCache
  import opened Jwt

  const LEEWAY: int := 30 * SECOND

  /** The parser's time checks: exp, nbf and, on request, iat, each only where present. */
  predicate Fresh(c: Claims, now: int) {
    InTime(c, LEEWAY, now) && (c.iat.Some? ==> c.iat.value - LEEWAY <= now)
  }

  function FreshAt(c: Claims): int -> bool {
    (now: int) => Fresh(c, now)
  }

  /**
    From the parsed token on. The five-minute cap on exp applies only when reading exp fails, which
    registered claims never do, so no exp is too far away. The jti check goes on after a failed read
    and after a failed write.
   */
  method CheckAssertion(cache: JtiCache, signatureAndAudienceOK: bool, c: Claims, now: int, f: Faults)
    returns (ok: bool)
    modifies cache
    ensures (cache.seen, ok) == Step(BestEffort, cache.ttl, old(cache.seen),
              Request(now, c.jti, signatureAndAudienceOK && Fresh(c, now) && c.jti != [], f.getFails, f.setFails))
  {
    if !signatureAndAudienceOK || !InTime(c, LEEWAY, now) {
      return false;
    }
    if c.iat.Some? && now < c.iat.value - LEEWAY {
      return false;
    }
    if c.jti == [] {
      return false;
    }
    var known := cache.Get(now, c.jti, f.getFails);
    if known == Some(true) {
      return false;
    }
    var saved := cache.Set(now, c.jti, f.setFails);
    return true;
  }

  /** When an assertion is in time: half a minute of leeway on exp, nbf and iat, each only where present. */
  lemma {:induction false} InTimeExactly(c: Claims, now: int)
    ensures Fresh(c, now) <==>
              && (c.exp.Some? ==> now < c.exp.value + 30_000_000_000)
              && (c.nbf.Some? ==> c.nbf.value <= now + 30_000_000_000)
              && (c.iat.Some? ==> c.iat.value <= now + 30_000_000_000)
  {
  }

  /**
    An assertion with exp, first accepted at t1, passes the jti check no second time exactly when
    exp plus 30 seconds is no later than t1 plus the cache lifetime.
   */
  lemma AssertionWithExpIsSingleUse(c: Claims, ttl: int, t1: int)
    requires c.exp.Some? && 0 < ttl && Fresh(c, t1)
    ensures !CanBeReplayedAfter(BestEffort, ttl, c.jti, FreshAt(c), t1) <==> c.exp.value + LEEWAY <= t1 + ttl
  {
    var ok := FreshAt(c);
    AfterFirstAcceptance(BestEffort, ttl, c.jti, ok, t1);
    if t1 + ttl < c.exp.value + LEEWAY {
      assert ok(t1 + ttl);
    }
  }

  /** An assertion without exp can always be accepted again, one cache lifetime later. */
  lemma AssertionWithoutExpIsNot(c: Claims, ttl: int, t1: int)
    requires c.exp.None? && 0 < ttl && Fresh(c, t1)
    ensures CanBeReplayedAfter(BestEffort, ttl, c.jti, FreshAt(c), t1)
  {
    var ok := FreshAt(c);
    AfterFirstAcceptance(BestEffort, ttl, c.jti, ok, t1);
    assert ok(t1 + ttl);
  }
}
