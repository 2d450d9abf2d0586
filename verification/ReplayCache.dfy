/** routes/router.go: the jti caches and the two ReplayCheck closures over them. */
module ReplayCache {
  import opened GoStrings
  import opened ReplayTheory

  const SECOND: int := 1_000_000_000
  const MINUTE: int := 60 * SECOND

  /** The lifetime the router gives each of its three jti caches. */
  const JTI_TTL: int := 5 * MINUTE

  /** Which cache operations of one request fail. */
  datatype Faults = Faults(getFails: bool, setFails: bool)

  /** A cache of booleans with a default lifetime; a missing entry reads as false. */
  class JtiCache {
    const ttl: int
    var seen: Seen

    constructor (ttl: int)
      ensures this.ttl == ttl && seen == map[]
    {
      this.ttl := ttl;
      seen := map[];
    }

    /** None is a read error. */
    method Get(now: int, jti: GoString, fails: bool) returns (r: Option<bool>)
      ensures r == if fails then None else Some(Live(seen, jti, now))
    {
      if fails {
        return None;
      }
      return Some(jti in seen && now < seen[jti]);
    }

    method Set(now: int, jti: GoString, fails: bool) returns (ok: bool)
      modifies this
      ensures ok == !fails
      ensures seen == if fails then old(seen) else old(seen)[jti := now + ttl]
    {
      if !fails {
        seen := seen[jti := now + ttl];
      }
      ok := !fails;
    }

    /** The closure both validators are configured with: whether jti was seen, and whether recording it failed. */
    method ReplayCheck(now: int, jti: GoString, f: Faults) returns (wasSeen: bool, err: bool)
      modifies this
      ensures var r := Request(now, jti, true, f.getFails, f.setFails);
              && (seen, !wasSeen && !err) == Step(StrictSet, ttl, old(seen), r)
              && (seen, !(!err && wasSeen)) == Step(LenientSet, ttl, old(seen), r)
    {
      var hit := Get(now, jti, f.getFails);
      if hit.None? {
        return false, false;
      }
      if hit.value {
        return true, false;
      }
      var ok := Set(now, jti, f.setFails);
      return false, !ok;
    }
  }
}
