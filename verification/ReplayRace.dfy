/**
  The jti check split at its two cache operations (routes/router.go, routes/token.go): the read, and the write that
  follows without a lock. Any number of requests interleave at these points.
 */
module ReplayRace {
  import opened GoStrings
  import opened ReplayTheory

  /** An identifier put on record, and when. */
  datatype Record = Record(jti: GoString, at: int)

  /** pending: requests between read and write; verdicts: whether the others were accepted. */
  datatype Shared = Shared(now: int, seen: Seen, pending: map<nat, GoString>, verdicts: map<nat, bool>,
                           records: seq<Record>)

  datatype Move =
    | Wait(d: nat)
    | Read(req: nat, jti: GoString, passes: bool, fails: bool)
    | Write(req: nat, fails: bool)

  const EMPTY: Shared := Shared(0, map[], map[], map[], [])

  predicate CanMove(s: Shared, m: Move) {
    match m
    case Wait(_) => true
    case Read(req, _, _, _) => req !in s.pending && req !in s.verdicts
    case Write(req, _) => req in s.pending
  }

  function Do(policy: Policy, ttl: int, s: Shared, m: Move): Shared
    requires CanMove(s, m)
  {
    match m
    case Wait(d) => s.(now := s.now + d)
    case Read(req, jti, passes, fails) => DoRead(policy, s, req, jti, passes, fails)
    case Write(req, fails) => DoWrite(policy, ttl, s, req, fails)
  }

  function DoRead(policy: Policy, s: Shared, req: nat, jti: GoString, passes: bool, fails: bool): Shared {
    if !passes then s.(verdicts := s.verdicts[req := false])
    else if fails && policy != BestEffort then s.(verdicts := s.verdicts[req := true])
    else if !fails && Live(s.seen, jti, s.now) then s.(verdicts := s.verdicts[req := false])
    else s.(pending := s.pending[req := jti])
  }

  function DoWrite(policy: Policy, ttl: int, s: Shared, req: nat, fails: bool): Shared
    requires req in s.pending
  {
    var s1 := s.(pending := s.pending - {req}, verdicts := s.verdicts[req := !fails || policy != StrictSet]);
    if fails then s1
    else s1.(seen := s.seen[s.pending[req] := s.now + ttl], records := s.records + [Record(s.pending[req], s.now)])
  }

  function After(policy: Policy, ttl: int, ms: seq<Move>): Option<Shared> {
    if ms == [] then Some(EMPTY)
    else
      match After(policy, ttl, ms[..|ms| - 1])
      case None => None
      case Some(s) => if CanMove(s, ms[|ms| - 1]) then Some(Do(policy, ttl, s, ms[|ms| - 1])) else None
  }

  // --- what the cache holds ------------------------------------------------------

  /** An identifier put on record less than ttl ago. */
  predicate Recent(ttl: int, s: Shared, jti: GoString) {
    exists i :: 0 <= i < |s.records| && s.records[i].jti == jti && s.now < s.records[i].at + ttl
  }

  predicate Kept(ttl: int, s: Shared) {
    && (forall i :: 0 <= i < |s.records| ==>
          s.records[i].at <= s.now && s.records[i].jti in s.seen && s.records[i].at + ttl <= s.seen[s.records[i].jti])
    && (forall jti :: jti in s.seen ==>
          exists i :: 0 <= i < |s.records| && s.records[i].jti == jti && s.records[i].at + ttl == s.seen[jti])
  }

  lemma WriteKeeps(policy: Policy, ttl: int, s: Shared, req: nat)
    requires req in s.pending && Kept(ttl, s)
    ensures Kept(ttl, DoWrite(policy, ttl, s, req, false))
  {
    var s' := DoWrite(policy, ttl, s, req, false);
    forall jti | jti in s'.seen
      ensures exists i :: 0 <= i < |s'.records| && s'.records[i].jti == jti && s'.records[i].at + ttl == s'.seen[jti]
    {
      if jti == s.pending[req] {
        assert s'.records[|s.records|] == Record(jti, s.now);
      } else {
        var i :| 0 <= i < |s.records| && s.records[i].jti == jti && s.records[i].at + ttl == s.seen[jti];
        assert s'.records[i] == s.records[i];
      }
    }
  }

  lemma MoveKeeps(policy: Policy, ttl: int, s: Shared, m: Move)
    requires CanMove(s, m) && Kept(ttl, s)
    ensures Kept(ttl, Do(policy, ttl, s, m))
  {
    if m.Write? && !m.fails {
      hide Kept;
      WriteKeeps(policy, ttl, s, m.req);
    } else {
      hide Live;
      assert Do(policy, ttl, s, m).seen == s.seen && Do(policy, ttl, s, m).records == s.records;
    }
  }

  lemma {:induction false} RunKeeps(policy: Policy, ttl: int, ms: seq<Move>)
    requires After(policy, ttl, ms).Some?
    ensures Kept(ttl, After(policy, ttl, ms).value)
  {
    if ms != [] {
      hide Kept, Do;
      RunKeeps(policy, ttl, ms[..|ms| - 1]);
      MoveKeeps(policy, ttl, After(policy, ttl, ms[..|ms| - 1]).value, ms[|ms| - 1]);
    }
  }

  // --- results ---------------------------------------------------------------------

  /**
    What a read decides, in every interleaving, whatever fails: a request that passes the other checks is turned away
    by it exactly if it can read and its identifier was put on record less than ttl ago.
   */
  lemma {:induction false} ReadRefusesExactly(policy: Policy, ttl: int, ms: seq<Move>, m: Move)
    requires After(policy, ttl, ms).Some? && m.Read? && CanMove(After(policy, ttl, ms).value, m)
    ensures var s := After(policy, ttl, ms).value;
            var s' := Do(policy, ttl, s, m);
            m.req in s'.verdicts && !s'.verdicts[m.req] <==> !m.passes || (!m.fails && Recent(ttl, s, m.jti))
  {
    hide After;
    RunKeeps(policy, ttl, ms);
  }

  lemma {:induction false} AfterPrefix(policy: Policy, ttl: int, ms: seq<Move>, t: nat)
    requires After(policy, ttl, ms).Some? && t <= |ms|
    ensures After(policy, ttl, ms[..t]).Some?
    ensures t < |ms| ==> CanMove(After(policy, ttl, ms[..t]).value, ms[t])
    ensures var s, s' := After(policy, ttl, ms[..t]).value, After(policy, ttl, ms).value;
            s.records <= s'.records && s.now <= s'.now
    decreases |ms|
  {
    if t == |ms| {
      assert ms[..t] == ms;
    } else {
      var front := ms[..|ms| - 1];
      AfterPrefix(policy, ttl, front, t);
      assert front[..t] == ms[..t];
    }
  }

  /** A request put its identifier on record with this move. */
  predicate WritesAt(policy: Policy, ttl: int, ms: seq<Move>, t: nat, jti: GoString) {
    && t < |ms| && ms[t].Write? && !ms[t].fails && After(policy, ttl, ms[..t]).Some?
    && ms[t].req in After(policy, ttl, ms[..t]).value.pending
    && After(policy, ttl, ms[..t]).value.pending[ms[t].req] == jti
  }

  /**
    The check in every interleaving: a request that gets past its read though the identifier was put on record
    before either could not read, or came ttl later. So two acceptances closer than that mean a failed read, a failed
    write, or a read that came before the other's write.
   */
  lemma {:induction false} OnlyEarlierReadsGetPast(policy: Policy, ttl: int, ms: seq<Move>, t1: nat, t2: nat)
    requires After(policy, ttl, ms).Some? && t1 < t2 < |ms| && ms[t2].Read? && !ms[t2].fails
    requires WritesAt(policy, ttl, ms, t1, ms[t2].jti)
    requires After(policy, ttl, ms[..t2 + 1]).Some?
             && ms[t2].req in After(policy, ttl, ms[..t2 + 1]).value.pending
    ensures After(policy, ttl, ms[..t2]).Some?
    ensures After(policy, ttl, ms[..t1]).value.now + ttl <= After(policy, ttl, ms[..t2]).value.now
  {
    AfterPrefix(policy, ttl, ms, t2);
    var before, s1 := ms[..t2], After(policy, ttl, ms[..t1]).value;
    assert before[..t1 + 1] == ms[..t1 + 1] && ms[..t1 + 1][..t1] == ms[..t1] && ms[..t2 + 1][..t2] == before;
    AfterPrefix(policy, ttl, before, t1 + 1);
    var s := After(policy, ttl, before).value;
    assert s.records[|s1.records|] == Record(ms[t2].jti, s1.now);
    ReadRefusesExactly(policy, ttl, before, ms[t2]);
    assert After(policy, ttl, ms[..t2 + 1]).value == Do(policy, ttl, s, ms[t2]);
  }

  lemma NothingYet(policy: Policy, ttl: int)
    ensures After(policy, ttl, []) == Some(EMPTY)
  {
  }

  lemma OneMore(policy: Policy, ttl: int, ms: seq<Move>, m: Move)
    requires After(policy, ttl, ms).Some? && CanMove(After(policy, ttl, ms).value, m)
    ensures After(policy, ttl, ms + [m]) == Some(Do(policy, ttl, After(policy, ttl, ms).value, m))
  {
    hide Do, CanMove;
    assert (ms + [m])[..|ms|] == ms;
  }

  /** Two requests with one identifier that both read before either writes are both accepted, nothing failing. */
  lemma {:induction false} OverlappingChecksBothPass(policy: Policy, ttl: int, jti: GoString)
    ensures var ms := [Read(0, jti, true, false), Read(1, jti, true, false), Write(0, false), Write(1, false)];
            && After(policy, ttl, ms).Some?
            && After(policy, ttl, ms).value.verdicts == map[0 := true, 1 := true]
  {
    hide After;
    var m0, m1, m2, m3 := Read(0, jti, true, false), Read(1, jti, true, false), Write(0, false), Write(1, false);
    NothingYet(policy, ttl);
    OneMore(policy, ttl, [], m0);
    assert [] + [m0] == [m0];
    OneMore(policy, ttl, [m0], m1);
    assert [m0] + [m1] == [m0, m1];
    OneMore(policy, ttl, [m0, m1], m2);
    assert [m0, m1] + [m2] == [m0, m1, m2];
    OneMore(policy, ttl, [m0, m1, m2], m3);
    assert [m0, m1, m2] + [m3] == [m0, m1, m2, m3];
  }

  /** Without interruption, read and write are one step of the theory. */
  lemma {:induction false} UninterruptedIsOneStep(policy: Policy, ttl: int, s: Shared, req: nat, r: Request)
    requires req !in s.pending && req !in s.verdicts && r.at == s.now
    ensures var s1 := Do(policy, ttl, s, Read(req, r.jti, r.passes, r.getFails));
            var s2 := if req in s1.pending then Do(policy, ttl, s1, Write(req, r.setFails)) else s1;
            req in s2.verdicts && (s2.seen, s2.verdicts[req]) == Step(policy, ttl, s.seen, r)
  {
  }
}
