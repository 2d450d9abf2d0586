/** What every reachable state of the token endpoint satisfies, and what the history of a run therefore says. */
module Invariants {
  import opened GoStrings
  import opened Items
  import opened TtlCache
  import opened Grants
  import opened Lifecycle
  import Scopes

  // --- stored codes and the grants made on them ----------------------------

  /** Each cached item is the one its origin event stored, under its own code; no two entries share an origin. */
  predicate CodesLogged(s: State) {
    && (forall k :: k in s.codes ==>
          && s.codes[k].origin < |s.log| && StoredItem(s.log[s.codes[k].origin]) == Some(s.codes[k].value)
          && s.codes[k].value.code == k)
    && (forall k, q :: k in s.codes && q in s.codes && s.codes[k].origin == s.codes[q].origin ==> k == q)
  }

  /** A grant on a stored code names an earlier stored item and hands on its scope and subject. */
  predicate RedemptionLogged(log: seq<Event>, i: nat)
    requires i < |log|
  {
    log[i].CodeRedeemed? && log[i].code.Some? ==>
      var o := log[i].code.value;
      && o < i && StoredItem(log[o]).Some?
      && log[i].grant.scope == StoredItem(log[o]).value.scope
      && log[i].grant.subject == StoredItem(log[o]).value.session.subject
  }

  predicate RedemptionsLogged(s: State) {
    forall i :: 0 <= i < |s.log| ==> RedemptionLogged(s.log, i)
  }

  // --- refresh tokens ------------------------------------------------------

  /** The event is a code redemption that could start a family, and the grant holds exactly its rights. */
  predicate RootedAt(log: seq<Event>, f: nat, g: Grant) {
    && f < |log| && log[f].CodeRedeemed? && !log[f].preAuth && g.jkt != []
    && g.clientID == log[f].grant.clientID && g.scope == log[f].grant.scope
    && g.subject == log[f].grant.subject && g.jkt == log[f].grant.jkt
  }

  function ItemGrant(item: RefreshItemV): Grant {
    Grant([], item.session.subject, item.clientID, item.scope, item.jkt)
  }

  predicate FamiliesLogged(s: State) {
    && (forall key :: key in s.refresh ==> RootedAt(s.log, s.refresh[key].origin, ItemGrant(s.refresh[key].value)))
    && (forall i :: 0 <= i < |s.log| && s.log[i].Refreshed? ==> RootedAt(s.log[..i], s.log[i].family, s.log[i].grant))
  }

  // --- scopes and the authorize leg ----------------------------------------

  predicate StatesLogged(cfg: Config, s: State) {
    && (forall k :: k in s.states ==>
          s.states[k].origin < |s.log| && s.log[s.states[k].origin] == StateSaved(s.states[k].value))
    && (forall i :: 0 <= i < |s.log| && s.log[i].StateSaved? ==> Scopes.IsSupported(cfg.scopes, s.log[i].state.scope))
    && (forall i :: 0 <= i < |s.log| && s.log[i].CodeStored? ==>
          var o := s.log[i].savedState;
          o < i && s.log[o].StateSaved? && s.log[o].state.scope == s.log[i].item.scope)
  }

  function Saves(log: seq<Event>): nat {
    if log == [] then 0 else Saves(log[..|log| - 1]) + if log[|log| - 1].StateSaved? then 1 else 0
  }

  function Callbacks(log: seq<Event>): nat {
    if log == [] then 0 else Callbacks(log[..|log| - 1]) + if log[|log| - 1].CodeStored? then 1 else 0
  }

  predicate StatesCounted(s: State) {
    Callbacks(s.log) + |s.states| <= Saves(s.log)
  }

  // --- sessions ------------------------------------------------------------

  /** Templates of cached codes are unbound, and a session made by a grant is bound to the grant's key. */
  predicate SessionsBound(s: State) {
    && (forall k :: k in s.codes ==> BoundKey(s.codes[k].value.session) == [])
    && (forall i :: 0 <= i < |s.log| && IsGrant(s.log[i]) && s.log[i].grant.session in s.sessions ==>
          BoundKey(s.sessions[s.log[i].grant.session]) == s.log[i].grant.jkt
          && s.sessions[s.log[i].grant.session].subject == s.log[i].grant.subject)
  }

  predicate Inv(cfg: Config, s: State) {
    CodesLogged(s) && RedemptionsLogged(s) && FamiliesLogged(s) && StatesLogged(cfg, s) && StatesCounted(s)
      && SessionsBound(s)
  }

  // --- preservation --------------------------------------------------------

  // One view of a micro-step for each cache it may touch.

  predicate Appends(s: State, s': State) {
    |s.log| <= |s'.log| <= |s.log| + 1 && s'.log[..|s.log|] == s.log
  }

  predicate CodesStep(cfg: Config, s: State, s': State) {
    && Appends(s, s')
    && (Shrinks(s.codes, s'.codes)
        || (|s'.log| > |s.log| && StoredItem(s'.log[|s.log|]).Some?
            && var item := StoredItem(s'.log[|s.log|]).value;
               BoundKey(item.session) == []
                 && s'.codes == s.codes[item.code := Entry(item, s.now + cfg.authCodeTTL, |s.log|)]))
  }

  lemma CodesView(cfg: Config, s: State, s': State)
    requires Micro(cfg, s, s')
    ensures CodesStep(cfg, s, s')
  {
    hide Issues, Mints, TxCodeMatches, Presented, Carries, BoundKey;
  }

  ghost predicate RefreshStep(s: State, s': State) {
    && Appends(s, s')
    && (|s'.log| > |s.log| && s'.log[|s.log|].Refreshed? ==>
          exists key :: key in s.refresh && s.refresh[key].origin == s'.log[|s.log|].family
                        && Carries(s.refresh[key].value, s'.log[|s.log|].grant))
    && forall key :: key in s'.refresh ==>
         || (key in s.refresh && s'.refresh[key] == s.refresh[key])
         || (|s'.log| > |s.log| && NewRefresh(s'.refresh[key], s'.log[|s.log|], |s.log|))
  }

  /** The entry was made by this event, the n-th. */
  predicate NewRefresh(e: Entry<RefreshItemV>, ev: Event, n: nat) {
    match ev
    case CodeRedeemed(preAuth, _, g) => !preAuth && e.origin == n && Carries(e.value, g)
    case Refreshed(f, g) => e.origin == f && Carries(e.value, g)
    case _ => false
  }

  lemma RefreshView(cfg: Config, s: State, s': State)
    requires Micro(cfg, s, s')
    ensures RefreshStep(s, s')
  {
    hide Mints, TxCodeMatches, Presented, Carries, BoundKey;
  }

  predicate SessionsStep(s: State, s': State) {
    && Appends(s, s') && SessionsKept(s.sessions, s'.sessions)
    && (forall id :: id in s'.sessions && id !in s.sessions ==> FreshSession(s, id))
    && (|s'.log| > |s.log| && IsGrant(s'.log[|s.log|]) ==>
          var g := s'.log[|s.log|].grant;
          && g.session in s'.sessions && s'.sessions[g.session].subject == g.subject
          && (g.jkt != [] ==> BoundKey(s'.sessions[g.session]) == g.jkt))
  }

  /** A Bearer grant's session has the binding of the template it came from. */
  ghost predicate BearerStep(s: State, s': State) {
    |s'.log| > |s.log| && IsGrant(s'.log[|s.log|]) && s'.log[|s.log|].grant.jkt == [] ==>
      var id := s'.log[|s.log|].grant.session;
      && id in s'.sessions
      && (|| BoundKey(s'.sessions[id]) == []
          || exists k :: k in s.codes && BoundKey(s'.sessions[id]) == BoundKey(s.codes[k].value.session))
  }

  lemma SessionsView(cfg: Config, s: State, s': State)
    requires Micro(cfg, s, s')
    ensures SessionsStep(s, s') && BearerStep(s, s')
  {
    hide Issues, Shrinks, TxCodeMatches, Presented;
  }

  // Preservation, one invariant at a time.

  lemma KeepsCodesLogged(cfg: Config, s: State, s': State)
    requires CodesStep(cfg, s, s') && CodesLogged(s)
    ensures CodesLogged(s')
  {
    assert forall i :: 0 <= i < |s.log| ==> s'.log[i] == s.log[i];
  }

  lemma KeepsRedemptionsLogged(cfg: Config, s: State, s': State)
    requires Micro(cfg, s, s') && CodesLogged(s) && RedemptionsLogged(s)
    ensures RedemptionsLogged(s')
  {
    forall i: nat | i < |s'.log| ensures RedemptionLogged(s'.log, i) {
      assert forall j :: 0 <= j < |s.log| ==> s'.log[j] == s.log[j];
      if i < |s.log| {
        assert RedemptionLogged(s.log, i);
      }
    }
  }

  lemma KeepsFamiliesLogged(s: State, s': State)
    requires RefreshStep(s, s') && FamiliesLogged(s)
    ensures FamiliesLogged(s')
  {
    var n := |s.log|;
    assert forall i :: 0 <= i < n ==> s'.log[i] == s.log[i];
    forall i | 0 <= i < |s'.log| && s'.log[i].Refreshed?
      ensures RootedAt(s'.log[..i], s'.log[i].family, s'.log[i].grant) {
      if i < n {
        assert s'.log[..i] == s.log[..i];
      } else {
        assert s'.log[..i] == s.log;
        var key :| key in s.refresh && s.refresh[key].origin == s'.log[n].family
          && Carries(s.refresh[key].value, s'.log[n].grant);
        assert RootedAt(s.log, s.refresh[key].origin, ItemGrant(s.refresh[key].value));
      }
    }
    forall key | key in s'.refresh ensures RootedAt(s'.log, s'.refresh[key].origin, ItemGrant(s'.refresh[key].value)) {
      if key in s.refresh && s'.refresh[key] == s.refresh[key] {
        assert RootedAt(s.log, s.refresh[key].origin, ItemGrant(s.refresh[key].value));
      } else if s'.log[n].Refreshed? {
        assert RootedAt(s'.log[..n], s'.log[n].family, s'.log[n].grant);
      }
    }
  }

  ghost predicate StatesStep(cfg: Config, s: State, s': State) {
    && Appends(s, s')
    && (forall k :: k in s'.states ==>
          || (k in s.states && s'.states[k] == s.states[k])
          || (Appended(s, s') == Some(StateSaved(s'.states[k].value)) && s'.states[k].origin == |s.log|))
    && (Appended(s, s').Some? && Appended(s, s').value.StateSaved? ==>
        Scopes.IsSupported(cfg.scopes, Appended(s, s').value.state.scope))
    && (Appended(s, s').Some? && Appended(s, s').value.CodeStored? ==>
          exists k :: k in s.states && s.states[k].origin == Appended(s, s').value.savedState
                      && s.states[k].value.scope == Appended(s, s').value.item.scope)
  }

  lemma StatesStepView(cfg: Config, s: State, s': State)
    requires Micro(cfg, s, s')
    ensures StatesStep(cfg, s, s')
  {
    hide Issues, Mints, TxCodeMatches, Presented, Carries, BoundKey;
  }

  lemma KeepsStatesLogged(cfg: Config, s: State, s': State)
    requires StatesStep(cfg, s, s') && StatesLogged(cfg, s)
    ensures StatesLogged(cfg, s')
  {
    assert forall i :: 0 <= i < |s.log| ==> s'.log[i] == s.log[i];
  }

  lemma ShrinkingShrinksSize<T>(t: Table<T>, t': Table<T>)
    requires Shrinks(t, t')
    ensures |t'| <= |t|
  {
    assert t'.Keys <= t.Keys;
    SubsetSize(t'.Keys, t.Keys);
    assert |t'| == |t'.Keys| && |t| == |t.Keys|;
  }

  lemma {:induction false} SubsetSize<T>(a: set<T>, b: set<T>)
    requires a <= b
    ensures |a| <= |b|
  {
    assert b == a + (b - a);
  }

  lemma KeysSize<T>(t: Table<T>)
    ensures |t| == |t.Keys|
  {
  }

  lemma KeepsStatesCounted(cfg: Config, s: State, s': State)
    requires Micro(cfg, s, s') && StatesCounted(s)
    ensures StatesCounted(s')
  {
    if Quiet(s, s') {
      ShrinkingShrinksSize(s.states, s'.states);
    } else {
      StatesSizeView(cfg, s, s');
      assert s'.log[..|s'.log| - 1] == s.log;
    }
  }

  lemma StatesView(cfg: Config, s: State, s': State)
    requires Records(cfg, s, s')
    ensures match s'.log[|s.log|]
            case StateSaved(item) => item.state in s'.states && s'.states.Keys == s.states.Keys + {item.state}
            case CodeStored(_, _) => exists k :: k in s.states && s'.states.Keys == s.states.Keys - {k}
            case _ => s'.states == s.states
  {
    if s'.log[|s.log|].CodeStored? {
      var k :| k in s.states && s'.states == s.states - {k};
      assert s'.states.Keys == s.states.Keys - {k};
    }
  }

  lemma StatesSizeView(cfg: Config, s: State, s': State)
    requires Records(cfg, s, s')
    ensures var e := s'.log[|s.log|];
            |s'.states| <= |s.states| + (if e.StateSaved? then 1 else 0) - if e.CodeStored? then 1 else 0
  {
    StatesView(cfg, s, s');
    KeysSize(s.states);
    KeysSize(s'.states);
  }

  lemma KeepsSessionsBound(cfg: Config, s: State, s': State)
    requires CodesStep(cfg, s, s') && SessionsStep(s, s') && BearerStep(s, s') && SessionsBound(s)
    ensures SessionsBound(s')
  {
    assert forall i :: 0 <= i < |s.log| ==> s'.log[i] == s.log[i];
    forall i | 0 <= i < |s'.log| && IsGrant(s'.log[i]) && s'.log[i].grant.session in s'.sessions
      ensures BoundKey(s'.sessions[s'.log[i].grant.session]) == s'.log[i].grant.jkt
      ensures s'.sessions[s'.log[i].grant.session].subject == s'.log[i].grant.subject
    {
      if i < |s.log| {
        assert s'.log[i].grant.session in s.sessions;
      }
    }
  }

  lemma {:induction false} KeepsInv(cfg: Config, s: State, s': State)
    requires Micro(cfg, s, s') && Inv(cfg, s)
    ensures Inv(cfg, s')
  {
    CodesView(cfg, s, s');
    RefreshView(cfg, s, s');
    SessionsView(cfg, s, s');
    KeepsCodesLogged(cfg, s, s');
    KeepsRedemptionsLogged(cfg, s, s');
    KeepsFamiliesLogged(s, s');
    StatesStepView(cfg, s, s');
    KeepsStatesLogged(cfg, s, s');
    KeepsStatesCounted(cfg, s, s');
    KeepsSessionsBound(cfg, s, s');
  }

  /** The invariant holds after every run, faults or not. */
  lemma {:induction false} RunInv(cfg: Config, ops: seq<Op>)
    requires Run(cfg, ops)
    ensures Inv(cfg, Exec(cfg, ops))
  {
    if ops != [] {
      RunPrefix(cfg, ops);
      var s := Exec(cfg, ops[..|ops| - 1]);
      RunInv(cfg, ops[..|ops| - 1]);
      var mid := StepShape(cfg, s, ops[|ops| - 1]);
      KeepsInv(cfg, s, mid);
      KeepsInv(cfg, mid, Exec(cfg, ops));
    }
  }
}
