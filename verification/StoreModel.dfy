/** authorizationcode/store.go, and the session store it is used with: tables updated in place. */
module StoreModel {
  import opened GoStrings
  import opened Digests
  import opened Items
  import opened TtlCache
  import opened Grants

  /** A Go map is a reference: whoever holds it sees every write to it. */
  class Metadata {
    var m: MetaMap

    constructor (m: MetaMap)
      ensures this.m == m
    {
      this.m := m;
    }
  }

  type SessionR = Session<Metadata?>
  type CodeItemR = AuthCodeItem<Metadata?>
  type RefreshItemR = RefreshTokenItem<Metadata?>

  // --- the value a reference stands for --------------------------------------

  function MetaOf(x: Metadata?): Meta
    reads x
  {
    if x == null then None else Some(x.m)
  }

  function SessionOf(s: SessionR): SessionV
    reads s.meta
  {
    Session(s.id, s.subject, s.firstName, s.lastName, s.personCode, s.scope, s.state, s.lastAccessed, MetaOf(s.meta))
  }

  function ItemOf(i: CodeItemR): CodeItemV
    reads i.session.meta
  {
    AuthCodeItem(i.code, i.clientID, i.userID, i.redirectURI, i.codeChallenge, i.codeChallengeMethod, i.scope,
                 i.issuerState,
                 i.noTXCode, SessionOf(i.session))
  }

  function RefreshOf(i: RefreshItemR): RefreshItemV
    reads i.session.meta
  {
    RefreshTokenItem(i.clientID, i.scope, i.jkt, SessionOf(i.session))
  }

  function CodesOf(t: Table<CodeItemR>): Table<CodeItemV>
    reads set k | k in t :: t[k].value.session.meta
  {
    map k | k in t :: Entry(ItemOf(t[k].value), t[k].expires, t[k].origin)
  }

  function RefreshesOf(t: Table<RefreshItemR>): Table<RefreshItemV>
    reads set k | k in t :: t[k].value.session.meta
  {
    map k | k in t :: Entry(RefreshOf(t[k].value), t[k].expires, t[k].origin)
  }

  function SessionsOf(t: map<GoString, SessionR>): map<GoString, SessionV>
    reads set k | k in t :: t[k].meta
  {
    map k | k in t :: SessionOf(t[k])
  }

  /** What a storage layer hands out or keeps: the same session, or one with its own copy of the metadata map. */
  twostate predicate Passes(s: SessionR, new t: SessionR, shared: bool)
    reads s.meta, t.meta
  {
    && t == s.(meta := t.meta) && MetaOf(t.meta) == MetaOf(s.meta)
    && (if shared || s.meta == null then t.meta == s.meta else t.meta != null && fresh(t.meta))
  }

  method PassSession(s: SessionR, shared: bool) returns (t: SessionR)
    ensures Passes(s, t, shared)
  {
    if shared || s.meta == null {
      return s;
    }
    var copy := new Metadata(s.meta.m);
    t := s.(meta := copy);
  }

  class SessionStore {
    var table: map<GoString, SessionR>

    constructor ()
      ensures table == map[]
    {
      table := map[];
    }

    /** Create keeps the session under its identifier. */
    method Create(s: SessionR, fails: bool, shared: bool) returns (ok: bool, ghost kept: SessionR)
      modifies this
      ensures ok == !fails
      ensures fails ==> table == old(table)
      ensures !fails ==> Passes(s, kept, shared) && table == old(table)[s.id := kept]
    {
      kept := s;
      if fails {
        return false, kept;
      }
      var t := PassSession(s, shared);
      kept := t;
      table := table[s.id := t];
      ok := true;
    }

    method Delete(id: GoString, fails: bool)
      modifies this
      ensures table == old(table) - if fails then {} else {id}
    {
      if !fails {
        table := table - {id};
      }
    }
  }

  class Store {
    const cfg: Config
    var now: int
    var codes: Table<CodeItemR>
    var states: Table<StateItem>
    var txCodes: Table<int>
    var pars: Table<PARItem>
    var refresh: Table<RefreshItemR>
    /** The history of events; its length numbers the next one. */
    var log: seq<Event>

    constructor (cfg: Config)
      ensures this.cfg == cfg && now == 0 && codes == map[] && states == map[] && txCodes == map[]
      ensures pars == map[] && refresh == map[] && log == []
    {
      this.cfg := cfg;
      now, codes, states, txCodes, pars, refresh, log := 0, map[], map[], map[], map[], map[], [];
    }

    method SetItem(item: CodeItemR, origin: nat, fails: bool) returns (ok: bool)
      modifies this`codes
      ensures ok == !fails
      ensures codes == if fails then old(codes) else old(codes)[item.code := Entry(item, now + cfg.authCodeTTL, origin)]
    {
      if !fails {
        codes := codes[item.code := Entry(item, now + cfg.authCodeTTL, origin)];
      }
      ok := !fails;
    }

    /** The item under a code, or the zero item, provided the verifier answers its challenge. */
    method GetItem(code: GoString, verifier: GoString, fails: bool, shared: bool) returns (item: Option<CodeItemR>)
      ensures item.Some? <==> !fails && VerifierMatches(cfg.sha, ItemAt(codes, code, now, null), verifier)
      ensures item.Some? ==>
                && item.value == ItemAt(codes, code, now, null).(session := item.value.session)
                && Passes(ItemAt(codes, code, now, null).session, item.value.session, shared)
    {
      if fails {
        return None;
      }
      var value := ItemAt(codes, code, now, null);
      var challenge := verifier;
      if value.codeChallengeMethod == S256 {
        challenge := EncodedDigest(cfg.sha, verifier);
      }
      if value.codeChallenge != challenge {
        return None;
      }
      var sess := PassSession(value.session, shared);
      return Some(value.(session := sess));
    }

    method DeleteItem(code: GoString, fails: bool) returns (ok: bool)
      modifies this`codes
      ensures ok == !fails
      ensures codes == old(codes) - if fails then {} else {code}
    {
      if !fails {
        codes := codes - {code};
      }
      ok := !fails;
    }

    method SetState(item: StateItem, origin: nat, fails: bool) returns (ok: bool)
      modifies this`states
      ensures ok == !fails
      ensures states == if fails then old(states)
              else old(states)[item.state := Entry(item, now + cfg.stateTTL, origin)]
    {
      if !fails {
        states := states[item.state := Entry(item, now + cfg.stateTTL, origin)];
      }
      ok := !fails;
    }

    /** Pop is atomic: the entry is gone once it has been returned. */
    method PopState(state: GoString, fails: bool) returns (e: Option<Entry<StateItem>>)
      modifies this`states
      ensures e == if fails then None else Lookup(old(states), state, now)
      ensures states == if e.None? then old(states) else old(states) - {state}
    {
      e := None;
      if !fails {
        e := Lookup(states, state, now);
        if e.Some? {
          states := states - {state};
        }
      }
    }

    method SetTXCode(code: GoString, txCode: int, origin: nat, fails: bool) returns (ok: bool)
      modifies this`txCodes
      ensures ok == !fails
      ensures txCodes == if fails then old(txCodes)
              else old(txCodes)[code := Entry(txCode, now + cfg.preAuthTTL, origin)]
    {
      if !fails {
        txCodes := txCodes[code := Entry(txCode, now + cfg.preAuthTTL, origin)];
      }
      ok := !fails;
    }

    method ValidateTXCode(code: GoString, presented: GoString, fails: bool) returns (ok: bool)
      ensures ok <==> !fails && TxCodeMatches(txCodes, code, now, presented)
    {
      if fails {
        return false;
      }
      var stored := 0;
      var e := Lookup(txCodes, code, now);
      if e.Some? {
        stored := e.value.value;
      }
      return Itoa(stored) == presented;
    }

    method DeleteTXCode(code: GoString, fails: bool)
      modifies this`txCodes
      ensures txCodes == if fails then old(txCodes) else old(txCodes) - {code}
    {
      if !fails {
        txCodes := txCodes - {code};
      }
    }

    /** The item under a code without a verifier; the zero item, known by its empty code, is an error. */
    method GetPreAuthItem(code: GoString, fails: bool, shared: bool) returns (item: Option<CodeItemR>)
      ensures item.Some? <==> !fails && ItemAt(codes, code, now, null).code != []
      ensures item.Some? ==>
                && item.value == ItemAt(codes, code, now, null).(session := item.value.session)
                && Passes(ItemAt(codes, code, now, null).session, item.value.session, shared)
    {
      var value := ItemAt(codes, code, now, null);
      if fails || value.code == [] {
        return None;
      }
      var sess := PassSession(value.session, shared);
      return Some(value.(session := sess));
    }

    method SetPAR(item: PARItem, id: GoString, origin: nat, fails: bool) returns (ok: bool)
      modifies this`pars
      ensures ok == !fails
      ensures pars == if fails then old(pars) else old(pars)[id := Entry(item, now + cfg.parTTL, origin)]
    {
      if !fails {
        pars := pars[id := Entry(item, now + cfg.parTTL, origin)];
      }
      ok := !fails;
    }

    method PopPAR(id: GoString, fails: bool) returns (e: Option<Entry<PARItem>>)
      modifies this`pars
      ensures e == if fails then None else Lookup(old(pars), id, now)
      ensures pars == if e.None? then old(pars) else old(pars) - {id}
    {
      e := None;
      if !fails {
        e := Lookup(pars, id, now);
        if e.Some? {
          pars := pars - {id};
        }
      }
    }

    /** Stores the item under the digest of the token, never under the token itself. */
    method IssueRefreshToken(item: RefreshItemR, token: GoString, origin: nat, fails: bool, shared: bool)
      returns (issued: GoString, ghost kept: SessionR)
      modifies this`refresh
      ensures issued == if fails then [] else token
      ensures fails ==> refresh == old(refresh)
      ensures !fails ==>
                && Passes(item.session, kept, shared)
                && refresh == old(refresh)[RefreshKey(cfg, token) := Entry(item.(session := kept),
                      now + cfg.refreshTTL, origin)]
    {
      kept := item.session;
      if fails {
        return [], kept;
      }
      var sess := PassSession(item.session, shared);
      kept := sess;
      refresh := refresh[RefreshKey(cfg, token) := Entry(item.(session := sess), now + cfg.refreshTTL, origin)];
      issued := token;
    }

    method RedeemRefreshToken(token: GoString, fails: bool, shared: bool) returns (e: Option<Entry<RefreshItemR>>)
      modifies this`refresh
      ensures var found := Lookup(old(refresh), RefreshKey(cfg, token), now);
              && (e.Some? <==> found.Some? && !fails)
              && refresh == (if e.None? then old(refresh) else old(refresh) - {RefreshKey(cfg, token)})
              && (e.Some? ==>
                    && e.value == found.value.(value := found.value.value.(session := e.value.value.session))
                    && Passes(found.value.value.session, e.value.value.session, shared))
    {
      var key := RefreshKey(cfg, token);
      var found := Lookup(refresh, key, now);
      if fails || found.None? {
        return None;
      }
      refresh := refresh - {key};
      var sess := PassSession(found.value.value.session, shared);
      e := Some(found.value.(value := found.value.value.(session := sess)));
    }
  }
}
