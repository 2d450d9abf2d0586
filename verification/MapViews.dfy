/**
  The server's tables seen as values, and who shares a metadata map with whom. A map of a cached code
  may also be the map of sessions, which are then tied to that code; it is never another code's or a
  refresh token's.
 */
module MapViews {
  import opened GoStrings
  import opened Items
  import opened TtlCache
  import opened Grants
  import opened StoreModel
  import opened SharedMaps

  function CodeMetas(t: Table<CodeItemR>): set<Metadata> {
    set k | k in t && t[k].value.session.meta != null :: t[k].value.session.meta
  }

  function RefreshMetas(t: Table<RefreshItemR>): set<Metadata> {
    set k | k in t && t[k].value.session.meta != null :: t[k].value.session.meta
  }

  function SessionMetas(t: map<GoString, SessionR>): set<Metadata> {
    set k | k in t && t[k].meta != null :: t[k].meta
  }

  function StateOf(store: Store, sessions: SessionStore): State
    reads store, sessions, CodeMetas(store.codes), RefreshMetas(store.refresh), SessionMetas(sessions.table)
  {
    State(store.now, CodesOf(store.codes), store.states, store.txCodes, RefreshesOf(store.refresh),
          SessionsOf(sessions.table), store.log)
  }

  // --- who shares a map ---------------------------------------------------------

  /** No two cached codes share a map, and no cached code shares one with a refresh token. */
  ghost predicate CodeMapsApart(codes: Table<CodeItemR>, refresh: Table<RefreshItemR>) {
    && (forall k, q :: k in codes && q in codes && k != q && codes[k].value.session.meta != null ==>
          codes[k].value.session.meta != codes[q].value.session.meta)
    && CodeMetas(codes) !! RefreshMetas(refresh)
  }

  /** The session has the very map of the cached code. */
  predicate SameMap(codes: Table<CodeItemR>, sessions: map<GoString, SessionR>, id: GoString, code: GoString) {
    && id in sessions && code in codes
    && sessions[id].meta != null && sessions[id].meta == codes[code].value.session.meta
  }

  ghost predicate TiesAre(codes: Table<CodeItemR>, sessions: map<GoString, SessionR>, ties: Ties) {
    forall id, code :: TiedTo(ties, id, code) <==> SameMap(codes, sessions, id, code)
  }

  /** The map of a cached refresh token already holds the key the token is bound to. */
  ghost predicate RefreshMapsBound(refresh: Table<RefreshItemR>)
    reads set k | k in refresh :: refresh[k].value.session.meta
  {
    forall key :: key in refresh ==> HoldsKey(refresh[key].value.session, refresh[key].value.jkt)
  }

  /** The session's map, if it has one, holds this key. */
  ghost predicate HoldsKey(s: SessionR, jkt: GoString)
    reads s.meta
  {
    s.meta != null ==> DPOP_JKT in s.meta.m && s.meta.m[DPOP_JKT] == jkt
  }

  ghost predicate Separated(store: Store, sessions: SessionStore, ties: Ties)
    reads store, sessions, RefreshMetas(store.refresh)
  {
    && CodeMapsApart(store.codes, store.refresh)
    && TiesAre(store.codes, sessions.table, ties)
    && RefreshMapsBound(store.refresh)
  }

  // --- views of changed tables ----------------------------------------------------

  lemma CodesWith(t: Table<CodeItemR>, code: GoString, e: Entry<CodeItemR>)
    ensures CodesOf(t[code := e]) == CodesOf(t)[code := Entry(ItemOf(e.value), e.expires, e.origin)]
  {
  }

  lemma CodesWithout(t: Table<CodeItemR>, code: GoString)
    ensures CodesOf(t - {code}) == CodesOf(t) - {code}
  {
  }

  lemma RefreshesWith(t: Table<RefreshItemR>, key: GoString, e: Entry<RefreshItemR>)
    ensures RefreshesOf(t[key := e]) == RefreshesOf(t)[key := Entry(RefreshOf(e.value), e.expires, e.origin)]
  {
  }

  lemma SessionsWith(t: map<GoString, SessionR>, id: GoString, s: SessionR)
    ensures SessionsOf(t[id := s]) == SessionsOf(t)[id := SessionOf(s)]
  {
  }

  lemma SessionsWithout(t: map<GoString, SessionR>, drop: set<GoString>)
    ensures SessionsOf(t - drop) == SessionsOf(t) - drop
  {
  }

  /** The cached item a request finds stands for the item its value finds. */
  lemma ItemValue(t: Table<CodeItemR>, code: GoString, now: int)
    ensures ItemOf(ItemAt(t, code, now, null)) == ItemAt(CodesOf(t), code, now, None)
    ensures OriginAt(t, code, now) == OriginAt(CodesOf(t), code, now)
  {
  }

  lemma RefreshValue(t: Table<RefreshItemR>, key: GoString, now: int)
    ensures RefreshesOf(t - {key}) == RefreshesOf(t) - {key}
    ensures Lookup(RefreshesOf(t), key, now) ==
            match Lookup(t, key, now)
            case None => None
            case Some(e) => Some(Entry(RefreshOf(e.value), e.expires, e.origin))
  {
  }

  // --- sharing in changed tables --------------------------------------------------

  /** A new item's map is new, so whoever had the map of an item it replaces is tied to nothing. */
  lemma SharingWithCode(codes: Table<CodeItemR>, refresh: Table<RefreshItemR>, sessions: map<GoString, SessionR>,
                        ties: Ties,
                        code: GoString, e: Entry<CodeItemR>)
    requires CodeMapsApart(codes, refresh) && TiesAre(codes, sessions, ties)
    requires e.value.session.meta !in CodeMetas(codes) + RefreshMetas(refresh) + SessionMetas(sessions)
    ensures CodeMapsApart(codes[code := e], refresh) && TiesAre(codes[code := e], sessions, Without(ties, code))
  {
    var m, after := e.value.session.meta, codes[code := e];
    forall k | k in codes && codes[k].value.session.meta != null
      ensures codes[k].value.session.meta in CodeMetas(codes) {
    }
    forall id | id in sessions && sessions[id].meta != null ensures sessions[id].meta in SessionMetas(sessions) {
    }
    assert CodeMetas(after) <= CodeMetas(codes) + if m == null then {} else {m};
    forall id, c ensures TiedTo(Without(ties, code), id, c) <==> SameMap(after, sessions, id, c) {
      assert TiedTo(ties, id, c) <==> SameMap(codes, sessions, id, c);
    }
  }

  lemma SharingWithoutCode(codes: Table<CodeItemR>, refresh: Table<RefreshItemR>, sessions: map<GoString, SessionR>,
                           ties: Ties, code: GoString)
    requires CodeMapsApart(codes, refresh) && TiesAre(codes, sessions, ties)
    ensures CodeMapsApart(codes - {code}, refresh) && TiesAre(codes - {code}, sessions, Without(ties, code))
  {
    assert CodeMetas(codes - {code}) <= CodeMetas(codes);
    forall id, c ensures TiedTo(Without(ties, code), id, c) <==> SameMap(codes - {code}, sessions, id, c) {
      assert TiedTo(ties, id, c) <==> SameMap(codes, sessions, id, c);
    }
  }

  /** A kept session is tied to a code exactly if it was given that code's map. */
  lemma SharingWithSession(codes: Table<CodeItemR>, refresh: Table<RefreshItemR>, sessions: map<GoString, SessionR>,
                           ties: Ties,
                           id: GoString, s: SessionR, code: GoString, tied: bool)
    requires CodeMapsApart(codes, refresh) && TiesAre(codes, sessions, ties)
    requires if tied then s.meta != null && code in codes && codes[code].value.session.meta == s.meta
             else s.meta !in CodeMetas(codes)
    ensures TiesAre(codes, sessions[id := s], TiesWith(ties, id, code, tied))
  {
    var after, ties' := sessions[id := s], TiesWith(ties, id, code, tied);
    forall i, c ensures TiedTo(ties', i, c) <==> SameMap(codes, after, i, c) {
      assert TiedTo(ties, i, c) <==> SameMap(codes, sessions, i, c);
      if c in codes && codes[c].value.session.meta != null {
        assert codes[c].value.session.meta in CodeMetas(codes);
      }
    }
  }

  lemma SharingWithoutSession(codes: Table<CodeItemR>, sessions: map<GoString, SessionR>, ties: Ties,
                              drop: set<GoString>)
    requires TiesAre(codes, sessions, ties)
    ensures TiesAre(codes, sessions - drop, ties - drop)
  {
    forall id, c ensures TiedTo(ties - drop, id, c) <==> SameMap(codes, sessions - drop, id, c) {
      assert TiedTo(ties, id, c) <==> SameMap(codes, sessions, id, c);
    }
  }

  lemma SharingWithToken(codes: Table<CodeItemR>, refresh: Table<RefreshItemR>, key: GoString, e: Entry<RefreshItemR>)
    requires CodeMapsApart(codes, refresh) && RefreshMapsBound(refresh)
    requires e.value.session.meta !in CodeMetas(codes) && HoldsKey(e.value.session, e.value.jkt)
    ensures CodeMapsApart(codes, refresh[key := e]) && RefreshMapsBound(refresh[key := e])
  {
    var m := e.value.session.meta;
    assert RefreshMetas(refresh[key := e]) <= RefreshMetas(refresh) + if m == null then {} else {m};
  }

  lemma SharingWithoutToken(codes: Table<CodeItemR>, refresh: Table<RefreshItemR>, key: GoString)
    requires CodeMapsApart(codes, refresh) && RefreshMapsBound(refresh)
    ensures CodeMapsApart(codes, refresh - {key}) && RefreshMapsBound(refresh - {key})
    ensures key in refresh ==>
              var sess := refresh[key].value.session;
              && HoldsKey(sess, refresh[key].value.jkt)
              && (sess.meta != null ==> sess.meta in RefreshMetas(refresh) && sess.meta !in CodeMetas(codes))
  {
    assert RefreshMetas(refresh - {key}) <= RefreshMetas(refresh);
    if key in refresh && refresh[key].value.session.meta != null {
      assert refresh[key].value.session.meta in RefreshMetas(refresh);
    }
  }

  /** The map of a cached item is no other code's and no refresh token's. */
  lemma OwnMapIsApart(codes: Table<CodeItemR>, refresh: Table<RefreshItemR>, code: GoString)
    requires CodeMapsApart(codes, refresh) && code in codes && codes[code].value.session.meta != null
    ensures var m := codes[code].value.session.meta;
            m in CodeMetas(codes) && m !in CodeMetas(codes - {code}) && m !in RefreshMetas(refresh)
  {
    assert codes[code].value.session.meta in CodeMetas(codes);
  }
}
