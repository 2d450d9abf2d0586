/** routes/authorization.go, redirectAuthError: reporting an error by redirect. */
module ErrorRedirect {
  import opened GoStrings
  import opened FormEncoding

  const ERROR: GoString := "error"
  const ERROR_DESCRIPTION: GoString := ERROR + "_description"
  const STATE: GoString := "state"

  /** v.Set per key, then v.Encode: error, error_description, state is already the sorted order. */
  function ErrorPairs(state: Option<GoString>, code: GoString, desc: GoString): seq<Pair> {
    [(ERROR, code), (ERROR_DESCRIPTION, desc)]
    + if state.Some? && state.value != [] then [(STATE, state.value)] else []
  }

  function ErrorValues(state: Option<GoString>, code: GoString, desc: GoString): Values {
    var v: Values := map[ERROR := [code], ERROR_DESCRIPTION := [desc]];
    if state.Some? && state.value != [] then v[STATE := [state.value]] else v
  }

  lemma KeyOrder()
    ensures StrictlySorted([ERROR, ERROR_DESCRIPTION, STATE])
    ensures StrictlySorted([ERROR, ERROR_DESCRIPTION])
  {
    PrefixFirst(ERROR, "_description");
    assert ERROR[0] == ERROR_DESCRIPTION[0] == 'e' && STATE[0] == 's';
    assert |ERROR| < |ERROR_DESCRIPTION|;
  }

  /** The list is what Values.Encode makes of the map the handler fills. */
  lemma ErrorValuesSorted(state: Option<GoString>, code: GoString, desc: GoString)
    ensures Encode(ErrorValues(state, code, desc)) == EncodePairs(ErrorPairs(state, code, desc))
  {
    var v := ErrorValues(state, code, desc);
    KeyOrder();
    var ks := [ERROR, ERROR_DESCRIPTION] + if state.Some? && state.value != [] then [STATE] else [];
    if |ks| == 3 {
      assert ks == [ERROR, ERROR_DESCRIPTION, STATE];
    } else {
      assert ks == [ERROR, ERROR_DESCRIPTION];
    }
    FlattenInOrder(v, ks);
    assert v.Keys == set k | k in ks;
    PairsAreErrorPairs(state, code, desc, ks);
  }

  lemma PairsAreErrorPairs(state: Option<GoString>, code: GoString, desc: GoString, ks: seq<GoString>)
    requires ks == [ERROR, ERROR_DESCRIPTION] + if state.Some? && state.value != [] then [STATE] else []
    requires STATE != ERROR && STATE != ERROR_DESCRIPTION && ERROR != ERROR_DESCRIPTION
    ensures FlattenKeys(ErrorValues(state, code, desc), ks) == ErrorPairs(state, code, desc)
  {
    var v := ErrorValues(state, code, desc);
    assert PairsOfKey(ERROR, v[ERROR]) == [(ERROR, code)];
    assert PairsOfKey(ERROR_DESCRIPTION, v[ERROR_DESCRIPTION]) == [(ERROR_DESCRIPTION, desc)];
    var rest := ks[1..][1..];
    assert rest == if state.Some? && state.value != [] then [STATE] else [];
    if state.Some? && state.value != [] {
      assert PairsOfKey(STATE, v[STATE]) == [(STATE, state.value)];
      assert rest[1..] == [];
      assert FlattenKeys(v, rest) == [(STATE, state.value)];
    }
    assert FlattenKeys(v, ks[1..]) == [(ERROR_DESCRIPTION, desc)] + FlattenKeys(v, rest);
  }

  function Separator(uri: GoString): Byte {
    if '?' in uri then '&' else '?'
  }

  ghost function ErrorUrl(uri: GoString, state: Option<GoString>, code: GoString, desc: GoString): GoString {
    uri + [Separator(uri)] + Encode(ErrorValues(state, code, desc))
  }

  method ErrorLocation(redirectURI: GoString, state: Option<GoString>, code: GoString, desc: GoString)
    returns (url: GoString)
    ensures url == ErrorUrl(redirectURI, state, code, desc)
  {
    var v := [(ERROR, code), (ERROR_DESCRIPTION, desc)];
    if state.Some? && state.value != [] {
      v := v + [(STATE, state.value)];
    }
    var sep: Byte := '?';
    if '?' in redirectURI {
      sep := '&';
    }
    assert v == ErrorPairs(state, code, desc);
    ErrorValuesSorted(state, code, desc);
    url := redirectURI + [sep] + EncodePairs(v);
  }

  function BeforeFragment(url: GoString): GoString {
    url[..IndexOf(url, '#')]
  }

  function AfterMark(s: GoString): GoString {
    var i := IndexOf(s, '?');
    if i == |s| then [] else s[i + 1..]
  }

  /** The query of a URL: after the first question mark, before any fragment. */
  function QueryOf(url: GoString): GoString {
    AfterMark(BeforeFragment(url))
  }

  /** The parameters a client reads from a URL. */
  function Params(url: GoString): seq<Pair> {
    Parse(QueryOf(url))
  }

  lemma IndexOfIs(s: GoString, c: Byte, i: nat)
    requires i <= |s| && c !in s[..i] && (i < |s| ==> s[i] == c)
    ensures IndexOf(s, c) == i
  {
    var j := IndexOf(s, c);
    assert forall t :: 0 <= t < i ==> s[t] == s[..i][t];
    assert forall t :: 0 <= t < j ==> s[t] == s[..j][t];
  }

  lemma {:induction false} EncodedHasNoFragment(ps: seq<Pair>)
    ensures '#' !in EncodePairs(ps)
  {
    JoinHasNoFragment(Pieces(ps), ps);
  }

  lemma {:induction false} JoinHasNoFragment(pieces: seq<GoString>, ps: seq<Pair>)
    requires pieces == Pieces(ps)
    ensures '#' !in Join(pieces, '&')
  {
    if ps != [] {
      EscapeHidesDelimiters(ps[0].0);
      EscapeHidesDelimiters(ps[0].1);
      JoinHasNoFragment(pieces[1..], ps[1..]);
    }
  }

  lemma NoFragment(s: GoString)
    requires '#' !in s
    ensures BeforeFragment(s) == s
  {
    assert s[..|s|] == s;
    IndexOfIs(s, '#', |s|);
  }

  lemma FragmentCutsTail(uri: GoString, rest: GoString)
    requires '#' in uri
    ensures BeforeFragment(uri + rest) == BeforeFragment(uri)
  {
    var i := IndexOf(uri, '#');
    assert uri[..|uri|] == uri;
    assert (uri + rest)[..i] == uri[..i];
    IndexOfIs(uri + rest, '#', i);
  }

  lemma FirstMark(uri: GoString, q: GoString)
    requires '?' !in uri
    ensures AfterMark(uri + ['?'] + q) == q && AfterMark(uri) == []
  {
    var u := uri + ['?'] + q;
    assert u[..|uri|] == uri && uri[..|uri|] == uri;
    IndexOfIs(u, '?', |uri|);
    IndexOfIs(uri, '?', |uri|);
  }

  lemma LaterText(uri: GoString, rest: GoString)
    requires '?' in uri
    ensures AfterMark(uri + rest) == AfterMark(uri) + rest
  {
    var i := IndexOf(uri, '?');
    assert uri[..|uri|] == uri;
    assert (uri + rest)[..i] == uri[..i];
    IndexOfIs(uri + rest, '?', i);
    assert (uri + rest)[i + 1..] == uri[i + 1..] + rest;
  }

  lemma AppendedParamsLost(uri: GoString, q: GoString)
    requires '#' in uri
    ensures Params(uri + [Separator(uri)] + q) == Params(uri)
  {
    assert uri + [Separator(uri)] + q == uri + ([Separator(uri)] + q);
    FragmentCutsTail(uri, [Separator(uri)] + q);
  }

  lemma AppendedParamsFound(uri: GoString, q: GoString)
    requires '#' !in uri && '#' !in q
    ensures Params(uri + [Separator(uri)] + q) == Params(uri) + Parse(q)
  {
    hide Parse;
    var url := uri + [Separator(uri)] + q;
    NoFragment(uri);
    NoFragment(url);
    if '?' in uri {
      assert url == uri + (['&'] + q);
      LaterText(uri, ['&'] + q);
      assert QueryOf(url) == QueryOf(uri) + ['&'] + q;
      ParseGlued(QueryOf(uri), q);
    } else {
      FirstMark(uri, q);
      EmptyQuery();
    }
  }

  /** Parameters appended to a URL are read back after its own exactly when it has no fragment. */
  lemma AppendedParams(uri: GoString, ps: seq<Pair>)
    requires ps != [] && Proper(ps)
    ensures Params(uri + [Separator(uri)] + EncodePairs(ps)) == Params(uri) + ps <==> '#' !in uri
  {
    hide Params, EncodePairs;
    if '#' in uri {
      AppendedParamsLost(uri, EncodePairs(ps));
      assert |Params(uri) + ps| > |Params(uri)|;
    } else {
      EncodedHasNoFragment(ps);
      ParseEncoded(ps);
      AppendedParamsFound(uri, EncodePairs(ps));
    }
  }

  /**
    The client finds its own parameters, then error, description and any non-empty state, exactly
    when its redirect URI has no fragment. A registered URI with a fragment hides all of them.
   */
  lemma {:induction false} ErrorReachesClient(uri: GoString, state: Option<GoString>, code: GoString, desc: GoString)
    ensures Params(ErrorUrl(uri, state, code, desc)) == Params(uri) + ErrorPairs(state, code, desc) <==> '#' !in uri
  {
    var ps := ErrorPairs(state, code, desc);
    assert |ERROR| > 0 && |ERROR_DESCRIPTION| > 0 && |STATE| > 0;
    assert Proper(ps);
    ErrorValuesSorted(state, code, desc);
    AppendedParams(uri, ps);
  }

  lemma EmptyQuery()
    ensures Parse([]) == []
  {
    assert Split([], '&') == [[]];
    assert DecodePair([]) == ([], []);
  }
}
