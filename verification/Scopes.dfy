/** authorizationcode/validation.go: the scope allowlist. */
module Scopes {
  import opened GoStrings

  type ScopeSet = set<GoString>

  const DEFAULT_SCOPES: seq<GoString> := ["openid", "profile"]

  /** The built-in scopes stand in for an empty configuration. */
  method NewScopeSet(configured: seq<GoString>) returns (s: ScopeSet)
    ensures s != {}
    ensures forall sc :: sc in s <==> if configured == [] then sc == "openid" || sc == "profile" else sc in configured
  {
    var scopes := configured;
    if |configured| == 0 {
      scopes := DEFAULT_SCOPES;
    }
    s := {};
    for i := 0 to |scopes|
      invariant forall sc :: sc in s <==> sc in scopes[..i]
    {
      s := s + {scopes[i]};
    }
    assert scopes[..|scopes|] == scopes;
    assert scopes[0] in s;
  }

  /** The scope tokens of a request: the non-empty pieces between spaces. */
  function Tokens(scope: GoString): set<GoString> {
    set p | p in Split(scope, ' ') && p != []
  }

  predicate IsSupported(allow: ScopeSet, scope: GoString) {
    Tokens(scope) != {} && Tokens(scope) <= allow
  }

  /** scopeSet.Supported: one pass with a flag. */
  method Supported(allow: ScopeSet, scope: GoString) returns (ok: bool)
    ensures ok <==> (exists p :: p in Split(scope, ' ') && p != [])
                    && forall p :: p in Split(scope, ' ') && p != [] ==> p in allow
    ensures ok == IsSupported(allow, scope)
  {
    SupportedByPieces(allow, scope);
    var scopes := Split(scope, ' ');
    var any := false;
    for i := 0 to |scopes|
      invariant forall j :: 0 <= j < i && scopes[j] != [] ==> scopes[j] in allow
      invariant any <==> exists j :: 0 <= j < i && scopes[j] != []
    {
      if scopes[i] == [] {
        continue;
      }
      if scopes[i] !in allow {
        assert scopes[i] in Tokens(scope);
        return false;
      }
      any := true;
    }
    if any {
      var j :| 0 <= j < |scopes| && scopes[j] != [];
      assert scopes[j] in Tokens(scope);
    }
    return any;
  }

  /** The tokens of spelled-out tokens: order, repetition and empty pieces (extra spaces) leave no trace. */
  lemma {:induction false} TokensOfJoin(parts: seq<GoString>)
    requires forall i :: 0 <= i < |parts| ==> ' ' !in parts[i]
    ensures Tokens(Join(parts, ' ')) == set p | p in parts && p != []
  {
    if parts == [] {
      assert Split([], ' ') == [[]];
    } else {
      SplitJoin(parts, ' ');
    }
  }

  /** Piece by piece: some piece between spaces is not empty, and every such piece is allowed. */
  lemma SupportedByPieces(allow: ScopeSet, scope: GoString)
    ensures IsSupported(allow, scope) <==>
              (exists p :: p in Split(scope, ' ') && p != [])
              && forall p :: p in Split(scope, ' ') && p != [] ==> p in allow
  {
    assert forall p :: p in Split(scope, ' ') && p != [] ==> p in Tokens(scope);
  }

  /**
    What the allowlist decides: of any list of scopes written with spaces between them, and with empty ones for spaces
    too many, one at least has to be there, and every one that is has to be allowed.
   */
  lemma {:induction false} SupportedExactly(allow: ScopeSet, parts: seq<GoString>)
    requires forall i :: 0 <= i < |parts| ==> ' ' !in parts[i]
    ensures IsSupported(allow, Join(parts, ' ')) <==>
              (exists i :: 0 <= i < |parts| && parts[i] != [])
              && forall i :: 0 <= i < |parts| && parts[i] != [] ==> parts[i] in allow
  {
    TokensOfJoin(parts);
    assert forall i :: 0 <= i < |parts| && parts[i] != [] ==> parts[i] in Tokens(Join(parts, ' '));
  }

  /** Rewriting a scope string with the same tokens in any order, any number of times, any spacing. */
  lemma {:induction false} SpellingDoesNotMatter(allow: ScopeSet, parts: seq<GoString>, parts': seq<GoString>)
    requires forall i :: 0 <= i < |parts| ==> ' ' !in parts[i]
    requires forall i :: 0 <= i < |parts'| ==> ' ' !in parts'[i]
    requires forall p :: p != [] ==> (p in parts <==> p in parts')
    ensures IsSupported(allow, Join(parts, ' ')) == IsSupported(allow, Join(parts', ' '))
  {
    TokensOfJoin(parts);
    TokensOfJoin(parts');
    assert Tokens(Join(parts, ' ')) == Tokens(Join(parts', ' '));
  }

  /** Every scope string is the spelling of its own pieces, so the lemma above covers all of them. */
  lemma {:induction false} EveryScopeIsASpelling(scope: GoString)
    ensures Join(Split(scope, ' '), ' ') == scope
    ensures forall i :: 0 <= i < |Split(scope, ' ')| ==> ' ' !in Split(scope, ' ')[i]
  {
    SplitPartsLackSeparator(scope, ' ');
    if scope != [] {
      var rest := Split(scope[1..], ' ');
      EveryScopeIsASpelling(scope[1..]);
      assert scope == [scope[0]] + scope[1..];
      JoinOneMore(scope[0], rest);
    }
  }

  /** Writing one more byte in front: a space starts a new piece. */
  lemma JoinOneMore(c: Byte, rest: seq<GoString>)
    requires rest != []
    ensures Join([[]] + rest, ' ') == [' '] + Join(rest, ' ')
    ensures Join([[c] + rest[0]] + rest[1..], ' ') == [c] + Join(rest, ' ')
  {
    assert ([[]] + rest)[1..] == rest;
    assert ([[c] + rest[0]] + rest[1..])[1..] == rest[1..];
  }

  /** Gluing two scope strings with a space is the union of their tokens. */
  lemma GluedScopes(allow: ScopeSet, a: GoString, b: GoString)
    ensures Tokens(a + [' '] + b) == Tokens(a) + Tokens(b)
    ensures IsSupported(allow, a) && IsSupported(allow, b) ==> IsSupported(allow, a + [' '] + b)
  {
    SplitGlued(a, b, ' ');
  }
}
