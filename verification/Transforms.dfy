/** oauth2generic/transforms.go and claims.go: named claim transforms applied in a configured order. */
module Transforms {
  import opened GoStrings

  datatype Step = Step(name: GoString, args: seq<GoString>)
  datatype Mapping = Mapping(source: GoString, transforms: seq<Step>)

  const STRIP_PREFIXES: GoString := "strip_prefixes"
  const STRIP_CHARS: GoString := "strip_chars"

  predicate Known(name: GoString) {
    name == STRIP_PREFIXES || name == STRIP_CHARS
  }

  // --- specification -----------------------------------------------------

  /** The first listed prefix that fits is cut off, once. */
  function StripPrefixes(value: GoString, args: seq<GoString>): GoString {
    if args == [] then value
    else if args[0] <= value then value[|args[0]|..]
    else StripPrefixes(value, args[1..])
  }

  /** strings.ReplaceAll(value, s, ""): non-overlapping occurrences, left to right; an empty s removes nothing. */
  function RemoveAll(value: GoString, s: GoString): GoString {
    if s == [] || |value| < |s| then value
    else if s <= value then RemoveAll(value[|s|..], s)
    else [value[0]] + RemoveAll(value[1..], s)
  }

  function StripChars(value: GoString, args: seq<GoString>): GoString
    decreases |args|
  {
    if args == [] then value else StripChars(RemoveAll(value, args[0]), args[1..])
  }

  function Transformed(value: GoString, step: Step): Option<GoString> {
    if step.name == STRIP_PREFIXES then Some(StripPrefixes(value, step.args))
    else if step.name == STRIP_CHARS then Some(StripChars(value, step.args))
    else None
  }

  /** A chain of transforms; None is the unknown-name error. */
  function Chain(value: GoString, steps: seq<Step>): Option<GoString>
    decreases |steps|
  {
    if steps == [] then Some(value)
    else
      match Transformed(value, steps[0])
      case None => None
      case Some(v) => Chain(v, steps[1..])
  }

  // --- the source's loops ------------------------------------------------

  method StripPrefixesLoop(value: GoString, args: seq<GoString>) returns (r: GoString)
    ensures r == StripPrefixes(value, args)
  {
    for i := 0 to |args|
      invariant StripPrefixes(value, args) == StripPrefixes(value, args[i..])
    {
      if HasPrefix(value, args[i]) {
        return value[|args[i]|..];
      }
      assert args[i..][1..] == args[i + 1..];
    }
    return value;
  }

  method StripCharsLoop(value: GoString, args: seq<GoString>) returns (r: GoString)
    ensures r == StripChars(value, args)
  {
    r := value;
    for i := 0 to |args|
      invariant StripChars(value, args) == StripChars(r, args[i..])
    {
      assert args[i..][1..] == args[i + 1..];
      r := RemoveAll(r, args[i]);
    }
  }

  method ApplyTransforms(value: GoString, steps: seq<Step>) returns (r: Option<GoString>)
    ensures r == Chain(value, steps)
  {
    var v := value;
    for i := 0 to |steps|
      invariant Chain(value, steps) == Chain(v, steps[i..])
    {
      assert steps[i..][1..] == steps[i + 1..];
      if steps[i].name == STRIP_PREFIXES {
        v := StripPrefixesLoop(v, steps[i].args);
      } else if steps[i].name == STRIP_CHARS {
        v := StripCharsLoop(v, steps[i].args);
      } else {
        return None;
      }
    }
    return Some(v);
  }

  /** validateClaimFieldMap: every chain is run once, on the empty string, in whatever order the map yields. */
  method ValidateClaimFieldMap(fieldMap: map<GoString, Mapping>) returns (ok: bool)
    ensures ok <==> forall t :: t in fieldMap ==> Chain([], fieldMap[t].transforms).Some?
  {
    var rest := fieldMap.Keys;
    while rest != {}
      invariant rest <= fieldMap.Keys
      invariant forall t :: t in fieldMap && t !in rest ==> Chain([], fieldMap[t].transforms).Some?
      decreases rest
    {
      var t :| t in rest;
      var r := ApplyTransforms([], fieldMap[t].transforms);
      if r.None? {
        return false;
      }
      rest := rest - {t};
    }
    return true;
  }

  datatype Claim = Text(s: GoString) | Other
  datatype AuthRequest = AuthRequest(personCode: GoString, firstName: GoString, lastName: GoString, email: GoString,
                                     rawClaims: map<GoString, Claim>)

  /** The lookup closure of mapClaims: an absent or non-string claim is the empty string, an error empties the field. */
  method Field(claims: map<GoString, Claim>, fieldMap: map<GoString, Mapping>, target: GoString) returns (v: GoString)
    ensures target !in fieldMap ==> v == []
    ensures target in fieldMap ==>
              match Chain(ClaimText(claims, fieldMap[target].source), fieldMap[target].transforms)
              case None => v == []
              case Some(t) => v == t
  {
    if target !in fieldMap {
      return [];
    }
    var transformed := ApplyTransforms(ClaimText(claims, fieldMap[target].source), fieldMap[target].transforms);
    if transformed.None? {
      return [];
    }
    return transformed.value;
  }

  function ClaimText(claims: map<GoString, Claim>, source: GoString): GoString {
    if source in claims && claims[source].Text? then claims[source].s else []
  }

  /**
    Every target field holds its transformed source claim, with no loss to the error branch, once binding succeeded.
   */
  method MapClaims(claims: map<GoString, Claim>, fieldMap: map<GoString, Mapping>) returns (req: AuthRequest)
    ensures req.rawClaims == claims
    ensures (forall t :: t in fieldMap ==> Chain([], fieldMap[t].transforms).Some?) ==>
              && Holds(claims, fieldMap, "person_code", req.personCode)
              && Holds(claims, fieldMap, "first_name", req.firstName)
              && Holds(claims, fieldMap, "last_name", req.lastName)
              && Holds(claims, fieldMap, "email", req.email)
  {
    var personCode := Field(claims, fieldMap, "person_code");
    var firstName := Field(claims, fieldMap, "first_name");
    var lastName := Field(claims, fieldMap, "last_name");
    var email := Field(claims, fieldMap, "email");
    forall t, v | t in fieldMap
      ensures Chain(v, fieldMap[t].transforms).Some? == Chain([], fieldMap[t].transforms).Some?
    {
      OneRunDecides(v, [], fieldMap[t].transforms);
    }
    return AuthRequest(personCode, firstName, lastName, email, claims);
  }

  predicate Holds(claims: map<GoString, Claim>, fieldMap: map<GoString, Mapping>, target: GoString, v: GoString) {
    if target in fieldMap then
      Chain(ClaimText(claims, fieldMap[target].source), fieldMap[target].transforms) == Some(v)
    else v == []
  }

  // --- properties --------------------------------------------------------

  /** Success depends on the names alone: a run on any one value decides it for every value. */
  lemma {:induction false} OneRunDecides(v: GoString, w: GoString, steps: seq<Step>)
    ensures Chain(v, steps).Some? == Chain(w, steps).Some?
    ensures Chain(v, steps).Some? <==> forall i :: 0 <= i < |steps| ==> Known(steps[i].name)
    decreases |steps|
  {
    if steps != [] {
      assert steps == [steps[0]] + steps[1..];
      if Known(steps[0].name) {
        OneRunDecides(Transformed(v, steps[0]).value, Transformed(w, steps[0]).value, steps[1..]);
      }
    }
  }

  /** Chains compose over concatenation. */
  lemma {:induction false} ChainsCompose(v: GoString, a: seq<Step>, b: seq<Step>)
    ensures Chain(v, a + b) == match Chain(v, a) case None => None case Some(u) => Chain(u, b)
    decreases |a|
  {
    if a == [] {
      assert a + b == b;
    } else {
      assert (a + b)[1..] == a[1..] + b;
      match Transformed(v, a[0])
      case None =>
      case Some(u) => ChainsCompose(u, a[1..], b);
    }
  }

  /** The letters of s in order, some left out. */
  predicate Subsequence(s: GoString, t: GoString) {
    if s == [] then true
    else if t == [] then false
    else (s[0] == t[0] && Subsequence(s[1..], t[1..])) || Subsequence(s, t[1..])
  }

  lemma {:induction false} SubsequenceReflexive(s: GoString)
    ensures Subsequence(s, s)
  {
    if s != [] {
      SubsequenceReflexive(s[1..]);
    }
  }

  lemma {:induction false} SubsequenceLonger(s: GoString, p: GoString, t: GoString)
    requires Subsequence(s, t)
    ensures Subsequence(s, p + t)
  {
    if p == [] {
      assert p + t == t;
    } else {
      SubsequenceLonger(s, p[1..], t);
      assert (p + t)[1..] == p[1..] + t;
    }
  }

  lemma {:induction false} SubsequenceTransitive(s: GoString, t: GoString, u: GoString)
    requires Subsequence(s, t) && Subsequence(t, u)
    ensures Subsequence(s, u)
    decreases |t| + |u|
  {
    if s != [] {
      if t[0] == u[0] && Subsequence(t[1..], u[1..]) {
        if s[0] == t[0] && Subsequence(s[1..], t[1..]) {
          SubsequenceTransitive(s[1..], t[1..], u[1..]);
        } else {
          SubsequenceTransitive(s, t[1..], u[1..]);
        }
      } else {
        SubsequenceTransitive(s, t, u[1..]);
      }
    }
  }

  lemma {:induction false} RemoveAllKeepsOrder(v: GoString, s: GoString)
    ensures Subsequence(RemoveAll(v, s), v)
    decreases |v|
  {
    if s == [] || |v| < |s| {
      SubsequenceReflexive(v);
    } else if s <= v {
      RemoveAllKeepsOrder(v[|s|..], s);
      SubsequenceLonger(RemoveAll(v[|s|..], s), s, v[|s|..]);
      assert v == s + v[|s|..];
    } else {
      RemoveAllKeepsOrder(v[1..], s);
      assert ([v[0]] + RemoveAll(v[1..], s))[1..] == RemoveAll(v[1..], s);
    }
  }

  lemma {:induction false} StepKeepsOrder(v: GoString, step: Step)
    requires Transformed(v, step).Some?
    ensures Subsequence(Transformed(v, step).value, v)
    decreases |step.args|
  {
    var args := step.args;
    if args == [] {
      SubsequenceReflexive(v);
    } else if step.name == STRIP_PREFIXES {
      if args[0] <= v {
        SubsequenceReflexive(v[|args[0]|..]);
        SubsequenceLonger(v[|args[0]|..], args[0], v[|args[0]|..]);
        assert v == args[0] + v[|args[0]|..];
      } else {
        StepKeepsOrder(v, Step(step.name, args[1..]));
      }
    } else {
      var u := RemoveAll(v, args[0]);
      RemoveAllKeepsOrder(v, args[0]);
      StepKeepsOrder(u, Step(step.name, args[1..]));
      SubsequenceTransitive(StripChars(v, args), u, v);
    }
  }

  /** No chain invents or reorders letters: its output is a subsequence of its input. */
  lemma {:induction false} ChainKeepsOrder(v: GoString, steps: seq<Step>)
    requires Chain(v, steps).Some?
    ensures Subsequence(Chain(v, steps).value, v)
    decreases |steps|
  {
    if steps == [] {
      SubsequenceReflexive(v);
    } else {
      var u := Transformed(v, steps[0]).value;
      StepKeepsOrder(v, steps[0]);
      ChainKeepsOrder(u, steps[1..]);
      SubsequenceTransitive(Chain(v, steps).value, u, v);
    }
  }

  // --- what the two transforms do --------------------------------------------

  /** strip_prefixes cuts the first listed prefix that fits, and leaves a value that none fits as it is. */
  lemma {:induction false} FirstFittingPrefixGoes(v: GoString, args: seq<GoString>)
    ensures (forall i :: 0 <= i < |args| ==> !(args[i] <= v)) ==> Chain(v, [Step("strip_prefixes", args)]) == Some(v)
    ensures forall i :: 0 <= i < |args| && args[i] <= v && (forall j :: 0 <= j < i ==> !(args[j] <= v)) ==>
              Chain(v, [Step("strip_prefixes", args)]) == Some(v[|args[i]|..])
    decreases |args|
  {
    ChainOfOne(v, Step("strip_prefixes", args));
    if args != [] {
      ChainOfOne(v, Step("strip_prefixes", args[1..]));
      FirstFittingPrefixGoes(v, args[1..]);
      assert forall i :: 1 <= i < |args| ==> args[i] == args[1..][i - 1];
    }
  }

  lemma ChainOfOne(v: GoString, step: Step)
    ensures Chain(v, [step]) == Transformed(v, step)
  {
    assert [step][1..] == [];
  }

  /** No occurrence of s starts in the first n places of v. */
  predicate LacksBefore(v: GoString, s: GoString, n: nat)
    requires n <= |v|
  {
    forall i :: 0 <= i < n ==> !(s <= v[i..])
  }

  /** Removing: up to the first occurrence all is kept, that occurrence goes, and what follows it is searched on. */
  lemma {:induction false} RemoveAllByOccurrence(v: GoString, s: GoString, n: nat)
    requires s != [] && n <= |v| && LacksBefore(v, s, n)
    ensures RemoveAll(v, s) == v[..n] + RemoveAll(v[n..], s)
    ensures s <= v[n..] ==> RemoveAll(v, s) == v[..n] + RemoveAll(v[n..][|s|..], s)
    ensures n == |v| ==> RemoveAll(v, s) == v
    decreases n
  {
    hide RemoveAll;
    assert v[0..] == v;
    if s <= v[n..] {
      RemoveHere(v[n..], s);
    }
    if n == 0 {
      assert v[..0] == [];
      EmptyStays(s);
    } else {
      var u := v[1..];
      RemoveElsewhere(v, s);
      LacksFurtherOn(v, s, n);
      RemoveAllByOccurrence(u, s, n - 1);
      assert u[n - 1..] == v[n..] && v[..n] == [v[0]] + u[..n - 1];
      assert n == |v| ==> v == [v[0]] + u;
    }
  }

  lemma EmptyStays(s: GoString)
    ensures RemoveAll([], s) == []
  {
  }

  lemma RemoveHere(v: GoString, s: GoString)
    requires s != [] && s <= v
    ensures RemoveAll(v, s) == RemoveAll(v[|s|..], s)
  {
  }

  lemma RemoveElsewhere(v: GoString, s: GoString)
    requires s != [] && v != [] && !(s <= v)
    ensures RemoveAll(v, s) == [v[0]] + RemoveAll(v[1..], s)
  {
    if |v| < |s| {
      ShortStays(v[1..], s);
      assert v == [v[0]] + v[1..];
    }
  }

  lemma LacksFurtherOn(v: GoString, s: GoString, n: nat)
    requires 0 < n <= |v| && LacksBefore(v, s, n)
    ensures LacksBefore(v[1..], s, n - 1)
  {
    forall i | 0 <= i < n - 1 ensures !(s <= v[1..][i..]) {
      assert v[1..][i..] == v[i + 1..];
    }
  }

  lemma ShortStays(v: GoString, s: GoString)
    requires |v| < |s|
    ensures RemoveAll(v, s) == v
  {
  }

  /** strip_chars removes its arguments one after the other; an empty one removes nothing. */
  lemma {:induction false} StripCharsRemovesEach(v: GoString, s: GoString, args: seq<GoString>)
    ensures Chain(v, [Step("strip_chars", [])]) == Some(v)
    ensures Chain(v, [Step("strip_chars", [s] + args)])
            == Chain(if s == [] then v else RemoveAll(v, s), [Step("strip_chars", args)])
  {
    ChainOfOne(v, Step("strip_chars", []));
    ChainOfOne(v, Step("strip_chars", [s] + args));
    ChainOfOne(RemoveAll(v, s), Step("strip_chars", args));
    assert ([s] + args)[1..] == args;
    assert STRIP_PREFIXES != STRIP_CHARS by { assert STRIP_PREFIXES[6] == 'p' && STRIP_CHARS[6] == 'c'; }
  }

  /** Any other name is an error, wherever in the chain it stands. */
  lemma {:induction false} OtherNamesAreErrors(v: GoString, steps: seq<Step>)
    ensures Chain(v, steps).Some? <==>
              forall i :: 0 <= i < |steps| ==> steps[i].name == "strip_prefixes" || steps[i].name == "strip_chars"
  {
    OneRunDecides(v, v, steps);
  }

  // --- strip_chars with single letters -----------------------------------

  function Without(v: GoString, cs: set<Byte>): GoString {
    if v == [] then [] else (if v[0] in cs then [] else [v[0]]) + Without(v[1..], cs)
  }

  predicate SingleLetters(args: seq<GoString>) {
    forall i :: 0 <= i < |args| ==> |args[i]| == 1
  }

  function LettersOf(args: seq<GoString>): set<Byte>
    requires SingleLetters(args)
  {
    set i | 0 <= i < |args| :: args[i][0]
  }

  lemma {:induction false} RemoveOneLetter(v: GoString, c: Byte)
    ensures RemoveAll(v, [c]) == Without(v, {c})
    decreases |v|
  {
    if v != [] {
      RemoveOneLetter(v[1..], c);
      assert [c] <= v <==> v[0] == c;
    }
  }

  lemma {:induction false} WithoutTwice(v: GoString, a: set<Byte>, b: set<Byte>)
    ensures Without(Without(v, a), b) == Without(v, a + b)
  {
    if v != [] {
      WithoutTwice(v[1..], a, b);
      var w := Without(v[1..], a);
      assert v[0] !in a ==> ([v[0]] + w)[1..] == w;
      assert v[0] in a ==> Without(v, a) == w;
    }
  }

  lemma {:induction false} WithoutNothing(v: GoString)
    ensures Without(v, {}) == v
  {
    if v != [] {
      WithoutNothing(v[1..]);
    }
  }

  /** With one-letter arguments strip_chars is a filter by the set of letters. */
  lemma {:induction false} StripCharsIsAFilter(v: GoString, args: seq<GoString>)
    requires SingleLetters(args)
    ensures StripChars(v, args) == Without(v, LettersOf(args))
    decreases |args|
  {
    if args == [] {
      WithoutNothing(v);
      assert LettersOf(args) == {};
    } else {
      var c := args[0][0];
      assert args[0] == [c];
      RemoveOneLetter(v, c);
      assert SingleLetters(args[1..]);
      StripCharsIsAFilter(Without(v, {c}), args[1..]);
      WithoutTwice(v, {c}, LettersOf(args[1..]));
      assert LettersOf(args) == {c} + LettersOf(args[1..]) by {
        forall x | x in LettersOf(args) ensures x in {c} + LettersOf(args[1..]) {
          var i :| 0 <= i < |args| && args[i][0] == x;
          if i > 0 {
            assert args[1..][i - 1][0] == x;
          }
        }
        forall x | x in LettersOf(args[1..]) ensures x in LettersOf(args) {
          var i :| 0 <= i < |args[1..]| && args[1..][i][0] == x;
          assert args[i + 1][0] == x;
        }
      }
    }
  }

  /** So the order of its arguments does not matter, and running it again changes nothing. */
  lemma StripCharsOrderAndRepetition(v: GoString, args: seq<GoString>, args': seq<GoString>)
    requires SingleLetters(args) && SingleLetters(args')
    requires LettersOf(args) == LettersOf(args')
    ensures StripChars(v, args) == StripChars(v, args')
    ensures StripChars(StripChars(v, args), args') == StripChars(v, args)
  {
    StripCharsIsAFilter(v, args);
    StripCharsIsAFilter(v, args');
    StripCharsIsAFilter(StripChars(v, args), args');
    WithoutTwice(v, LettersOf(args), LettersOf(args'));
    assert LettersOf(args) + LettersOf(args') == LettersOf(args);
  }

  /** A longer argument breaks both: one pass over aabb leaves ab, a second removes it. */
  lemma LongerArgumentsAreNotIdempotent()
    ensures StripChars("aabb", ["ab"]) == "ab" && StripChars("ab", ["ab"]) == ""
  {
    var ab: GoString, abb: GoString, aabb: GoString, args: seq<GoString> := "ab", "abb", "aabb", ["ab"];
    assert abb[2..] == "b" && aabb[1..] == abb && ab[2..] == [] && args[1..] == [];
    assert RemoveAll(abb, ab) == "b";
    assert RemoveAll(aabb, ab) == "ab";
    assert RemoveAll(ab, ab) == "";
  }
}
