/** application/x-www-form-urlencoded: net/url's Values.Encode on one side, the request parser on the other. */
module FormEncoding {
  import opened GoStrings

  type Pair = (GoString, GoString)

  // --- one value ---------------------------------------------------------

  /** Bytes url.QueryEscape leaves alone. */
  predicate Unreserved(c: Byte) {
    'a' <= c <= 'z' || 'A' <= c <= 'Z' || '0' <= c <= '9' || c == '-' || c == '_' || c == '.' || c == '~'
  }

  function HexDigit(n: int): Byte
    requires 0 <= n < 16
  {
    if n < 10 then ToByte(48 + n) else ToByte(55 + n)
  }

  /** The parser's table reads both cases. */
  function HexValue(c: Byte): (v: Option<int>)
    ensures v.Some? ==> 0 <= v.value < 16
  {
    var n := c as int;
    if 48 <= n <= 57 then Some(n - 48)
    else if 65 <= n <= 70 then Some(n - 55)
    else if 97 <= n <= 102 then Some(n - 87)
    else None
  }

  function EscapeByte(c: Byte): GoString {
    if Unreserved(c) then [c]
    else if c == ' ' then ['+']
    else ['%', HexDigit(c as int / 16), HexDigit(c as int % 16)]
  }

  /** url.QueryEscape */
  function Escape(s: GoString): GoString {
    if s == [] then [] else EscapeByte(s[0]) + Escape(s[1..])
  }

  /** The parser's decoding: a percent sign without two hex digits stands for itself. */
  function Unescape(s: GoString): GoString {
    if s == [] then []
    else if s[0] == '+' then [' '] + Unescape(s[1..])
    else if s[0] != '%' then [s[0]] + Unescape(s[1..])
    else if |s| < 3 then s
    else
      var hi, lo := HexValue(s[1]), HexValue(s[2]);
      if hi.None? || lo.None? then ['%'] + Unescape(s[1..])
      else [ToByte(hi.value * 16 + lo.value)] + Unescape(s[3..])
  }

  const HEX: GoString := "0123456789ABCDEF"

  lemma HexDigits(n: int)
    requires 0 <= n < 16
    ensures HexDigit(n) == HEX[n]
  {
  }

  /**
    The escaped form: letters, digits and the marks - _ . ~ as they are, a space as a plus sign, any other byte as a
    percent sign and its two hexadecimal digits in upper case.
   */
  lemma {:induction false} EscapedText(c: Byte, s: GoString)
    ensures Escape([]) == []
    ensures var kept := 'A' <= c <= 'Z' || 'a' <= c <= 'z' || '0' <= c <= '9' || c in "-_.~";
            Escape([c] + s) == (if kept then [c] else if c == ' ' then "+"
                                else ['%', HEX[c as int / 16], HEX[c as int % 16]]) + Escape(s)
  {
    HexDigits(c as int / 16);
    HexDigits(c as int % 16);
    assert ([c] + s)[0] == c && ([c] + s)[1..] == s;
  }

  lemma UnescapeOneByte(c: Byte, rest: GoString)
    ensures Unescape(EscapeByte(c) + rest) == [c] + Unescape(rest)
  {
    var e := EscapeByte(c);
    var s := e + rest;
    if |e| == 1 {
      assert s[1..] == rest;
    } else {
      var n := c as int;
      assert HexValue(HexDigit(n / 16)) == Some(n / 16) && HexValue(HexDigit(n % 16)) == Some(n % 16);
      assert s[3..] == rest;
    }
  }

  /** Every byte string survives escaping. */
  lemma {:induction false} UnescapeEscape(s: GoString)
    ensures Unescape(Escape(s)) == s
  {
    if s != [] {
      UnescapeOneByte(s[0], Escape(s[1..]));
      UnescapeEscape(s[1..]);
    }
  }

  const LOWER_HEX: GoString := "0123456789abcdef"

  lemma HexValues(n: int)
    requires 0 <= n < 16
    ensures HexValue(HEX[n]) == Some(n) && HexValue(LOWER_HEX[n]) == Some(n)
  {
  }

  /** What the parser reads: a percent sign with two hexadecimal digits of either case as the byte they stand for. */
  lemma {:induction false} UnescapedHex(h: nat, l: nat, x: Byte, y: Byte, s: GoString)
    requires h < 16 && l < 16 && (x == HEX[h] || x == LOWER_HEX[h]) && (y == HEX[l] || y == LOWER_HEX[l])
    ensures Unescape(['%', x, y] + s) == [ToByte(16 * h + l)] + Unescape(s)
  {
    HexValues(h);
    HexValues(l);
    hide HexValue;
    assert (['%', x, y] + s)[3..] == s;
  }

  /**
    A plus sign as a space, and every other byte as itself: a percent sign too if no two hexadecimal digits follow, and
    with fewer than two bytes behind it all of them as they are.
   */
  lemma {:induction false} UnescapedText(c: Byte, s: GoString)
    ensures Unescape(['+'] + s) == [' '] + Unescape(s)
    ensures c != '+' && c != '%' ==> Unescape([c] + s) == [c] + Unescape(s)
    ensures |s| < 2 ==> Unescape(['%'] + s) == ['%'] + s
    ensures |s| >= 2 && (HexValue(s[0]).None? || HexValue(s[1]).None?) ==>
              Unescape(['%'] + s) == ['%'] + Unescape(s)
  {
    hide HexValue;
    assert (['+'] + s)[1..] == s && ([c] + s)[1..] == s && (['%'] + s)[1..] == s;
  }

  lemma {:induction false} EscapeHidesDelimiters(s: GoString)
    ensures '&' !in Escape(s) && '=' !in Escape(s) && '#' !in Escape(s) && '?' !in Escape(s)
  {
    if s != [] {
      EscapeHidesDelimiters(s[1..]);
    }
  }

  // --- one pair ----------------------------------------------------------

  function EncodePair(p: Pair): GoString {
    Escape(p.0) + ['='] + Escape(p.1)
  }

  /** Index of the first occurrence of c, or |s|. */
  function IndexOf(s: GoString, c: Byte): (i: nat)
    ensures i <= |s|
    ensures c !in s[..i]
    ensures i < |s| ==> s[i] == c
  {
    if s == [] || s[0] == c then 0
    else
      var i := 1 + IndexOf(s[1..], c);
      assert s[..i] == [s[0]] + s[1..][..i - 1];
      i
  }

  /** A piece between ampersands: key and value around the first equals sign, or a bare key. */
  function DecodePair(piece: GoString): Pair {
    var i := IndexOf(piece, '=');
    if i == |piece| then (Unescape(piece), [])
    else (Unescape(piece[..i]), Unescape(piece[i + 1..]))
  }

  lemma DecodeEncodedPair(p: Pair)
    ensures DecodePair(EncodePair(p)) == p && '&' !in EncodePair(p)
  {
    EscapeHidesDelimiters(p.0);
    EscapeHidesDelimiters(p.1);
    var s := EncodePair(p);
    var i := IndexOf(s, '=');
    assert s[|Escape(p.0)|] == '=';
    assert s[..|s|] == s;
    assert s == s[..i] + ['='] + s[i + 1..];
    CutAtFirst(Escape(p.0), Escape(p.1), s[..i], s[i + 1..], '=');
    UnescapeEscape(p.0);
    UnescapeEscape(p.1);
  }

  // --- lists of pairs ----------------------------------------------------

  function EncodePairs(ps: seq<Pair>): GoString {
    Join(Pieces(ps), '&')
  }

  function Pieces(ps: seq<Pair>): (r: seq<GoString>)
    ensures |r| == |ps|
  {
    seq(|ps|, i requires 0 <= i < |ps| => EncodePair(ps[i]))
  }

  /** The parser: pieces between ampersands, those with neither key nor value dropped. */
  function Parse(query: GoString): seq<Pair> {
    ParsePieces(Split(query, '&'))
  }

  function ParsePieces(pieces: seq<GoString>): seq<Pair> {
    if pieces == [] then []
    else Present(DecodePair(pieces[0])) + ParsePieces(pieces[1..])
  }

  function Present(p: Pair): seq<Pair> {
    if p.0 == [] && p.1 == [] then [] else [p]
  }

  /** No wholly empty pair: what the parser can deliver. */
  predicate Proper(ps: seq<Pair>) {
    forall i :: 0 <= i < |ps| ==> ps[i] != ([], [])
  }

  lemma {:induction false} ParsePiecesConcat(a: seq<GoString>, b: seq<GoString>)
    ensures ParsePieces(a + b) == ParsePieces(a) + ParsePieces(b)
  {
    if a == [] {
      assert a + b == b;
    } else {
      assert (a + b)[1..] == a[1..] + b;
      ParsePiecesConcat(a[1..], b);
    }
  }

  lemma {:induction false} ParsedIsProper(pieces: seq<GoString>)
    ensures Proper(ParsePieces(pieces))
  {
    if pieces != [] {
      ParsedIsProper(pieces[1..]);
    }
  }

  /** Two queries glued by an ampersand parse to the two lists one after the other. */
  lemma ParseGlued(a: GoString, b: GoString)
    ensures Parse(a + ['&'] + b) == Parse(a) + Parse(b)
  {
    SplitGlued(a, b, '&');
    ParsePiecesConcat(Split(a, '&'), Split(b, '&'));
  }

  lemma {:induction false} ParsePiecesOfPairs(ps: seq<Pair>)
    requires Proper(ps)
    ensures ParsePieces(Pieces(ps)) == ps
  {
    if ps != [] {
      DecodeEncodedPair(ps[0]);
      assert Pieces(ps)[1..] == Pieces(ps[1..]);
      ParsePiecesOfPairs(ps[1..]);
      assert ps == [ps[0]] + ps[1..];
    }
  }

  /** An encoded list parses back to itself exactly when it has no wholly empty pair. */
  lemma ParseEncoded(ps: seq<Pair>)
    ensures Parse(EncodePairs(ps)) == ps <==> Proper(ps)
  {
    if Proper(ps) {
      if ps == [] {
        assert Split([], '&') == [[]];
        assert IndexOf([], '=') == 0;
      } else {
        forall i | 0 <= i < |ps| ensures '&' !in Pieces(ps)[i] {
          DecodeEncodedPair(ps[i]);
        }
        SplitJoin(Pieces(ps), '&');
        ParsePiecesOfPairs(ps);
      }
    } else {
      ParsedIsProper(Split(EncodePairs(ps), '&'));
    }
  }

  // --- url.Values --------------------------------------------------------

  type Values = map<GoString, seq<GoString>>

  /** The values a list gives one key, in order. */
  function ValuesOf(ps: seq<Pair>, k: GoString): seq<GoString> {
    if ps == [] then []
    else (if ps[0].0 == k then [ps[0].1] else []) + ValuesOf(ps[1..], k)
  }

  /** What a request parameter lookup returns: the first value, if any. */
  function First(ps: seq<Pair>, k: GoString): Option<GoString> {
    var vs := ValuesOf(ps, k);
    if vs == [] then None else Some(vs[0])
  }

  lemma {:induction false} ValuesOfConcat(a: seq<Pair>, b: seq<Pair>, k: GoString)
    ensures ValuesOf(a + b, k) == ValuesOf(a, k) + ValuesOf(b, k)
  {
    if a == [] {
      assert a + b == b;
    } else {
      assert (a + b)[1..] == a[1..] + b;
      ValuesOfConcat(a[1..], b, k);
    }
  }

  lemma {:induction false} HasValues(ps: seq<Pair>, k: GoString)
    ensures ValuesOf(ps, k) != [] <==> exists i :: 0 <= i < |ps| && ps[i].0 == k
  {
    if ps != [] {
      HasValues(ps[1..], k);
      if ValuesOf(ps[1..], k) != [] {
        var i :| 0 <= i < |ps[1..]| && ps[1..][i].0 == k;
        assert ps[i + 1].0 == k;
      }
      if i :| 0 <= i < |ps| && ps[i].0 == k && i != 0 {
        assert ps[1..][i - 1].0 == k;
      }
    }
  }

  /** The values of a map of values under a key: a missing key has none. */
  function At(m: Values, k: GoString): seq<GoString> {
    if k in m then m[k] else []
  }

  /** A grouping of a list: every key has exactly the list's values for it, and no key is idle. */
  ghost predicate Groups(m: Values, ps: seq<Pair>) {
    && (forall k :: At(m, k) == ValuesOf(ps, k))
    && (forall k :: k in m ==> m[k] != [])
  }

  lemma GroupOneMore(m: Values, ps: seq<Pair>, p: Pair)
    requires Groups(m, ps)
    ensures Groups(m[p.0 := At(m, p.0) + [p.1]], ps + [p])
  {
    var m', last := m[p.0 := At(m, p.0) + [p.1]], [p];
    forall k ensures At(m', k) == ValuesOf(ps + last, k) {
      ValuesOfConcat(ps, last, k);
      assert last[1..] == [] && ValuesOf(last, k) == if k == p.0 then [p.1] else [];
      assert At(m, k) == ValuesOf(ps, k);
    }
  }

  /** form.Add over all posted arguments. */
  method BuildForm(args: seq<Pair>) returns (form: Values)
    ensures Groups(form, args)
  {
    form := map[];
    for i := 0 to |args|
      invariant Groups(form, args[..i])
    {
      var (k, v) := args[i];
      GroupOneMore(form, args[..i], args[i]);
      assert args[..i + 1] == args[..i] + [args[i]];
      form := form[k := At(form, k) + [v]];
    }
    assert args[..|args|] == args;
  }

  // --- key order ---------------------------------------------------------

  /** Go's string order: bytewise, a prefix first. */
  predicate Leq(a: GoString, b: GoString) {
    a == [] || (b != [] && (a[0] < b[0] || (a[0] == b[0] && Leq(a[1..], b[1..]))))
  }

  lemma {:induction false} LeqOrder(a: GoString, b: GoString, c: GoString)
    ensures Leq(a, b) || Leq(b, a)
    ensures Leq(a, b) && Leq(b, c) ==> Leq(a, c)
    ensures Leq(a, a)
  {
    if a != [] {
      if b != [] && c != [] {
        LeqOrder(a[1..], b[1..], c[1..]);
      } else {
        LeqOrder(a[1..], if b != [] then b[1..] else [], []);
      }
    }
  }

  /** The order byte by byte: what both begin with does not matter, then the lesser byte or the end comes first. */
  lemma {:induction false} OrderIsBytewise(p: GoString, a: GoString, b: GoString)
    ensures Leq(p + a, p + b) <==> Leq(a, b)
    ensures a == [] ==> Leq(a, b)
    ensures a != [] && b == [] ==> !Leq(a, b)
    ensures a != [] && b != [] && a[0] != b[0] ==> (Leq(a, b) <==> a[0] < b[0])
  {
    if p == [] {
      assert p + a == a && p + b == b;
    } else {
      assert (p + a)[1..] == p[1..] + a && (p + b)[1..] == p[1..] + b;
      OrderIsBytewise(p[1..], a, b);
    }
  }

  lemma {:induction false} PrefixFirst(a: GoString, b: GoString)
    ensures Leq(a, a + b)
  {
    if a != [] {
      assert (a + b)[1..] == a[1..] + b;
      PrefixFirst(a[1..], b);
    }
  }

  lemma {:induction false} LeqAntisymmetric(a: GoString, b: GoString)
    requires Leq(a, b) && Leq(b, a)
    ensures a == b
  {
    if a != [] {
      LeqAntisymmetric(a[1..], b[1..]);
      assert a == [a[0]] + a[1..] && b == [b[0]] + b[1..];
    }
  }

  ghost predicate IsLeast(k: GoString, keys: set<GoString>) {
    k in keys && forall q :: q in keys ==> Leq(k, q)
  }

  lemma {:induction false} LeastExists(keys: set<GoString>)
    requires keys != {}
    ensures exists k :: IsLeast(k, keys)
  {
    var x :| x in keys;
    LeqOrder(x, x, x);
    if keys == {x} {
      assert IsLeast(x, keys);
    } else {
      LeastExists(keys - {x});
      var y :| IsLeast(y, keys - {x});
      LeqOrder(x, y, y);
      var least := if Leq(x, y) then x else y;
      forall q | q in keys ensures Leq(least, q) {
        if q != x {
          LeqOrder(x, y, q);
        }
      }
      assert IsLeast(least, keys);
    }
  }

  function PairsOfKey(k: GoString, vs: seq<GoString>): (ps: seq<Pair>)
    ensures |ps| == |vs|
  {
    seq(|vs|, i requires 0 <= i < |vs| => (k, vs[i]))
  }

  /** All pairs, the keys in sorted order. */
  ghost function Flatten(m: Values, keys: set<GoString>): seq<Pair>
    requires keys <= m.Keys
  {
    if keys == {} then []
    else
      LeastExists(keys);
      var k :| IsLeast(k, keys);
      PairsOfKey(k, m[k]) + Flatten(m, keys - {k})
  }

  /** url.Values.Encode: keys sorted, each key's values in order. */
  ghost function Encode(m: Values): GoString {
    EncodePairs(Flatten(m, m.Keys))
  }

  /** The order is the sorted one: whichever key is least comes first. */
  lemma FlattenLeastFirst(m: Values, keys: set<GoString>, k: GoString)
    requires keys <= m.Keys && IsLeast(k, keys)
    ensures Flatten(m, keys) == PairsOfKey(k, m[k]) + Flatten(m, keys - {k})
  {
    var q :| IsLeast(q, keys) && Flatten(m, keys) == PairsOfKey(q, m[q]) + Flatten(m, keys - {q});
    assert IsLeast(q, keys);
    LeqAntisymmetric(k, q);
  }

  function FlattenKeys(m: Values, ks: seq<GoString>): seq<Pair>
    requires forall i :: 0 <= i < |ks| ==> ks[i] in m
  {
    if ks == [] then [] else PairsOfKey(ks[0], m[ks[0]]) + FlattenKeys(m, ks[1..])
  }

  ghost predicate StrictlySorted(ks: seq<GoString>) {
    forall i, j :: 0 <= i < j < |ks| ==> Leq(ks[i], ks[j]) && ks[i] != ks[j]
  }

  lemma {:induction false} FlattenInOrder(m: Values, ks: seq<GoString>)
    requires forall i :: 0 <= i < |ks| ==> ks[i] in m
    requires StrictlySorted(ks)
    ensures Flatten(m, set k | k in ks) == FlattenKeys(m, ks)
  {
    var keys := set k | k in ks;
    if ks != [] {
      forall q | q in keys ensures Leq(ks[0], q) {
        LeqOrder(ks[0], ks[0], ks[0]);
      }
      assert IsLeast(ks[0], keys);
      FlattenLeastFirst(m, keys, ks[0]);
      assert keys - {ks[0]} == set k | k in ks[1..];
      FlattenInOrder(m, ks[1..]);
    }
  }

  lemma {:induction false} ValuesOfOneKey(k: GoString, vs: seq<GoString>, q: GoString)
    ensures ValuesOf(PairsOfKey(k, vs), q) == if q == k then vs else []
  {
    if vs != [] {
      assert PairsOfKey(k, vs)[1..] == PairsOfKey(k, vs[1..]);
      ValuesOfOneKey(k, vs[1..], q);
      assert vs == [vs[0]] + vs[1..];
    }
  }

  lemma {:induction false} ValuesOfFlatten(m: Values, keys: set<GoString>, q: GoString)
    requires keys <= m.Keys
    ensures ValuesOf(Flatten(m, keys), q) == if q in keys then m[q] else []
  {
    if keys != {} {
      LeastExists(keys);
      var k :| IsLeast(k, keys) && Flatten(m, keys) == PairsOfKey(k, m[k]) + Flatten(m, keys - {k});
      ValuesOfConcat(PairsOfKey(k, m[k]), Flatten(m, keys - {k}), q);
      ValuesOfOneKey(k, m[k], q);
      ValuesOfFlatten(m, keys - {k}, q);
    }
  }

  lemma {:induction false} EmptyKeyValues(ps: seq<Pair>)
    ensures Proper(ps) <==> [] !in ValuesOf(ps, [])
  {
    if ps != [] {
      EmptyKeyValues(ps[1..]);
      assert Proper(ps) <==> ps[0] != ([], []) && Proper(ps[1..]) by {
        assert ps == [ps[0]] + ps[1..];
      }
    }
  }

  /** The grouping of a list. */
  function FormOf(args: seq<Pair>): Values {
    map k | k in (set p | p in args :: p.0) :: ValuesOf(args, k)
  }

  /** A list has exactly one grouping. */
  lemma GroupingIsUnique(m: Values, args: seq<Pair>)
    ensures Groups(m, args) <==> m == FormOf(args)
  {
    var keys := set p | p in args :: p.0;
    forall k ensures (k in keys <==> ValuesOf(args, k) != []) && At(FormOf(args), k) == ValuesOf(args, k) {
      HasValues(args, k);
    }
    if Groups(m, args) {
      forall k ensures k in m <==> k in keys {
        assert At(m, k) == ValuesOf(args, k);
      }
      forall k | k in m ensures m[k] == ValuesOf(args, k) {
        assert At(m, k) == ValuesOf(args, k);
      }
      assert m == FormOf(args);
    }
  }

  method Least(keys: set<GoString>) returns (k: GoString)
    requires keys != {}
    ensures IsLeast(k, keys)
  {
    k :| k in keys;
    var rest := keys - {k};
    LeqOrder(k, k, k);
    while rest != {}
      invariant rest <= keys && IsLeast(k, keys - rest)
      decreases rest
    {
      var q :| q in rest;
      LeqOrder(q, k, k);
      ghost var done := keys - rest;
      if Leq(q, k) {
        forall x | x in done ensures Leq(q, x) {
          LeqOrder(q, k, x);
        }
        k := q;
      }
      rest := rest - {q};
      assert keys - rest == done + {q};
    }
    assert keys - rest == keys;
  }

  lemma TakeLeast(m: Values, pairs: seq<Pair>, rest: set<GoString>, k: GoString)
    requires rest <= m.Keys && IsLeast(k, rest)
    ensures pairs + PairsOfKey(k, m[k]) + Flatten(m, rest - {k}) == pairs + Flatten(m, rest)
  {
    FlattenLeastFirst(m, rest, k);
    var one, tail := PairsOfKey(k, m[k]), Flatten(m, rest - {k});
    assert pairs + one + tail == pairs + (one + tail);
  }

  /** Values.Encode: keys in order, each with its values in order. */
  method EncodeValues(form: Values) returns (s: GoString)
    ensures s == Encode(form)
  {
    var pairs: seq<Pair> := [];
    var rest := form.Keys;
    while rest != {}
      invariant rest <= form.Keys && pairs + Flatten(form, rest) == Flatten(form, form.Keys)
      decreases rest
    {
      var k := Least(rest);
      TakeLeast(form, pairs, rest, k);
      pairs := pairs + PairsOfKey(k, form[k]);
      rest := rest - {k};
    }
    assert pairs + [] == pairs;
    s := EncodePairs(pairs);
  }

  /** Same values in the same order under every key. */
  ghost predicate SameValues(a: seq<Pair>, b: seq<Pair>) {
    forall k :: ValuesOf(a, k) == ValuesOf(b, k)
  }

  /**
    Round trip: parsing the encoded form gives every key its values back, in order, for all byte
    strings. The one thing the format cannot carry is a wholly empty pair.
   */
  lemma EncodedFormParsesBack(args: seq<Pair>, form: Values)
    requires Groups(form, args)
    ensures SameValues(Parse(Encode(form)), args) <==> Proper(args)
  {
    var flat := Flatten(form, form.Keys);
    forall k ensures ValuesOf(flat, k) == ValuesOf(args, k) {
      ValuesOfFlatten(form, form.Keys, k);
      assert At(form, k) == ValuesOf(args, k);
    }
    EmptyKeyValues(args);
    EmptyKeyValues(flat);
    if Proper(args) {
      ParseEncoded(flat);
    } else {
      ParsedIsProper(Split(Encode(form), '&'));
      EmptyKeyValues(Parse(Encode(form)));
    }
  }
}
