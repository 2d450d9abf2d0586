/** encoding/base64 RawURLEncoding: the unpadded URL-safe alphabet of section 5 of RFC 4648. */
module Base64Url {
  import opened GoStrings

  /** The 64 letters, in order of the value they stand for. */
  function Letter(n: int): Byte
    requires 0 <= n < 64
  {
    if n < 26 then ToByte(65 + n)
    else if n < 52 then ToByte(71 + n)
    else if n < 62 then ToByte(n - 4)
    else if n == 62 then '-'
    else '_'
  }

  /** The decode table; None is a byte outside the alphabet. */
  function Value(c: Byte): (v: Option<int>)
    ensures v.Some? ==> 0 <= v.value < 64 && Letter(v.value) == c
  {
    var n := c as int;
    if 65 <= n <= 90 then Some(n - 65)
    else if 97 <= n <= 122 then Some(n - 71)
    else if 48 <= n <= 57 then Some(n + 4)
    else if c == '-' then Some(62)
    else if c == '_' then Some(63)
    else None
  }

  lemma ValueOfLetter(n: int)
    requires 0 <= n < 64
    ensures Value(Letter(n)) == Some(n)
  {
  }

  type Sextet = n: int | 0 <= n < 64

  // The four units of three bytes, and the three bytes of four units.
  function Unit0(b0: Byte): Sextet { b0 as int / 4 }
  function Unit1(b0: Byte, b1: Byte): Sextet { b0 as int % 4 * 16 + b1 as int / 16 }
  function Unit2(b1: Byte, b2: Byte): Sextet { b1 as int % 16 * 4 + b2 as int / 64 }
  function Unit3(b2: Byte): Sextet { b2 as int % 64 }
  function Octet0(u0: int, u1: int): Byte requires 0 <= u0 < 64 && 0 <= u1 < 64 { ToByte(u0 * 4 + u1 / 16) }
  function Octet1(u1: int, u2: int): Byte requires 0 <= u1 < 64 && 0 <= u2 < 64 { ToByte(u1 % 16 * 16 + u2 / 4) }
  function Octet2(u2: int, u3: int): Byte requires 0 <= u2 < 64 && 0 <= u3 < 64 { ToByte(u2 % 4 * 64 + u3) }

  /** Regroups bytes in units of six bits; the unused bits of the last unit are zero. */
  function Sextets(b: GoString): seq<Sextet> {
    if |b| == 0 then []
    else if |b| == 1 then [Unit0(b[0]), Unit1(b[0], ToByte(0))]
    else if |b| == 2 then [Unit0(b[0]), Unit1(b[0], b[1]), Unit2(b[1], ToByte(0))]
    else [Unit0(b[0]), Unit1(b[0], b[1]), Unit2(b[1], b[2]), Unit3(b[2])] + Sextets(b[3..])
  }

  function Letters(u: seq<Sextet>): (s: GoString)
    ensures |s| == |u|
  {
    seq(|u|, i requires 0 <= i < |u| => Letter(u[i]))
  }

  function Encode(b: GoString): GoString {
    Letters(Sextets(b))
  }

  /** The decoder drops carriage returns and line feeds wherever they stand. */
  function SkipBreaks(s: GoString): (t: GoString)
    ensures '\r' !in t && '\n' !in t
  {
    if s == [] then []
    else if s[0] == '\r' || s[0] == '\n' then SkipBreaks(s[1..])
    else [s[0]] + SkipBreaks(s[1..])
  }

  function Values(s: GoString): (u: Option<seq<Sextet>>)
    ensures u.Some? <==> forall c :: c in s ==> IsLetter(c)
    ensures u.Some? ==> Letters(u.value) == s
  {
    if s == [] then Some([])
    else
      assert s == [s[0]] + s[1..];
      var v, vs := Value(s[0]), Values(s[1..]);
      if v.None? then
        assert s[0] in s;
        None
      else if vs.None? then None
      else Some([v.value] + vs.value)
  }

  /** Groups of four units, then a rest of two or three. Unused trailing bits are not checked. */
  function Octets(u: seq<Sextet>): (b: Option<GoString>)
    ensures b.None? <==> |u| % 4 == 1
  {
    if |u| == 0 then Some([])
    else if |u| == 1 then None
    else
      var c0 := Octet0(u[0], u[1]);
      if |u| == 2 then Some([c0])
      else
        var c1 := Octet1(u[1], u[2]);
        if |u| == 3 then Some([c0, c1])
        else
          match Octets(u[4..])
          case None => None
          case Some(rest) => Some([c0, c1, Octet2(u[2], u[3])] + rest)
  }

  /** A byte outside the alphabet, or a lone last letter, is an error. */
  function Decode(s: GoString): Option<GoString> {
    match Values(SkipBreaks(s))
    case None => None
    case Some(u) => Octets(u)
  }

  predicate IsLetter(c: Byte) {
    Value(c).Some?
  }

  lemma EncodeUsesLetters(b: GoString)
    ensures forall c :: c in Encode(b) ==> IsLetter(c)
  {
    var u := Sextets(b);
    forall i | 0 <= i < |u| ensures IsLetter(Letters(u)[i]) {
      ValueOfLetter(u[i]);
    }
  }

  lemma {:induction false} SextetCount(b: GoString)
    ensures |Sextets(b)| == (|b| * 4 + 2) / 3
  {
    if |b| >= 3 {
      SextetCount(b[3..]);
    }
  }

  /** Four letters for three bytes, rounded up: a 32-byte digest takes exactly 43 letters. */
  lemma EncodeLength(b: GoString)
    ensures |Encode(b)| == (|b| * 4 + 2) / 3
  {
    SextetCount(b);
  }

  lemma {:induction false} SkipNothing(s: GoString)
    requires '\r' !in s && '\n' !in s
    ensures SkipBreaks(s) == s
  {
    if s != [] {
      SkipNothing(s[1..]);
    }
  }

  /** The units of a group carry its bits: splitting and rejoining gives the bytes back. */
  lemma GroupBits(b0: Byte, b1: Byte, b2: Byte)
    ensures Octet0(Unit0(b0), Unit1(b0, b1)) == b0
    ensures Octet1(Unit1(b0, b1), Unit2(b1, b2)) == b1
    ensures Octet2(Unit2(b1, b2), Unit3(b2)) == b2
  {
  }

  lemma LastGroup(b: GoString)
    requires |b| < 3
    ensures Octets(Sextets(b)) == Some(b)
  {
    if |b| == 1 {
      GroupBits(b[0], ToByte(0), ToByte(0));
      assert b == [b[0]];
    } else if |b| == 2 {
      GroupBits(b[0], b[1], ToByte(0));
      assert b == [b[0], b[1]];
    }
  }

  lemma FirstGroup(u0: Sextet, u1: Sextet, u2: Sextet, u3: Sextet, v: seq<Sextet>)
    requires Octets(v).Some?
    ensures Octets([u0, u1, u2, u3] + v) == Some([Octet0(u0, u1), Octet1(u1, u2), Octet2(u2, u3)] + Octets(v).value)
  {
    assert ([u0, u1, u2, u3] + v)[4..] == v;
  }

  lemma {:induction false} OctetsOfSextets(b: GoString)
    ensures Octets(Sextets(b)) == Some(b)
  {
    if |b| < 3 {
      LastGroup(b);
    } else {
      OctetsOfSextets(b[3..]);
      FirstGroup(Unit0(b[0]), Unit1(b[0], b[1]), Unit2(b[1], b[2]), Unit3(b[2]), Sextets(b[3..]));
      GroupBits(b[0], b[1], b[2]);
      assert b == [b[0], b[1], b[2]] + b[3..];
    }
  }

  lemma LettersInjective(u: seq<Sextet>, v: seq<Sextet>)
    requires Letters(u) == Letters(v)
    ensures u == v
  {
    forall i | 0 <= i < |u| ensures u[i] == v[i] {
      assert Letters(u)[i] == Letters(v)[i];
      ValueOfLetter(u[i]);
      ValueOfLetter(v[i]);
    }
  }

  /** Decoding undoes encoding, for every byte string. */
  lemma DecodeEncode(b: GoString)
    ensures Decode(Encode(b)) == Some(b)
  {
    EncodeUsesLetters(b);
    SkipNothing(Encode(b));
    LettersInjective(Values(Encode(b)).value, Sextets(b));
    OctetsOfSextets(b);
  }

  /** Table 2 of RFC 4648: the six bits that a letter stands for; None is no letter. */
  function SixBits(c: Byte): Option<int> {
    if 'A' <= c <= 'Z' then Some(c as int - 'A' as int)
    else if 'a' <= c <= 'z' then Some(26 + c as int - 'a' as int)
    else if '0' <= c <= '9' then Some(52 + c as int - '0' as int)
    else if c == '-' then Some(62) else if c == '_' then Some(63) else None
  }

  /** The number that letters stand for, six bits each, the highest first. */
  function ReadBits(s: GoString): Option<int> {
    if s == [] then Some(0)
    else
      var front, last := ReadBits(s[..|s| - 1]), SixBits(s[|s| - 1]);
      if front.None? || last.None? then None else Some(front.value * 64 + last.value)
  }

  lemma LetterStandsFor(n: int)
    requires 0 <= n < 64
    ensures SixBits(Letter(n)) == Some(n)
  {
  }

  lemma ReadFour(s: GoString)
    requires 2 <= |s| <= 4 && forall i :: 0 <= i < |s| ==> SixBits(s[i]).Some?
    ensures ReadBits(s) == Some(
              if |s| == 2 then SixBits(s[0]).value * 64 + SixBits(s[1]).value
              else if |s| == 3 then (SixBits(s[0]).value * 64 + SixBits(s[1]).value) * 64 + SixBits(s[2]).value
              else ((SixBits(s[0]).value * 64 + SixBits(s[1]).value) * 64 + SixBits(s[2]).value) * 64
                   + SixBits(s[3]).value)
  {
    hide SixBits;
    var a, b, c := s[..1], s[..2], s[..|s| - 1];
    assert a[..0] == [] && b[..1] == a;
    assert ReadBits(a) == Some(SixBits(s[0]).value);
    assert ReadBits(b) == Some(SixBits(s[0]).value * 64 + SixBits(s[1]).value);
    if |s| == 2 {
      assert s == b;
    } else {
      assert c[..|c| - 1] == s[..|s| - 2];
    }
  }

  /**
    The text section 4 of RFC 4648 asks for. Three bytes and their four letters are one number of 24 bits; a rest of one
    byte or two is filled up with zero bits and gives two letters or three; nothing gives nothing.
   */
  lemma {:induction false} EncodeByGroups(b: GoString)
    ensures var e := Encode(b);
            if |b| == 0 then e == []
            else if |b| == 1 then |e| == 2 && ReadBits(e) == Some(b[0] as int * 16)
            else if |b| == 2 then |e| == 3 && ReadBits(e) == Some((b[0] as int * 256 + b[1] as int) * 4)
            else
              && |e| >= 4 && ReadBits(e[..4]) == Some(b[0] as int * 65536 + b[1] as int * 256 + b[2] as int)
              && e[4..] == Encode(b[3..])
  {
    var u, e := Sextets(b), Encode(b);
    forall i | 0 <= i < |u| ensures SixBits(e[i]) == Some(u[i]) {
      LetterStandsFor(u[i]);
    }
    hide SixBits, Letter;
    if |b| > 0 {
      ReadFour(if |b| < 3 then e else e[..4]);
    }
  }

  lemma EncodeInjective(a: GoString, b: GoString)
    requires Encode(a) == Encode(b)
    ensures a == b
  {
    DecodeEncode(a);
    DecodeEncode(b);
  }

  /** What the decoder accepts is made of letters and line breaks. */
  lemma DecodedAlphabet(s: GoString)
    requires Decode(s).Some?
    ensures forall c :: c in s ==> IsLetter(c) || c == '\r' || c == '\n'
  {
    SkipKeepsTheRest(s);
  }

  lemma {:induction false} SkipKeepsTheRest(s: GoString)
    ensures forall c :: c in s && c != '\r' && c != '\n' ==> c in SkipBreaks(s)
  {
    if s != [] {
      SkipKeepsTheRest(s[1..]);
    }
  }
}
