/** dpop/jwk.go: parsing an EC P-256 public JWK and computing its RFC 7638 thumbprint. */
module Jwk {
  import opened GoStrings
  import opened Digests
  import Base64Url

  /** A member of a decoded JSON object, as far as the parser looks at it. */
  datatype Member = Text(s: GoString) | NotText
  type Members = map<GoString, Member>

  /** The type assertion raw[name].(string), whose zero value is the empty string. */
  function TextOf(raw: Members, name: GoString): GoString {
    if name in raw && raw[name].Text? then raw[name].s else ""
  }

  /** A JSON string's text, for the bytes that occur in a decodable coordinate. */
  function JsonText(s: GoString): GoString {
    if s == [] then []
    else (if s[0] == '\r' then "\\r" else if s[0] == '\n' then "\\n" else [s[0]]) + JsonText(s[1..])
  }

  const HEAD: GoString := "{\"crv\":\"P-256\",\"kty\":\"EC\",\"x\":\""
  const MIDDLE: GoString := ",\"y\":\""
  const TAIL: GoString := "}"

  /** json.Marshal of the four required members: keys sorted, no spaces. */
  function ThumbprintInput(x: GoString, y: GoString): GoString {
    HEAD + (JsonText(x) + ['"'] + (MIDDLE + (JsonText(y) + ['"'] + TAIL)))
  }

  function Thumbprint(sha: Hash, x: GoString, y: GoString): GoString {
    EncodedDigest(sha, ThumbprintInput(x, y))
  }

  /** The uncompressed point handed to the curve: a 0x04 tag, then 32 bytes a coordinate. */
  function Point(xb: GoString, yb: GoString): (p: GoString)
    ensures |p| == 65
  {
    seq(65, i requires 0 <= i < 65 => PointByte(i, xb, yb))
  }

  function PointByte(i: nat, xb: GoString, yb: GoString): Byte {
    if i == 0 then ToByte(4)
    else if 33 <= i < 33 + |yb| then yb[i - 33]
    else if i < 1 + |xb| then xb[i - 1]
    else ToByte(0)
  }

  lemma PointOfFullCoordinates(xb: GoString, yb: GoString)
    requires |xb| == 32 && |yb| == 32
    ensures Point(xb, yb) == [ToByte(4)] + xb + yb
  {
  }

  /** Shorter coordinates stand left in their fields, before zeros: such a point is another than the one meant. */
  lemma PointOfShortCoordinates(xb: GoString, yb: GoString, x0: GoString, y0: GoString)
    requires |xb| + |x0| == 32 && |yb| + |y0| == 32 && forall c :: c in x0 + y0 ==> c == ToByte(0)
    ensures Point(xb, yb) == [ToByte(4)] + (xb + x0) + (yb + y0)
  {
    forall i | 0 <= i < 65 ensures Point(xb, yb)[i] == ([ToByte(4)] + (xb + x0) + (yb + y0))[i] {
      if 1 + |xb| <= i < 33 {
        assert x0[i - 1 - |xb|] in x0 + y0;
      } else if 33 + |yb| <= i {
        assert y0[i - 33 - |yb|] in x0 + y0;
      }
    }
  }

  /** copy(buf[from:], src): as many bytes as both sides hold. */
  method CopyInto(buf: array<Byte>, from: nat, src: GoString)
    requires from <= buf.Length
    modifies buf
    ensures forall i :: 0 <= i < buf.Length ==>
              buf[i] == if from <= i < from + |src| then src[i - from] else old(buf[i])
  {
    var n := if |src| <= buf.Length - from then |src| else buf.Length - from;
    forall i | 0 <= i < n {
      buf[from + i] := src[i];
    }
  }

  method FillPoint(xb: GoString, yb: GoString) returns (buf: array<Byte>)
    ensures fresh(buf) && buf[..] == Point(xb, yb)
  {
    buf := new Byte[65](_ => ToByte(0));
    buf[0] := ToByte(4);
    CopyInto(buf, 1, xb);
    CopyInto(buf, 33, yb);
  }

  datatype ParsedKey = ParsedKey(point: GoString, thumbprint: GoString)

  /** What a JWK must satisfy to be accepted, and the key it then stands for. */
  predicate Accepts(raw: Members, onCurve: GoString -> bool) {
    && TextOf(raw, "kty") == "EC" && TextOf(raw, "crv") == "P-256"
    && TextOf(raw, "x") != "" && TextOf(raw, "y") != ""
    && "d" !in raw
    && Base64Url.Decode(TextOf(raw, "x")).Some? && Base64Url.Decode(TextOf(raw, "y")).Some?
    && onCurve(PublicPoint(raw))
  }

  function PublicPoint(raw: Members): GoString
    requires Base64Url.Decode(TextOf(raw, "x")).Some? && Base64Url.Decode(TextOf(raw, "y")).Some?
  {
    Point(Base64Url.Decode(TextOf(raw, "x")).value, Base64Url.Decode(TextOf(raw, "y")).value)
  }

  method ParseECJWK(raw: Members, onCurve: GoString -> bool, sha: Hash) returns (key: Option<ParsedKey>)
    ensures key.Some? <==> Accepts(raw, onCurve)
    ensures key.Some? ==>
              && key.value.point == PublicPoint(raw)
              && key.value.thumbprint == Thumbprint(sha, TextOf(raw, "x"), TextOf(raw, "y"))
  {
    var kty, crv := TextOf(raw, "kty"), TextOf(raw, "crv");
    var x, y := TextOf(raw, "x"), TextOf(raw, "y");
    if kty != "EC" || crv != "P-256" || x == "" || y == "" {
      return None;
    }
    if "d" in raw {
      return None;
    }
    var xb := Base64Url.Decode(x);
    if xb.None? {
      return None;
    }
    var yb := Base64Url.Decode(y);
    if yb.None? {
      return None;
    }
    var uncompressed := FillPoint(xb.value, yb.value);
    if !onCurve(uncompressed[..]) {
      return None;
    }
    return Some(ParsedKey(uncompressed[..], Thumbprint(sha, x, y)));
  }

  lemma {:induction false} JsonTextHasNoQuote(s: GoString)
    requires '"' !in s
    ensures '"' !in JsonText(s)
  {
    if s != [] {
      JsonTextHasNoQuote(s[1..]);
    }
  }

  lemma {:induction false} JsonTextInjective(s: GoString, t: GoString)
    requires '\\' !in s && '\\' !in t
    requires JsonText(s) == JsonText(t)
    ensures s == t
  {
    if s == [] || t == [] {
      assert s == t;
    } else {
      var e, f := JsonText(s), JsonText(t);
      assert e[0] == '\\' <==> s[0] == '\r' || s[0] == '\n';
      assert f[0] == '\\' <==> t[0] == '\r' || t[0] == '\n';
      assert s[0] == t[0];
      var k := if e[0] == '\\' then 2 else 1;
      assert e[k..] == JsonText(s[1..]) && f[k..] == JsonText(t[1..]);
      JsonTextInjective(s[1..], t[1..]);
      assert s == [s[0]] + s[1..] && t == [t[0]] + t[1..];
    }
  }

  /** Text without line breaks stands for itself. */
  lemma {:induction false} PlainJsonText(a: GoString)
    requires '\r' !in a && '\n' !in a
    ensures JsonText(a) == a
  {
    if a != [] {
      PlainJsonText(a[1..]);
      assert a == [a[0]] + a[1..];
    }
  }

  /** A line break is escaped where it is. */
  lemma {:induction false} BreaksAreEscaped(a: GoString, c: Byte, b: GoString)
    requires '\r' !in a && '\n' !in a && (c == '\r' || c == '\n')
    ensures JsonText(a + [c] + b) == a + ['\\', if c == '\r' then 'r' else 'n'] + JsonText(b)
  {
    var s := a + [c] + b;
    if a == [] {
      assert s[1..] == b;
    } else {
      assert s[1..] == a[1..] + [c] + b;
      BreaksAreEscaped(a[1..], c, b);
      assert a == [a[0]] + a[1..];
    }
  }

  /**
    The text that section 3.2 of RFC 7638 asks for: the required members in lexical order, each coordinate after its
    own name, without white space.
   */
  lemma {:induction false} ThumbprintTextIsRFC7638(x: GoString, y: GoString)
    ensures ThumbprintInput(x, y) ==
            "{\"crv\":\"P-256\",\"kty\":\"EC\",\"x\":\"" + JsonText(x) + "\",\"y\":\"" + JsonText(y) + "\"}"
    ensures '\r' !in x && '\n' !in x ==> JsonText(x) == x
    ensures '\r' !in y && '\n' !in y ==> JsonText(y) == y
  {
    hide JsonText;
    if '\r' !in x && '\n' !in x {
      PlainJsonText(x);
    }
    if '\r' !in y && '\n' !in y {
      PlainJsonText(y);
    }
    assert "\",\"y\":\"" == ['"'] + MIDDLE;
    assert "\"}" == ['"'] + TAIL;
  }

  /**
    Which keys are accepted, on canonical coordinates: exactly the public ones of type EC on P-256 whose point, the
    tag 4 and both coordinates, lies on the curve; and that point is the key.
   */
  lemma {:induction false} CanonicalKeysAreAccepted(raw: Members, xb: GoString, yb: GoString, onCurve: GoString -> bool)
    requires |xb| == 32 && |yb| == 32
    requires "x" in raw && raw["x"] == Text(Base64Url.Encode(xb)) && "y" in raw
             && raw["y"] == Text(Base64Url.Encode(yb))
    ensures Accepts(raw, onCurve) <==>
              && "kty" in raw && raw["kty"] == Text("EC") && "crv" in raw && raw["crv"] == Text("P-256")
              && "d" !in raw && onCurve([ToByte(4)] + xb + yb)
    ensures IsCoordinate(TextOf(raw, "x")) && IsCoordinate(TextOf(raw, "y"))
    ensures PublicPoint(raw) == [ToByte(4)] + xb + yb
  {
    Base64Url.DecodeEncode(xb);
    Base64Url.DecodeEncode(yb);
    Base64Url.EncodeLength(xb);
    Base64Url.EncodeLength(yb);
    PointOfFullCoordinates(xb, yb);
    assert |"EC"| > 0 && |"P-256"| > 0;
  }

  /** A coordinate: base64url text, possibly broken over lines. */
  predicate IsCoordinate(s: GoString) {
    Base64Url.Decode(s).Some?
  }

  lemma CoordinateNeedsNoQuoting(s: GoString)
    requires IsCoordinate(s)
    ensures '"' !in s && '\\' !in s && '"' !in JsonText(s)
  {
    Base64Url.DecodedAlphabet(s);
    JsonTextHasNoQuote(s);
  }

  lemma QuotedFieldsInjective(head: GoString, middle: GoString, tail: GoString, x1: GoString, y1: GoString,
                              x2: GoString, y2: GoString)
    requires '"' !in x1 && '"' !in y1 && '"' !in x2 && '"' !in y2
    requires head + (x1 + ['"'] + (middle + (y1 + ['"'] + tail))) ==
             head + (x2 + ['"'] + (middle + (y2 + ['"'] + tail)))
    ensures x1 == x2 && y1 == y2
  {
    var rest1, rest2 := y1 + ['"'] + tail, y2 + ['"'] + tail;
    CancelPrefix(head, x1 + ['"'] + (middle + rest1), x2 + ['"'] + (middle + rest2));
    CutAtFirst(x1, middle + rest1, x2, middle + rest2, '"');
    CancelPrefix(middle, rest1, rest2);
    CutAtFirst(y1, tail, y2, tail, '"');
  }

  /** The canonical JSON determines both coordinate strings. */
  lemma ThumbprintInputInjective(x1: GoString, y1: GoString, x2: GoString, y2: GoString)
    requires IsCoordinate(x1) && IsCoordinate(y1) && IsCoordinate(x2) && IsCoordinate(y2)
    requires ThumbprintInput(x1, y1) == ThumbprintInput(x2, y2)
    ensures x1 == x2 && y1 == y2
  {
    CoordinateNeedsNoQuoting(x1);
    CoordinateNeedsNoQuoting(y1);
    CoordinateNeedsNoQuoting(x2);
    CoordinateNeedsNoQuoting(y2);
    hide JsonText, IsCoordinate;
    QuotedFieldsInjective(HEAD, MIDDLE, TAIL, JsonText(x1), JsonText(y1), JsonText(x2), JsonText(y2));
    JsonTextInjective(x1, x2);
    JsonTextInjective(y1, y2);
  }

  /** Equal thumbprints mean equal public keys, for every two accepted JWKs whose inputs do not collide. */
  lemma {:induction false} ThumbprintIdentifiesKey(a: Members, b: Members, onCurve: GoString -> bool, sha: Hash)
    requires Accepts(a, onCurve) && Accepts(b, onCurve)
    requires NoCollision(sha, ThumbprintInput(TextOf(a, "x"), TextOf(a, "y")),
                         ThumbprintInput(TextOf(b, "x"), TextOf(b, "y")))
    requires Thumbprint(sha, TextOf(a, "x"), TextOf(a, "y")) == Thumbprint(sha, TextOf(b, "x"), TextOf(b, "y"))
    ensures PublicPoint(a) == PublicPoint(b)
  {
    EncodedDigestIsInjective(sha, ThumbprintInput(TextOf(a, "x"), TextOf(a, "y")),
                             ThumbprintInput(TextOf(b, "x"), TextOf(b, "y")));
    ThumbprintInputInjective(TextOf(a, "x"), TextOf(a, "y"), TextOf(b, "x"), TextOf(b, "y"));
  }

  /** The form RFC 7638 asks for: each coordinate is the encoding of exactly 32 bytes. */
  ghost predicate Canonical(s: GoString) {
    exists b: GoString :: |b| == 32 && s == Base64Url.Encode(b)
  }

  /** On canonical coordinates the thumbprint and the key determine each other. */
  lemma CanonicalThumbprintsAreExact(x1: GoString, y1: GoString, x2: GoString, y2: GoString, sha: Hash)
    requires Canonical(x1) && Canonical(y1) && Canonical(x2) && Canonical(y2)
    requires NoCollision(sha, ThumbprintInput(x1, y1), ThumbprintInput(x2, y2))
    ensures IsCoordinate(x1) && IsCoordinate(y1) && IsCoordinate(x2) && IsCoordinate(y2)
    ensures Thumbprint(sha, x1, y1) == Thumbprint(sha, x2, y2) <==>
            Point(Base64Url.Decode(x1).value, Base64Url.Decode(y1).value)
            == Point(Base64Url.Decode(x2).value, Base64Url.Decode(y2).value)
  {
    var bx1: GoString :| |bx1| == 32 && x1 == Base64Url.Encode(bx1);
    var by1: GoString :| |by1| == 32 && y1 == Base64Url.Encode(by1);
    var bx2: GoString :| |bx2| == 32 && x2 == Base64Url.Encode(bx2);
    var by2: GoString :| |by2| == 32 && y2 == Base64Url.Encode(by2);
    Base64Url.DecodeEncode(bx1);
    Base64Url.DecodeEncode(by1);
    Base64Url.DecodeEncode(bx2);
    Base64Url.DecodeEncode(by2);
    EncodedDigestIsInjective(sha, ThumbprintInput(x1, y1), ThumbprintInput(x2, y2));
    if Thumbprint(sha, x1, y1) == Thumbprint(sha, x2, y2) {
      ThumbprintInputInjective(x1, y1, x2, y2);
    }
    PointOfFullCoordinates(bx1, by1);
    PointOfFullCoordinates(bx2, by2);
    if Point(bx1, by1) == Point(bx2, by2) {
      assert bx1 == Point(bx1, by1)[1..33] && by1 == Point(bx1, by1)[33..];
      assert bx2 == Point(bx2, by2)[1..33] && by2 == Point(bx2, by2)[33..];
    }
  }

  /** Off the canonical form one key has several thumbprints: a trailing line feed changes only the text. */
  lemma LineFeedChangesThumbprintOnly(x: GoString, y: GoString, sha: Hash)
    requires IsCoordinate(x) && IsCoordinate(y)
    requires NoCollision(sha, ThumbprintInput(x, y), ThumbprintInput(x + ['\n'], y))
    ensures Base64Url.Decode(x + ['\n']) == Base64Url.Decode(x)
    ensures Thumbprint(sha, x + ['\n'], y) != Thumbprint(sha, x, y)
  {
    SkipTrailingLineFeed(x);
    if Thumbprint(sha, x + ['\n'], y) == Thumbprint(sha, x, y) {
      EncodedDigestIsInjective(sha, ThumbprintInput(x, y), ThumbprintInput(x + ['\n'], y));
      ThumbprintInputInjective(x, y, x + ['\n'], y);
    }
  }

  lemma {:induction false} SkipTrailingLineFeed(s: GoString)
    ensures Base64Url.SkipBreaks(s + ['\n']) == Base64Url.SkipBreaks(s)
  {
    if s != [] {
      assert (s + ['\n'])[1..] == s[1..] + ['\n'];
      SkipTrailingLineFeed(s[1..]);
    }
  }
}
