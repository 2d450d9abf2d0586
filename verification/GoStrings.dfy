/** Go strings as byte sequences, and the few functions of package strings the server uses. */
module GoStrings {

  /** A Go string is a sequence of bytes; a byte is written as the character with the same code. */
  type Byte = c: char | c as int < 256 witness 'a'
  type GoString = seq<Byte>

  datatype Option<+T> = None | Some(value: T)

  function ToByte(n: int): Byte
    requires 0 <= n < 256
  {
    n as char
  }

  predicate HasPrefix(s: GoString, prefix: GoString) {
    prefix <= s
  }

  /** strings.Split with a one-byte separator. */
  function Split(s: GoString, sep: Byte): (parts: seq<GoString>)
    ensures parts != []
  {
    if s == [] then [[]]
    else
      var rest := Split(s[1..], sep);
      if s[0] == sep then [[]] + rest else [[s[0]] + rest[0]] + rest[1..]
  }

  /** strings.Join with a one-byte separator. */
  function Join(parts: seq<GoString>, sep: Byte): GoString {
    if parts == [] then []
    else if |parts| == 1 then parts[0]
    else parts[0] + [sep] + Join(parts[1..], sep)
  }

  lemma {:induction false} SplitWithoutSeparator(s: GoString, sep: Byte)
    requires sep !in s
    ensures Split(s, sep) == [s]
  {
    if s != [] {
      SplitWithoutSeparator(s[1..], sep);
      assert [s[0]] + s[1..] == s;
    }
  }

  /** Splitting two strings glued by the separator splits each of them. */
  lemma {:induction false} SplitGlued(a: GoString, b: GoString, sep: Byte)
    ensures Split(a + [sep] + b, sep) == Split(a, sep) + Split(b, sep)
  {
    var s := a + [sep] + b;
    if a == [] {
      assert s[1..] == b;
    } else {
      assert s[1..] == a[1..] + [sep] + b;
      SplitGlued(a[1..], b, sep);
    }
  }

  lemma {:induction false} SplitJoin(parts: seq<GoString>, sep: Byte)
    requires parts != []
    requires forall i :: 0 <= i < |parts| ==> sep !in parts[i]
    ensures Split(Join(parts, sep), sep) == parts
  {
    SplitWithoutSeparator(parts[0], sep);
    if |parts| > 1 {
      SplitGlued(parts[0], Join(parts[1..], sep), sep);
      SplitJoin(parts[1..], sep);
    }
  }

  lemma {:induction false} SplitPartsLackSeparator(s: GoString, sep: Byte)
    ensures forall p :: p in Split(s, sep) ==> sep !in p
  {
    if s != [] {
      SplitPartsLackSeparator(s[1..], sep);
    }
  }

  /** Quote-like delimiters cut a string in one place only. */
  lemma {:induction false} CutAtFirst(a1: GoString, b1: GoString, a2: GoString, b2: GoString, c: Byte)
    requires c !in a1 && c !in a2
    requires a1 + [c] + b1 == a2 + [c] + b2
    ensures a1 == a2 && b1 == b2
  {
    var s := a1 + [c] + b1;
    assert s[|a1|] == c && s[|a2|] == c;
    assert forall i :: 0 <= i < |a1| ==> s[i] == a1[i];
    assert forall i :: 0 <= i < |a2| ==> s[i] == a2[i];
    assert a1 == s[..|a1|] && a2 == s[..|a2|];
    assert b1 == s[|a1| + 1..] && b2 == s[|a2| + 1..];
  }

  lemma CancelPrefix(p: GoString, a: GoString, b: GoString)
    requires p + a == p + b
    ensures a == b
  {
    assert a == (p + a)[|p|..] && b == (p + b)[|p|..];
  }

  /** strconv.Itoa */
  function Itoa(n: int): GoString
    decreases if n < 0 then 1 else 0, n
  {
    if n < 0 then "-" + Itoa(-n)
    else if n < 10 then [Digit(n)]
    else Itoa(n / 10) + [Digit(n % 10)]
  }

  function Digit(d: int): Byte
    requires 0 <= d < 10
  {
    (48 + d) as char
  }

  lemma {:induction false} ItoaHasDigits(n: int)
    requires 0 <= n
    ensures Itoa(n) != [] && '-' !in Itoa(n)
  {
    if n >= 10 {
      ItoaHasDigits(n / 10);
    }
  }

  lemma {:induction false} NatItoaInjective(m: nat, n: nat)
    requires Itoa(m) == Itoa(n)
    ensures m == n
  {
    LastDigits(m);
    LastDigits(n);
    assert m % 10 == n % 10;
    if m >= 10 {
      ItoaHasDigits(m / 10);
    }
    if n >= 10 {
      ItoaHasDigits(n / 10);
    }
    assert m >= 10 <==> |Itoa(m)| >= 2;
    assert n >= 10 <==> |Itoa(n)| >= 2;
    if m >= 10 {
      NatItoaInjective(m / 10, n / 10);
    }
  }

  /** The number that decimal digits stand for. */
  function ReadDecimal(s: GoString): int {
    if s == [] then 0 else 10 * ReadDecimal(s[..|s| - 1]) + (s[|s| - 1] as int - '0' as int)
  }

  /** The decimal text of a number is digits only, without a leading zero, and reads back as the number. */
  lemma {:induction false} ItoaReadsBack(n: nat)
    ensures ReadDecimal(Itoa(n)) == n && Itoa(n) != [] && (forall c :: c in Itoa(n) ==> '0' <= c <= '9')
    ensures n > 0 ==> Itoa(n)[0] != '0'
  {
    if n < 10 {
      assert Itoa(n)[..0] == [];
    } else {
      ItoaReadsBack(n / 10);
      assert Itoa(n)[..|Itoa(n)| - 1] == Itoa(n / 10);
    }
  }

  /** Two integers print alike only if they are equal. */
  lemma ItoaInjective(m: int, n: int)
    requires Itoa(m) == Itoa(n)
    ensures m == n
  {
    ItoaHasDigits(if m < 0 then -m else m);
    ItoaHasDigits(if n < 0 then -n else n);
    assert m < 0 <==> Itoa(m)[0] == '-';
    assert n < 0 <==> Itoa(n)[0] == '-';
    if m < 0 {
      assert Itoa(m)[1..] == Itoa(-m) && Itoa(n)[1..] == Itoa(-n);
      NatItoaInjective(-m, -n);
    } else {
      NatItoaInjective(m, n);
    }
  }

  lemma LastDigits(n: nat)
    ensures Itoa(n) != [] && Itoa(n)[|Itoa(n)| - 1] == Digit(n % 10)
    ensures n >= 10 ==> Itoa(n)[..|Itoa(n)| - 1] == Itoa(n / 10)
  {
  }

  lemma FiveDigits(n: int)
    requires 10000 <= n < 100000
    ensures |Itoa(n)| == 5
  {
    assert |Itoa(n / 10000)| == 1;
    assert |Itoa(n / 1000)| == 2 by { assert n / 1000 / 10 == n / 10000; }
    assert |Itoa(n / 100)| == 3 by { assert n / 100 / 10 == n / 1000; }
    assert |Itoa(n / 10)| == 4 by { assert n / 10 / 10 == n / 100; }
  }
}
