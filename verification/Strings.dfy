/** The string functions the key builders call: lexicographic sort, join, and base64 (section 4 of RFC 4648). */
module Strings {
  import opened Octets

  // ---------- Lexicographic order and sorting ----------

  predicate Le(a: string, b: string) {
    a == [] || (b != [] && (a[0] < b[0] || (a[0] == b[0] && Le(a[1..], b[1..]))))
  }

  lemma {:induction false} LeTotal(a: string, b: string)
    ensures Le(a, b) || Le(b, a)
  {
    if a != [] && b != [] && a[0] == b[0] {
      LeTotal(a[1..], b[1..]);
    }
  }

  lemma {:induction false} LeAntisymmetric(a: string, b: string)
    requires Le(a, b) && Le(b, a)
    ensures a == b
  {
    if a != [] {
      LeAntisymmetric(a[1..], b[1..]);
      assert a == [a[0]] + a[1..] && b == [b[0]] + b[1..];
    }
  }

  lemma {:induction false} LeTransitive(a: string, b: string, c: string)
    requires Le(a, b) && Le(b, c)
    ensures Le(a, c)
  {
    if a != [] && a[0] == b[0] && b[0] == c[0] {
      LeTransitive(a[1..], b[1..], c[1..]);
    }
  }

  predicate Sorted(xs: seq<string>) {
    forall i, j :: 0 <= i < j < |xs| ==> Le(xs[i], xs[j])
  }

  function Insert(x: string, xs: seq<string>): seq<string> {
    if xs == [] || Le(x, xs[0]) then [x] + xs else [xs[0]] + Insert(x, xs[1..])
  }

  /** Array.prototype.sort on strings. */
  function Sort(xs: seq<string>): seq<string> {
    if xs == [] then [] else Insert(xs[0], Sort(xs[1..]))
  }

  lemma {:induction false} InsertPermutes(x: string, xs: seq<string>)
    ensures multiset(Insert(x, xs)) == multiset{x} + multiset(xs)
  {
    if xs != [] && !Le(x, xs[0]) {
      assert xs == [xs[0]] + xs[1..];
      InsertPermutes(x, xs[1..]);
    }
  }

  lemma {:induction false} SortPermutes(xs: seq<string>)
    ensures multiset(Sort(xs)) == multiset(xs)
  {
    if xs != [] {
      assert xs == [xs[0]] + xs[1..];
      SortPermutes(xs[1..]);
      InsertPermutes(xs[0], Sort(xs[1..]));
    }
  }

  lemma InMultiset<T>(xs: seq<T>, x: T)
    ensures x in xs <==> x in multiset(xs)
  {
  }

  lemma {:induction false} InsertSorted(x: string, xs: seq<string>)
    requires Sorted(xs)
    ensures Sorted(Insert(x, xs))
  {
    if xs == [] {
    } else if Le(x, xs[0]) {
      forall j | 0 <= j < |xs| ensures Le(x, xs[j]) {
        if j > 0 { LeTransitive(x, xs[0], xs[j]); }
      }
    } else {
      LeTotal(x, xs[0]);
      InsertSorted(x, xs[1..]);
      InsertPermutes(x, xs[1..]);
      var rest := Insert(x, xs[1..]);
      forall j | 0 <= j < |rest| ensures Le(xs[0], rest[j]) {
        InMultiset(rest, rest[j]);
        InMultiset(xs[1..], rest[j]);
        assert rest[j] == x || rest[j] in xs[1..];
      }
    }
  }

  lemma {:induction false} SortSorted(xs: seq<string>)
    ensures Sorted(Sort(xs))
  {
    if xs != [] {
      SortSorted(xs[1..]);
      InsertSorted(xs[0], Sort(xs[1..]));
    }
  }

  lemma {:induction false} SortedUnique(a: seq<string>, b: seq<string>)
    requires Sorted(a) && Sorted(b) && multiset(a) == multiset(b)
    ensures a == b
    decreases |a|
  {
    assert |a| == |multiset(a)| == |multiset(b)| == |b|;
    if a != [] {
      InMultiset(b, a[0]);
      InMultiset(a, b[0]);
      assert a[0] in multiset(a) && b[0] in multiset(b);
      assert a[0] in b && b[0] in a;
      if a[0] != b[0] {
        LeAntisymmetric(a[0], b[0]);
      }
      assert a == [a[0]] + a[1..] && b == [b[0]] + b[1..];
      assert multiset(a[1..]) == multiset(a) - multiset{a[0]};
      assert multiset(b[1..]) == multiset(b) - multiset{b[0]};
      SortedUnique(a[1..], b[1..]);
    }
  }

  /** Sorting forgets the order and nothing else. */
  lemma SortCanonical(a: seq<string>, b: seq<string>)
    ensures Sort(a) == Sort(b) <==> multiset(a) == multiset(b)
  {
    SortSorted(a);
    SortSorted(b);
    SortPermutes(a);
    SortPermutes(b);
    if multiset(a) == multiset(b) {
      SortedUnique(Sort(a), Sort(b));
    }
  }

  // ---------- Join ----------

  predicate Free(s: string, c: char) {
    c !in s
  }

  function Join(xs: seq<string>): string {
    if xs == [] then "" else if |xs| == 1 then xs[0] else xs[0] + "," + Join(xs[1..])
  }

  lemma FirstSeparator(a: string, x: string, c: char)
    requires Free(a, c)
    ensures var s := a + [c] + x;
            s[|a|] == c && s[..|a|] == a && s[|a| + 1..] == x && forall i :: 0 <= i < |a| ==> s[i] != c
  {
    assert forall i :: 0 <= i < |a| ==> a[i] in a;
  }

  /** The first occurrence of a separator cuts a string in one way only. */
  lemma CutUnique(a: string, b: string, x: string, y: string, c: char)
    requires Free(a, c) && Free(b, c) && a + [c] + x == b + [c] + y
    ensures a == b && x == y
  {
    FirstSeparator(a, x, c);
    FirstSeparator(b, y, c);
    assert |a| == |b|;
  }

  predicate CommaFree(xs: seq<string>) {
    forall i :: 0 <= i < |xs| ==> xs[i] != "" && Free(xs[i], ',')
  }

  /** The number of names shows in the joined string. */
  lemma JoinShape(a: seq<string>)
    requires CommaFree(a)
    ensures (Join(a) == "") == (a == []) && (',' in Join(a)) == (|a| > 1)
  {
    if |a| > 1 {
      assert Join(a)[|a[0]|] == ',';
    }
  }

  lemma {:induction false} JoinInjective(a: seq<string>, b: seq<string>)
    requires CommaFree(a) && CommaFree(b) && Join(a) == Join(b)
    ensures a == b
    decreases |a|
  {
    JoinShape(a);
    JoinShape(b);
    if |a| > 1 {
      CutUnique(a[0], b[0], Join(a[1..]), Join(b[1..]), ',');
      JoinInjective(a[1..], b[1..]);
      assert a == [a[0]] + a[1..] && b == [b[0]] + b[1..];
    }
  }

  // ---------- Bytes and base64 ----------

  /** A continuation byte: the low six bits. */
  function Low(n: nat): byte {
    0x80 + n % 0x40
  }

  /** The UTF-8 bytes of a character (section 3 of RFC 3629). */
  function Utf8(c: char): seq<byte> {
    var n := c as int;
    if n < 0x80 then [n]
    else if n < 0x800 then [0xC0 + n / 0x40, Low(n)]
    else
      var m := n / 0x40;
      if n < 0x1_0000 then [0xE0 + m / 0x40, Low(m), Low(n)]
      else
        var k := m / 0x40;
        [0xF0 + k / 0x40, Low(k), Low(m), Low(n)]
  }

  function Bytes(s: string): seq<byte> {
    if s == "" then [] else Utf8(s[0]) + Bytes(s[1..])
  }

  /** How many bytes the first character takes. */
  function CodeLength(b: byte): nat {
    if b < 0x80 then 1 else if b < 0xE0 then 2 else if b < 0xF0 then 3 else 4
  }

  function Code(bs: seq<byte>): int
    requires bs != [] && |bs| >= CodeLength(bs[0])
  {
    var first: int := bs[0];
    if CodeLength(bs[0]) == 1 then first
    else if CodeLength(bs[0]) == 2 then (first - 0xC0) * 0x40 + bs[1] - 0x80
    else if CodeLength(bs[0]) == 3 then ((first - 0xE0) * 0x40 + bs[1] - 0x80) * 0x40 + bs[2] - 0x80
    else (((first - 0xF0) * 0x40 + bs[1] - 0x80) * 0x40 + bs[2] - 0x80) * 0x40 + bs[3] - 0x80
  }

  lemma Utf8Length(c: char)
    ensures |Utf8(c)| > 0 && CodeLength(Utf8(c)[0]) == |Utf8(c)|
  {
  }

  lemma Utf8Code(c: char)
    ensures |Utf8(c)| > 0 && CodeLength(Utf8(c)[0]) == |Utf8(c)| && Code(Utf8(c)) == c as int
  {
    Utf8Length(c);
  }

  /** The first character of an encoded string and the rest are told apart in one way only. */
  lemma Utf8Head(c: char, rest: seq<byte>)
    ensures var bs := Utf8(c) + rest;
            bs != [] && CodeLength(bs[0]) == |Utf8(c)| <= |bs| && Code(bs) == c as int && bs[|Utf8(c)|..] == rest
  {
    Utf8Code(c);
  }

  lemma {:induction false} BytesInjective(s: string, t: string)
    requires Bytes(s) == Bytes(t)
    ensures s == t
  {
    if s != "" {
      Utf8Head(s[0], Bytes(s[1..]));
    }
    if t != "" {
      Utf8Head(t[0], Bytes(t[1..]));
    }
    if s != "" && t != "" {
      assert s[0] as int == t[0] as int;
      BytesInjective(s[1..], t[1..]);
      assert s == [s[0]] + s[1..] && t == [t[0]] + t[1..];
    }
  }

  type sextet = n: int | 0 <= n < 64

  /** Table 1 of RFC 4648. */
  function Digit(n: sextet): char {
    if n < 26 then ('A' as int + n) as char
    else if n < 52 then ('a' as int + (n - 26)) as char
    else if n < 62 then ('0' as int + (n - 52)) as char
    else if n == 62 then '+' else '/'
  }

  function Value(c: char): sextet {
    if 'A' <= c <= 'Z' then c as int - 'A' as int
    else if 'a' <= c <= 'z' then c as int - 'a' as int + 26
    else if '0' <= c <= '9' then c as int - '0' as int + 52
    else if c == '+' then 62 else 63
  }

  lemma DigitValue(n: sextet)
    ensures Value(Digit(n)) == n && Digit(n) != '='
  {
  }

  function Base64(bs: seq<byte>): string {
    if bs == [] then ""
    else if |bs| == 1 then [Digit(bs[0] / 4), Digit(bs[0] % 4 * 16), '=', '=']
    else if |bs| == 2 then [Digit(bs[0] / 4), Digit(bs[0] % 4 * 16 + bs[1] / 16), Digit(bs[1] % 16 * 4), '=']
    else [Digit(bs[0] / 4), Digit(bs[0] % 4 * 16 + bs[1] / 16), Digit(bs[1] % 16 * 4 + bs[2] / 64), Digit(bs[2] % 64)]
         + Base64(bs[3..])
  }

  function Byte0(s: string): byte
    requires |s| >= 4
  {
    Value(s[0]) * 4 + Value(s[1]) / 16
  }

  function Byte1(s: string): byte
    requires |s| >= 4
  {
    Value(s[1]) % 16 * 16 + Value(s[2]) / 4
  }

  function Byte2(s: string): byte
    requires |s| >= 4
  {
    Value(s[2]) % 4 * 64 + Value(s[3])
  }

  function Unbase64(s: string): seq<byte> {
    if |s| < 4 then []
    else if s[2] == '=' then [Byte0(s)]
    else if s[3] == '=' then [Byte0(s), Byte1(s)]
    else [Byte0(s), Byte1(s), Byte2(s)] + Unbase64(s[4..])
  }

  /** Four digits carry three bytes. */
  lemma QuantumRoundTrip(a: byte, b: byte, c: byte, rest: string)
    ensures Unbase64([Digit(a / 4), Digit(a % 4 * 16 + b / 16), Digit(b % 16 * 4 + c / 64), Digit(c % 64)] + rest)
            == [a, b, c] + Unbase64(rest)
  {
    DigitValue(a / 4);
    DigitValue(a % 4 * 16 + b / 16);
    DigitValue(b % 16 * 4 + c / 64);
    DigitValue(c % 64);
    var s := [Digit(a / 4), Digit(a % 4 * 16 + b / 16), Digit(b % 16 * 4 + c / 64), Digit(c % 64)] + rest;
    assert s[4..] == rest;
    assert Byte0(s) == a && Byte1(s) == b && Byte2(s) == c;
  }

  lemma LastByteRoundTrip(a: byte)
    ensures Unbase64([Digit(a / 4), Digit(a % 4 * 16), '=', '=']) == [a]
  {
    DigitValue(a / 4);
    DigitValue(a % 4 * 16);
  }

  lemma LastTwoRoundTrip(a: byte, b: byte)
    ensures Unbase64([Digit(a / 4), Digit(a % 4 * 16 + b / 16), Digit(b % 16 * 4), '=']) == [a, b]
  {
    DigitValue(a / 4);
    DigitValue(a % 4 * 16 + b / 16);
    DigitValue(b % 16 * 4);
  }

  lemma {:induction false} Base64RoundTrip(bs: seq<byte>)
    ensures Unbase64(Base64(bs)) == bs
  {
    if |bs| == 1 {
      LastByteRoundTrip(bs[0]);
      assert bs == [bs[0]];
    } else if |bs| == 2 {
      LastTwoRoundTrip(bs[0], bs[1]);
      assert bs == [bs[0], bs[1]];
    } else if |bs| > 2 {
      QuantumRoundTrip(bs[0], bs[1], bs[2], Base64(bs[3..]));
      Base64RoundTrip(bs[3..]);
      assert bs == [bs[0], bs[1], bs[2]] + bs[3..];
    }
  }
}
