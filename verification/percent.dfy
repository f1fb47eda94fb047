/** Path-segment escaping: UTF-8, then percent-encoding (section 2.1 of RFC 3986) of every
    byte outside the set the standard library leaves alone in a segment. */
module Percent {
  /** A byte, kept as a number. */
  predicate Byte(b: int) {
    0 <= b < 256
  }

  predicate Octets(bs: seq<int>) {
    forall b | b in bs :: Byte(b)
  }

  // ---------- UTF-8 ----------

  function Utf8(n: int): (bs: seq<int>)
    requires 0 <= n < 0x11_0000
    ensures bs != [] && Octets(bs)
  {
    if n < 0x80 then [n]
    else if n < 0x800 then [0xC0 + n / 64, 0x80 + n % 64]
    else if n < 0x1_0000 then [0xE0 + n / 64 / 64, 0x80 + n / 64 % 64, 0x80 + n % 64]
    else [0xF0 + n / 64 / 64 / 64, 0x80 + n / 64 / 64 % 64, 0x80 + n / 64 % 64, 0x80 + n % 64]
  }

  /** How many bytes the character beginning with `b` has. */
  function Length(b: int): nat {
    if b < 0xC0 then 1 else if b < 0xE0 then 2 else if b < 0xF0 then 3 else 4
  }

  function Tail(bs: seq<int>, k: nat): int
    requires k < |bs|
  {
    bs[k] - 0x80
  }

  function Point(bs: seq<int>): int
    requires bs != [] && |bs| == Length(bs[0])
  {
    if |bs| == 1 then bs[0]
    else if |bs| == 2 then (bs[0] - 0xC0) * 64 + Tail(bs, 1)
    else if |bs| == 3 then (bs[0] - 0xE0) * 4096 + Tail(bs, 1) * 64 + Tail(bs, 2)
    else (bs[0] - 0xF0) * 26_2144 + Tail(bs, 1) * 4096 + Tail(bs, 2) * 64 + Tail(bs, 3)
  }

  lemma PointOfUtf8(n: int)
    requires 0 <= n < 0x11_0000
    ensures |Utf8(n)| == Length(Utf8(n)[0]) && Point(Utf8(n)) == n
  {
    var a := n / 64;
    var b := a / 64;
    var c := b / 64;
    assert n == a * 64 + n % 64 && a == b * 64 + a % 64 && b == c * 64 + b % 64;
    var bs := Utf8(n);
    if n < 0x80 {
    } else if n < 0x800 {
      assert bs == [0xC0 + a, 0x80 + n % 64];
    } else if n < 0x1_0000 {
      assert bs == [0xE0 + b, 0x80 + a % 64, 0x80 + n % 64];
    } else {
      assert bs == [0xF0 + c, 0x80 + b % 64, 0x80 + a % 64, 0x80 + n % 64];
    }
  }

  function Encode(s: string): (bs: seq<int>)
    ensures Octets(bs)
  {
    if s == "" then [] else Utf8(s[0] as int) + Encode(s[1..])
  }

  function Decode(bs: seq<int>): seq<int> {
    if bs == [] || |bs| < Length(bs[0]) then []
    else [Point(bs[..Length(bs[0])])] + Decode(bs[Length(bs[0])..])
  }

  function Points(s: string): seq<int> {
    seq(|s|, i requires 0 <= i < |s| => s[i] as int)
  }

  lemma {:induction false} DecodeUndoesEncode(s: string)
    ensures Decode(Encode(s)) == Points(s)
  {
    if s == "" {
    } else {
      var head, rest := Utf8(s[0] as int), Encode(s[1..]);
      PointOfUtf8(s[0] as int);
      assert (head + rest)[..|head|] == head && (head + rest)[|head|..] == rest;
      DecodeUndoesEncode(s[1..]);
      assert Points(s) == [s[0] as int] + Points(s[1..]);
    }
  }

  /** The length in UTF-8. */
  function Size(s: string): nat {
    if s == "" then 0 else |Utf8(s[0] as int)| + Size(s[1..])
  }

  lemma {:induction false} SizeConcat(a: string, b: string)
    ensures Size(a + b) == Size(a) + Size(b)
    decreases |a|
  {
    if a == "" {
      assert a + b == b;
    } else {
      assert (a + b)[1..] == a[1..] + b;
      SizeConcat(a[1..], b);
    }
  }

  lemma {:induction false} SizeIsEncodedLength(s: string)
    ensures Size(s) == |Encode(s)|
  {
    if s == "" {
    } else {
      SizeIsEncodedLength(s[1..]);
    }
  }

  lemma {:induction false} SizeOfAscii(s: string)
    requires forall c | c in s :: c < '\U{0080}'
    ensures Size(s) == |s|
  {
    if s == "" {
    } else {
      assert s[0] in s && forall c | c in s[1..] :: c in s;
      SizeOfAscii(s[1..]);
    }
  }

  // ---------- percent-encoding ----------

  predicate Plain(b: int) {
    || 'a' as int <= b <= 'z' as int || 'A' as int <= b <= 'Z' as int || '0' as int <= b <= '9' as int
    || b in {'-' as int, '_' as int, '.' as int, '~' as int, '$' as int, '&' as int, '+' as int, '=' as int,
       ':' as int, '@' as int}
  }

  function Digit(n: int): char
    requires 0 <= n < 16
  {
    if n < 10 then ('0' as int + n) as char else ('A' as int + n - 10) as char
  }

  function Value(c: char): int {
    if '0' <= c <= '9' then c as int - '0' as int else c as int - 'A' as int + 10
  }

  function EscapeByte(b: int): (s: string)
    requires Byte(b)
    ensures s != ""
  {
    if Plain(b) then [b as char] else ['%', Digit(b / 16), Digit(b % 16)]
  }

  function EscapeBytes(bs: seq<int>): string
    requires Octets(bs)
  {
    if bs == [] then ""
    else
      assert bs[0] in bs;
      EscapeByte(bs[0]) + EscapeBytes(bs[1..])
  }

  function Unescape(s: string): seq<int> {
    if s == "" then []
    else if s[0] == '%' && |s| >= 3 then [Value(s[1]) * 16 + Value(s[2])] + Unescape(s[3..])
    else [s[0] as int] + Unescape(s[1..])
  }

  lemma {:induction false} UnescapeUndoesEscape(bs: seq<int>)
    requires Octets(bs)
    ensures Unescape(EscapeBytes(bs)) == bs
  {
    if bs == [] {
    } else {
      assert bs[0] in bs;
      var head, rest := EscapeByte(bs[0]), EscapeBytes(bs[1..]);
      assert (head + rest)[|head|..] == rest;
      UnescapeUndoesEscape(bs[1..]);
      assert bs == [bs[0]] + bs[1..];
    }
  }

  /** No separator and no brace survives escaping. */
  predicate Quiet(s: string) {
    forall c | c in s :: c !in {'/', '{', '}', '?', '#', ' '}
  }

  lemma {:induction false} EscapedIsQuiet(bs: seq<int>)
    requires Octets(bs)
    ensures Quiet(EscapeBytes(bs))
  {
    if bs == [] {
    } else {
      assert bs[0] in bs;
      EscapedIsQuiet(bs[1..]);
    }
  }

  function PathEscape(s: string): (r: string)
    ensures Quiet(r)
  {
    EscapedIsQuiet(Encode(s));
    EscapeBytes(Encode(s))
  }

  /** Escaping is undone by decoding, so it is injective. */
  lemma PathEscapeIsUndone(s: string)
    ensures Decode(Unescape(PathEscape(s))) == Points(s)
  {
    UnescapeUndoesEscape(Encode(s));
    DecodeUndoesEncode(s);
  }

  lemma PointsInjective(s: string, t: string)
    requires Points(s) == Points(t)
    ensures s == t
  {
    forall i | 0 <= i < |s|
      ensures s[i] == t[i]
    {
      assert Points(s)[i] == Points(t)[i];
    }
  }

  lemma PathEscapeInjective(s: string, t: string)
    requires PathEscape(s) == PathEscape(t)
    ensures s == t
  {
    PathEscapeIsUndone(s);
    PathEscapeIsUndone(t);
    PointsInjective(s, t);
  }

  /** Letters, digits and ten signs stand for themselves, every other byte is '%' and two
      capital hexadecimal digits. */
  lemma EscapedByteIsSpelled(b: int)
    requires 0 <= b < 256
    ensures EscapeByte(b) ==
            if 0x61 <= b <= 0x7A || 0x41 <= b <= 0x5A || 0x30 <= b <= 0x39 || b as char in "-_.~$&+=:@"
            then [b as char]
            else ['%', "0123456789ABCDEF"[b / 16], "0123456789ABCDEF"[b % 16]]
  {
    HexDigit(b / 16);
    HexDigit(b % 16);
  }

  lemma HexDigit(n: int)
    requires 0 <= n < 16
    ensures Digit(n) == "0123456789ABCDEF"[n]
  {
  }

  /** One character of each length. */
  lemma Utf8OfEachLength()
    ensures Utf8(0x41) == [0x41]
    ensures Utf8(0xE9) == [0xC3, 0xA9]
    ensures Utf8(0x20AC) == [0xE2, 0x82, 0xAC]
    ensures Utf8(0x1F600) == [0xF0, 0x9F, 0x98, 0x80]
  {
  }
}
