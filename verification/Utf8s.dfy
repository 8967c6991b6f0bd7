/**
 UTF-8 as in section 3 of RFC 3629, with a decoder that drops what is not a valid sequence, as Python's
 `errors="ignore"` does. A `char` is a Unicode scalar value.
 */
module Utf8s {
  import opened Wrappers
  import opened Bytes

  function Byte(x: int): byte
    requires 0 <= x < 256
  {
    x as byte
  }

  function EncodeChar(c: char): (r: seq<byte>)
    ensures 1 <= |r| <= 4
  {
    var n := c as int;
    if n < 0x80 then [Byte(n)]
    else if n < 0x800 then [Byte(0xC0 + n / 0x40), Byte(0x80 + n % 0x40)]
    else if n < 0x1_0000 then [Byte(0xE0 + n / 0x1000), Byte(0x80 + n / 0x40 % 0x40), Byte(0x80 + n % 0x40)]
    else
      [Byte(0xF0 + n / 0x4_0000), Byte(0x80 + n / 0x1000 % 0x40), Byte(0x80 + n / 0x40 % 0x40), Byte(0x80 + n % 0x40)]
  }

  function Encode(t: string): seq<byte> {
    if t == [] then [] else EncodeChar(t[0]) + Encode(t[1..])
  }

  predicate Continues(b: byte) { 0x80 <= b < 0xC0 }

  predicate IsScalar(n: int) { 0 <= n < 0xD800 || 0xE000 <= n < 0x11_0000 }

  /** Length of the sequence a first byte announces; 0 for a byte that cannot come first. */
  function Announced(b: byte): nat {
    if b < 0x80 then 1 else if b < 0xC2 then 0 else if b < 0xE0 then 2 else if b < 0xF0 then 3 else if b < 0xF5 then 4 else 0
  }

  function Composed(b: seq<byte>, n: nat): int
    requires 1 <= n <= 4 && n <= |b|
  {
    var x := b[0] as int;
    if n == 1 then x
    else if n == 2 then (x - 0xC0) * 0x40 + (b[1] as int - 0x80)
    else if n == 3 then (x - 0xE0) * 0x1000 + (b[1] as int - 0x80) * 0x40 + (b[2] as int - 0x80)
    else (x - 0xF0) * 0x4_0000 + (b[1] as int - 0x80) * 0x1000 + (b[2] as int - 0x80) * 0x40 + (b[3] as int - 0x80)
  }

  /** The character of the valid sequence at the front: all its bytes present, shortest form, a scalar value. */
  function First(b: seq<byte>): Option<(char, nat)> {
    if b == [] || Announced(b[0]) == 0 || |b| < Announced(b[0]) then None
    else
      var n := Announced(b[0]);
      var v := Composed(b, n);
      if (forall i :: 1 <= i < n ==> Continues(b[i])) && IsScalar(v)
         && (n == 3 ==> v >= 0x800) && (n == 4 ==> v >= 0x1_0000)
      then Some((v as char, n)) else None
  }

  function DecodeIgnore(b: seq<byte>): string
    decreases |b|
  {
    if b == [] then []
    else match First(b)
      case Some((c, n)) => if 0 < n <= |b| then [c] + DecodeIgnore(b[n..]) else []
      case None => DecodeIgnore(b[1..])
  }

  lemma CharReads(c: char, rest: seq<byte>)
    ensures First(EncodeChar(c) + rest) == Some((c, |EncodeChar(c)|))
    ensures Announced(EncodeChar(c)[0]) == |EncodeChar(c)|
    ensures forall i :: 1 <= i < |EncodeChar(c)| ==> Continues(EncodeChar(c)[i])
  {
    var n := c as int;
    var e := EncodeChar(c);
    var b := e + rest;
    assert forall i :: 0 <= i < |e| ==> b[i] == e[i];
    assert IsScalar(n);
    Digits(n);
  }

  /** A number is made of its base-64 digits. */
  lemma Digits(n: nat)
    ensures n == n / 0x1000 * 0x1000 + n / 0x40 % 0x40 * 0x40 + n % 0x40
    ensures n == n / 0x4_0000 * 0x4_0000 + n / 0x1000 % 0x40 * 0x1000 + n / 0x40 % 0x40 * 0x40 + n % 0x40
  {
    Quotient(n, 0x40);
    Quotient(n, 0x1000);
    var m := n / 0x40;
    var l := n / 0x1000;
    assert m == m / 0x40 * 0x40 + m % 0x40;
    assert l == l / 0x40 * 0x40 + l % 0x40;
  }

  lemma Quotient(n: nat, d: nat)
    requires d == 0x40 || d == 0x1000
    ensures n / (d * 0x40) == n / d / 0x40
  {
    var q, r := n / d, n % d;
    var k, s := q / 0x40, q % 0x40;
    assert n == k * (d * 0x40) + (s * d + r);
    assert 0 <= s * d + r < d * 0x40;
  }

  lemma DecodesChar(c: char, rest: seq<byte>)
    ensures DecodeIgnore(EncodeChar(c) + rest) == [c] + DecodeIgnore(rest)
  {
    CharReads(c, rest);
    assert (EncodeChar(c) + rest)[|EncodeChar(c)|..] == rest;
    hide First, EncodeChar;
  }

  /** Continuation bytes that lost their first byte are dropped. */
  lemma {:induction false} OrphansVanish(orphans: seq<byte>, rest: seq<byte>)
    requires forall b :: b in orphans ==> Continues(b)
    ensures DecodeIgnore(orphans + rest) == DecodeIgnore(rest)
  {
    if orphans == [] {
      assert orphans + rest == rest;
    } else {
      OrphansVanish(orphans[1..], rest);
      assert (orphans + rest)[1..] == orphans[1..] + rest;
      NotFirst(orphans + rest);
      hide First;
    }
  }

  lemma NotFirst(b: seq<byte>)
    requires b != [] && Continues(b[0])
    ensures First(b).None?
  {
  }

  /** A sequence that lost its last bytes is dropped. */
  lemma StumpVanishes(c: char, n: nat)
    requires n < |EncodeChar(c)|
    ensures DecodeIgnore(EncodeChar(c)[..n]) == []
  {
    CharReads(c, []);
    if n > 0 {
      var s := EncodeChar(c)[..n];
      assert First(s).None?;
      forall b | b in s[1..] ensures Continues(b) {
        var i :| 0 <= i < n - 1 && s[1..][i] == b;
        assert b == EncodeChar(c)[i + 1];
      }
      OrphansVanish(s[1..], []);
      assert s[1..] + [] == s[1..];
    }
  }

  lemma {:induction false} EncodeConcat(s: string, t: string)
    ensures Encode(s + t) == Encode(s) + Encode(t)
  {
    hide EncodeChar;
    if s == [] {
      assert s + t == t;
    } else {
      EncodeConcat(s[1..], t);
      assert (s + t)[1..] == s[1..] + t;
    }
  }

  /** Decoding undoes encoding. */
  lemma {:induction false} RoundTrip(t: string)
    ensures DecodeIgnore(Encode(t)) == t
  {
    hide EncodeChar, First, DecodeIgnore;
    if t == [] {
      DecodesNothing();
    } else {
      RoundTrip(t[1..]);
      DecodesChar(t[0], Encode(t[1..]));
    }
  }

  lemma DecodesNothing()
    ensures DecodeIgnore([]) == []
  {
  }

  lemma EncodeInjective(s: string, t: string)
    requires Encode(s) == Encode(t)
    ensures s == t
  {
    RoundTrip(s);
    RoundTrip(t);
  }

  /** The longest prefix of whole characters within n bytes. */
  predicate LongestPrefix(t: string, a: nat, n: nat) {
    && a <= |t| && |Encode(t[..a])| <= n
    && (a < |t| ==> n < |Encode(t[..a + 1])|)
  }

  predicate LongestSuffix(t: string, b: nat, n: nat) {
    && b <= |t| && |Encode(t[|t| - b..])| <= n
    && (b < |t| ==> n < |Encode(t[|t| - b - 1..])|)
  }

  /** Decoding the first n bytes of a text gives its longest fitting prefix. */
  lemma {:induction false} PrefixDecodes(t: string, n: nat) returns (a: nat)
    requires n <= |Encode(t)|
    ensures LongestPrefix(t, a, n) && DecodeIgnore(Encode(t)[..n]) == t[..a]
  {
    hide EncodeChar, First, DecodeIgnore;
    if t == [] {
      DecodesNothing();
      a := 0;
      assert Encode(t)[..n] == [];
    } else {
      var e := EncodeChar(t[0]);
      assert t[..1] == [t[0]] && Encode(t[..1]) == e + Encode([]);
      if n < |e| {
        a := 0;
        assert Encode(t)[..n] == e[..n];
        StumpVanishes(t[0], n);
      } else {
        var k := PrefixDecodes(t[1..], n - |e|);
        a := k + 1;
        assert Encode(t)[..n] == e + Encode(t[1..])[..n - |e|];
        DecodesChar(t[0], Encode(t[1..])[..n - |e|]);
        assert t[..a] == [t[0]] + t[1..][..k] && t[..a][1..] == t[1..][..k];
        if a < |t| {
          assert t[..a + 1][1..] == t[1..][..k + 1] && t[..a + 1][0] == t[0];
        }
      }
    }
  }

  lemma {:induction false} SuffixOfTail(t: string, n: nat, b: nat)
    requires t != [] && n <= |Encode(t[1..])| && LongestSuffix(t[1..], b, n)
    ensures LongestSuffix(t, b, n) && t[|t| - b..] == t[1..][|t| - 1 - b..]
    ensures Encode(t)[|Encode(t)| - n..] == Encode(t[1..])[|Encode(t[1..])| - n..]
  {
    hide EncodeChar;
    var rest := t[1..];
    assert t[|t| - b..] == rest[|rest| - b..];
    if b < |rest| {
      assert t[|t| - b - 1..] == rest[|rest| - b - 1..];
    } else {
      assert t[|t| - b - 1..] == t && rest[|rest| - b..] == rest;
    }
  }

  /** The last bytes of a text that reach into its first character, but do not contain it. */
  lemma CutFirst(t: string, n: nat)
    requires t != [] && |Encode(t[1..])| < n < |Encode(t)|
    ensures LongestSuffix(t, |t| - 1, n)
    ensures DecodeIgnore(Encode(t)[|Encode(t)| - n..]) == t[1..]
  {
    hide EncodeChar, First, DecodeIgnore;
    var e, rest := EncodeChar(t[0]), t[1..];
    var k := |e| - (n - |Encode(rest)|);
    CharReads(t[0], []);
    assert Encode(t)[|Encode(t)| - n..] == e[k..] + Encode(rest);
    forall x | x in e[k..] ensures Continues(x) {
      var i :| k <= i < |e| && e[i] == x;
    }
    OrphansVanish(e[k..], Encode(rest));
    RoundTrip(rest);
    assert t[|t| - (|t| - 1)..] == rest && t[|t| - (|t| - 1) - 1..] == t;
  }

  /** Decoding the last n bytes of a text gives its longest fitting suffix. */
  lemma {:induction false} SuffixDecodes(t: string, n: nat) returns (b: nat)
    requires n <= |Encode(t)|
    ensures LongestSuffix(t, b, n) && DecodeIgnore(Encode(t)[|Encode(t)| - n..]) == t[|t| - b..]
  {
    hide EncodeChar, First, DecodeIgnore;
    if n == |Encode(t)| {
      b := |t|;
      RoundTrip(t);
      assert t[|t| - b..] == t && Encode(t)[|Encode(t)| - n..] == Encode(t);
    } else if n <= |Encode(t[1..])| {
      b := SuffixDecodes(t[1..], n);
      SuffixOfTail(t, n, b);
    } else {
      b := |t| - 1;
      CutFirst(t, n);
    }
  }
}
