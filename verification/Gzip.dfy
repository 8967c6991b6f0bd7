/**
 The deterministic gzip writer: a fixed header, stored blocks of at most 65535 bytes, a trailer.
 Decoding follows section 2.3 of RFC 1952 (member) and section 3.2.4 of RFC 1951 (stored blocks).
 CRC-32 is any function `crc` to 32-bit numbers.
 */
module Gzip {

  import opened Wrappers
  import opened Bytes

  const MAX_BLOCK := 65535

  const HEADER: seq<byte> := [0x1f, 0x8b, 8, 0, 0, 0, 0, 0, 0, 0xff]

  type word32 = x: int | 0 <= x < 0x1_0000_0000

  /** Bitwise exclusive or of the low n bits. */
  function Xor(a: nat, b: nat, n: nat): nat {
    if n == 0 then 0 else (if a % 2 != b % 2 then 1 else 0) + 2 * Xor(a / 2, b / 2, n - 1)
  }

  function Pow2(n: nat): nat { if n == 0 then 1 else 2 * Pow2(n - 1) }

  lemma {:induction false} XorOnes(a: nat, n: nat)
    requires a < Pow2(n)
    ensures Xor(a, Pow2(n) - 1, n) == Pow2(n) - 1 - a
  {
    if n > 0 {
      XorOnes(a / 2, n - 1);
      assert (Pow2(n) - 1) / 2 == Pow2(n - 1) - 1;
    }
  }

  lemma Complement16(len: nat)
    requires len <= MAX_BLOCK
    ensures Xor(len, 0xffff, 16) == 0xffff - len
  {
    assert Pow2(16) == 0x1_0000 by {
      assert Pow2(4) == 16 && Pow2(8) == 256 && Pow2(12) == 4096;
    }
    XorOnes(len, 16);
  }

  /** One stored block: the final bit, LEN, NLEN, the bytes. */
  function Block(data: seq<byte>, final: bool): seq<byte>
    requires |data| <= MAX_BLOCK
  {
    [if final then 1 else 0] + LittleEndian(|data|, 2) + LittleEndian(Xor(|data|, 0xffff, 16), 2) + data
  }

  /** The blocks of the data still to be written. */
  function Blocks(data: seq<byte>): seq<byte> {
    if data == [] then []
    else if |data| <= MAX_BLOCK then Block(data, true)
    else Block(data[..MAX_BLOCK], false) + Blocks(data[MAX_BLOCK..])
  }

  function Trailer(crc: seq<byte> -> word32, data: seq<byte>): seq<byte> {
    LittleEndian(crc(data), 4) + LittleEndian(|data| % 0x1_0000_0000, 4)
  }

  function Member(crc: seq<byte> -> word32, data: seq<byte>): seq<byte> {
    HEADER + Blocks(data) + Trailer(crc, data)
  }

  /** `_deterministic_gzip` */
  method DeterministicGzip(crc: seq<byte> -> word32, data: seq<byte>) returns (output: seq<byte>)
    ensures output == Member(crc, data)
  {
    hide Block, Blocks, LittleEndian, Xor, Trailer;
    output := HEADER;
    var offset := 0;
    assert data[0..] == data;
    while offset < |data|
      invariant 0 <= offset <= |data|
      invariant output + Blocks(data[offset..]) == HEADER + Blocks(data)
    {
      var end := if offset + MAX_BLOCK < |data| then offset + MAX_BLOCK else |data|;
      var block := data[offset..end];
      BlocksStep(data, offset, end);
      ghost var before := output;
      output := output + [if offset + |block| == |data| then 1 else 0];
      output := output + (LittleEndian(|block|, 2) + LittleEndian(Xor(|block|, 0xffff, 16), 2));
      output := output + block;
      assert output == before + Block(block, end == |data|) by { BlockParts(block, end == |data|); }
      offset := end;
    }
    NoBlocks(data[offset..]);
    output := output + Trailer(crc, data);
  }

  lemma BlockParts(data: seq<byte>, final: bool)
    requires |data| <= MAX_BLOCK
    ensures Block(data, final) ==
              [if final then 1 else 0] + (LittleEndian(|data|, 2) + LittleEndian(Xor(|data|, 0xffff, 16), 2)) + data
  {
    hide LittleEndian, Xor;
    var a, b, c := [if final then 1 else 0 as byte], LittleEndian(|data|, 2), LittleEndian(Xor(|data|, 0xffff, 16), 2);
    assert a + b + c == a + (b + c);
  }

  lemma NoBlocks(data: seq<byte>)
    requires data == []
    ensures Blocks(data) == []
  {
  }

  lemma BlocksStep(data: seq<byte>, offset: nat, end: nat)
    requires offset < |data| && end == (if offset + MAX_BLOCK < |data| then offset + MAX_BLOCK else |data|)
    ensures Blocks(data[offset..]) == Block(data[offset..end], end == |data|) + Blocks(data[end..])
  {
  }

  // ---- the reader --------------------------------------------------------------------------------

  datatype Inflated = Inflated(data: seq<byte>, rest: seq<byte>)

  /** Stored blocks up to and including the final one; None when the stream is not of that form. */
  function InflateStored(s: seq<byte>): Option<Inflated>
    decreases |s|
  {
    if |s| < 5 || (s[0] as int / 2) % 4 != 0 then None
    else
      var len := FromLittleEndian(s[1..3]);
      var nlen := FromLittleEndian(s[3..5]);
      if nlen != 0xffff - len || |s| < 5 + len then None
      else
        var body, rest := s[5..5 + len], s[5 + len..];
        if s[0] as int % 2 == 1 then Some(Inflated(body, rest))
        else match InflateStored(rest)
          case None => None
          case Some(more) => Some(Inflated(body + more.data, more.rest))
  }

  /** A gzip member without optional fields, holding stored blocks, whose trailer agrees. */
  function Gunzip(crc: seq<byte> -> word32, s: seq<byte>): Option<seq<byte>> {
    if |s| < 10 || s[0] != 0x1f || s[1] != 0x8b || s[2] != 8 || s[3] != 0 then None
    else match InflateStored(s[10..])
      case None => None
      case Some(found) =>
        if |found.rest| != 8 then None
        else if FromLittleEndian(found.rest[..4]) != crc(found.data) then None
        else if FromLittleEndian(found.rest[4..]) != |found.data| % 0x1_0000_0000 then None
        else Some(found.data)
  }

  lemma BlockReads(data: seq<byte>, final: bool, rest: seq<byte>)
    requires |data| <= MAX_BLOCK
    ensures var s := Block(data, final) + rest;
            && |s| >= 5 && s[0] == (if final then 1 else 0)
            && FromLittleEndian(s[1..3]) == |data| && FromLittleEndian(s[3..5]) == 0xffff - |data|
            && s[5..5 + |data|] == data && s[5 + |data|..] == rest
  {
    var s := Block(data, final) + rest;
    WordSizes();
    Complement16(|data|);
    LittleEndianRoundTrip(|data|, 2);
    LittleEndianRoundTrip(0xffff - |data|, 2);
    assert s[1..3] == LittleEndian(|data|, 2);
    assert s[3..5] == LittleEndian(0xffff - |data|, 2);
  }

  lemma BlockInflates(data: seq<byte>, final: bool, rest: seq<byte>)
    requires |data| <= MAX_BLOCK
    ensures InflateStored(Block(data, final) + rest) ==
              if final then Some(Inflated(data, rest))
              else match InflateStored(rest)
                   case None => None
                   case Some(more) => Some(Inflated(data + more.data, more.rest))
  {
    BlockReads(data, final, rest);
    hide Block;
  }

  /** The writer's blocks are read back, and the reader stops exactly where they end. */
  lemma {:induction false} BlocksReadBack(data: seq<byte>, rest: seq<byte>)
    requires data != []
    ensures InflateStored(Blocks(data) + rest) == Some(Inflated(data, rest))
    decreases |data|
  {
    hide Block, InflateStored;
    if |data| <= MAX_BLOCK {
      BlockInflates(data, true, rest);
    } else {
      var head, tail := data[..MAX_BLOCK], data[MAX_BLOCK..];
      BlocksReadBack(tail, rest);
      BlockInflates(head, false, Blocks(tail) + rest);
      assert Blocks(data) + rest == Block(head, false) + (Blocks(tail) + rest);
      assert head + tail == data;
    }
  }

  lemma TrailerReads(crc: seq<byte> -> word32, data: seq<byte>)
    ensures var t := Trailer(crc, data);
            |t| == 8 && FromLittleEndian(t[..4]) == crc(data) && FromLittleEndian(t[4..]) == |data| % 0x1_0000_0000
  {
    var t := Trailer(crc, data);
    WordSizes();
    LittleEndianRoundTrip(crc(data), 4);
    LittleEndianRoundTrip(|data| % 0x1_0000_0000, 4);
    assert t[..4] == LittleEndian(crc(data), 4) && t[4..] == LittleEndian(|data| % 0x1_0000_0000, 4);
  }

  /**
   What is written is read back, for every input but the empty one: a member without a final block is no DEFLATE stream.
   */
  lemma GzipRoundTrip(crc: seq<byte> -> word32, data: seq<byte>)
    ensures Gunzip(crc, Member(crc, data)) == (if data == [] then None else Some(data))
  {
    hide Trailer, Blocks, FromLittleEndian, InflateStored;
    var t := Trailer(crc, data);
    var m := Member(crc, data);
    assert m[10..] == Blocks(data) + t;
    TrailerReads(crc, data);
    if data == [] {
      NoBlocks(data);
      assert m[10..] == t;
      EmptyHasNoBlock(crc, t);
    } else {
      BlocksReadBack(data, t);
    }
  }

  /** Eight bytes of trailer cannot be a final block followed by a trailer. */
  lemma EmptyHasNoBlock(crc: seq<byte> -> word32, t: seq<byte>)
    requires |t| == 8
    ensures InflateStored(t).Some? ==> |InflateStored(t).value.rest| != 8
  {
    InflateConsumes(t);
  }

  lemma {:induction false} InflateConsumes(s: seq<byte>)
    ensures InflateStored(s).Some? ==> |InflateStored(s).value.rest| + |InflateStored(s).value.data| + 5 <= |s|
    decreases |s|
  {
    if InflateStored(s).Some? {
      var len := FromLittleEndian(s[1..3]);
      if s[0] as int % 2 != 1 {
        InflateConsumes(s[5 + len..]);
      }
    }
  }

  /** Two inputs with the same output are equal. */
  lemma GzipInjective(crc: seq<byte> -> word32, a: seq<byte>, b: seq<byte>)
    requires Member(crc, a) == Member(crc, b)
    ensures a == b
  {
    GzipRoundTrip(crc, a);
    GzipRoundTrip(crc, b);
  }

  /** n bytes take n + 5 * ceil(n / 65535) + 18 bytes. */
  lemma {:induction false} BlocksLength(data: seq<byte>)
    ensures |Blocks(data)| == |data| + 5 * ((|data| + MAX_BLOCK - 1) / MAX_BLOCK)
    decreases |data|
  {
    if |data| > MAX_BLOCK {
      BlocksLength(data[MAX_BLOCK..]);
    }
  }

  lemma GzipLength(crc: seq<byte> -> word32, data: seq<byte>)
    ensures |Member(crc, data)| == |data| + 5 * ((|data| + 65534) / 65535) + 18
  {
    BlocksLength(data);
  }
}
