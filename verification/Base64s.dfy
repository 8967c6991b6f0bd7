/**
 The acceptance rule for Base64 provenance hashes: exactly the canonical spellings of a byte string of
 the required size are accepted, in either alphabet (sections 4 and 5 of RFC 4648), padded or not, and
 with zero trailing bits (section 3.5).
 */
module Base64s {
  import opened Results
  import opened Wrappers
  import opened Bytes

  type sextet = x: int | 0 <= x < 64

  datatype Fault = Malformed | MixedAlphabets | InvalidPadding | Noncanonical

  /** The character of a value in the standard or the URL-safe alphabet. */
  function Char(v: sextet, urlsafe: bool): char {
    if v < 26 then 'A' + v as char
    else if v < 52 then 'a' + (v - 26) as char
    else if v < 62 then '0' + (v - 52) as char
    else if v == 62 then (if urlsafe then '-' else '+')
    else (if urlsafe then '_' else '/')
  }

  /** The value of a character of either alphabet. */
  function Value(c: char): Option<sextet> {
    if 'A' <= c <= 'Z' then Some((c - 'A') as int)
    else if 'a' <= c <= 'z' then Some((c - 'a') as int + 26)
    else if '0' <= c <= '9' then Some((c - '0') as int + 52)
    else if c == '+' || c == '-' then Some(62)
    else if c == '/' || c == '_' then Some(63)
    else None
  }

  /** The characters the rule's pattern admits. */
  predicate Admitted(c: char) { Value(c).Some? || c == '=' }

  predicate ShowsUrl(s: string) { '-' in s || '_' in s }

  predicate ShowsStandard(s: string) { '+' in s || '/' in s }

  /** The values that the two alphabets spell differently occur. */
  predicate ShowsAlphabet(q: seq<sextet>) { 62 in q || 63 in q }

  /** `rstrip("=")` */
  function StripPadding(s: string): (r: string)
    ensures r <= s && (r == [] || r[|r| - 1] != '=')
    ensures forall i :: |r| <= i < |s| ==> s[i] == '='
  {
    if s != [] && s[|s| - 1] == '=' then StripPadding(s[..|s| - 1]) else s
  }

  function Padding(n: nat): string { if n == 0 then "" else "=" + Padding(n - 1) }

  /** Padding characters that complete n characters to a multiple of four. */
  function Missing(n: nat): nat { (4 - n % 4) % 4 }

  function Sextets(b: seq<byte>): seq<sextet>
    ensures |Sextets(b)| == (4 * |b| + 2) / 3
  {
    if b == [] then []
    else if |b| == 1 then [b[0] as int / 4, b[0] as int % 4 * 16]
    else if |b| == 2 then [b[0] as int / 4, b[0] as int % 4 * 16 + b[1] as int / 16, b[1] as int % 16 * 4]
    else
      [b[0] as int / 4, b[0] as int % 4 * 16 + b[1] as int / 16, b[1] as int % 16 * 4 + b[2] as int / 64,
       b[2] as int % 64]
      + Sextets(b[3..])
  }

  function Byte(x: int): byte
    requires 0 <= x < 256
  {
    x as byte
  }

  /** Four values make three bytes; two or three at the end make one or two, and their low bits are dropped. */
  function FromSextets(q: seq<sextet>): seq<byte>
    requires |q| % 4 != 1
  {
    if q == [] then []
    else
      var a, b: int := q[0], q[1];
      if |q| == 2 then [Byte(a * 4 + b / 16)]
      else
        var c: int := q[2];
        if |q| == 3 then [Byte(a * 4 + b / 16), Byte(b % 16 * 16 + c / 4)]
        else
          var d: int := q[3];
          [Byte(a * 4 + b / 16), Byte(b % 16 * 16 + c / 4), Byte(c % 4 * 64 + d)] + FromSextets(q[4..])
  }

  lemma {:induction false} SextetsRoundTrip(b: seq<byte>)
    ensures FromSextets(Sextets(b)) == b
    decreases |b|
  {
    if |b| >= 3 {
      SextetsRoundTrip(b[3..]);
      assert Sextets(b)[4..] == Sextets(b[3..]);
      assert b == [b[0], b[1], b[2]] + b[3..];
    }
  }

  function Text(q: seq<sextet>, urlsafe: bool): (r: string)
    ensures |r| == |q| && forall i :: 0 <= i < |q| ==> r[i] == Char(q[i], urlsafe)
  {
    seq(|q|, i requires 0 <= i < |q| => Char(q[i], urlsafe))
  }

  /** `b64encode` or `urlsafe_b64encode` without and with padding. */
  function Unpadded(b: seq<byte>, urlsafe: bool): string { Text(Sextets(b), urlsafe) }

  function Encode(b: seq<byte>, urlsafe: bool): string {
    Unpadded(b, urlsafe) + Padding(Missing(|Unpadded(b, urlsafe)|))
  }

  /** The values of a string; None when a character belongs to no alphabet. */
  function Values(s: string): Option<seq<sextet>> {
    if s == [] then Some([])
    else match Value(s[0])
      case None => None
      case Some(v) => match Values(s[1..])
        case None => None
        case Some(vs) => Some([v] + vs)
  }

  /** `b64decode` with both spellings of 62 and 63 admitted and strict validation, on the unpadded text. */
  function B64Decode(unpadded: string): Option<seq<byte>>
    requires |unpadded| % 4 != 1
  {
    match Values(unpadded)
    case None => None
    case Some(q) =>
      ValuesLength(unpadded);
      Some(FromSextets(q))
  }

  lemma {:induction false} ValuesLength(s: string)
    ensures Values(s).Some? ==> |Values(s).value| == |s|
  {
    if s != [] {
      ValuesLength(s[1..]);
    }
  }

  /** `_decode_provenance_hash` */
  function DecodeProvenanceHash(value: string, expectedSize: nat): Result<seq<byte>, Fault> {
    if value == [] || exists c :: c in value && !Admitted(c) then Failure(Malformed)
    else
      var urlsafe := ShowsUrl(value);
      var standard := ShowsStandard(value);
      if urlsafe && standard then Failure(MixedAlphabets)
      else
        var unpadded := StripPadding(value);
        var padding := |value| - |unpadded|;
        if |unpadded| % 4 == 1 || (padding != 0 && padding != Missing(|unpadded|)) || (padding != 0 && |value| % 4 != 0)
        then Failure(InvalidPadding)
        else match B64Decode(unpadded)
          case None => Failure(Malformed)
          case Some(decoded) =>
            var canonical := Encode(decoded, urlsafe);
            if |decoded| != expectedSize || (value != canonical && value != StripPadding(canonical))
            then Failure(Noncanonical)
            else Success(decoded)
  }

  /** The canonical spellings of a byte string: two alphabets, padded and unpadded. */
  function Spellings(b: seq<byte>): set<string> {
    {Encode(b, false), Encode(b, true), Unpadded(b, false), Unpadded(b, true)}
  }

  lemma CharValue(v: sextet, urlsafe: bool)
    ensures Value(Char(v, urlsafe)) == Some(v) && Char(v, urlsafe) != '='
    ensures Char(v, urlsafe) in {'-', '_'} <==> urlsafe && v >= 62
    ensures Char(v, urlsafe) in {'+', '/'} <==> !urlsafe && v >= 62
    ensures v < 62 ==> Char(v, true) == Char(v, false)
  {
  }

  lemma {:induction false} TextValues(q: seq<sextet>, urlsafe: bool)
    ensures Values(Text(q, urlsafe)) == Some(q)
  {
    if q != [] {
      CharValue(q[0], urlsafe);
      TextValues(q[1..], urlsafe);
      assert Text(q, urlsafe)[1..] == Text(q[1..], urlsafe);
      assert q == [q[0]] + q[1..];
    }
  }

  lemma {:induction false} PaddingShape(n: nat)
    ensures |Padding(n)| == n && forall i :: 0 <= i < n ==> Padding(n)[i] == '='
  {
    if n > 0 {
      PaddingShape(n - 1);
    }
  }

  lemma {:induction false} StripsPadding(s: string, n: nat)
    requires s == [] || s[|s| - 1] != '='
    ensures StripPadding(s + Padding(n)) == s
  {
    PaddingShape(n);
    var full := s + Padding(n);
    assert s != [] ==> full[|s| - 1] == s[|s| - 1];
    assert forall i :: |s| <= i < |full| ==> full[i] == '=';
  }

  lemma EncodingStrips(b: seq<byte>, urlsafe: bool)
    ensures StripPadding(Encode(b, urlsafe)) == Unpadded(b, urlsafe) == StripPadding(Unpadded(b, urlsafe))
  {
    var u := Unpadded(b, urlsafe);
    if u != [] {
      CharValue(Sextets(b)[|u| - 1], urlsafe);
    }
    StripsPadding(u, Missing(|u|));
    StripsPadding(u, 0);
    assert u + Padding(0) == u;
  }

  /** Which alphabet a text shows. */
  lemma TextAlphabet(q: seq<sextet>, urlsafe: bool)
    ensures forall c :: c in Text(q, urlsafe) ==> Value(c).Some?
    ensures ShowsUrl(Text(q, urlsafe)) <==> urlsafe && ShowsAlphabet(q)
    ensures ShowsStandard(Text(q, urlsafe)) <==> !urlsafe && ShowsAlphabet(q)
  {
  }

  /** The same for a spelling, padded or not. */
  lemma SpellingAlphabet(b: seq<byte>, urlsafe: bool, v: string)
    requires v == Encode(b, urlsafe) || v == Unpadded(b, urlsafe)
    ensures forall c :: c in v ==> Admitted(c)
    ensures ShowsUrl(v) <==> urlsafe && ShowsAlphabet(Sextets(b))
    ensures ShowsStandard(v) <==> !urlsafe && ShowsAlphabet(Sextets(b))
  {
    var u := Unpadded(b, urlsafe);
    TextAlphabet(Sextets(b), urlsafe);
    PaddingShape(Missing(|u|));
    forall c ensures c in Padding(Missing(|u|)) ==> c == '=' {
    }
    assert v == u || v == u + Padding(Missing(|u|));
    assert forall c :: c in v ==> c in u || c in Padding(Missing(|u|));
    assert forall c :: c in u ==> c in v;
  }

  /** Without the values 62 and 63 the two alphabets spell alike. */
  lemma AlphabetsAgree(b: seq<byte>)
    requires !ShowsAlphabet(Sextets(b))
    ensures Unpadded(b, true) == Unpadded(b, false) && Encode(b, true) == Encode(b, false)
  {
  }

  lemma SextetCount(n: nat)
    ensures (4 * n + 2) / 3 == 4 * (n / 3) + if n % 3 == 0 then 0 else n % 3 + 1
  {
    assert n == 3 * (n / 3) + n % 3;
  }

  lemma LengthsFit(b: seq<byte>)
    ensures |Sextets(b)| % 4 != 1 && (|Sextets(b)| + Missing(|Sextets(b)|)) % 4 == 0
    ensures b != [] ==> |Sextets(b)| > 0
  {
    hide Sextets;
    SextetCount(|b|);
  }

  lemma SpellingValue(b: seq<byte>, urlsafe: bool)
    ensures |Unpadded(b, urlsafe)| % 4 != 1 && B64Decode(Unpadded(b, urlsafe)) == Some(b)
  {
    hide Sextets, Text, Values, FromSextets;
    LengthsFit(b);
    TextValues(Sextets(b), urlsafe);
    SextetsRoundTrip(b);
  }

  lemma SpellingShape(b: seq<byte>, urlsafe: bool, v: string)
    requires b != [] && (v == Encode(b, urlsafe) || v == Unpadded(b, urlsafe))
    ensures var u := Unpadded(b, urlsafe);
            && v != [] && StripPadding(v) == u
            && (|v| == |u| || (|v| - |u| == Missing(|u|) && |v| % 4 == 0))
    ensures Encode(b, ShowsUrl(v)) == Encode(b, urlsafe) && Unpadded(b, ShowsUrl(v)) == Unpadded(b, urlsafe)
    ensures !(ShowsUrl(v) && ShowsStandard(v)) && forall c :: c in v ==> Admitted(c)
  {
    hide Sextets, Text, StripPadding, ShowsUrl, ShowsStandard, ShowsAlphabet;
    SpellingAlphabet(b, urlsafe, v);
    EncodingStrips(b, urlsafe);
    PaddingShape(Missing(|Unpadded(b, urlsafe)|));
    LengthsFit(b);
    if ShowsUrl(v) != urlsafe {
      AlphabetsAgree(b);
    }
  }

  lemma SpellingDecodes(b: seq<byte>, urlsafe: bool, v: string)
    requires b != [] && (v == Encode(b, urlsafe) || v == Unpadded(b, urlsafe))
    ensures DecodeProvenanceHash(v, |b|) == Success(b)
  {
    hide Unpadded, Encode, B64Decode, StripPadding, ShowsUrl, ShowsStandard, Missing, Admitted;
    SpellingShape(b, urlsafe, v);
    SpellingValue(b, urlsafe);
    EncodingStrips(b, urlsafe);
  }

  /** Exactly the canonical spellings of a byte string of the required size are accepted, and decode to it. */
  lemma AcceptsExactlyTheSpellings(value: string, n: nat, b: seq<byte>)
    ensures DecodeProvenanceHash(value, n) == Success(b) <==> |b| == n && b != [] && value in Spellings(b)
  {
    hide Sextets, FromSextets, Text, Padding, Values, StripPadding, Char, Value, B64Decode, Unpadded, Encode;
    if DecodeProvenanceHash(value, n) == Success(b) {
      EncodingStrips(b, ShowsUrl(value));
      EmptySpelling();
    }
    if |b| == n && b != [] && value in Spellings(b) {
      var urlsafe := value == Encode(b, true) || value == Unpadded(b, true);
      SpellingDecodes(b, urlsafe, value);
    }
  }

  lemma EmptySpelling()
    ensures Encode([], true) == "" == Encode([], false) && Unpadded([], true) == "" == Unpadded([], false)
  {
  }

  /** The alphabets give different spellings exactly when 62 or 63 occurs. */
  lemma AlphabetsDiffer(b: seq<byte>)
    ensures Unpadded(b, true) != Unpadded(b, false) <==> ShowsAlphabet(Sextets(b))
  {
  }

  /** Padding makes a difference exactly when the size is no multiple of three. */
  lemma PaddingDiffers(b: seq<byte>, urlsafe: bool)
    ensures Encode(b, urlsafe) != Unpadded(b, urlsafe) <==> |b| % 3 != 0
  {
  }
}
