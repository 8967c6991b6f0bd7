/**
 Bounding an error text to a number of bytes by cutting out its middle, without cutting a character.
 */
module Truncations {
  import opened Utf8s
  import opened Bytes

  const MARKER := "\n...[truncated; middle omitted]...\n"

  /** The byte-limited end of `safe_error_message`. */
  function SafeErrorMessage(value: string, maxBytes: nat): (string, bool) {
    var encoded := Encode(value);
    if |encoded| <= maxBytes then (value, false)
    else if maxBytes <= |MARKER| then (MARKER[..maxBytes], true)
    else
      var available := maxBytes - |MARKER|;
      var headSize := available / 2;
      var tailSize := available - headSize;
      MarkerIsAscii(|MARKER|);
      (DecodeIgnore(encoded[..headSize]) + MARKER + DecodeIgnore(encoded[|encoded| - tailSize..]), true)
  }

  lemma {:induction false} MarkerIsAscii(n: nat)
    requires n <= |MARKER|
    ensures |Encode(MARKER[..n])| == n && |MARKER| == 35
  {
    if n > 0 {
      MarkerIsAscii(n - 1);
      assert MARKER[..n] == MARKER[..n - 1] + [MARKER[n - 1]];
      EncodeConcat(MARKER[..n - 1], [MARKER[n - 1]]);
      MarkerChar(n - 1);
      OneByte(MARKER[n - 1]);
    }
  }

  lemma MarkerChar(i: nat)
    requires i < |MARKER|
    ensures MARKER[i] as int < 0x80
  {
  }

  lemma OneByte(c: char)
    requires c as int < 0x80
    ensures |Encode([c])| == 1
  {
    assert [c][1..] == [];
  }

  /** A text that fits is kept; any result fits; the flag says which. */
  lemma ResultFits(value: string, maxBytes: nat)
    ensures var (r, cut) := SafeErrorMessage(value, maxBytes);
            && |Encode(r)| <= maxBytes
            && (cut <==> maxBytes < |Encode(value)|)
            && (!cut ==> r == value)
  {
    var encoded := Encode(value);
    if maxBytes < |encoded| && maxBytes <= |MARKER| {
      MarkerIsAscii(maxBytes);
    } else if maxBytes < |encoded| {
      var a, b := CutKeepsMost(value, maxBytes);
      MarkerIsAscii(|MARKER|);
      assert MARKER[..|MARKER|] == MARKER;
      EncodeConcat(value[..a], MARKER);
      EncodeConcat(value[..a] + MARKER, value[|value| - b..]);
    }
  }

  /**
   A cut text keeps the longest prefix and the longest suffix of whole characters that fit beside the
   marker, half of the room each, and the two do not overlap.
   */
  lemma CutKeepsMost(value: string, maxBytes: nat) returns (a: nat, b: nat)
    requires |MARKER| < maxBytes < |Encode(value)|
    ensures a + b <= |value|
    ensures SafeErrorMessage(value, maxBytes).0 == value[..a] + MARKER + value[|value| - b..]
    ensures LongestPrefix(value, a, (maxBytes - |MARKER|) / 2)
    ensures LongestSuffix(value, b, (maxBytes - |MARKER| + 1) / 2)
  {
    hide Encode, DecodeIgnore, LongestPrefix, LongestSuffix, MARKER;
    var available := maxBytes - |MARKER|;
    a, b := HeadAndTail(value, available / 2, available - available / 2);
  }

  lemma HeadAndTail(value: string, headSize: nat, tailSize: nat) returns (a: nat, b: nat)
    requires headSize + tailSize < |Encode(value)|
    ensures a + b <= |value|
    ensures LongestPrefix(value, a, headSize) && DecodeIgnore(Encode(value)[..headSize]) == value[..a]
    ensures LongestSuffix(value, b, tailSize)
    ensures DecodeIgnore(Encode(value)[|Encode(value)| - tailSize..]) == value[|value| - b..]
  {
    hide Encode, DecodeIgnore;
    a := PrefixDecodes(value, headSize);
    b := SuffixDecodes(value, tailSize);
    PartsApart(value, a, b);
  }

  /** A prefix and a suffix that together have fewer bytes than the text do not overlap. */
  lemma PartsApart(value: string, a: nat, b: nat)
    requires a <= |value| && b <= |value|
    requires |Encode(value[..a])| + |Encode(value[|value| - b..])| < |Encode(value)|
    ensures a + b <= |value|
  {
    if |value| < a + b {
      var c := |value| - b;
      assert value[..c] + value[c..] == value;
      EncodeConcat(value[..c], value[c..]);
      assert value[..a] == value[..c] + value[c..a];
      EncodeConcat(value[..c], value[c..a]);
    }
  }

  /** When not even the marker fits, its beginning is all that is left. */
  lemma OnlyMarker(value: string, maxBytes: nat)
    requires maxBytes < |Encode(value)| && maxBytes <= |MARKER|
    ensures SafeErrorMessage(value, maxBytes) == (MARKER[..maxBytes], true)
    ensures |Encode(SafeErrorMessage(value, maxBytes).0)| == maxBytes
  {
    MarkerIsAscii(maxBytes);
  }
}
