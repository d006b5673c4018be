/**
 * Standard base64 with padding (section 4 of RFC 4648), as the wire form uses it:
 * the decoder skips carriage returns and line feeds and ignores the unused low bits
 * of the last group.
 */
module Base64 {
  import opened Basics

  const PAD := 61 // '='

  function EncodeSextet(v: int): (c: byte)
    requires 0 <= v < 64
  {
    if v < 26 then 65 + v            // 'A'..'Z'
    else if v < 52 then 97 + v - 26  // 'a'..'z'
    else if v < 62 then 48 + v - 52  // '0'..'9'
    else if v == 62 then 43          // '+'
    else 47                          // '/'
  }

  function DecodeSextet(c: int): (v: Option<int>)
    ensures v.Some? ==> 0 <= v.value < 64
  {
    if 65 <= c <= 90 then Some(c - 65)
    else if 97 <= c <= 122 then Some(c - 97 + 26)
    else if 48 <= c <= 57 then Some(c - 48 + 52)
    else if c == 43 then Some(62)
    else if c == 47 then Some(63)
    else None
  }

  function Encode(d: seq<byte>): seq<byte> {
    if |d| == 0 then []
    else if |d| == 1 then
      [EncodeSextet(d[0] / 4), EncodeSextet(d[0] % 4 * 16), PAD, PAD]
    else if |d| == 2 then
      [EncodeSextet(d[0] / 4), EncodeSextet(d[0] % 4 * 16 + d[1] / 16), EncodeSextet(d[1] % 16 * 4), PAD]
    else
      [EncodeSextet(d[0] / 4), EncodeSextet(d[0] % 4 * 16 + d[1] / 16),
       EncodeSextet(d[1] % 16 * 4 + d[2] / 64), EncodeSextet(d[2] % 64)] + Encode(d[3..])
  }

  predicate IsNewline(c: int) {
    c == 10 || c == 13
  }

  function StripNewlines(s: seq<int>): seq<int> {
    if s == [] then []
    else if IsNewline(s[0]) then StripNewlines(s[1..])
    else [s[0]] + StripNewlines(s[1..])
  }

  /** Decodes groups of four; a padded group must be the last. */
  function DecodeGroups(s: seq<int>): Option<seq<byte>> {
    if s == [] then Some([])
    else if |s| < 4 then None
    else match (DecodeSextet(s[0]), DecodeSextet(s[1]))
      case (Some(a), Some(b)) =>
        if s[2] == PAD then
          if s[3] == PAD && |s| == 4 then Some([a * 4 + b / 16]) else None
        else (match DecodeSextet(s[2])
          case None => None
          case Some(c) =>
            if s[3] == PAD then
              if |s| == 4 then Some([a * 4 + b / 16, b % 16 * 16 + c / 4]) else None
            else match (DecodeSextet(s[3]), DecodeGroups(s[4..]))
              case (Some(e), Some(rest)) =>
                Some([a * 4 + b / 16, b % 16 * 16 + c / 4, c % 4 * 64 + e] + rest)
              case _ => None)
      case _ => None
  }

  function Decode(s: seq<int>): Option<seq<byte>> {
    DecodeGroups(StripNewlines(s))
  }

  lemma SextetRoundTrip(v: int)
    requires 0 <= v < 64
    ensures DecodeSextet(EncodeSextet(v)) == Some(v)
    ensures EncodeSextet(v) != PAD && EncodeSextet(v) >= 43
  {}

  /** Bytes survive being cut into six-bit digits and reassembled. */
  lemma DigitsOfBytes(x: byte, y: byte, z: byte)
    ensures x / 4 * 4 + (x % 4 * 16 + y / 16) / 16 == x
    ensures (x % 4 * 16 + y / 16) % 16 * 16 + (y % 16 * 4 + z / 64) / 4 == y
    ensures (y % 16 * 4 + z / 64) % 4 * 64 + z % 64 == z
  {}

  predicate Sextet(v: int) {
    0 <= v < 64
  }

  /** A full group of four digits decodes to its three bytes. */
  lemma FullGroup(s: seq<int>, a: int, b: int, c: int, e: int, rest: seq<byte>)
    requires Sextet(a) && Sextet(b) && Sextet(c) && Sextet(e) && |s| >= 4 && DecodeGroups(s[4..]) == Some(rest)
    requires s[..4] == [EncodeSextet(a), EncodeSextet(b), EncodeSextet(c), EncodeSextet(e)]
    ensures DecodeGroups(s) == Some([a * 4 + b / 16, b % 16 * 16 + c / 4, c % 4 * 64 + e] + rest)
  {
    SextetRoundTrip(a);
    SextetRoundTrip(b);
    SextetRoundTrip(c);
    SextetRoundTrip(e);
    assert s[..4][0] == s[0] && s[..4][1] == s[1] && s[..4][2] == s[2] && s[..4][3] == s[3];
  }

  lemma TwoByteGroup(a: int, b: int, c: int)
    requires Sextet(a) && Sextet(b) && Sextet(c)
    ensures DecodeGroups([EncodeSextet(a), EncodeSextet(b), EncodeSextet(c), PAD])
            == Some([a * 4 + b / 16, b % 16 * 16 + c / 4])
  {
    SextetRoundTrip(a);
    SextetRoundTrip(b);
    SextetRoundTrip(c);
  }

  lemma OneByteGroup(a: int, b: int)
    requires Sextet(a) && Sextet(b)
    ensures DecodeGroups([EncodeSextet(a), EncodeSextet(b), PAD, PAD]) == Some([a * 4 + b / 16])
  {
    SextetRoundTrip(a);
    SextetRoundTrip(b);
  }

  /** The digits written for the first three bytes. */
  lemma FirstGroup(d: seq<byte>) returns (a: int, b: int, c: int, e: int)
    requires |d| > 2
    ensures Sextet(a) && Sextet(b) && Sextet(c) && Sextet(e) && |Encode(d)| >= 4 && Encode(d)[4..] == Encode(d[3..])
    ensures Encode(d)[..4] == [EncodeSextet(a), EncodeSextet(b), EncodeSextet(c), EncodeSextet(e)]
    ensures [d[0], d[1], d[2]] == [a * 4 + b / 16, b % 16 * 16 + c / 4, c % 4 * 64 + e]
  {
    DigitsOfBytes(d[0], d[1], d[2]);
    a, b, c, e := d[0] / 4, d[0] % 4 * 16 + d[1] / 16, d[1] % 16 * 4 + d[2] / 64, d[2] % 64;
  }

  lemma LastTwo(d: seq<byte>) returns (a: int, b: int, c: int)
    requires |d| == 2
    ensures Sextet(a) && Sextet(b) && Sextet(c)
    ensures Encode(d) == [EncodeSextet(a), EncodeSextet(b), EncodeSextet(c), PAD]
    ensures d == [a * 4 + b / 16, b % 16 * 16 + c / 4]
  {
    DigitsOfBytes(d[0], d[1], 0);
    a, b, c := d[0] / 4, d[0] % 4 * 16 + d[1] / 16, d[1] % 16 * 4;
  }

  lemma LastOne(d: seq<byte>) returns (a: int, b: int)
    requires |d| == 1
    ensures Sextet(a) && Sextet(b) && Encode(d) == [EncodeSextet(a), EncodeSextet(b), PAD, PAD] && d == [a * 4 + b / 16]
  {
    DigitsOfBytes(d[0], 0, 0);
    a, b := d[0] / 4, d[0] % 4 * 16;
  }

  lemma {:induction false} GroupsRoundTrip(d: seq<byte>)
    ensures DecodeGroups(Encode(d)) == Some(d)
  {
    if |d| > 2 {
      GroupsRoundTrip(d[3..]);
      var a, b, c, e := FirstGroup(d);
      FullGroup(Encode(d), a, b, c, e, d[3..]);
      assert d == [d[0], d[1], d[2]] + d[3..];
    } else if |d| == 2 {
      var a, b, c := LastTwo(d);
      TwoByteGroup(a, b, c);
    } else if |d| == 1 {
      var a, b := LastOne(d);
      OneByteGroup(a, b);
    }
  }

  /** Every encoded byte is printable: no line break and no record separator. */
  lemma {:induction false} EncodePrintable(d: seq<byte>)
    ensures forall i :: 0 <= i < |Encode(d)| ==> Encode(d)[i] >= 43
  {
    if |d| > 2 {
      EncodePrintable(d[3..]);
    }
  }

  lemma {:induction false} StripKeeps(s: seq<int>)
    requires 10 !in s && 13 !in s
    ensures StripNewlines(s) == s
  {
    if s != [] {
      StripKeeps(s[1..]);
    }
  }

  /** The alphabet of table 1 of RFC 4648. */
  const ALPHABET: string := Range('A', 26) + Range('a', 26) + Range('0', 10) + "+/"

  /** Each digit is written as its letter of the alphabet, and read as such. */
  lemma DigitsAreLetters(v: int)
    requires 0 <= v < 64
    ensures |ALPHABET| == 64 && EncodeSextet(v) == ALPHABET[v] as int && DecodeSextet(ALPHABET[v] as int) == Some(v)
  {
    assert |Range('A', 26) + Range('a', 26)| == 52 && |Range('A', 26) + Range('a', 26) + Range('0', 10)| == 62;
  }

  // ---- What the decoder accepts ----

  predicate IsLetter(c: int) {
    DecodeSextet(c).Some?
  }

  /** Groups of four letters, of which the last may end in one or two padding characters. */
  predicate IsPadded(s: seq<int>, pad: nat) {
    && |s| % 4 == 0 && pad <= 2 && pad <= |s|
    && (forall k :: 0 <= k < |s| - pad ==> IsLetter(s[k]))
    && (forall k :: |s| - pad <= k < |s| ==> s[k] == PAD)
  }

  predicate IsBase64(s: seq<int>) {
    exists pad :: pad <= 2 && IsPadded(s, pad)
  }

  lemma {:induction false} GroupsDecodeExactly(s: seq<int>)
    ensures DecodeGroups(s).Some? <==> IsBase64(s)
  {
    if s == [] {
      assert IsPadded(s, 0);
    } else if |s| > 4 {
      GroupsDecodeExactly(s[4..]);
      PaddedTail(s);
    } else if |s| == 4 {
      OneGroup(s);
    }
  }

  lemma OneGroup(s: seq<int>)
    requires |s| == 4
    ensures DecodeGroups(s).Some? <==> IsBase64(s)
  {
    assert s[4..] == [];
    if DecodeGroups(s).Some? {
      assert IsPadded(s, if s[2] == PAD then 2 else if s[3] == PAD then 1 else 0);
    }
  }

  lemma PaddedTail(s: seq<int>)
    requires |s| > 4
    ensures IsBase64(s) <==> (forall k :: 0 <= k < 4 ==> IsLetter(s[k])) && IsBase64(s[4..])
  {
    if pad :| IsPadded(s, pad) {
      assert IsPadded(s[4..], pad);
    }
    if pad :| IsPadded(s[4..], pad) && forall k :: 0 <= k < 4 ==> IsLetter(s[k]) {
      forall k | 0 <= k < |s| - pad
        ensures IsLetter(s[k])
      {
        assert k >= 4 ==> s[k] == s[4..][k - 4];
      }
      forall k | |s| - pad <= k < |s|
        ensures s[k] == PAD
      {
        assert s[k] == s[4..][k - 4];
      }
      assert IsPadded(s, pad);
    }
  }

  /** Without line breaks, exactly the padded groups of letters decode. */
  lemma DecodesExactly(s: seq<int>)
    requires 10 !in s && 13 !in s
    ensures Decode(s).Some? <==> IsBase64(s)
  {
    StripKeeps(s);
    GroupsDecodeExactly(s);
  }

  lemma {:induction false} StripConcat(a: seq<int>, b: seq<int>)
    ensures StripNewlines(a + b) == StripNewlines(a) + StripNewlines(b)
  {
    if a == [] {
      assert a + b == b;
    } else {
      assert (a + b)[1..] == a[1..] + b;
      StripConcat(a[1..], b);
    }
  }

  /** A line break changes nothing, wherever it stands. */
  lemma LineBreaksAreSkipped(a: seq<int>, b: seq<int>, c: int)
    requires c == 10 || c == 13
    ensures Decode(a + [c] + b) == Decode(a + b)
  {
    StripConcat(a + [c], b);
    StripConcat(a, [c]);
    assert StripNewlines([c]) == StripNewlines([c][1..]) == [];
    StripConcat(a, b);
    assert StripNewlines(a + [c] + b) == StripNewlines(a + b);
  }

  /** The decoder inverts the encoder. */
  lemma RoundTrip(d: seq<byte>)
    ensures Decode(Encode(d)) == Some(d)
  {
    EncodePrintable(d);
    StripKeeps(Encode(d));
    GroupsRoundTrip(d);
  }
}
