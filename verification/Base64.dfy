/**
 * Base64 as the wire carries it: the alphabet and padding of section 4 of RFC
 * 4648, decoded only from its canonical form (section 3.5).
 */
module Base64 {
  import opened Basics

  type Byte = b: nat | b < 256

  const PAD := '='

  /** The character of a 6-bit value: the capitals, the small letters, the digits, then `+` and `/`. */
  function Char(v: nat): (c: char)
    requires v < 64
    ensures Code(c) == Some(v) && c != PAD
  {
    if v < 26 then 'A' + v as char
    else if v < 52 then 'a' + (v - 26) as char
    else if v < 62 then '0' + (v - 52) as char
    else if v == 62 then '+'
    else '/'
  }

  /** The 6-bit value of a character, if it belongs to the alphabet. */
  function Code(c: char): (v: Option<nat>)
    ensures v.Some? ==> v.value < 64
  {
    if 'A' <= c <= 'Z' then Some((c - 'A') as nat)
    else if 'a' <= c <= 'z' then Some((c - 'a') as nat + 26)
    else if '0' <= c <= '9' then Some((c - '0') as nat + 52)
    else if c == '+' then Some(62)
    else if c == '/' then Some(63)
    else None
  }

  const CAPITALS := "ABCDEFGHIJKLMNOPQRSTUVWXYZ"
  const SMALL := "abcdefghijklmnopqrstuvwxyz"
  const DIGITS := "0123456789"

  /** Table 1 of RFC 4648: the character of value `v` stands at place `v`. */
  const ALPHABET := CAPITALS + SMALL + DIGITS + "+/"

  lemma Capital(v: nat)
    requires v < 26
    ensures |CAPITALS| == 26 && CAPITALS[v] == 'A' + v as char
  {
  }

  lemma Small(v: nat)
    requires v < 26
    ensures |SMALL| == 26 && SMALL[v] == 'a' + v as char
  {
  }

  lemma Digit(v: nat)
    requires v < 10
    ensures |DIGITS| == 10 && DIGITS[v] == '0' + v as char
  {
  }

  lemma CharIsTheAlphabet(v: nat)
    requires v < 64
    ensures |ALPHABET| == 64 && Char(v) == ALPHABET[v]
  {
    hide CAPITALS, SMALL, DIGITS;
    Capital(if v < 26 then v else 0);
    Small(if 26 <= v < 52 then v - 26 else 0);
    Digit(if 52 <= v < 62 then v - 52 else 0);
  }

  /** A character has a value exactly when it stands in the table, and then its place is the value. */
  lemma CodeIsThePlace(c: char)
    ensures Code(c).Some? <==> c in ALPHABET
    ensures Code(c).Some? ==> ALPHABET[Code(c).value] == c
  {
    if Code(c).Some? {
      CodeInvertsChar(c);
      CharIsTheAlphabet(Code(c).value);
    } else if c in ALPHABET {
      var v :| 0 <= v < |ALPHABET| && ALPHABET[v] == c;
      CharIsTheAlphabet(v);
      assert false;
    }
  }

  lemma CodeInvertsChar(c: char)
    requires Code(c).Some?
    ensures Char(Code(c).value) == c
  {
  }

  /** Two characters for twelve bits. */
  function Pair(n: nat): (s: string)
    requires n < 4096
    ensures |s| == 2
  {
    [Char(n / 64), Char(n % 64)]
  }

  // ------------------------------------------------------------------ encoding

  function Group3(a: Byte, b: Byte, c: Byte): (n: nat)
    ensures n < 0x100_0000
  {
    a * 0x1_0000 + b * 0x100 + c
  }

  function FullGroup(a: Byte, b: Byte, c: Byte): (s: string)
    ensures |s| == 4
  {
    Pair(Group3(a, b, c) / 4096) + Pair(Group3(a, b, c) % 4096)
  }

  function LastOne(a: Byte): (s: string)
    ensures |s| == 4
  {
    Pair(a * 16) + [PAD, PAD]
  }

  function LastTwo(a: Byte, b: Byte): (s: string)
    ensures |s| == 4
  {
    var group := (a * 0x100 + b) * 4;
    Pair(group / 64) + [Char(group % 64)] + [PAD]
  }

  function Encoded(bytes: seq<Byte>): string {
    if |bytes| == 0 then ""
    else if |bytes| == 1 then LastOne(bytes[0])
    else if |bytes| == 2 then LastTwo(bytes[0], bytes[1])
    else FullGroup(bytes[0], bytes[1], bytes[2]) + Encoded(bytes[3..])
  }

  /** What is left to encode from a position on. */
  lemma EncodedFrom(bytes: seq<Byte>, i: nat)
    requires i <= |bytes|
    ensures var left := |bytes| - i;
            Encoded(bytes[i..]) ==
              if left == 0 then ""
              else if left == 1 then LastOne(bytes[i])
              else if left == 2 then LastTwo(bytes[i], bytes[i + 1])
              else FullGroup(bytes[i], bytes[i + 1], bytes[i + 2]) + Encoded(bytes[i + 3..])
  {
    hide FullGroup, LastOne, LastTwo;
    if |bytes| - i > 2 { assert bytes[i..][3..] == bytes[i + 3..]; }
  }

  method BytesToBase64(bytes: seq<Byte>) returns (out: string)
    ensures out == Encoded(bytes)
  {
    hide FullGroup, LastOne, LastTwo, Encoded;
    var full := |bytes| - |bytes| % 3;
    out := "";
    var i := 0;
    while i < full
      invariant i <= full && i % 3 == 0 && Encoded(bytes) == out + Encoded(bytes[i..])
    {
      EncodedFrom(bytes, i);
      out := out + FullGroup(bytes[i], bytes[i + 1], bytes[i + 2]);
      i := i + 3;
    }
    EncodedFrom(bytes, i);
    var remaining := |bytes| - full;
    if remaining == 1 {
      out := out + LastOne(bytes[full]);
    } else if remaining == 2 {
      out := out + LastTwo(bytes[full], bytes[full + 1]);
    }
  }

  // ------------------------------------------------------------------ decoding

  function Sextets4(t: string): (n: Option<nat>)
    requires |t| == 4
    ensures n.Some? ==> n.value < 0x100_0000
  {
    match (Code(t[0]), Code(t[1]), Code(t[2]), Code(t[3]))
    case (Some(a), Some(b), Some(c), Some(d)) => Some(a * 0x4_0000 + b * 0x1000 + c * 0x40 + d)
    case _ => None
  }

  function DecodedFull(t: string): (r: Option<seq<Byte>>)
    requires |t| == 4
    ensures r.Some? ==> |r.value| == 3
  {
    match Sextets4(t)
    case None => None
    case Some(group) => Some([group / 0x1_0000, group / 0x100 % 0x100, group % 0x100])
  }

  /** Two data characters: one byte, the four bits left over zero. */
  function DecodedOne(x: char, y: char): (r: Option<seq<Byte>>)
    ensures r.Some? ==> |r.value| == 1
  {
    match (Code(x), Code(y))
    case (Some(a), Some(b)) =>
      var group := a * 64 + b;
      if group % 16 != 0 then None else Some([group / 16])
    case _ => None
  }

  /** Three data characters: two bytes, the two bits left over zero. */
  function DecodedTwo(x: char, y: char, z: char): (r: Option<seq<Byte>>)
    ensures r.Some? ==> |r.value| == 2
  {
    match (Code(x), Code(y), Code(z))
    case (Some(a), Some(b), Some(c)) =>
      var group := a * 4096 + b * 64 + c;
      if group % 4 != 0 then None else Some([group / 1024, group / 4 % 256])
    case _ => None
  }

  /** The last group, where padding may stand. */
  function DecodedLast(t: string): (r: Option<seq<Byte>>)
    requires |t| == 4
    ensures r.Some? ==> 1 <= |r.value| <= 3
  {
    if t[3] != PAD then DecodedFull(t)
    else if t[2] == PAD then DecodedOne(t[0], t[1])
    else DecodedTwo(t[0], t[1], t[2])
  }

  function Decoded(text: string): Option<seq<Byte>> {
    if |text| == 0 then Some([])
    else if |text| < 4 then None
    else if |text| == 4 then DecodedLast(text)
    else Joined(DecodedFull(text[..4]), Decoded(text[4..]))
  }

  function Joined(a: Option<seq<Byte>>, b: Option<seq<Byte>>): Option<seq<Byte>> {
    if a.None? || b.None? then None else Some(a.value + b.value)
  }

  // ------------------------------------------------------------------ bijection

  lemma FullRoundTrip(a: Byte, b: Byte, c: Byte)
    ensures DecodedFull(FullGroup(a, b, c)) == Some([a, b, c])
    ensures FullGroup(a, b, c)[3] != PAD
  {
    hide Group3, Sextets4, Char, Code;
    FullGroupCodes(Group3(a, b, c));
    BytesOf(a, b, c);
  }

  lemma FullGroupCodes(n: nat)
    requires n < 0x100_0000
    ensures Sextets4(Pair(n / 4096) + Pair(n % 4096)) == Some(n)
    ensures (Pair(n / 4096) + Pair(n % 4096))[3] != PAD
  {
    hide Code, Char;
    SextetsJoin(n);
  }

  lemma SextetsJoin(n: nat)
    ensures n / 4096 / 64 * 0x4_0000 + n / 4096 % 64 * 0x1000 + n % 4096 / 64 * 0x40 + n % 4096 % 64 == n
  {
    var high, low := n / 4096, n % 4096;
    assert high == high / 64 * 64 + high % 64;
    assert low == low / 64 * 64 + low % 64;
  }

  lemma BytesOf(a: Byte, b: Byte, c: Byte)
    ensures var n := Group3(a, b, c); n / 0x1_0000 == a && n / 0x100 % 0x100 == b && n % 0x100 == c
  {
    assert Group3(a, b, c) / 0x100 == a * 0x100 + b;
  }

  lemma FullIsCanonical(t: string)
    requires |t| == 4 && DecodedFull(t).Some?
    ensures var bs := DecodedFull(t).value; FullGroup(bs[0], bs[1], bs[2]) == t
  {
    hide Code, Char;
    var n := Sextets4(t).value;
    Bytes3(n);
    Sextets(Code(t[0]).value, Code(t[1]).value, Code(t[2]).value, Code(t[3]).value);
    CodeInvertsChar(t[0]);
    CodeInvertsChar(t[1]);
    CodeInvertsChar(t[2]);
    CodeInvertsChar(t[3]);
  }

  lemma Bytes3(n: nat)
    requires n < 0x100_0000
    ensures n / 0x1_0000 * 0x1_0000 + n / 0x100 % 0x100 * 0x100 + n % 0x100 == n
  {
  }

  lemma Sextets(a: nat, b: nat, c: nat, d: nat)
    requires a < 64 && b < 64 && c < 64 && d < 64
    ensures var n := a * 0x4_0000 + b * 0x1000 + c * 0x40 + d;
            n / 4096 / 64 == a && n / 4096 % 64 == b && n % 4096 / 64 == c && n % 4096 % 64 == d
  {
  }

  lemma LastOneRoundTrip(a: Byte)
    ensures DecodedLast(LastOne(a)) == Some([a])
  {
    hide Code, Char;
    var n := a * 16;
    assert n / 64 * 64 + n % 64 == n;
    assert LastOne(a) == [Char(n / 64), Char(n % 64), PAD, PAD];
  }

  lemma LastTwoRoundTrip(a: Byte, b: Byte)
    ensures DecodedLast(LastTwo(a, b)) == Some([a, b])
  {
    hide Code, Char, DecodedTwo;
    var n := (a * 0x100 + b) * 4;
    assert LastTwo(a, b) == [Char(n / 64 / 64), Char(n / 64 % 64), Char(n % 64), PAD];
    TwoFromSextets(n / 64 / 64, n / 64 % 64, n % 64, a, b);
  }

  lemma TwoFromSextets(x: nat, y: nat, z: nat, a: Byte, b: Byte)
    requires x < 64 && y < 64 && z < 64 && x * 4096 + y * 64 + z == (a * 0x100 + b) * 4
    ensures DecodedTwo(Char(x), Char(y), Char(z)) == Some([a, b])
  {
    hide Code, Char;
    var n := x * 4096 + y * 64 + z;
    assert n / 4 == a * 0x100 + b && n % 4 == 0;
    assert n / 1024 == n / 4 / 256 == a;
  }

  lemma OneIsCanonical(x: char, y: char)
    requires DecodedOne(x, y).Some?
    ensures LastOne(DecodedOne(x, y).value[0]) == [x, y, PAD, PAD]
  {
    hide Code, Char;
    CodeInvertsChar(x);
    CodeInvertsChar(y);
  }

  lemma TwoIsCanonical(x: char, y: char, z: char)
    requires DecodedTwo(x, y, z).Some?
    ensures var bs := DecodedTwo(x, y, z).value; LastTwo(bs[0], bs[1]) == [x, y, z, PAD]
  {
    hide Code, Char;
    CodeInvertsChar(x);
    CodeInvertsChar(y);
    CodeInvertsChar(z);
    SixteenBits(Code(x).value, Code(y).value, Code(z).value);
  }

  lemma SixteenBits(a: nat, b: nat, c: nat)
    requires a < 64 && b < 64 && c < 64 && (a * 4096 + b * 64 + c) % 4 == 0
    ensures var n := a * 4096 + b * 64 + c;
            && (n / 1024 * 0x100 + n / 4 % 256) * 4 == n
            && n / 64 / 64 == a && n / 64 % 64 == b && n % 64 == c
  {
    var n := a * 4096 + b * 64 + c;
    var m := n / 4;
    assert n == m * 4 && n / 1024 == m / 256;
    assert n / 64 == a * 64 + b;
  }

  lemma LastIsCanonical(t: string)
    requires |t| == 4 && DecodedLast(t).Some?
    ensures Encoded(DecodedLast(t).value) == t
  {
    hide Code, Char, LastOne, LastTwo, FullGroup, DecodedOne, DecodedTwo, DecodedFull;
    var bs := DecodedLast(t).value;
    if t[3] != PAD {
      FullIsCanonical(t);
      assert Encoded(bs) == FullGroup(bs[0], bs[1], bs[2]) + Encoded(bs[3..]);
    } else {
      if t[2] == PAD {
        OneIsCanonical(t[0], t[1]);
        assert t == [t[0], t[1], PAD, PAD];
      } else {
        TwoIsCanonical(t[0], t[1], t[2]);
        assert t == [t[0], t[1], t[2], PAD];
      }
    }
  }

  lemma DecodedCons(head: string, rest: string)
    requires |head| == 4 && (rest == "" ==> head[3] != PAD)
    ensures Decoded(head + rest) == Joined(DecodedFull(head), Decoded(rest))
  {
    hide DecodedFull;
    if rest == "" {
      assert head + rest == head;
      if DecodedFull(head).Some? { assert DecodedFull(head).value + [] == DecodedFull(head).value; }
    } else {
      assert (head + rest)[..4] == head && (head + rest)[4..] == rest;
    }
  }

  /** Decoding inverts encoding, for all bytes. */
  lemma {:induction false} DecodeInvertsEncode(bytes: seq<Byte>)
    ensures Decoded(Encoded(bytes)) == Some(bytes)
  {
    hide FullGroup, LastOne, LastTwo, DecodedFull;
    if |bytes| == 1 {
      LastOneRoundTrip(bytes[0]);
      assert bytes == [bytes[0]];
    } else if |bytes| == 2 {
      LastTwoRoundTrip(bytes[0], bytes[1]);
      assert bytes == [bytes[0], bytes[1]];
    } else if |bytes| >= 3 {
      FullRoundTrip(bytes[0], bytes[1], bytes[2]);
      DecodeInvertsEncode(bytes[3..]);
      var head, rest := FullGroup(bytes[0], bytes[1], bytes[2]), Encoded(bytes[3..]);
      DecodedCons(head, rest);
      assert bytes == [bytes[0], bytes[1], bytes[2]] + bytes[3..];
    }
  }

  /** Whatever decodes is the one spelling of its bytes. */
  lemma {:induction false} DecodedIsCanonical(text: string)
    requires Decoded(text).Some?
    ensures Encoded(Decoded(text).value) == text
  {
    hide FullGroup, DecodedFull, DecodedLast;
    if |text| == 4 {
      LastIsCanonical(text);
    } else if |text| > 4 {
      DecodedIsCanonical(text[4..]);
      FullIsCanonical(text[..4]);
      var head, rest := DecodedFull(text[..4]).value, Decoded(text[4..]).value;
      assert (head + rest)[3..] == rest;
      assert text == text[..4] + text[4..];
    }
  }

  /** The decoder accepts a text exactly when it is the encoder's output for the bytes it returns. */
  lemma DecodeIffEncoded(text: string, bytes: seq<Byte>)
    ensures Decoded(text) == Some(bytes) <==> text == Encoded(bytes)
  {
    if Decoded(text) == Some(bytes) { DecodedIsCanonical(text); }
    DecodeInvertsEncode(bytes);
  }

  // ---------------------------------------------------------- the decoder's loop

  /** Where the data characters end. */
  function DataEnd(text: string): (end: nat)
    requires |text| % 4 == 0
    ensures |text| - 2 <= end <= |text|
  {
    if |text| == 0 || text[|text| - 1] != PAD then |text|
    else if text[|text| - 2] == PAD then |text| - 2
    else |text| - 1
  }

  /** Groups before the last are full; the rest of the text is decoded on its own. */
  lemma DecodedStep(text: string, i: nat)
    requires |text| % 4 == 0 && i % 4 == 0 && i + 4 <= DataEnd(text)
    ensures i + 4 <= |text| && Decoded(text[i..]) == Joined(DecodedFull(text[i..i + 4]), Decoded(text[i + 4..]))
  {
    hide DecodedFull;
    DecodedCons(text[i..i + 4], text[i + 4..]);
    assert text[i..] == text[i..i + 4] + text[i + 4..];
  }

  method Base64ToBytes(text: string) returns (bytes: Option<seq<Byte>>)
    ensures bytes == Decoded(text)
    ensures match bytes
            case Some(bs) => text == Encoded(bs)
            case None => forall bs :: text != Encoded(bs)
  {
    hide Decoded, Encoded;
    bytes := DecodeText(text);
    forall bs
      ensures Decoded(text) == Some(bs) <==> text == Encoded(bs)
    {
      DecodeIffEncoded(text, bs);
    }
  }

  /** What is left after the full groups. */
  function DecodedTail(text: string): Option<seq<Byte>>
    requires |text| % 4 == 0
  {
    var end := DataEnd(text);
    var i := end - end % 4;
    if end - i == 2 then DecodedOne(text[i], text[i + 1])
    else if end - i == 3 then DecodedTwo(text[i], text[i + 1], text[i + 2])
    else Some([])
  }

  lemma TailIsDecoded(text: string)
    requires |text| % 4 == 0
    ensures var end := DataEnd(text); Decoded(text[end - end % 4..]) == DecodedTail(text)
  {
    hide DecodedFull, DecodedOne, DecodedTwo;
  }

  /** The full groups, decoded into the front of the output. */
  method DecodeGroups(text: string, out: array<Byte>, fullEnd: nat) returns (ok: bool)
    requires |text| % 4 == 0 && fullEnd % 4 == 0 && fullEnd <= DataEnd(text) && fullEnd / 4 * 3 <= out.Length
    modifies out
    ensures ok ==> Decoded(text) == Joined(Some(out[..fullEnd / 4 * 3]), Decoded(text[fullEnd..]))
    ensures !ok ==> Decoded(text) == None
  {
    hide DecodedFull, Decoded;
    var i, outIndex := 0, 0;
    assert text[0..] == text && out[..0] == [];
    JoinedNothing(Decoded(text));
    while i < fullEnd
      invariant i <= fullEnd && i % 4 == 0 && outIndex == i / 4 * 3
      invariant Decoded(text) == Joined(Some(out[..outIndex]), Decoded(text[i..]))
    {
      DecodedStep(text, i);
      var group := DecodedFull(text[i..i + 4]);
      if group.None? { return false; }
      ghost var done, rest := out[..outIndex], Decoded(text[i + 4..]);
      out[outIndex], out[outIndex + 1], out[outIndex + 2] := group.value[0], group.value[1], group.value[2];
      outIndex := outIndex + 3;
      i := i + 4;
      assert out[..outIndex] == done + group.value;
      JoinedTwice(done, group.value, rest);
    }
    return true;
  }

  method DecodeText(text: string) returns (bytes: Option<seq<Byte>>)
    ensures bytes == Decoded(text)
  {
    hide DecodedTail, Decoded, DataEnd;
    if |text| % 4 != 0 {
      OnlyWholeGroups(text);
      return None;
    }
    var dataEnd := DataEnd(text);
    TailIsDecoded(text);
    TailSize(text);
    var fullEnd := dataEnd - dataEnd % 4;
    var out := new Byte[|text| / 4 * 3 - (|text| - dataEnd)];
    var ok := DecodeGroups(text, out, fullEnd);
    if !ok { return None; }
    var outIndex := fullEnd / 4 * 3;
    var last := DecodedTail(text);
    if last.None? { return None; }
    ghost var done := out[..outIndex];
    forall k | 0 <= k < |last.value| {
      out[outIndex + k] := last.value[k];
    }
    assert out[..] == done + last.value;
    return Some(out[..]);
  }

  lemma JoinedNothing(a: Option<seq<Byte>>)
    ensures Joined(Some([]), a) == a
  {
    if a.Some? { assert [] + a.value == a.value; }
  }

  lemma JoinedTwice(a: seq<Byte>, b: seq<Byte>, c: Option<seq<Byte>>)
    ensures Joined(Some(a), Joined(Some(b), c)) == Joined(Some(a + b), c)
  {
    if c.Some? { assert a + (b + c.value) == a + b + c.value; }
  }

  /** The output array is exactly filled. */
  lemma TailSize(text: string)
    requires |text| % 4 == 0
    ensures var end := DataEnd(text);
            end / 4 * 3 <= |text| / 4 * 3 - (|text| - end)
    ensures var end := DataEnd(text);
            DecodedTail(text).Some? ==>
              (end - end % 4) / 4 * 3 + |DecodedTail(text).value| == |text| / 4 * 3 - (|text| - end)
  {
  }

  lemma {:induction false} OnlyWholeGroups(text: string)
    requires |text| % 4 != 0
    ensures Decoded(text) == None
  {
    hide DecodedFull;
    if |text| > 4 { OnlyWholeGroups(text[4..]); }
  }
}
