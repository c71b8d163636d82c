/**
 The uploaded bundle's base64 form (sections 3.5 and 4 of RFC 4648). Decoding is
 lenient about the unused bits of the last group, as the runtime's decoder is;
 acceptance is not.
 */
module Base64 {
  import opened Prelude
  import opened JsonText

  type Byte = b: nat | b < 256

  const MAX_PACKAGE_BYTES: nat := 64 * 1024 * 1024

  const PAD: Unit := 0x3D

  function CharOf(d: nat): Unit
    requires d < 64
  {
    if d < 26 then 0x41 + d
    else if d < 52 then 0x61 + d - 26
    else if d < 62 then 0x30 + d - 52
    else if d == 62 then 0x2B
    else 0x2F
  }

  function ValueOf(u: Unit): Option<nat> {
    if 0x41 <= u <= 0x5A then Some(u - 0x41)
    else if 0x61 <= u <= 0x7A then Some(u - 0x61 + 26)
    else if 0x30 <= u <= 0x39 then Some(u - 0x30 + 52)
    else if u == 0x2B then Some(62)
    else if u == 0x2F then Some(63)
    else None
  }

  predicate InAlphabet(u: Unit) {
    ValueOf(u).Some?
  }

  // ----- Encoding -----

  function EncodeOne(a: Byte): Text {
    [CharOf(a / 4), CharOf(a % 4 * 16), PAD, PAD]
  }

  function EncodeTwo(a: Byte, b: Byte): Text {
    [CharOf(a / 4), CharOf(a % 4 * 16 + b / 16), CharOf(b % 16 * 4), PAD]
  }

  function EncodeThree(a: Byte, b: Byte, c: Byte): Text {
    [CharOf(a / 4), CharOf(a % 4 * 16 + b / 16), CharOf(b % 16 * 4 + c / 64), CharOf(c % 64)]
  }

  function Encode(bytes: seq<Byte>): Text {
    if bytes == [] then []
    else if |bytes| == 1 then EncodeOne(bytes[0])
    else if |bytes| == 2 then EncodeTwo(bytes[0], bytes[1])
    else EncodeThree(bytes[0], bytes[1], bytes[2]) + Encode(bytes[3..])
  }

  // ----- Decoding -----

  function Padding(v: Text): nat {
    if |v| >= 2 && v[|v| - 1] == PAD && v[|v| - 2] == PAD then 2
    else if |v| >= 1 && v[|v| - 1] == PAD then 1
    else 0
  }

  /** Whole groups of alphabet characters with at most two padding characters at the end. */
  predicate WellFormed(v: Text) {
    |v| % 4 == 0 && forall i :: 0 <= i < |v| - Padding(v) ==> InAlphabet(v[i])
  }

  function Digit(u: Unit): nat
    ensures Digit(u) < 64
  {
    if InAlphabet(u) then ValueOf(u).value else 0
  }

  function First(v: Text): Byte
    requires |v| >= 4
  {
    Digit(v[0]) * 4 + Digit(v[1]) / 16
  }

  function Second(v: Text): Byte
    requires |v| >= 4
  {
    Digit(v[1]) % 16 * 16 + Digit(v[2]) / 4
  }

  function Third(v: Text): Byte
    requires |v| >= 4
  {
    Digit(v[2]) % 4 * 64 + Digit(v[3])
  }

  function Decode(v: Text): seq<Byte>
    requires |v| % 4 == 0
  {
    if v == [] then []
    else if |v| > 4 then [First(v), Second(v), Third(v)] + Decode(v[4..])
    else if Padding(v) == 2 then [First(v)]
    else if Padding(v) == 1 then [First(v), Second(v)]
    else [First(v), Second(v), Third(v)]
  }

  /** The length that the padding announces. */
  function AnnouncedBytes(v: Text): int {
    |v| / 4 * 3 - Padding(v)
  }

  datatype ArchiveError = NotCanonical | ArchiveTooLarge

  function DecodeArchive(v: Text): Result<seq<Byte>, ArchiveError> {
    if !WellFormed(v) then Err(NotCanonical)
    else if AnnouncedBytes(v) > MAX_PACKAGE_BYTES then Err(ArchiveTooLarge)
    else
      var bytes := Decode(v);
      if Encode(bytes) != v then Err(NotCanonical) else Ok(bytes)
  }

  // ----- Decoding undoes encoding -----

  lemma ValueOfChar(d: nat)
    requires d < 64
    ensures ValueOf(CharOf(d)) == Some(d)
  {
  }

  lemma CharOfValue(u: Unit)
    requires InAlphabet(u)
    ensures CharOf(Digit(u)) == u && u != PAD
  {
  }

  lemma CharsAndValues()
    ensures forall d: nat :: d < 64 ==> ValueOf(CharOf(d)) == Some(d)
    ensures forall u: Unit :: InAlphabet(u) ==> CharOf(Digit(u)) == u
    ensures !InAlphabet(PAD)
  {
    hide CharOf, ValueOf;
    forall d: nat | d < 64 ensures ValueOf(CharOf(d)) == Some(d) {
      ValueOfChar(d);
    }
    forall u: Unit | InAlphabet(u) ensures CharOf(Digit(u)) == u && u != PAD {
      CharOfValue(u);
    }
  }

  predicate WholeGroup(v: Text) {
    |v| == 4 && InAlphabet(v[0]) && InAlphabet(v[1]) && InAlphabet(v[2]) && InAlphabet(v[3])
  }

  /** A text of more than one group: the first group has no padding and the rest has all of it. */
  lemma GroupsApart(v: Text)
    requires |v| > 4 && |v| % 4 == 0
    ensures Padding(v[4..]) == Padding(v)
    ensures WellFormed(v) <==> WholeGroup(v[..4]) && WellFormed(v[4..])
  {
    hide ValueOf, InAlphabet;
    var rest := v[4..];
    assert |rest| >= 4;
    assert rest[|rest| - 1] == v[|v| - 1] && rest[|rest| - 2] == v[|v| - 2];
    if WellFormed(v) {
      forall i | 0 <= i < |rest| - Padding(rest) ensures InAlphabet(rest[i]) {
        assert rest[i] == v[i + 4];
      }
      assert v[..4][0] == v[0] && v[..4][1] == v[1] && v[..4][2] == v[2] && v[..4][3] == v[3];
    }
    if WholeGroup(v[..4]) && WellFormed(rest) {
      forall i | 0 <= i < |v| - Padding(v) ensures InAlphabet(v[i]) {
        if i >= 4 { assert v[i] == rest[i - 4]; } else { assert v[i] == v[..4][i]; }
      }
    }
  }

  lemma {:induction false} DecodeLength(v: Text)
    requires |v| % 4 == 0
    ensures |Decode(v)| == AnnouncedBytes(v)
  {
    if |v| > 4 {
      GroupsApart(v);
      DecodeLength(v[4..]);
    }
  }

  lemma ThreeIsWhole(a: Byte, b: Byte, c: Byte)
    ensures WholeGroup(EncodeThree(a, b, c))
  {
    CharsAndValues();
    hide CharOf, ValueOf;
  }

  lemma ShortIsWellFormed(a: Byte, b: Byte)
    ensures WellFormed(EncodeOne(a)) && WellFormed(EncodeTwo(a, b))
  {
    CharsAndValues();
    hide CharOf, ValueOf;
  }

  lemma WholeIsWellFormed(v: Text)
    requires WholeGroup(v)
    ensures WellFormed(v) && Padding(v) == 0
  {
    CharOfValue(v[3]);
  }

  lemma {:induction false} EncodeIsWellFormed(bytes: seq<Byte>)
    ensures WellFormed(Encode(bytes)) && (bytes == [] <==> Encode(bytes) == [])
  {
    hide WellFormed, WholeGroup, EncodeThree, EncodeTwo, EncodeOne, Padding;
    if bytes == [] {
      EmptyIsWellFormed();
    } else if |bytes| == 1 {
      ShortIsWellFormed(bytes[0], 0);
      GroupLengths(bytes[0], 0, 0);
    } else if |bytes| == 2 {
      ShortIsWellFormed(bytes[0], bytes[1]);
      GroupLengths(bytes[0], bytes[1], 0);
    } else {
      EncodeIsWellFormed(bytes[3..]);
      var head, tail := EncodeThree(bytes[0], bytes[1], bytes[2]), Encode(bytes[3..]);
      ThreeIsWhole(bytes[0], bytes[1], bytes[2]);
      GroupLengths(bytes[0], bytes[1], bytes[2]);
      WellFormedLength(tail);
      if tail == [] {
        assert head + tail == head;
        WholeIsWellFormed(head);
      } else {
        assert (head + tail)[4..] == tail && (head + tail)[..4] == head;
        GroupsApart(head + tail);
      }
    }
  }

  lemma EmptyIsWellFormed()
    ensures WellFormed([])
  {
  }

  lemma WellFormedLength(v: Text)
    requires WellFormed(v)
    ensures |v| % 4 == 0
  {
  }

  lemma GroupLengths(a: Byte, b: Byte, c: Byte)
    ensures |EncodeOne(a)| == 4 && |EncodeTwo(a, b)| == 4 && |EncodeThree(a, b, c)| == 4
  {
  }

  /** One group of three bytes comes back. */
  lemma ThreeBack(a: Byte, b: Byte, c: Byte, rest: Text)
    ensures var v := EncodeThree(a, b, c) + rest; First(v) == a && Second(v) == b && Third(v) == c
  {
    CharsAndValues();
    hide CharOf, ValueOf;
  }

  lemma {:induction false} DecodeUndoesEncode(bytes: seq<Byte>)
    ensures |Encode(bytes)| % 4 == 0 && Decode(Encode(bytes)) == bytes
  {
    hide WellFormed, EncodeOne, EncodeTwo, EncodeThree, First, Second, Third, Padding;
    if bytes == [] {
    } else if |bytes| == 1 {
      OneDecoded(bytes[0]);
    } else if |bytes| == 2 {
      TwoDecoded(bytes[0], bytes[1]);
    } else {
      DecodeUndoesEncode(bytes[3..]);
      EncodeIsWellFormed(bytes[3..]);
      var head, tail := EncodeThree(bytes[0], bytes[1], bytes[2]), Encode(bytes[3..]);
      ThreeIsWhole(bytes[0], bytes[1], bytes[2]);
      ThreeBack(bytes[0], bytes[1], bytes[2], tail);
      assert (head + tail)[4..] == tail && |head| == 4;
      assert bytes == [bytes[0], bytes[1], bytes[2]] + bytes[3..];
      if tail == [] {
        assert head + tail == head && bytes[3..] == [];
        WholeIsWellFormed(head);
      }
    }
  }

  lemma DigitOfChar(d: nat)
    requires d < 64
    ensures Digit(CharOf(d)) == d && CharOf(d) != PAD
  {
    ValueOfChar(d);
  }

  lemma OneDecoded(a: Byte)
    ensures Decode(EncodeOne(a)) == [a] && |EncodeOne(a)| == 4
  {
    hide CharOf, Digit;
    DigitOfChar(a / 4);
    DigitOfChar(a % 4 * 16);
  }

  lemma TwoDecoded(a: Byte, b: Byte)
    ensures Decode(EncodeTwo(a, b)) == [a, b] && |EncodeTwo(a, b)| == 4
  {
    hide CharOf, Digit;
    DigitOfChar(a / 4);
    DigitOfChar(a % 4 * 16 + b / 16);
    DigitOfChar(b % 16 * 4);
    var v := EncodeTwo(a, b);
    assert Padding(v) == 1 && First(v) == a && Second(v) == b;
  }

  // ----- Which texts are accepted -----

  /** The bits of the last group that stand for no byte are zero. */
  predicate UnusedBitsZero(v: Text)
    requires |v| % 4 == 0
  {
    && (Padding(v) == 2 ==> |v| >= 4 && Digit(v[|v| - 3]) % 16 == 0)
    && (Padding(v) == 1 ==> |v| >= 4 && Digit(v[|v| - 2]) % 4 == 0)
  }

  lemma GroupBack(v: Text)
    requires |v| >= 4 && WholeGroup(v[..4])
    ensures EncodeThree(First(v), Second(v), Third(v)) == v[..4]
  {
    CharsAndValues();
    hide CharOf, ValueOf;
  }

  /** A digit's character is the given one exactly when the digit is that character's value. */
  lemma CharIs(d: nat, u: Unit)
    requires d < 64 && InAlphabet(u)
    ensures CharOf(d) == u <==> d == Digit(u)
  {
    ValueOfChar(d);
    CharOfValue(u);
  }

  lemma OneBack(v: Text)
    requires |v| == 4 && InAlphabet(v[0]) && InAlphabet(v[1]) && v[2] == PAD && v[3] == PAD
    ensures EncodeOne(First(v)) == v <==> Digit(v[1]) % 16 == 0
  {
    hide CharOf, ValueOf, Digit;
    CharIs(First(v) / 4, v[0]);
    CharIs(First(v) % 4 * 16, v[1]);
    assert v == [v[0], v[1], v[2], v[3]];
  }

  lemma TwoBack(v: Text)
    requires |v| == 4 && InAlphabet(v[0]) && InAlphabet(v[1]) && InAlphabet(v[2]) && v[3] == PAD
    ensures EncodeTwo(First(v), Second(v)) == v <==> Digit(v[2]) % 4 == 0
  {
    hide CharOf, ValueOf, Digit;
    CharIs(First(v) / 4, v[0]);
    CharIs(First(v) % 4 * 16 + Second(v) / 16, v[1]);
    CharIs(Second(v) % 16 * 4, v[2]);
    assert v == [v[0], v[1], v[2], v[3]];
  }

  lemma LastGroupBack(v: Text)
    requires |v| == 4 && WellFormed(v)
    ensures Encode(Decode(v)) == v <==> UnusedBitsZero(v)
  {
    hide CharOf, ValueOf, Digit, First, Second, Third, EncodeOne, EncodeTwo, EncodeThree;
    if Padding(v) == 2 {
      OneBack(v);
    } else if Padding(v) == 1 {
      TwoBack(v);
    } else {
      assert v[..4] == v;
      GroupBack(v);
    }
  }

  lemma UnusedBitsApart(v: Text)
    requires |v| > 4 && |v| % 4 == 0
    ensures UnusedBitsZero(v) <==> UnusedBitsZero(v[4..])
  {
    hide Digit;
    GroupsApart(v);
    var rest := v[4..];
    assert rest[|rest| - 3] == v[|v| - 3] && rest[|rest| - 2] == v[|v| - 2];
  }

  lemma EncodeHead(a: Byte, b: Byte, c: Byte, rest: seq<Byte>)
    ensures Encode([a, b, c] + rest) == EncodeThree(a, b, c) + Encode(rest)
  {
    assert ([a, b, c] + rest)[3..] == rest;
  }

  /** Re-encoding gives the text back exactly when its unused bits are zero. */
  lemma {:induction false} CanonicalExactly(v: Text)
    requires WellFormed(v)
    ensures Encode(Decode(v)) == v <==> UnusedBitsZero(v)
  {
    hide WellFormed, Encode, First, Second, Third, EncodeThree, UnusedBitsZero, Padding;
    WellFormedLength(v);
    if |v| > 4 {
      GroupsApart(v);
      UnusedBitsApart(v);
      CanonicalExactly(v[4..]);
      GroupBack(v);
      EncodeHead(First(v), Second(v), Third(v), Decode(v[4..]));
      var again := Encode(Decode(v[4..]));
      assert v == v[..4] + v[4..];
      assert (v[..4] + again)[4..] == again;
    } else if v == [] {
      EmptyIsCanonical();
    } else {
      LastGroupBack(v);
    }
  }

  lemma EmptyIsCanonical()
    ensures Encode([]) == [] && UnusedBitsZero([])
  {
  }

  /**
   The accepted texts are exactly the encodings of the byte sequences within the
   size limit, each with its own bytes.
   */
  lemma AcceptsExactlyTheEncodings(v: Text, bytes: seq<Byte>)
    ensures DecodeArchive(v) == Ok(bytes) <==> v == Encode(bytes) && |bytes| <= 67_108_864
  {
    hide Decode, Encode;
    EncodeIsWellFormed(bytes);
    DecodeUndoesEncode(bytes);
    if |v| % 4 == 0 {
      DecodeLength(v);
    }
  }

  /** An encoding is refused as too large exactly when its bytes are over the limit. */
  lemma RefusesLargeExactly(bytes: seq<Byte>)
    ensures DecodeArchive(Encode(bytes)) == Err(ArchiveTooLarge) <==> |bytes| > 67_108_864
  {
    hide Decode, Encode;
    EncodeIsWellFormed(bytes);
    DecodeUndoesEncode(bytes);
    DecodeLength(Encode(bytes));
  }

  /** Test vectors of section 10 of RFC 4648, and the last two characters of Table 1 in section 4. */
  lemma TestVectors()
    ensures Encode([0x66]) == [0x5A, 0x67, 0x3D, 0x3D] && Encode([0x66, 0x6F]) == [0x5A, 0x6D, 0x38, 0x3D]
    ensures Encode([0x66, 0x6F, 0x6F]) == [0x5A, 0x6D, 0x39, 0x76]
    ensures Encode([0x66, 0x6F, 0x6F, 0x62, 0x61, 0x72]) == [0x5A, 0x6D, 0x39, 0x76, 0x59, 0x6D, 0x46, 0x79]
    ensures Encode([0xFB, 0xFF, 0xBF]) == [0x2B, 0x2F, 0x2B, 0x2F]
  {
    OneGroup(0x66, 0x6F, 0x6F);
    OneGroup(0x62, 0x61, 0x72);
    OneGroup(0xFB, 0xFF, 0xBF);
    EncodeHead(0x66, 0x6F, 0x6F, [0x62, 0x61, 0x72]);
    assert [0x66, 0x6F, 0x6F] + [0x62, 0x61, 0x72] == [0x66, 0x6F, 0x6F, 0x62, 0x61, 0x72];
  }

  lemma OneGroup(a: Byte, b: Byte, c: Byte)
    ensures Encode([a, b, c]) == EncodeThree(a, b, c)
  {
    assert [a, b, c][3..] == [];
  }
}
