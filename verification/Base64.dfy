/** The hand-written base64 of basicAuthEncode (internal/discovery/bitbucket.go), against
    section 4 of RFC 4648. */
module Base64 {
  import opened Common

  type Bytes = seq<bv8>

  // ---------------------------------------------------------------- the standard's definition

  function BitsOf(b: bv8): (r: seq<bool>)
    ensures |r| == 8
  {
    [b & 0x80 != 0, b & 0x40 != 0, b & 0x20 != 0, b & 0x10 != 0,
     b & 0x08 != 0, b & 0x04 != 0, b & 0x02 != 0, b & 0x01 != 0]
  }

  /** The input as a string of bits, most significant first. */
  function Bits(bytes: Bytes): (r: seq<bool>)
    ensures |r| == 8 * |bytes|
  {
    if bytes == [] then [] else BitsOf(bytes[0]) + Bits(bytes[1..])
  }

  function ValueOf(bits: seq<bool>): (v: bv8)
    requires |bits| == 6
    ensures v <= 63
  {
    (if bits[0] then 0x20 else 0) | (if bits[1] then 0x10 else 0) | (if bits[2] then 0x08 else 0)
    | (if bits[3] then 0x04 else 0) | (if bits[4] then 0x02 else 0) | (if bits[5] then 0x01 else 0)
  }

  /** The standard's alphabet. */
  function Letter(i: int): (r: char)
    requires 0 <= i < 64
  {
    if i < 26 then ('A' as int + i) as char
    else if i < 52 then ('a' as int + (i - 26)) as char
    else if i < 62 then ('0' as int + (i - 52)) as char
    else if i == 62 then '+'
    else '/'
  }

  function Digit(v: bv8): (r: char)
    requires v <= 63
  {
    Letter(v as int)
  }

  /** Six bits to a character; a last short group is filled with zero bits on the right. */
  function Digits(bits: seq<bool>): (r: string)
    decreases |bits|
  {
    if bits == [] then ""
    else if |bits| < 6 then [Digit(ValueOf(bits + seq(6 - |bits|, _ => false)))]
    else [Digit(ValueOf(bits[..6]))] + Digits(bits[6..])
  }

  /** One pad character for each missing byte of the last group of three. */
  function Padding(n: nat): (r: string)
  {
    if n % 3 == 1 then "==" else if n % 3 == 2 then "=" else ""
  }

  function Encoded(bytes: Bytes): (r: string)
  {
    Digits(Bits(bytes)) + Padding(|bytes|)
  }

  // ---------------------------------------------------------------- the code

  const UPPER := "ABCDEFGHIJKLMNOPQRSTUVWXYZ"
  const LOWER := "abcdefghijklmnopqrstuvwxyz"
  const DECIMAL := "0123456789"
  const TAB := UPPER + LOWER + DECIMAL + "+/"

  /** The code's table is the standard's alphabet. */
  lemma TableIsAlphabet(i: int)
    requires 0 <= i < 64
    ensures |TAB| == 64 && TAB[i] == Letter(i)
  {
    assert |UPPER| == 26 && |LOWER| == 26 && |DECIMAL| == 10;
    if i < 26 {
      assert TAB[i] == UPPER[i];
    } else if i < 52 {
      assert TAB[i] == LOWER[i - 26];
    } else if i < 62 {
      assert TAB[i] == DECIMAL[i - 52];
    }
  }

  method Lookup(v: bv8) returns (c: char)
    requires v <= 63
    ensures c == Digit(v)
  {
    TableIsAlphabet(v as int);
    c := TAB[v as int];
  }

  function First(b1: bv8): (v: bv8)
    ensures v <= 63
  {
    b1 >> 2
  }

  function Second(b1: bv8, b2: bv8): (v: bv8)
    ensures v <= 63
  {
    ((b1 & 0x03) << 4) | (b2 >> 4)
  }

  function Third(b2: bv8, b3: bv8): (v: bv8)
    ensures v <= 63
  {
    ((b2 & 0x0f) << 2) | (b3 >> 6)
  }

  function Fourth(b3: bv8): (v: bv8)
    ensures v <= 63
  {
    b3 & 0x3f
  }

  /** The group of up to three bytes at `i`. */
  function GroupAt(src: Bytes, i: nat): (r: string)
    requires i < |src|
    ensures |r| == 4
  {
    var b1 := src[i];
    var b2 := if i + 1 < |src| then src[i + 1] else 0;
    var b3 := if i + 2 < |src| then src[i + 2] else 0;
    [Digit(First(b1)), Digit(Second(b1, b2)),
     if i + 1 < |src| then Digit(Third(b2, b3)) else '=',
     if i + 2 < |src| then Digit(Fourth(b3)) else '=']
  }

  /** Group by group, from `i` on. */
  function GroupsFrom(src: Bytes, i: nat): (r: string)
    decreases |src| - i
  {
    if i >= |src| then "" else GroupAt(src, i) + GroupsFrom(src, i + 3)
  }

  method BasicAuthEncode(src: Bytes) returns (out: string)
    ensures out == Encoded(src)
  {
    out := "";
    var i := 0;
    while i < |src|
      invariant 0 <= i && out + GroupsFrom(src, i) == GroupsFrom(src, 0)
      decreases |src| - i
    {
      var group := EncodeGroup(src, i);
      out := out + group;
      i := i + 3;
    }
    assert src[0..] == src;
    EncodedInGroups(src, 0);
  }

  /** The body of the loop. */
  method EncodeGroup(src: Bytes, i: nat) returns (group: string)
    requires i < |src|
    ensures group == GroupAt(src, i)
  {
    var b1, b2, b3 := src[i], 0, 0;
    if i + 1 < |src| {
      b2 := src[i + 1];
    }
    if i + 2 < |src| {
      b3 := src[i + 2];
    }
    var c1 := Lookup(First(b1));
    var c2 := Lookup(Second(b1, b2));
    var c3, c4 := '=', '=';
    if i + 1 < |src| {
      c3 := Lookup(Third(b2, b3));
    }
    if i + 2 < |src| {
      c4 := Lookup(Fourth(b3));
    }
    return [c1, c2, c3, c4];
  }

  // ---------------------------------------------------------------- groups are the standard's

  lemma FirstBits(b1: bv8)
    ensures ValueOf(BitsOf(b1)[..6]) == First(b1)
  {
  }

  lemma SecondBits(b1: bv8, b2: bv8)
    ensures ValueOf(BitsOf(b1)[6..] + BitsOf(b2)[..4]) == Second(b1, b2)
  {
  }

  lemma ThirdBits(b2: bv8, b3: bv8)
    ensures ValueOf(BitsOf(b2)[4..] + BitsOf(b3)[..2]) == Third(b2, b3)
  {
  }

  lemma FourthBits(b3: bv8)
    ensures ValueOf(BitsOf(b3)[2..]) == Fourth(b3)
  {
  }

  lemma SixBits(six: seq<bool>, rest: seq<bool>)
    requires |six| == 6
    ensures Digits(six + rest) == [Digit(ValueOf(six))] + Digits(rest)
  {
    assert (six + rest)[..6] == six && (six + rest)[6..] == rest;
  }

  lemma TwoDigits(p: seq<bool>, q: seq<bool>, rest: seq<bool>)
    requires |p| == |q| == 6
    ensures Digits(p + (q + rest)) == [Digit(ValueOf(p)), Digit(ValueOf(q))] + Digits(rest)
  {
    SixBits(p, q + rest);
    SixBits(q, rest);
  }

  lemma FullGroup(b1: bv8, b2: bv8, b3: bv8, rest: seq<bool>)
    ensures Digits(BitsOf(b1) + (BitsOf(b2) + (BitsOf(b3) + rest))) ==
      [Digit(First(b1)), Digit(Second(b1, b2)), Digit(Third(b2, b3)), Digit(Fourth(b3))] + Digits(rest)
  {
    var x, y, z := BitsOf(b1), BitsOf(b2), BitsOf(b3);
    Regroup(x, y, z, rest);
    TwoDigits(x[..6], x[6..] + y[..4], (y[4..] + z[..2]) + (z[2..] + rest));
    TwoDigits(y[4..] + z[..2], z[2..], rest);
    FirstBits(b1);
    SecondBits(b1, b2);
    ThirdBits(b2, b3);
    FourthBits(b3);
  }

  lemma Regroup(x: seq<bool>, y: seq<bool>, z: seq<bool>, rest: seq<bool>)
    requires |x| == |y| == |z| == 8
    ensures x + (y + (z + rest)) == x[..6] + ((x[6..] + y[..4]) + ((y[4..] + z[..2]) + (z[2..] + rest)))
  {
  }

  lemma ThreeBytes(s: Bytes)
    requires |s| >= 3
    ensures Bits(s) == BitsOf(s[0]) + (BitsOf(s[1]) + (BitsOf(s[2]) + Bits(s[3..])))
  {
    var t := s[1..];
    var u := t[1..];
    assert t[0] == s[1] && u[0] == s[2] && u[1..] == s[3..];
    assert Bits(t) == BitsOf(s[1]) + Bits(u);
  }

  lemma GroupOfTwo(b1: bv8, b2: bv8)
    ensures Digits(BitsOf(b1) + BitsOf(b2)) == [Digit(First(b1)), Digit(Second(b1, b2)), Digit(Third(b2, 0))]
  {
    var x, y := BitsOf(b1), BitsOf(b2);
    assert x + y == x[..6] + ((x[6..] + y[..4]) + y[4..]);
    FirstBits(b1);
    SecondBits(b1, b2);
    SixBits(x[..6], (x[6..] + y[..4]) + y[4..]);
    SixBits(x[6..] + y[..4], y[4..]);
    ThirdBits(b2, 0);
    assert y[4..] + seq(2, _ => false) == y[4..] + BitsOf(0)[..2];
  }

  lemma GroupOfOne(b1: bv8)
    ensures Digits(BitsOf(b1)) == [Digit(First(b1)), Digit(Second(b1, 0))]
  {
    var x := BitsOf(b1);
    assert x == x[..6] + x[6..];
    FirstBits(b1);
    SixBits(x[..6], x[6..]);
    SecondBits(b1, 0);
    assert x[6..] + seq(4, _ => false) == x[6..] + BitsOf(0)[..4];
  }

  lemma TwoBytes(s: Bytes)
    requires |s| == 2
    ensures Bits(s) == BitsOf(s[0]) + BitsOf(s[1])
  {
    assert s[1..] == [s[1]] && Bits(s[1..][1..]) == [];
  }

  lemma OneByte(s: Bytes)
    requires |s| == 1
    ensures Bits(s) == BitsOf(s[0])
  {
    assert Bits(s[1..]) == [];
  }

  lemma {:induction false} ShortGroupIsStandard(s: Bytes)
    requires 1 <= |s| <= 2
    ensures Encoded(s) == GroupAt(s, 0)
  {
    if |s| == 2 {
      TwoBytes(s);
      GroupOfTwo(s[0], s[1]);
    } else {
      OneByte(s);
      GroupOfOne(s[0]);
    }
  }

  lemma {:induction false} FullGroupIsStandard(s: Bytes)
    requires |s| >= 3
    ensures Encoded(s) == GroupAt(s, 0) + Encoded(s[3..])
  {
    ThreeBytes(s);
    FullGroup(s[0], s[1], s[2], Bits(s[3..]));
    assert Padding(|s|) == Padding(|s[3..]|);
  }

  lemma GroupAtShifted(src: Bytes, i: nat)
    requires i < |src|
    ensures GroupAt(src, i) == GroupAt(src[i..], 0)
  {
  }

  /** The code's groups spell the standard's encoding. */
  lemma {:induction false} EncodedInGroups(src: Bytes, i: nat)
    requires i <= |src|
    ensures GroupsFrom(src, i) == Encoded(src[i..])
    decreases |src| - i
  {
    if i < |src| {
      GroupAtShifted(src, i);
      if i + 3 <= |src| {
        FullGroupIsStandard(src[i..]);
        EncodedInGroups(src, i + 3);
        assert src[i..][3..] == src[i + 3..];
      } else {
        ShortGroupIsStandard(src[i..]);
      }
    } else {
      assert src[i..] == [];
    }
  }

  lemma {:induction false} LengthFrom(src: Bytes, i: nat)
    requires i <= |src|
    ensures |GroupsFrom(src, i)| == 4 * ((|src| - i + 2) / 3)
    decreases |src| - i
  {
    if i + 3 <= |src| {
      LengthFrom(src, i + 3);
    }
  }

  /** Four characters for each three bytes begun, and one pad character for each byte short. */
  lemma {:induction false} EncodedLength(bytes: Bytes)
    ensures |Encoded(bytes)| == 4 * ((|bytes| + 2) / 3)
  {
    assert bytes[0..] == bytes;
    EncodedInGroups(bytes, 0);
    LengthFrom(bytes, 0);
  }

  // ---------------------------------------------------------------- decoding

  /** The place of a character in the alphabet. */
  function Place(c: char): (r: Option<int>)
  {
    if 'A' <= c <= 'Z' then Some(c as int - 'A' as int)
    else if 'a' <= c <= 'z' then Some(c as int - 'a' as int + 26)
    else if '0' <= c <= '9' then Some(c as int - '0' as int + 52)
    else if c == '+' then Some(62)
    else if c == '/' then Some(63)
    else None
  }

  function Value(c: char): (r: Option<bv8>)
  {
    if Place(c).Some? then Some(Place(c).value as bv8) else None
  }

  lemma ByteOf(i: int)
    requires 0 <= i < 64
    ensures (i as bv8) as int == i
  {
  }

  lemma SmallByte(v: bv8)
    requires v as int < 64
    ensures v <= 63
  {
  }

  lemma ByteBack(v: bv8)
    ensures (v as int) as bv8 == v
  {
  }

  lemma PlaceOfLetter(i: int)
    requires 0 <= i < 64
    ensures Place(Letter(i)) == Some(i) && Letter(i) != '='
  {
  }

  lemma LetterOfPlace(c: char)
    requires Place(c).Some?
    ensures Letter(Place(c).value) == c
  {
  }

  lemma ValueOfDigit(v: bv8)
    requires v <= 63
    ensures Value(Digit(v)) == Some(v) && Digit(v) != '='
  {
    PlaceOfLetter(v as int);
    ByteBack(v);
  }

  lemma DigitOfValue(c: char)
    requires Value(c).Some?
    ensures Value(c).value <= 63 && Digit(Value(c).value) == c
  {
    LetterOfPlace(c);
    ByteOf(Place(c).value);
    SmallByte(Value(c).value);
  }

  /** Four characters as values, None for a pad character. */
  datatype Quad = Quad(v1: bv8, v2: bv8, v3: Option<bv8>, v4: Option<bv8>)

  predicate Small(v: Option<bv8>)
  {
    v.Some? ==> v.value <= 63
  }

  predicate InAlphabet(q: Quad)
  {
    q.v1 <= 63 && q.v2 <= 63 && Small(q.v3) && Small(q.v4)
  }

  function Pack(s: Bytes): (q: Quad)
    requires 1 <= |s| <= 3
    ensures InAlphabet(q)
  {
    if |s| == 1 then Quad(First(s[0]), Second(s[0], 0), None, None)
    else if |s| == 2 then Quad(First(s[0]), Second(s[0], s[1]), Some(Third(s[1], 0)), None)
    else Quad(First(s[0]), Second(s[0], s[1]), Some(Third(s[1], s[2])), Some(Fourth(s[2])))
  }

  function Byte1(v1: bv8, v2: bv8): (r: bv8)
  {
    (v1 << 2) | (v2 >> 4)
  }

  function Byte2(v2: bv8, v3: bv8): (r: bv8)
  {
    (v2 << 4) | (v3 >> 2)
  }

  function Byte3(v3: bv8, v4: bv8): (r: bv8)
  {
    (v3 << 6) | v4
  }

  predicate Ends1(v2: bv8)
  {
    v2 & 0x0f == 0
  }

  predicate Ends2(v3: bv8)
  {
    v3 & 0x03 == 0
  }

  /** The bytes of a group, whose unused bits must be zero. */
  function Unpack(q: Quad): (r: Option<Bytes>)
    ensures r.Some? ==> 1 <= |r.value| <= 3
  {
    match q
    case Quad(v1, v2, Some(v3), Some(v4)) => Some([Byte1(v1, v2), Byte2(v2, v3), Byte3(v3, v4)])
    case Quad(v1, v2, Some(v3), None) => if Ends2(v3) then Some([Byte1(v1, v2), Byte2(v2, v3)]) else None
    case Quad(v1, v2, None, None) => if Ends1(v2) then Some([Byte1(v1, v2)]) else None
    case _ => None
  }

  function Spelled(v: Option<bv8>): (r: char)
    requires Small(v)
  {
    if v.Some? then Digit(v.value) else '='
  }

  function Spell(q: Quad): (r: string)
    requires InAlphabet(q)
  {
    [Digit(q.v1), Digit(q.v2), Spelled(q.v3), Spelled(q.v4)]
  }

  predicate Readable(c: char)
  {
    c == '=' || Value(c).Some?
  }

  function ReadQuad(c1: char, c2: char, c3: char, c4: char): (r: Option<Quad>)
  {
    if Value(c1).None? || Value(c2).None? || !Readable(c3) || !Readable(c4) then None
    else Some(Quad(Value(c1).value, Value(c2).value, Value(c3), Value(c4)))
  }

  /** One group of four characters: three bytes, or fewer when it is padded. */
  function DecodeGroup(c1: char, c2: char, c3: char, c4: char): (r: Option<Bytes>)
    ensures r.Some? ==> 1 <= |r.value| <= 3
  {
    var q := ReadQuad(c1, c2, c3, c4);
    if q.None? then None else Unpack(q.value)
  }

  /** The standard's decoder, strict on padding, which only ends a text, and on unused bits. */
  function Decode(t: string): (r: Option<Bytes>)
    decreases |t|
  {
    if t == "" then Some([])
    else if |t| < 4 then None
    else
      var group := DecodeGroup(t[0], t[1], t[2], t[3]);
      if group.None? then None
      else if |group.value| < 3 then (if |t| == 4 then group else None)
      else
        var rest := Decode(t[4..]);
        if rest.None? then None else Some(group.value + rest.value)
  }

  // ---------------------------------------------------------------- encoding and decoding are inverse

  lemma BytesBack(b1: bv8, b2: bv8, b3: bv8)
    ensures Byte1(First(b1), Second(b1, b2)) == b1
    ensures Byte2(Second(b1, b2), Third(b2, b3)) == b2
    ensures Byte3(Third(b2, b3), Fourth(b3)) == b3
    ensures Ends1(Second(b1, 0)) && Ends2(Third(b2, 0))
  {
  }

  lemma ValuesBack(v1: bv8, v2: bv8, v3: bv8, v4: bv8)
    requires v1 <= 63 && v2 <= 63 && v3 <= 63 && v4 <= 63
    ensures First(Byte1(v1, v2)) == v1
    ensures Second(Byte1(v1, v2), Byte2(v2, v3)) == v2
    ensures Third(Byte2(v2, v3), Byte3(v3, v4)) == v3
    ensures Fourth(Byte3(v3, v4)) == v4
    ensures Ends1(v2) ==> Second(Byte1(v1, v2), 0) == v2
    ensures Ends2(v3) ==> Third(Byte2(v2, v3), 0) == v3
  {
  }

  lemma UnpackInvertsPack(s: Bytes)
    requires 1 <= |s| <= 3
    ensures Unpack(Pack(s)) == Some(s)
  {
    if |s| == 1 {
      BytesBack(s[0], 0, 0);
      assert s == [s[0]];
    } else if |s| == 2 {
      BytesBack(s[0], s[1], 0);
      assert s == [s[0], s[1]];
    } else {
      BytesBack(s[0], s[1], s[2]);
      assert s == [s[0], s[1], s[2]];
    }
  }

  lemma PackInvertsUnpack(q: Quad)
    requires InAlphabet(q) && Unpack(q).Some?
    ensures Pack(Unpack(q).value) == q
  {
    match q
    case Quad(v1, v2, Some(v3), Some(v4)) => ValuesBack(v1, v2, v3, v4);
    case Quad(v1, v2, Some(v3), None) => ValuesBack(v1, v2, v3, 0);
    case Quad(v1, v2, None, _) => ValuesBack(v1, v2, 0, 0);
  }

  lemma ReadSpelled(v: Option<bv8>)
    requires Small(v)
    ensures Value(Spelled(v)) == v && Readable(Spelled(v))
  {
    if v.Some? {
      ValueOfDigit(v.value);
    }
  }

  lemma SpellRead(c: char)
    requires Readable(c)
    ensures Small(Value(c)) && Spelled(Value(c)) == c
  {
    if Value(c).Some? {
      DigitOfValue(c);
    }
  }

  lemma {:induction false} GroupDecodes(s: Bytes)
    requires 1 <= |s| <= 3
    ensures var g := GroupAt(s, 0);
      DecodeGroup(g[0], g[1], g[2], g[3]) == Some(s)
  {
    var q := Pack(s);
    GroupIsSpelled(s);
    ReadSpelled(Some(q.v1));
    ReadSpelled(Some(q.v2));
    ReadSpelled(q.v3);
    ReadSpelled(q.v4);
    UnpackInvertsPack(s);
  }

  lemma GroupIsSpelled(s: Bytes)
    requires 1 <= |s| <= 3
    ensures GroupAt(s, 0) == Spell(Pack(s))
  {
    var g, p := GroupAt(s, 0), Spell(Pack(s));
    if |s| == 1 {
      assert g[0] == p[0] && g[1] == p[1];
    } else if |s| == 2 {
      assert g[0] == p[0] && g[1] == p[1] && g[2] == p[2];
    } else {
      assert g[0] == p[0] && g[1] == p[1] && g[2] == p[2] && g[3] == p[3];
    }
  }

  lemma {:induction false} GroupEncodes(c1: char, c2: char, c3: char, c4: char)
    requires DecodeGroup(c1, c2, c3, c4).Some?
    ensures GroupAt(DecodeGroup(c1, c2, c3, c4).value, 0) == [c1, c2, c3, c4]
  {
    var q := ReadQuad(c1, c2, c3, c4).value;
    SpellRead(c1);
    SpellRead(c2);
    SpellRead(c3);
    SpellRead(c4);
    PackInvertsUnpack(q);
    GroupIsSpelled(Unpack(q).value);
  }

  lemma DecodeBeforeRest(group: Bytes, rest: string)
    requires |group| == 3 && Decode(rest).Some?
    ensures Decode(GroupAt(group, 0) + rest) == Some(group + Decode(rest).value)
  {
    var t := GroupAt(group, 0) + rest;
    GroupDecodes(group);
    assert t[4..] == rest;
  }

  lemma DecodeShort(group: Bytes)
    requires 1 <= |group| <= 2
    ensures Decode(GroupAt(group, 0)) == Some(group)
  {
    GroupDecodes(group);
  }

  lemma {:induction false} DecodeInvertsEncode(bytes: Bytes)
    ensures Decode(Encoded(bytes)) == Some(bytes)
    decreases |bytes|
  {
    if |bytes| >= 3 {
      var group, rest := bytes[..3], bytes[3..];
      assert bytes == group + rest;
      DecodeInvertsEncode(rest);
      EncodedAfterGroup(group, rest);
      DecodeBeforeRest(group, Encoded(rest));
    } else if bytes != [] {
      ShortGroupIsStandard(bytes);
      DecodeShort(bytes);
    } else {
      assert Encoded(bytes) == "";
    }
  }

  lemma {:induction false} EncodeInvertsDecode(t: string)
    requires Decode(t).Some?
    ensures Encoded(Decode(t).value) == t
    decreases |t|
  {
    if t != "" {
      var head, tail := t[..4], t[4..];
      var group := DecodeGroup(t[0], t[1], t[2], t[3]).value;
      GroupEncodes(t[0], t[1], t[2], t[3]);
      assert head == GroupAt(group, 0) && t == head + tail;
      if |group| < 3 {
        ShortGroupIsStandard(group);
        assert tail == "";
      } else {
        EncodeInvertsDecode(tail);
        EncodedAfterGroup(group, Decode(tail).value);
      }
    }
  }

  lemma EncodedAfterGroup(group: Bytes, rest: Bytes)
    requires |group| == 3
    ensures Encoded(group + rest) == GroupAt(group, 0) + Encoded(rest)
  {
    var s := group + rest;
    assert s[3..] == rest;
    FullGroupIsStandard(s);
    assert GroupAt(s, 0) == GroupAt(group, 0);
  }

  /** The standard's decoder accepts exactly the texts the encoder produces, and gives back
      their bytes; so no two byte strings have the same encoding. */
  lemma {:induction false} DecodesExactly(bytes: Bytes, t: string)
    ensures Decode(t) == Some(bytes) <==> t == Encoded(bytes)
  {
    DecodeInvertsEncode(bytes);
    if Decode(t).Some? {
      EncodeInvertsDecode(t);
    }
  }

  lemma {:induction false} EncodedInjective(a: Bytes, b: Bytes)
    ensures Encoded(a) == Encoded(b) <==> a == b
  {
    DecodeInvertsEncode(a);
    DecodeInvertsEncode(b);
  }
}
