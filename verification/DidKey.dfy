/** The texts of keys: base58btc without its multibase prefix, and canonical unpadded base64url of 32 bytes. */
module DidKey {
  import opened Basics
  import opened Numerals

  type Byte = b: int | 0 <= b < 256

  // ---------------------------------------------------------------- base58

  /** The digits and letters without 0, I, O and l. */
  const BASE58 := "123456789" + "ABCDEFGH" + "JKLMN" + "PQRSTUVWXYZ" + "abcdefghijk" + "mnopqrstuvwxyz"

  predicate InRange(c: char, from: char, to: char) {
    from <= c <= to
  }

  /** The digit a character stands for; 58 for any other character. */
  function Digit58(c: char): (d: nat)
    ensures d <= 58
  {
    if InRange(c, '1', '9') then c as int - '1' as int
    else if InRange(c, 'A', 'H') then c as int - 'A' as int + 9
    else if InRange(c, 'J', 'N') then c as int - 'J' as int + 17
    else if InRange(c, 'P', 'Z') then c as int - 'P' as int + 22
    else if InRange(c, 'a', 'k') then c as int - 'a' as int + 33
    else if InRange(c, 'm', 'z') then c as int - 'm' as int + 44
    else 58
  }

  function Upto(first: char, n: nat): string
    requires first as int + n <= 128
  {
    seq(n, i requires 0 <= i < n => (first as int + i) as char)
  }

  lemma AlphabetRanges()
    ensures BASE58 == Upto('1', 9) + Upto('A', 8) + Upto('J', 5) + Upto('P', 11) + Upto('a', 11) + Upto('m', 14)
  {
    assert "123456789" == Upto('1', 9);
    assert "ABCDEFGH" == Upto('A', 8);
    assert "JKLMN" == Upto('J', 5);
    assert "PQRSTUVWXYZ" == Upto('P', 11);
    assert "abcdefghijk" == Upto('a', 11);
    assert "mnopqrstuvwxyz" == Upto('m', 14);
  }

  lemma AlphabetIsBase58(d: nat)
    requires d < 58
    ensures |BASE58| == 58 && Digit58(BASE58[d]) == d
  {
    AlphabetRanges();
  }

  lemma Digit58IsOneToOne(a: char, b: char)
    requires Digit58(a) == Digit58(b) < 58
    ensures a == b
  {
  }

  function Char58(d: nat): (c: char)
    requires d < 58
    ensures Digit58(c) == d
  {
    AlphabetIsBase58(d);
    BASE58[d]
  }

  function Text58(ds: seq<nat>): (text: string)
    requires DigitsOf(ds, 58)
    ensures |text| == |ds| && forall i :: 0 <= i < |ds| ==> Digit58(text[i]) == ds[i]
  {
    seq(|ds|, i requires 0 <= i < |ds| => Char58(ds[i]))
  }

  predicate IsText58(text: string) {
    forall i :: 0 <= i < |text| ==> Digit58(text[i]) < 58
  }

  function Digits58(text: string): (ds: seq<nat>)
    ensures |ds| == |text| && forall i :: 0 <= i < |ds| ==> ds[i] == Digit58(text[i])
  {
    seq(|text|, i requires 0 <= i < |text| => Digit58(text[i]))
  }

  /** The specification: the bytes as a numeral in base 256, rewritten in base 58. */
  function Base58(bytes: seq<Byte>): (text: string)
    ensures IsText58(text)
  {
    Text58(Rebase(bytes, 256, 58))
  }

  /** The decoding of a base58 text. */
  function FromBase58(text: string): (bytes: seq<nat>)
    requires IsText58(text)
    ensures DigitsOf(bytes, 256)
  {
    Rebase(Digits58(text), 58, 256)
  }

  lemma DigitsOfText(ds: seq<nat>)
    requires DigitsOf(ds, 58)
    ensures Digits58(Text58(ds)) == ds
  {
  }

  lemma TextOfDigits(text: string)
    requires IsText58(text)
    ensures Text58(Digits58(text)) == text
  {
    forall i | 0 <= i < |text| ensures Text58(Digits58(text))[i] == text[i] {
      Digit58IsOneToOne(Text58(Digits58(text))[i], text[i]);
    }
  }

  /** Decoding gives back the same bytes, leading zeros included. */
  lemma Base58RoundTrip(bytes: seq<Byte>)
    ensures FromBase58(Base58(bytes)) == bytes
  {
    var ds := Rebase(bytes, 256, 58);
    DigitsOfText(ds);
    RebaseBack(bytes, 256, 58);
  }

  /** And every text over the alphabet is the encoding of what it decodes to. */
  lemma Base58IsOnto(text: string)
    requires IsText58(text)
    ensures var bytes: seq<Byte> := FromBase58(text); Base58(bytes) == text
  {
    var ds := Digits58(text);
    RebaseBack(ds, 58, 256);
    TextOfDigits(text);
  }

  lemma Base58IsOneToOne(a: seq<Byte>, b: seq<Byte>)
    requires Base58(a) == Base58(b)
    ensures a == b
  {
    Base58RoundTrip(a);
    Base58RoundTrip(b);
  }

  function Repeat(c: char, n: nat): string {
    seq(n, i => c)
  }

  lemma TextOfZeros(n: nat, ds: seq<nat>)
    requires DigitsOf(ds, 58)
    ensures Text58(Zeros(n) + ds) == Repeat('1', n) + Text58(ds)
  {
    assert Digit58('1') == 0;
    var (a, b) := (Text58(Zeros(n) + ds), Repeat('1', n) + Text58(ds));
    forall i | 0 <= i < |a| ensures a[i] == b[i] {
      Digit58IsOneToOne(a[i], b[i]);
    }
  }

  method ReadNumber(bytes: seq<Byte>) returns (value: nat)
    ensures value == FromDigits(bytes, 256)
  {
    value := 0;
    for i := 0 to |bytes|
      invariant value == FromDigits(bytes[..i], 256)
    {
      assert bytes[..i + 1][..i] == bytes[..i];
      value := value * 256 + bytes[i];
    }
    assert bytes[..|bytes|] == bytes;
  }

  method WriteDigits(number: nat) returns (text: string)
    ensures text == Text58(ToDigits(number, 58))
  {
    var value := number;
    ghost var done: seq<nat> := [];
    text := "";
    while value > 0
      invariant DigitsOf(done, 58) && ToDigits(value, 58) + done == ToDigits(number, 58)
      invariant text == Text58(done)
    {
      ToDigitsStep(value, 58);
      assert ToDigits(value, 58) + done == ToDigits(value / 58, 58) + ([value % 58] + done);
      TextOfOneMore(value % 58, done);
      text := [Char58(value % 58)] + text;
      done := [value % 58] + done;
      value := value / 58;
    }
    assert done == ToDigits(number, 58);
  }

  lemma TextOfOneMore(d: nat, ds: seq<nat>)
    requires d < 58 && DigitsOf(ds, 58)
    ensures DigitsOf([d] + ds, 58) && Text58([d] + ds) == [Char58(d)] + Text58(ds)
  {
  }

  method CountZeroBytes(bytes: seq<Byte>) returns (zeros: nat)
    ensures zeros == LeadingZeros(bytes)
  {
    zeros := 0;
    while zeros < |bytes| && bytes[zeros] == 0
      invariant zeros <= |bytes| && LeadingZeros(bytes) == zeros + LeadingZeros(bytes[zeros..])
    {
      assert bytes[zeros..][1..] == bytes[zeros + 1..];
      zeros := zeros + 1;
    }
  }

  /** The encoder: the number of the bytes, its digits, and a `1` for each zero byte in front. */
  method EncodeBase58(bytes: seq<Byte>) returns (text: string)
    ensures text == Base58(bytes)
  {
    var value := ReadNumber(bytes);
    text := WriteDigits(value);
    var zeros := CountZeroBytes(bytes);
    TextOfZeros(zeros, ToDigits(value, 58));
    text := Repeat('1', zeros) + text;
  }

  /** The `did:key` of an Ed25519 public key. */
  function Ed25519DidKey(publicKey: seq<Byte>): string {
    "did:key:z" + Base58([0xed, 0x01] + publicKey)
  }

  /** Different keys have different identifiers. */
  lemma DidKeyIsOneToOne(a: seq<Byte>, b: seq<Byte>)
    requires Ed25519DidKey(a) == Ed25519DidKey(b)
    ensures a == b
  {
    var prefix := "did:key:z";
    assert (prefix + Base58([0xed, 0x01] + a))[|prefix|..] == Base58([0xed, 0x01] + a);
    assert (prefix + Base58([0xed, 0x01] + b))[|prefix|..] == Base58([0xed, 0x01] + b);
    Base58IsOneToOne([0xed, 0x01] + a, [0xed, 0x01] + b);
    assert ([0xed, 0x01] + a)[2..] == a && ([0xed, 0x01] + b)[2..] == b;
  }

  // ---------------------------------------------------------------- base64url

  type Sextet = s: int | 0 <= s < 64

  /** The value of a character of the URL-safe alphabet; 64 for any other character. */
  function Value64(c: char): (v: nat)
    ensures v <= 64
  {
    if InRange(c, 'A', 'Z') then c as int - 'A' as int
    else if InRange(c, 'a', 'z') then c as int - 'a' as int + 26
    else if InRange(c, '0', '9') then c as int - '0' as int + 52
    else if c == '-' then 62
    else if c == '_' then 63
    else 64
  }

  function Char64(v: Sextet): (c: char)
    ensures Value64(c) == v
  {
    if v < 26 then ('A' as int + v) as char
    else if v < 52 then ('a' as int + v - 26) as char
    else if v < 62 then ('0' as int + v - 52) as char
    else if v == 62 then '-'
    else '_'
  }

  lemma Value64IsOneToOne(a: char, b: char)
    requires Value64(a) == Value64(b) < 64
    ensures a == b
  {
  }

  predicate IsText64(text: string) {
    forall i :: 0 <= i < |text| ==> Value64(text[i]) < 64
  }

  function Values(text: string): (v: seq<Sextet>)
    requires IsText64(text)
    ensures |v| == |text| && forall i :: 0 <= i < |v| ==> v[i] == Value64(text[i])
  {
    seq(|text|, i requires 0 <= i < |text| => Value64(text[i]) as Sextet)
  }

  function Text64(v: seq<Sextet>): (text: string)
    ensures |text| == |v| && forall i :: 0 <= i < |v| ==> Value64(text[i]) == v[i]
  {
    seq(|v|, i requires 0 <= i < |v| => Char64(v[i]))
  }

  lemma ValuesOfText(v: seq<Sextet>)
    ensures IsText64(Text64(v)) && Values(Text64(v)) == v
  {
  }

  lemma TextOfValues(text: string)
    requires IsText64(text)
    ensures Text64(Values(text)) == text
  {
    forall i | 0 <= i < |text| ensures Text64(Values(text))[i] == text[i] {
      Value64IsOneToOne(Text64(Values(text))[i], text[i]);
    }
  }

  /** Three bytes as four sextets, and back. */
  function Group(x: Byte, y: Byte, z: Byte): seq<Sextet> {
    [x / 4, x % 4 * 16 + y / 16, y % 16 * 4 + z / 64, z % 64]
  }

  function Ungroup(a: Sextet, b: Sextet, c: Sextet, d: Sextet): seq<Byte> {
    [a * 4 + b / 16, b % 16 * 16 + c / 4, c % 4 * 64 + d]
  }

  /** One or two bytes left over are two or three sextets, unused bits zero. */
  function Pack(b: seq<Byte>): (v: seq<Sextet>) {
    if |b| >= 3 then Group(b[0], b[1], b[2]) + Pack(b[3..])
    else if |b| == 2 then Group(b[0], b[1], 0)[..3]
    else if |b| == 1 then Group(b[0], 0, 0)[..2]
    else []
  }

  /** Unused bits are dropped, and so is a single sextet left over. */
  function Unpack(v: seq<Sextet>): (b: seq<Byte>) {
    if |v| >= 4 then Ungroup(v[0], v[1], v[2], v[3]) + Unpack(v[4..])
    else if |v| == 3 then Ungroup(v[0], v[1], v[2], 0)[..2]
    else if |v| == 2 then Ungroup(v[0], v[1], 0, 0)[..1]
    else []
  }

  function Encode64(b: seq<Byte>): string {
    Text64(Pack(b))
  }

  function Decode64(t: string): seq<Byte>
    requires IsText64(t)
  {
    Unpack(Values(t))
  }

  /** `base64url32`: a text of 43 characters of the alphabet that is the encoding of its own decoding. */
  function Base64Url32(text: Option<string>): Option<seq<Byte>> {
    if text.None? || |text.value| != 43 || !IsText64(text.value) then None
    else if Encode64(Decode64(text.value)) == text.value then Some(Decode64(text.value))
    else None
  }

  lemma UngroupGroup(x: Byte, y: Byte, z: Byte)
    ensures var g := Group(x, y, z); Ungroup(g[0], g[1], g[2], g[3]) == [x, y, z]
  {
  }

  lemma Bits4(a: Sextet, b: Sextet)
    ensures (a * 4 + b / 16) / 4 == a && (a * 4 + b / 16) % 4 == b / 16
  {
  }

  lemma Bits16(b: Sextet, c: Sextet)
    ensures (b % 16 * 16 + c / 4) / 16 == b % 16 && (b % 16 * 16 + c / 4) % 16 == c / 4
  {
  }

  lemma Bits64(c: Sextet, d: Sextet)
    ensures (c % 4 * 64 + d) / 64 == c % 4 && (c % 4 * 64 + d) % 64 == d
  {
  }

  lemma GroupUngroup(a: Sextet, b: Sextet, c: Sextet, d: Sextet)
    ensures var u := Ungroup(a, b, c, d); Group(u[0], u[1], u[2]) == [a, b, c, d]
  {
    var x: Byte := a * 4 + b / 16;
    var y: Byte := b % 16 * 16 + c / 4;
    var z: Byte := c % 4 * 64 + d;
    Joined(a, b, c, d, x, y, z);
    assert Ungroup(a, b, c, d) == [x, y, z];
    assert Group(x, y, z) == [a, b, c, d];
  }

  lemma Joined(a: Sextet, b: Sextet, c: Sextet, d: Sextet, x: Byte, y: Byte, z: Byte)
    requires x == a * 4 + b / 16 && y == b % 16 * 16 + c / 4 && z == c % 4 * 64 + d
    ensures x / 4 == a && x % 4 * 16 + y / 16 == b && y % 16 * 4 + z / 64 == c && z % 64 == d
  {
    Bits4(a, b);
    Bits16(b, c);
    Bits64(c, d);
  }

  lemma PackFirst(g: seq<Byte>, rest: seq<Byte>)
    requires |g| == 3
    ensures Pack(g + rest) == Group(g[0], g[1], g[2]) + Pack(rest)
  {
    assert (g + rest)[3..] == rest;
  }

  lemma UnpackFirst(g: seq<Sextet>, rest: seq<Sextet>)
    requires |g| == 4
    ensures Unpack(g + rest) == Ungroup(g[0], g[1], g[2], g[3]) + Unpack(rest)
  {
    assert (g + rest)[4..] == rest;
  }

  lemma {:induction false} UnpackPack(b: seq<Byte>)
    ensures Unpack(Pack(b)) == b
  {
    if |b| >= 3 {
      UnpackPack(b[3..]);
      UngroupGroup(b[0], b[1], b[2]);
      UnpackFirst(Group(b[0], b[1], b[2]), Pack(b[3..]));
      assert b == [b[0], b[1], b[2]] + b[3..];
    } else if |b| == 2 {
      UngroupGroup(b[0], b[1], 0);
      assert Unpack(Pack(b)) == Ungroup(Group(b[0], b[1], 0)[0], Group(b[0], b[1], 0)[1], Group(b[0], b[1], 0)[2], 0)[..2];
    } else if |b| == 1 {
      UngroupGroup(b[0], 0, 0);
      assert Unpack(Pack(b)) == Ungroup(Group(b[0], 0, 0)[0], Group(b[0], 0, 0)[1], 0, 0)[..1];
    }
  }

  /** The sextets that carry no unused bits, or whose unused bits are zero. */
  predicate UnusedBitsAreZero(v: seq<Sextet>) {
    match |v| % 4
    case 0 => true
    case 1 => false
    case 2 => v[|v| - 1] % 16 == 0
    case _ => v[|v| - 1] % 4 == 0
  }

  lemma PackTwo(x: Byte, y: Byte)
    ensures Pack([x, y]) == [x / 4, x % 4 * 16 + y / 16, y % 16 * 4]
  {
  }

  lemma PackOne(x: Byte)
    ensures Pack([x]) == [x / 4, x % 4 * 16]
  {
  }

  lemma UnpackThree(a: Sextet, b: Sextet, c: Sextet)
    ensures Unpack([a, b, c]) == [a * 4 + b / 16, b % 16 * 16 + c / 4]
  {
  }

  lemma UnpackTwo(a: Sextet, b: Sextet)
    ensures Unpack([a, b]) == [a * 4 + b / 16]
  {
  }

  lemma TwoBytesLeft(a: Sextet, b: Sextet, c: Sextet)
    ensures Pack(Unpack([a, b, c])) == [a, b, c / 4 * 4]
  {
    UnpackThree(a, b, c);
    PackTwo(a * 4 + b / 16, b % 16 * 16 + c / 4);
    Bits4(a, b);
    Bits16(b, c);
  }

  lemma OneByteLeft(a: Sextet, b: Sextet)
    ensures Pack(Unpack([a, b])) == [a, b / 16 * 16]
  {
    UnpackTwo(a, b);
    PackOne(a * 4 + b / 16);
    Bits4(a, b);
  }

  lemma SameThree(v: seq<Sextet>, r: seq<Sextet>)
    requires |v| == 3 && r == [v[0], v[1], v[2] / 4 * 4]
    ensures r == v <==> v[2] % 4 == 0
  {
    assert r[2] == v[2] <==> v[2] % 4 == 0;
    assert r == v <==> r[2] == v[2];
  }

  lemma SameTwo(v: seq<Sextet>, r: seq<Sextet>)
    requires |v| == 2 && r == [v[0], v[1] / 16 * 16]
    ensures r == v <==> v[1] % 16 == 0
  {
    assert r[1] == v[1] <==> v[1] % 16 == 0;
    assert r == v <==> r[1] == v[1];
  }

  lemma PackUnpackThree(v: seq<Sextet>)
    requires |v| == 3
    ensures Pack(Unpack(v)) == v <==> v[2] % 4 == 0
  {
    TwoBytesLeft(v[0], v[1], v[2]);
    var w := [v[0], v[1], v[2]];
    assert v == w;
    SameThree(v, Pack(Unpack(w)));
  }

  lemma PackUnpackTwo(v: seq<Sextet>)
    requires |v| == 2
    ensures Pack(Unpack(v)) == v <==> v[1] % 16 == 0
  {
    OneByteLeft(v[0], v[1]);
    var w := [v[0], v[1]];
    assert v == w;
    SameTwo(v, Pack(Unpack(w)));
  }

  lemma UnusedBitsOfRest(v: seq<Sextet>)
    requires |v| >= 4
    ensures UnusedBitsAreZero(v) <==> UnusedBitsAreZero(v[4..])
  {
  }

  lemma PackUnpackFirst(v: seq<Sextet>)
    requires |v| >= 4
    ensures Pack(Unpack(v)) == [v[0], v[1], v[2], v[3]] + Pack(Unpack(v[4..]))
  {
    GroupUngroup(v[0], v[1], v[2], v[3]);
    PackFirst(Ungroup(v[0], v[1], v[2], v[3]), Unpack(v[4..]));
  }

  lemma SameAfterFirst(v: seq<Sextet>, rest: seq<Sextet>)
    requires |v| >= 4
    ensures [v[0], v[1], v[2], v[3]] + rest == v <==> rest == v[4..]
  {
    var g := [v[0], v[1], v[2], v[3]];
    assert (g + rest)[4..] == rest;
    assert g + v[4..] == v;
  }

  /** Sextets are the packing of their unpacking exactly when their unused bits are zero. */
  lemma {:induction false} PackUnpack(v: seq<Sextet>)
    ensures Pack(Unpack(v)) == v <==> UnusedBitsAreZero(v)
    decreases |v|
  {
    if |v| >= 4 {
      PackUnpackFirst(v);
      SameAfterFirst(v, Pack(Unpack(v[4..])));
      PackUnpack(v[4..]);
      UnusedBitsOfRest(v);
    } else if |v| == 3 {
      PackUnpackThree(v);
    } else if |v| == 2 {
      PackUnpackTwo(v);
    }
  }

  lemma {:induction false} Lengths(b: seq<Byte>, v: seq<Sextet>)
    ensures |Pack(b)| == |b| / 3 * 4 + (if |b| % 3 == 0 then 0 else |b| % 3 + 1)
    ensures |Unpack(v)| == |v| / 4 * 3 + (if |v| % 4 <= 1 then 0 else |v| % 4 - 1)
    decreases |b| + |v|
  {
    if |b| >= 3 {
      Lengths(b[3..], if |v| >= 4 then v[4..] else v);
    } else if |v| >= 4 {
      Lengths(b, v[4..]);
    }
  }

  /** Exactly the texts of 43 characters of the alphabet whose last one has two zero bits are accepted, and
      they give 32 bytes. */
  lemma AcceptsExactly(t: string)
    ensures Base64Url32(Some(t)).Some? <==> |t| == 43 && IsText64(t) && Value64(t[42]) % 4 == 0
    ensures Base64Url32(Some(t)).Some? ==> |Base64Url32(Some(t)).value| == 32
  {
    if |t| == 43 && IsText64(t) {
      PackUnpack(Values(t));
      Lengths([], Values(t));
      TextOfValues(t);
      ValuesOfText(Pack(Unpack(Values(t))));
    }
  }

  /** Accepted texts and 32-byte strings correspond one to one: each 32-byte string has one accepted text,
      its encoding. */
  lemma TextsAreKeys(bytes: seq<Byte>, t: string)
    requires |bytes| == 32
    ensures Base64Url32(Some(t)) == Some(bytes) <==> t == Encode64(bytes)
  {
    Lengths(bytes, []);
    UnpackPack(bytes);
    ValuesOfText(Pack(bytes));
  }
}
