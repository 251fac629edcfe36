/** The UTF-8 bytes of a text (section 3 of RFC 3629), as they are hashed. A surrogate without its partner becomes the
    replacement character, so the bytes tell only texts apart that have none; a canonical text has none. */
module Utf8 {
  import opened Basics
  import opened Text
  import opened JsonNumber
  import opened JsonString
  import opened Json
  import Numerals

  type Byte = b: int | 0 <= b < 256

  const REPLACEMENT := 0xFFFD

  // ---------------------------------------------------------------- the encoding

  /** The code point at the front of a text. */
  function First(s: Str): (c: nat)
    requires s != []
    ensures c < 0x11_0000
  {
    if StartsWithPair(s) then 0x1_0000 + (s[0] - 0xD800) * 0x400 + (s[1] - 0xDC00)
    else if IsHigh(s[0]) || IsLow(s[0]) then REPLACEMENT
    else s[0]
  }

  function Rest(s: Str): (r: Str)
    requires s != []
    ensures |r| < |s|
  {
    if StartsWithPair(s) then s[2..] else s[1..]
  }

  function Bytes(c: nat): (b: seq<Byte>)
    requires c < 0x11_0000
    ensures b != []
  {
    if c < 0x80 then [c]
    else if c < 0x800 then [0xC0 + c / 64, 0x80 + c % 64]
    else if c < 0x1_0000 then [0xE0 + c / 4096, 0x80 + c / 64 % 64, 0x80 + c % 64]
    else [0xF0 + c / 262144, 0x80 + c / 4096 % 64, 0x80 + c / 64 % 64, 0x80 + c % 64]
  }

  function Encode(s: Str): seq<Byte>
    decreases |s|
  {
    if s == [] then [] else Bytes(First(s)) + Encode(Rest(s))
  }

  // ---------------------------------------------------------------- texts without lone surrogates

  predicate Whole(s: Str)
    decreases |s|
  {
    s == [] || ((StartsWithPair(s) || (!IsHigh(s[0]) && !IsLow(s[0]))) && Whole(Rest(s)))
  }

  /** The number of bytes is told by the first one. */
  function Length(b: Byte): nat {
    if b < 0x80 then 1 else if b < 0xE0 then 2 else if b < 0xF0 then 3 else 4
  }

  lemma LengthOfBytes(c: nat)
    requires c < 0x11_0000
    ensures |Bytes(c)| == Length(Bytes(c)[0])
  {
  }

  lemma Sextets(c: nat)
    ensures c == c / 64 * 64 + c % 64 && c / 64 == c / 4096 * 64 + c / 64 % 64 && c / 4096 == c / 262144 * 64 + c / 4096 % 64
  {
  }

  lemma BytesAreOneToOne(c: nat, d: nat)
    requires c < 0x11_0000 && d < 0x11_0000 && Bytes(c) == Bytes(d)
    ensures c == d
  {
    Sextets(c);
    Sextets(d);
    var (b, e) := (Bytes(c), Bytes(d));
    assert b[0] == e[0] && b[|b| - 1] == e[|e| - 1];
    assert |b| >= 3 ==> b[1] == e[1];
    assert |b| == 4 ==> b[2] == e[2];
  }

  lemma FrontOfBytes(c: nat, x: seq<Byte>, d: nat, y: seq<Byte>)
    requires c < 0x11_0000 && d < 0x11_0000 && Bytes(c) + x == Bytes(d) + y
    ensures Bytes(c) == Bytes(d) && x == y
  {
    LengthOfBytes(c);
    LengthOfBytes(d);
    var all := Bytes(c) + x;
    assert all[0] == Bytes(c)[0] == Bytes(d)[0];
    var n := |Bytes(c)|;
    assert all[..n] == Bytes(c) && (Bytes(d) + y)[..n] == Bytes(d);
    assert all[n..] == x && (Bytes(d) + y)[n..] == y;
  }

  lemma FirstDecides(a: Str, b: Str)
    requires a != [] && b != [] && Whole(a) && Whole(b) && First(a) == First(b) && Rest(a) == Rest(b)
    ensures a == b
  {
    if StartsWithPair(a) {
      assert a == [a[0], a[1]] + a[2..] && b == [b[0], b[1]] + b[2..];
    } else {
      assert a == [a[0]] + a[1..] && b == [b[0]] + b[1..];
    }
  }

  /** Texts without lone surrogates are told apart by their bytes. */
  lemma {:induction false} EncodeIsOneToOne(a: Str, b: Str)
    requires Whole(a) && Whole(b) && Encode(a) == Encode(b)
    ensures a == b
    decreases |a|
  {
    if a != [] && b != [] {
      FrontOfBytes(First(a), Encode(Rest(a)), First(b), Encode(Rest(b)));
      BytesAreOneToOne(First(a), First(b));
      EncodeIsOneToOne(Rest(a), Rest(b));
      FirstDecides(a, b);
    }
  }

  /** Others are not: all lone surrogates have the same bytes. */
  lemma LoneSurrogatesMerge(u: Unit, v: Unit)
    requires (IsHigh(u) || IsLow(u)) && (IsHigh(v) || IsLow(v))
    ensures Encode([u]) == Encode([v])
  {
  }

  // ---------------------------------------------------------------- a printed text has none

  lemma FrontJoins(a: Str, b: Str)
    requires a != [] && Whole(a)
    ensures StartsWithPair(a + b) <==> StartsWithPair(a)
    ensures Rest(a + b) == Rest(a) + b
  {
  }

  lemma {:induction false} WholeJoins(a: Str, b: Str)
    requires Whole(a) && Whole(b)
    ensures Whole(a + b)
    decreases |a|
  {
    if a == [] {
      assert a + b == b;
    } else {
      FrontJoins(a, b);
      WholeJoins(Rest(a), b);
    }
  }

  predicate Ascii(s: Str) {
    forall i :: 0 <= i < |s| ==> s[i] < 128
  }

  lemma {:induction false} AsciiIsWhole(s: Str)
    requires Ascii(s)
    ensures Whole(s)
  {
    if s != [] {
      AsciiIsWhole(s[1..]);
    }
  }

  lemma {:induction false} EscapeIsWhole(s: Str)
    ensures Whole(Escape(s))
    decreases |s|
  {
    if s != [] && StartsWithPair(s) {
      EscapeIsWhole(s[2..]);
      var e := [s[0]] + ([s[1]] + Escape(s[2..]));
      assert StartsWithPair(e) && Rest(e) == Escape(s[2..]);
    } else if s != [] {
      EscapeIsWhole(s[1..]);
      UnitIsWhole(s[0]);
      WholeJoins(EscapeUnit(s[0]), Escape(s[1..]));
    }
  }

  lemma UnitIsWhole(u: Unit)
    ensures Whole(EscapeUnit(u))
  {
    if ShortEscape(u).Some? || u < 32 || IsHigh(u) || IsLow(u) {
      AsciiIsWhole(EscapeUnit(u));
    } else {
      assert Rest([u]) == [];
    }
  }

  lemma StringIsWhole(s: Str)
    ensures Whole(PrintString(s))
  {
    EscapeIsWhole(s);
    AsciiIsWhole([QUOTE]);
    WholeJoins([QUOTE], Escape(s));
    WholeJoins([QUOTE] + Escape(s), [QUOTE]);
  }

  lemma NumberIsAscii(n: Num)
    requires IsNum(n)
    ensures Ascii(PrintNumber(n))
  {
    if n.Dec? {
      LayoutIsAscii(n.digits, n.point);
    }
  }

  lemma LayoutIsAscii(ds: seq<nat>, n: int)
    requires Numerals.DigitsOf(ds, 10) && ds != []
    ensures Ascii(Layout(ds, n))
  {
    ExponentIsAscii(n - 1);
  }

  lemma ExponentIsAscii(e: int)
    ensures Ascii(Exponent(e))
  {
  }

  /** The text of every JSON value is whole, whatever strings are in it. */
  lemma {:induction false} PrintIsWhole(v: Value)
    requires Json.WellFormed(v)
    ensures Whole(Print(v))
    decreases v, 1
  {
    match v
    case Null => AsciiIsWhole(NULL_TEXT);
    case Bool(b) => AsciiIsWhole(if b then TRUE_TEXT else FALSE_TEXT);
    case Number(n) =>
      NumberIsAscii(n);
      AsciiIsWhole(PrintNumber(n));
    case String(s) => StringIsWhole(s);
    case Array(items) =>
      if items == [] {
        AsciiIsWhole([LEFT_BRACKET, RIGHT_BRACKET]);
      } else {
        PrintIsWhole(items[0]);
        ItemsAreWhole(v, 1);
        EnclosedIsWhole(LEFT_BRACKET, Print(items[0]), PrintItems(v, 1), RIGHT_BRACKET);
      }
    case Object(ms) =>
      if ms == [] {
        AsciiIsWhole([LEFT_BRACE, RIGHT_BRACE]);
      } else {
        MemberIsWhole(v, 0);
        MembersAreWhole(v, 1);
        EnclosedIsWhole(LEFT_BRACE, PrintMember(v, 0), PrintMembers(v, 1), RIGHT_BRACE);
      }
  }

  lemma EnclosedIsWhole(open: Unit, first: Str, more: Str, close: Unit)
    requires open < 128 && close < 128 && Whole(first) && Whole(more)
    ensures Whole([open] + (first + (more + [close])))
  {
    AsciiIsWhole([open]);
    AsciiIsWhole([close]);
    WholeJoins(more, [close]);
    WholeJoins(first, more + [close]);
    WholeJoins([open], first + (more + [close]));
  }

  lemma AfterMark(mark: Unit, first: Str, more: Str)
    requires mark < 128 && Whole(first) && Whole(more)
    ensures Whole([mark] + (first + more))
  {
    AsciiIsWhole([mark]);
    WholeJoins(first, more);
    WholeJoins([mark], first + more);
  }

  lemma {:induction false} ItemsAreWhole(v: Value, i: nat)
    requires Json.WellFormed(v) && v.Array? && i <= |v.items|
    ensures Whole(PrintItems(v, i))
    decreases v, 0, |v.items| - i
  {
    if i < |v.items| {
      PrintIsWhole(v.items[i]);
      ItemsAreWhole(v, i + 1);
      AfterMark(COMMA, Print(v.items[i]), PrintItems(v, i + 1));
    }
  }

  lemma {:induction false} MemberIsWhole(v: Value, i: nat)
    requires Json.WellFormed(v) && v.Object? && i < |v.members|
    ensures Whole(PrintMember(v, i))
    decreases v, 0, 0
  {
    StringIsWhole(v.members[i].key);
    PrintIsWhole(v.members[i].value);
    AsciiIsWhole([COLON]);
    WholeJoins([COLON], Print(v.members[i].value));
    WholeJoins(PrintString(v.members[i].key), [COLON] + Print(v.members[i].value));
  }

  lemma {:induction false} MembersAreWhole(v: Value, i: nat)
    requires Json.WellFormed(v) && v.Object? && i <= |v.members|
    ensures Whole(PrintMembers(v, i))
    decreases v, 0, |v.members| - i + 1
  {
    if i < |v.members| {
      MemberIsWhole(v, i);
      MembersAreWhole(v, i + 1);
      AfterMark(COMMA, PrintMember(v, i), PrintMembers(v, i + 1));
    }
  }
}
