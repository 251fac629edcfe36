/** Strings as JSON texts: what `JSON.stringify` writes for a string of UTF-16 code units, and the string grammar of
    section 7 of RFC 8259. */
module JsonString {
  import opened Basics
  import opened Text
  import opened JsonNumber

  const QUOTE: Unit := 34
  const BACKSLASH: Unit := 92
  const SLASH: Unit := 47
  const LOWER_U: Unit := 117

  predicate IsHigh(u: Unit) {
    0xD800 <= u < 0xDC00
  }

  predicate IsLow(u: Unit) {
    0xDC00 <= u < 0xE000
  }

  // ---------------------------------------------------------------- hexadecimal

  type Hex = h: int | 0 <= h < 16

  function HexChar(h: Hex): Unit {
    if h < 10 then 48 + h else 87 + h
  }

  /** The value of a hexadecimal digit of either case. */
  function HexValue(u: Unit): (v: Option<nat>)
    ensures v.Some? ==> v.value < 16
  {
    if 48 <= u < 58 then Some(u - 48)
    else if 97 <= u < 103 then Some(u - 87)
    else if 65 <= u < 71 then Some(u - 55)
    else None
  }

  function Hex4(u: Unit): Str {
    [HexChar(u / 4096), HexChar(u / 256 % 16), HexChar(u / 16 % 16), HexChar(u % 16)]
  }

  function ReadHex(a: Unit, b: Unit, c: Unit, d: Unit): Option<Unit> {
    var (w, x, y, z) := (HexValue(a), HexValue(b), HexValue(c), HexValue(d));
    if w.Some? && x.Some? && y.Some? && z.Some? then Some(w.value * 4096 + x.value * 256 + y.value * 16 + z.value) else None
  }

  lemma HexCharRoundTrip(h: Hex)
    ensures HexValue(HexChar(h)) == Some(h as nat)
  {
  }

  lemma HexSum(u: nat)
    requires u < 0x1_0000
    ensures u / 4096 < 16 && u / 4096 * 4096 + u / 256 % 16 * 256 + u / 16 % 16 * 16 + u % 16 == u
  {
    assert u == u / 16 * 16 + u % 16;
    assert u / 16 == u / 256 * 16 + u / 16 % 16;
    assert u / 256 == u / 4096 * 16 + u / 256 % 16;
  }

  lemma HexRoundTrip(u: Unit)
    ensures var h := Hex4(u); ReadHex(h[0], h[1], h[2], h[3]) == Some(u)
  {
    HexSum(u);
    HexCharRoundTrip(u / 4096);
    HexCharRoundTrip(u / 256 % 16);
    HexCharRoundTrip(u / 16 % 16);
    HexCharRoundTrip(u % 16);
  }

  // ---------------------------------------------------------------- printing

  /** The letter of a two-character escape, if the unit has one. */
  function ShortEscape(u: Unit): Option<Unit> {
    if u == 8 then Some(98)
    else if u == 9 then Some(116)
    else if u == 10 then Some(110)
    else if u == 12 then Some(102)
    else if u == 13 then Some(114)
    else if u == QUOTE || u == BACKSLASH then Some(u)
    else None
  }

  /** A unit that is not half of a surrogate pair. */
  function EscapeUnit(u: Unit): Str {
    if ShortEscape(u).Some? then [BACKSLASH, ShortEscape(u).value]
    else if u < 32 || IsHigh(u) || IsLow(u) then [BACKSLASH, LOWER_U] + Hex4(u)
    else [u]
  }

  predicate StartsWithPair(s: Str) {
    |s| > 1 && IsHigh(s[0]) && IsLow(s[1])
  }

  function Escape(s: Str): Str {
    if s == [] then []
    else if StartsWithPair(s) then [s[0]] + ([s[1]] + Escape(s[2..]))
    else EscapeUnit(s[0]) + Escape(s[1..])
  }

  function PrintString(s: Str): Str {
    [QUOTE] + Escape(s) + [QUOTE]
  }

  // ---------------------------------------------------------------- parsing

  function LongEscape(u: Unit): Option<Unit> {
    if u == 98 then Some(8)
    else if u == 116 then Some(9)
    else if u == 110 then Some(10)
    else if u == 102 then Some(12)
    else if u == 114 then Some(13)
    else if u == QUOTE || u == BACKSLASH || u == SLASH then Some(u)
    else None
  }

  /** One unit of a string, written plainly or escaped. */
  function ReadUnit(t: Str): (r: Option<Parsed<Unit>>)
    requires t != []
    ensures r.Some? ==> |r.value.rest| < |t|
  {
    if t[0] < 32 || t[0] == QUOTE then None
    else if t[0] != BACKSLASH then Some(Parsed(t[0], t[1..]))
    else if |t| < 2 then None
    else if LongEscape(t[1]).Some? then Some(Parsed(LongEscape(t[1]).value, t[2..]))
    else if t[1] == LOWER_U && |t| >= 6 && ReadHex(t[2], t[3], t[4], t[5]).Some? then
      Some(Parsed(ReadHex(t[2], t[3], t[4], t[5]).value, t[6..]))
    else None
  }

  /** A string from after its opening quote. */
  function ParseString(t: Str): (r: Option<Parsed<Str>>)
    ensures r.Some? ==> |r.value.rest| < |t|
    decreases |t|
  {
    if t == [] then None
    else if t[0] == QUOTE then Some(Parsed([], t[1..]))
    else
      var u := ReadUnit(t);
      if u.None? then None
      else
        var r := ParseString(u.value.rest);
        if r.None? then None else Some(Parsed([u.value.value] + r.value.value, r.value.rest))
  }

  // ---------------------------------------------------------------- round trip

  lemma ReadPlain(u: Unit, rest: Str)
    requires u >= 32 && u != QUOTE && u != BACKSLASH
    ensures ReadUnit([u] + rest) == Some(Parsed(u, rest))
  {
    assert ([u] + rest)[1..] == rest;
  }

  lemma ReadShort(u: Unit, rest: Str)
    requires ShortEscape(u).Some?
    ensures ReadUnit([BACKSLASH, ShortEscape(u).value] + rest) == Some(Parsed(u, rest))
  {
    assert ([BACKSLASH, ShortEscape(u).value] + rest)[2..] == rest;
  }

  lemma ReadHexEscape(u: Unit, rest: Str)
    ensures ReadUnit([BACKSLASH, LOWER_U] + Hex4(u) + rest) == Some(Parsed(u, rest))
  {
    var t := [BACKSLASH, LOWER_U] + Hex4(u) + rest;
    HexRoundTrip(u);
    assert t[6..] == rest;
    assert t[2] == Hex4(u)[0] && t[3] == Hex4(u)[1] && t[4] == Hex4(u)[2] && t[5] == Hex4(u)[3];
  }

  lemma ReadEscaped(u: Unit, rest: Str)
    ensures ReadUnit(EscapeUnit(u) + rest) == Some(Parsed(u, rest)) && EscapeUnit(u)[0] != QUOTE
  {
    if ShortEscape(u).Some? {
      ReadShort(u, rest);
    } else if u < 32 || IsHigh(u) || IsLow(u) {
      ReadHexEscape(u, rest);
    } else {
      ReadPlain(u, rest);
    }
  }

  lemma ParseOneMore(t: Str, u: Unit, more: Str, s: Str, rest: Str)
    requires t != [] && t[0] != QUOTE && ReadUnit(t) == Some(Parsed(u, more)) && ParseString(more) == Some(Parsed(s, rest))
    ensures ParseString(t) == Some(Parsed([u] + s, rest))
  {
  }

  /** Every string of code units, paired surrogates or not, is read back from its text. */
  lemma {:induction false} EscapedRoundTrip(s: Str, rest: Str)
    ensures ParseString(Escape(s) + ([QUOTE] + rest)) == Some(Parsed(s, rest))
    decreases |s|
  {
    var tail := [QUOTE] + rest;
    if s == [] {
      assert Escape(s) + tail == tail;
      assert tail[1..] == rest;
    } else if StartsWithPair(s) {
      var more := Escape(s[2..]) + tail;
      EscapedRoundTrip(s[2..], rest);
      ReadPlain(s[1], more);
      ParseOneMore([s[1]] + more, s[1], more, s[2..], rest);
      ReadPlain(s[0], [s[1]] + more);
      ParseOneMore([s[0]] + ([s[1]] + more), s[0], [s[1]] + more, [s[1]] + s[2..], rest);
      PairText(s, tail);
    } else {
      var more := Escape(s[1..]) + tail;
      EscapedRoundTrip(s[1..], rest);
      ReadEscaped(s[0], more);
      ParseOneMore(EscapeUnit(s[0]) + more, s[0], more, s[1..], rest);
      UnitText(s, tail);
    }
  }

  lemma PairText(s: Str, tail: Str)
    requires s != [] && StartsWithPair(s)
    ensures Escape(s) + tail == [s[0]] + ([s[1]] + (Escape(s[2..]) + tail))
    ensures [s[0]] + ([s[1]] + s[2..]) == s
  {
  }

  lemma UnitText(s: Str, tail: Str)
    requires s != [] && !StartsWithPair(s)
    ensures Escape(s) + tail == EscapeUnit(s[0]) + (Escape(s[1..]) + tail)
    ensures [s[0]] + s[1..] == s
  {
    RegroupThree(EscapeUnit(s[0]), Escape(s[1..]), tail);
  }

  lemma QuotedText(escaped: Str, rest: Str)
    ensures ([QUOTE] + escaped + [QUOTE] + rest)[1..] == escaped + ([QUOTE] + rest)
  {
  }

  lemma StringRoundTrip(s: Str, rest: Str)
    ensures ParseString((PrintString(s) + rest)[1..]) == Some(Parsed(s, rest))
  {
    EscapedRoundTrip(s, rest);
    QuotedText(Escape(s), rest);
  }
}
