/** The parser of module Json inverts its printer: every value is read back from its text. */
module JsonRoundTrip {
  import opened Basics
  import opened Text
  import opened JsonNumber
  import opened JsonString
  import opened Json

  predicate NoSpace(t: Str) {
    t == [] || !IsSpace(t[0])
  }

  lemma SkipNone(t: Str)
    requires NoSpace(t)
    ensures SkipSpace(t) == t
  {
  }

  // ---------------------------------------------------------------- one parsing step at a time

  lemma DropFirst(u: Unit, t: Str)
    ensures ([u] + t)[1..] == t
  {
  }

  lemma ValueIsAt(t: Str)
    requires t != [] && !IsSpace(t[0])
    ensures ParseValue(t) == ParseAt(t)
  {
    SkipNone(t);
  }

  lemma ArrayStep(body: Str, items: seq<Value>, rest: Str)
    requires ParseArray(body) == Some(Parsed(items, rest))
    ensures ParseValue([LEFT_BRACKET] + body) == Some(Parsed(Array(items), rest))
  {
    ValueIsAt([LEFT_BRACKET] + body);
    DropFirst(LEFT_BRACKET, body);
  }

  lemma ObjectStep(body: Str, ms: seq<Member>, rest: Str)
    requires ParseObject(body) == Some(Parsed(ms, rest)) && KeysAscend(ms)
    ensures ParseValue([LEFT_BRACE] + body) == Some(Parsed(Object(ms), rest))
  {
    ValueIsAt([LEFT_BRACE] + body);
    DropFirst(LEFT_BRACE, body);
    NormalOfAscending(ms);
  }

  lemma EmptyArray(rest: Str)
    ensures ParseArray([RIGHT_BRACKET] + rest) == Some(Parsed([], rest))
  {
    SkipNone([RIGHT_BRACKET] + rest);
    DropFirst(RIGHT_BRACKET, rest);
  }

  lemma FirstItem(text: Str, first: Value, tail: Str, more: seq<Value>, rest: Str)
    requires text != [] && !IsSpace(text[0]) && text[0] != RIGHT_BRACKET
    requires ParseValue(text) == Some(Parsed(first, tail)) && ParseItems(tail) == Some(Parsed(more, rest))
    ensures ParseArray(text) == Some(Parsed([first] + more, rest))
  {
    SkipNone(text);
  }

  lemma NextItem(text: Str, next: Value, tail: Str, more: seq<Value>, rest: Str)
    requires ParseValue(text) == Some(Parsed(next, tail)) && ParseItems(tail) == Some(Parsed(more, rest))
    ensures ParseItems([COMMA] + text) == Some(Parsed([next] + more, rest))
  {
    SkipNone([COMMA] + text);
    DropFirst(COMMA, text);
  }

  lemma LastItem(rest: Str)
    ensures ParseItems([RIGHT_BRACKET] + rest) == Some(Parsed([], rest))
  {
    SkipNone([RIGHT_BRACKET] + rest);
    DropFirst(RIGHT_BRACKET, rest);
  }

  lemma EmptyObject(rest: Str)
    ensures ParseObject([RIGHT_BRACE] + rest) == Some(Parsed([], rest))
  {
    SkipNone([RIGHT_BRACE] + rest);
    DropFirst(RIGHT_BRACE, rest);
  }

  lemma FirstMember(text: Str, first: Member, tail: Str, more: seq<Member>, rest: Str)
    requires text != [] && text[0] == QUOTE
    requires ParseMember(text) == Some(Parsed(first, tail)) && ParseMembers(tail) == Some(Parsed(more, rest))
    ensures ParseObject(text) == Some(Parsed([first] + more, rest))
  {
    SkipNone(text);
  }

  lemma NextMember(text: Str, next: Member, tail: Str, more: seq<Member>, rest: Str)
    requires ParseMember(text) == Some(Parsed(next, tail)) && ParseMembers(tail) == Some(Parsed(more, rest))
    ensures ParseMembers([COMMA] + text) == Some(Parsed([next] + more, rest))
  {
    SkipNone([COMMA] + text);
    DropFirst(COMMA, text);
  }

  lemma LastMember(rest: Str)
    ensures ParseMembers([RIGHT_BRACE] + rest) == Some(Parsed([], rest))
  {
    SkipNone([RIGHT_BRACE] + rest);
    DropFirst(RIGHT_BRACE, rest);
  }

  lemma KeyStartsWithQuote(key: Str, t: Str)
    ensures PrintString(key) + t != [] && (PrintString(key) + t)[0] == QUOTE
  {
  }

  lemma OneMember(key: Str, text: Str, value: Value, rest: Str)
    requires ParseValue(text) == Some(Parsed(value, rest))
    ensures ParseMember(PrintString(key) + ([COLON] + text)) == Some(Parsed(Member(key, value), rest))
  {
    var tail := [COLON] + text;
    KeyStartsWithQuote(key, tail);
    SkipNone(PrintString(key) + tail);
    StringRoundTrip(key, tail);
    SkipNone(tail);
    DropFirst(COLON, text);
  }

  // ---------------------------------------------------------------- members in order

  lemma {:induction false} NormalOfAscending(ms: seq<Member>)
    requires KeysAscend(ms)
    ensures NormalMembers(ms) == ms
  {
    if ms != [] {
      NormalOfAscending(ms[1..]);
      forall i | 0 <= i < |ms[1..]| ensures ms[1..][i].key != ms[0].key {
        assert ms[1..][i] == ms[i + 1];
        BelowIsIrreflexive(ms[0].key);
      }
      assert [ms[0]] + ms[1..] == ms;
    }
  }

  // ---------------------------------------------------------------- how texts start

  lemma PrintStarts(v: Value)
    requires WellFormed(v)
    ensures Print(v) != [] && !IsSpace(Print(v)[0]) && Print(v)[0] != RIGHT_BRACKET
    ensures v.Null? || v.Bool? ==> Print(v)[0] in {110, 116, 102}
    ensures v.Number? ==> Print(v)[0] == MINUS || IsDigit(Print(v)[0])
    ensures v.String? ==> Print(v)[0] == QUOTE
  {
    if v.Number? {
      NumberRoundTrip(v.n, []);
    }
  }

  lemma PrintStartsWith(v: Value, rest: Str)
    requires WellFormed(v)
    ensures Print(v) + rest != [] && (Print(v) + rest)[0] == Print(v)[0]
  {
    PrintStarts(v);
  }

  /** What follows an item ends a number. */
  lemma ItemsEndNumbers(v: Value, i: nat, rest: Str)
    requires WellFormed(v) && v.Array? && i <= |v.items|
    ensures NumberEnds(PrintItems(v, i) + ([RIGHT_BRACKET] + rest))
  {
    if i == |v.items| {
      assert PrintItems(v, i) + ([RIGHT_BRACKET] + rest) == [RIGHT_BRACKET] + rest;
    }
  }

  lemma MembersEndNumbers(v: Value, i: nat, rest: Str)
    requires WellFormed(v) && v.Object? && i <= |v.members|
    ensures NumberEnds(PrintMembers(v, i) + ([RIGHT_BRACE] + rest))
  {
    if i == |v.members| {
      assert PrintMembers(v, i) + ([RIGHT_BRACE] + rest) == [RIGHT_BRACE] + rest;
    }
  }

  // ---------------------------------------------------------------- regrouping texts

  lemma EnclosedText(open: Unit, first: Str, more: Str, close: Unit, rest: Str)
    ensures [open] + (first + (more + [close])) + rest == [open] + (first + (more + ([close] + rest)))
  {
  }

  lemma EmptyText(open: Unit, close: Unit, rest: Str)
    ensures [open, close] + rest == [open] + ([close] + rest)
  {
  }

  lemma NextText(text: Str, more: Str, rest: Str)
    ensures [COMMA] + (text + more) + rest == [COMMA] + (text + (more + rest))
  {
  }

  lemma MemberText(key: Str, value: Str, rest: Str)
    ensures key + ([COLON] + value) + rest == key + ([COLON] + (value + rest))
  {
  }

  // ---------------------------------------------------------------- the round trip

  lemma KeywordRoundTrip(v: Value, rest: Str)
    requires v.Null? || v.Bool?
    ensures ParseValue(Print(v) + rest) == Some(Parsed(v, rest))
  {
    var text := Print(v);
    var t := text + rest;
    ValueIsAt(t);
    assert t[..|text|] == text && t[|text|..] == rest;
    if v == Bool(false) {
      assert t[0] == 102;
    } else {
      assert t[..4] == text;
    }
  }

  lemma NumberValueRoundTrip(v: Value, rest: Str)
    requires WellFormed(v) && v.Number? && NumberEnds(rest)
    ensures ParseValue(Print(v) + rest) == Some(Parsed(v, rest))
  {
    NumberRoundTrip(v.n, rest);
    PrintStarts(v);
    PrintStartsWith(v, rest);
    ValueIsAt(Print(v) + rest);
  }

  lemma StringValueRoundTrip(v: Value, rest: Str)
    requires v.String?
    ensures ParseValue(Print(v) + rest) == Some(Parsed(v, rest))
  {
    StringRoundTrip(v.s, rest);
    KeyStartsWithQuote(v.s, rest);
    ValueIsAt(Print(v) + rest);
  }

  /** Every value is read back from its text, whatever follows that is no part of a number. */
  lemma {:induction false} ValueRoundTrip(v: Value, rest: Str)
    requires WellFormed(v) && NumberEnds(rest)
    ensures ParseValue(Print(v) + rest) == Some(Parsed(v, rest))
    decreases v, 2
  {
    match v
    case Null => KeywordRoundTrip(v, rest);
    case Bool(_) => KeywordRoundTrip(v, rest);
    case Number(_) => NumberValueRoundTrip(v, rest);
    case String(_) => StringValueRoundTrip(v, rest);
    case Array(_) => ArrayRoundTrip(v, rest);
    case Object(_) => ObjectRoundTrip(v, rest);
  }

  lemma {:induction false} ArrayRoundTrip(v: Value, rest: Str)
    requires WellFormed(v) && v.Array?
    ensures ParseValue(Print(v) + rest) == Some(Parsed(v, rest))
    decreases v, 1
  {
    var items := v.items;
    if items == [] {
      EmptyText(LEFT_BRACKET, RIGHT_BRACKET, rest);
      EmptyArray(rest);
      ArrayStep([RIGHT_BRACKET] + rest, [], rest);
    } else {
      var tail := PrintItems(v, 1) + ([RIGHT_BRACKET] + rest);
      ItemsEndNumbers(v, 1, rest);
      ValueRoundTrip(items[0], tail);
      ItemsRoundTrip(v, 1, rest);
      PrintStarts(items[0]);
      PrintStartsWith(items[0], tail);
      FirstItem(Print(items[0]) + tail, items[0], tail, items[1..], rest);
      EnclosedText(LEFT_BRACKET, Print(items[0]), PrintItems(v, 1), RIGHT_BRACKET, rest);
      assert [items[0]] + items[1..] == items;
      ArrayStep(Print(items[0]) + tail, items, rest);
    }
  }

  lemma {:induction false} ItemsRoundTrip(v: Value, i: nat, rest: Str)
    requires WellFormed(v) && v.Array? && i <= |v.items|
    ensures ParseItems(PrintItems(v, i) + ([RIGHT_BRACKET] + rest)) == Some(Parsed(v.items[i..], rest))
    decreases v, 0, |v.items| - i
  {
    var end := [RIGHT_BRACKET] + rest;
    if i == |v.items| {
      assert PrintItems(v, i) + end == end && v.items[i..] == [];
      LastItem(rest);
    } else {
      var tail := PrintItems(v, i + 1) + end;
      ItemsEndNumbers(v, i + 1, rest);
      ValueRoundTrip(v.items[i], tail);
      ItemsRoundTrip(v, i + 1, rest);
      NextItem(Print(v.items[i]) + tail, v.items[i], tail, v.items[i + 1..], rest);
      NextText(Print(v.items[i]), PrintItems(v, i + 1), end);
      assert [v.items[i]] + v.items[i + 1..] == v.items[i..];
    }
  }

  lemma {:induction false} MemberRoundTrip(v: Value, i: nat, rest: Str)
    requires WellFormed(v) && v.Object? && i < |v.members| && NumberEnds(rest)
    ensures ParseMember(PrintMember(v, i) + rest) == Some(Parsed(v.members[i], rest))
    decreases v, 0, 0
  {
    var m := v.members[i];
    ValueRoundTrip(m.value, rest);
    OneMember(m.key, Print(m.value) + rest, m.value, rest);
    MemberText(PrintString(m.key), Print(m.value), rest);
  }

  lemma {:induction false} ObjectRoundTrip(v: Value, rest: Str)
    requires WellFormed(v) && v.Object?
    ensures ParseValue(Print(v) + rest) == Some(Parsed(v, rest))
    decreases v, 1
  {
    var ms := v.members;
    if ms == [] {
      EmptyText(LEFT_BRACE, RIGHT_BRACE, rest);
      EmptyObject(rest);
      ObjectStep([RIGHT_BRACE] + rest, [], rest);
    } else {
      var tail := PrintMembers(v, 1) + ([RIGHT_BRACE] + rest);
      MembersEndNumbers(v, 1, rest);
      MemberRoundTrip(v, 0, tail);
      MembersRoundTrip(v, 1, rest);
      MemberStarts(v, 0, tail);
      FirstMember(PrintMember(v, 0) + tail, ms[0], tail, ms[1..], rest);
      EnclosedText(LEFT_BRACE, PrintMember(v, 0), PrintMembers(v, 1), RIGHT_BRACE, rest);
      assert [ms[0]] + ms[1..] == ms;
      ObjectStep(PrintMember(v, 0) + tail, ms, rest);
    }
  }

  lemma MemberStarts(v: Value, i: nat, rest: Str)
    requires WellFormed(v) && v.Object? && i < |v.members|
    ensures PrintMember(v, i) + rest != [] && (PrintMember(v, i) + rest)[0] == QUOTE
  {
    KeyStartsWithQuote(v.members[i].key, [COLON] + Print(v.members[i].value));
  }

  lemma {:induction false} MembersRoundTrip(v: Value, i: nat, rest: Str)
    requires WellFormed(v) && v.Object? && i <= |v.members|
    ensures ParseMembers(PrintMembers(v, i) + ([RIGHT_BRACE] + rest)) == Some(Parsed(v.members[i..], rest))
    decreases v, 0, |v.members| - i + 1
  {
    var end := [RIGHT_BRACE] + rest;
    if i == |v.members| {
      assert PrintMembers(v, i) + end == end && v.members[i..] == [];
      LastMember(rest);
    } else {
      var tail := PrintMembers(v, i + 1) + end;
      MembersEndNumbers(v, i + 1, rest);
      MemberRoundTrip(v, i, tail);
      MembersRoundTrip(v, i + 1, rest);
      NextMember(PrintMember(v, i) + tail, v.members[i], tail, v.members[i + 1..], rest);
      NextText(PrintMember(v, i), PrintMembers(v, i + 1), end);
      assert [v.members[i]] + v.members[i + 1..] == v.members[i..];
    }
  }

  /** Parsing a canonical text gives the value back. */
  lemma ParseInvertsPrint(v: Value)
    requires WellFormed(v)
    ensures Parse(Print(v)) == Some(v)
  {
    ValueRoundTrip(v, []);
    assert Print(v) + [] == Print(v);
    SkipNone([]);
  }

  /** So different values have different texts. */
  lemma PrintIsOneToOne(v: Value, w: Value)
    requires WellFormed(v) && WellFormed(w) && Print(v) == Print(w)
    ensures v == w
  {
    ParseInvertsPrint(v);
    ParseInvertsPrint(w);
  }
}
