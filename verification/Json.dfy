/** JSON values, the canonical text of a value, and the full grammar of sections 2 to 7 of RFC 8259 as a parser that
    inverts it. An object is the list of its members in ascending key order (section 3.2.3 of RFC 8785). */
module Json {
  import opened Basics
  import opened Text
  import opened JsonNumber
  import opened JsonString

  datatype Value =
    | Null
    | Bool(b: bool)
    | Number(n: Num)
    | String(s: Str)
    | Array(items: seq<Value>)
    | Object(members: seq<Member>)

  datatype Member = Member(key: Str, value: Value)

  ghost predicate KeysAscend(ms: seq<Member>) {
    forall i, j :: 0 <= i < j < |ms| ==> Below(ms[i].key, ms[j].key)
  }

  ghost predicate WellFormed(v: Value) {
    match v
    case Number(n) => IsNum(n)
    case Array(items) => forall i :: 0 <= i < |items| ==> WellFormed(items[i])
    case Object(ms) => KeysAscend(ms) && forall i :: 0 <= i < |ms| ==> WellFormed(ms[i].value)
    case _ => true
  }

  const COMMA: Unit := 44
  const COLON: Unit := 58
  const LEFT_BRACKET: Unit := 91
  const RIGHT_BRACKET: Unit := 93
  const LEFT_BRACE: Unit := 123
  const RIGHT_BRACE: Unit := 125
  const NULL_TEXT: Str := [110, 117, 108, 108]
  const TRUE_TEXT: Str := [116, 114, 117, 101]
  const FALSE_TEXT: Str := [102, 97, 108, 115, 101]

  // ---------------------------------------------------------------- printing

  function Print(v: Value): Str
    requires WellFormed(v)
    decreases v, 1
  {
    match v
    case Null => NULL_TEXT
    case Bool(b) => if b then TRUE_TEXT else FALSE_TEXT
    case Number(n) => PrintNumber(n)
    case String(s) => PrintString(s)
    case Array(items) =>
      if items == [] then [LEFT_BRACKET, RIGHT_BRACKET]
      else [LEFT_BRACKET] + (Print(items[0]) + (PrintItems(v, 1) + [RIGHT_BRACKET]))
    case Object(ms) =>
      if ms == [] then [LEFT_BRACE, RIGHT_BRACE]
      else [LEFT_BRACE] + (PrintMember(v, 0) + (PrintMembers(v, 1) + [RIGHT_BRACE]))
  }

  /** The items from the `i`-th on, each after a comma. */
  function PrintItems(v: Value, i: nat): Str
    requires WellFormed(v) && v.Array? && i <= |v.items|
    decreases v, 0, |v.items| - i
  {
    if i == |v.items| then [] else [COMMA] + (Print(v.items[i]) + PrintItems(v, i + 1))
  }

  function PrintMember(v: Value, i: nat): Str
    requires WellFormed(v) && v.Object? && i < |v.members|
    decreases v, 0, 0
  {
    PrintString(v.members[i].key) + ([COLON] + Print(v.members[i].value))
  }

  function PrintMembers(v: Value, i: nat): Str
    requires WellFormed(v) && v.Object? && i <= |v.members|
    decreases v, 0, |v.members| - i + 1
  {
    if i == |v.members| then [] else [COMMA] + (PrintMember(v, i) + PrintMembers(v, i + 1))
  }

  // ---------------------------------------------------------------- parsing

  predicate IsSpace(u: Unit) {
    u == 32 || u == 9 || u == 10 || u == 13
  }

  function SkipSpace(t: Str): (r: Str)
    ensures |r| <= |t|
  {
    if t != [] && IsSpace(t[0]) then SkipSpace(t[1..]) else t
  }

  function HasKey(ms: seq<Member>, key: Str): bool {
    exists i :: 0 <= i < |ms| && ms[i].key == key
  }

  function InsertMember(ms: seq<Member>, m: Member): seq<Member> {
    if ms == [] || Below(m.key, ms[0].key) then [m] + ms else [ms[0]] + InsertMember(ms[1..], m)
  }

  /** The members of an object as they were written: of equal keys the last one counts. */
  function NormalMembers(ms: seq<Member>): seq<Member> {
    if ms == [] then []
    else
      var rest := NormalMembers(ms[1..]);
      if HasKey(rest, ms[0].key) then rest else InsertMember(rest, ms[0])
  }

  function ParseKeyword(t: Str): (r: Option<Parsed<Value>>)
    ensures r.Some? ==> |r.value.rest| < |t|
  {
    if |t| >= 4 && t[..4] == NULL_TEXT then Some(Parsed(Null, t[4..]))
    else if |t| >= 4 && t[..4] == TRUE_TEXT then Some(Parsed(Bool(true), t[4..]))
    else if |t| >= 5 && t[..5] == FALSE_TEXT then Some(Parsed(Bool(false), t[5..]))
    else None
  }

  function ParseValue(t: Str): (r: Option<Parsed<Value>>)
    ensures r.Some? ==> |r.value.rest| < |t|
    decreases |t|, 1
  {
    var s := SkipSpace(t);
    if s == [] then None else ParseAt(s)
  }

  /** A value that starts with the first unit. */
  function ParseAt(s: Str): (r: Option<Parsed<Value>>)
    requires s != []
    ensures r.Some? ==> |r.value.rest| < |s|
    decreases |s|, 0
  {
    if s[0] == LEFT_BRACKET then
      var r := ParseArray(s[1..]);
      if r.None? then None else Some(Parsed(Array(r.value.value), r.value.rest))
    else if s[0] == LEFT_BRACE then
      var r := ParseObject(s[1..]);
      if r.None? then None else Some(Parsed(Object(NormalMembers(r.value.value)), r.value.rest))
    else if s[0] == QUOTE then
      var r := ParseString(s[1..]);
      if r.None? then None else Some(Parsed(String(r.value.value), r.value.rest))
    else if s[0] == MINUS || IsDigit(s[0]) then
      var r := ParseNumber(s);
      if r.None? then None else Some(Parsed(Number(r.value.value), r.value.rest))
    else ParseKeyword(s)
  }

  /** The items after an opening bracket. */
  function ParseArray(t: Str): (r: Option<Parsed<seq<Value>>>)
    ensures r.Some? ==> |r.value.rest| < |t|
    decreases |t|, 2
  {
    var u := SkipSpace(t);
    if u != [] && u[0] == RIGHT_BRACKET then Some(Parsed([], u[1..]))
    else
      var first := ParseValue(t);
      if first.None? then None
      else
        var more := ParseItems(first.value.rest);
        if more.None? then None else Some(Parsed([first.value.value] + more.value.value, more.value.rest))
  }

  /** The items after an item. */
  function ParseItems(t: Str): (r: Option<Parsed<seq<Value>>>)
    ensures r.Some? ==> |r.value.rest| < |t|
    decreases |t|, 2
  {
    var u := SkipSpace(t);
    if u == [] then None
    else if u[0] == RIGHT_BRACKET then Some(Parsed([], u[1..]))
    else if u[0] != COMMA then None
    else
      var next := ParseValue(u[1..]);
      if next.None? then None
      else
        var more := ParseItems(next.value.rest);
        if more.None? then None else Some(Parsed([next.value.value] + more.value.value, more.value.rest))
  }

  function ParseMember(t: Str): (r: Option<Parsed<Member>>)
    ensures r.Some? ==> |r.value.rest| < |t|
    decreases |t|, 2
  {
    var u := SkipSpace(t);
    if u == [] || u[0] != QUOTE then None
    else
      var key := ParseString(u[1..]);
      if key.None? then None
      else
        var w := SkipSpace(key.value.rest);
        if w == [] || w[0] != COLON then None
        else
          var value := ParseValue(w[1..]);
          if value.None? then None else Some(Parsed(Member(key.value.value, value.value.value), value.value.rest))
  }

  function ParseObject(t: Str): (r: Option<Parsed<seq<Member>>>)
    ensures r.Some? ==> |r.value.rest| < |t|
    decreases |t|, 3
  {
    var u := SkipSpace(t);
    if u != [] && u[0] == RIGHT_BRACE then Some(Parsed([], u[1..]))
    else
      var first := ParseMember(t);
      if first.None? then None
      else
        var more := ParseMembers(first.value.rest);
        if more.None? then None else Some(Parsed([first.value.value] + more.value.value, more.value.rest))
  }

  function ParseMembers(t: Str): (r: Option<Parsed<seq<Member>>>)
    ensures r.Some? ==> |r.value.rest| < |t|
    decreases |t|, 3
  {
    var u := SkipSpace(t);
    if u == [] then None
    else if u[0] == RIGHT_BRACE then Some(Parsed([], u[1..]))
    else if u[0] != COMMA then None
    else
      var next := ParseMember(u[1..]);
      if next.None? then None
      else
        var more := ParseMembers(next.value.rest);
        if more.None? then None else Some(Parsed([next.value.value] + more.value.value, more.value.rest))
  }

  /** A JSON text: one value, with nothing but white space around it. */
  function Parse(t: Str): Option<Value> {
    var r := ParseValue(t);
    if r.Some? && SkipSpace(r.value.rest) == [] then Some(r.value.value) else None
  }
}
