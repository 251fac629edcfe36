/** Canonical JSON of a JavaScript value: the text every hash rests on. */
module Canonical {
  import opened Basics
  import opened Text
  import opened JsonNumber
  import opened JsonString
  import Json

  const MAX_CANONICAL_DEPTH := 64

  /** A value as the function sees it. `NonFinite` is NaN or an infinity; a property order is that of the object. */
  datatype Js =
    | Undefined
    | Null
    | Bool(b: bool)
    | NonFinite
    | NegZero
    | Number(n: Num)
    | String(s: Str)
    | Array(items: seq<Js>)
    | Object(props: seq<Prop>)

  datatype Prop = Prop(key: Str, value: Js)

  function Keys(props: seq<Prop>): (keys: seq<Str>)
    ensures |keys| == |props| && forall i :: 0 <= i < |keys| ==> keys[i] == props[i].key
  {
    seq(|props|, i requires 0 <= i < |props| => props[i].key)
  }

  /** Own keys are distinct. */
  ghost predicate WellFormed(v: Js) {
    match v
    case Number(n) => IsNum(n)
    case Array(items) => forall i :: 0 <= i < |items| ==> WellFormed(items[i])
    case Object(props) => Distinct(Keys(props)) && forall i :: 0 <= i < |props| ==> WellFormed(props[i].value)
    case _ => true
  }

  function IndexOf(props: seq<Prop>, key: Str): (i: nat)
    ensures i <= |props| && (i < |props| ==> props[i].key == key)
    ensures i == |props| ==> forall j :: 0 <= j < |props| ==> props[j].key != key
  {
    if props == [] then 0 else if props[0].key == key then 0 else 1 + IndexOf(props[1..], key)
  }

  /** `Array.prototype.join` with a comma. */
  function Join(texts: seq<Str>): Str {
    if texts == [] then []
    else if |texts| == 1 then texts[0]
    else texts[0] + ([Json.COMMA] + Join(texts[1..]))
  }

  /** The canonical text, or none: a number is not finite, or the nesting is deeper than the limit. */
  function Canonicalize(v: Js, depth: nat): Option<Str>
    requires WellFormed(v)
    decreases v, 1
  {
    match v
    case NonFinite => None
    case NegZero => Some(PrintNumber(Zero))
    case Number(n) => Some(PrintNumber(n))
    case Undefined => Some(Json.NULL_TEXT)
    case Null => Some(Json.NULL_TEXT)
    case Bool(b) => Some(if b then Json.TRUE_TEXT else Json.FALSE_TEXT)
    case String(s) => Some(PrintString(s))
    case Array(_) =>
      if depth > MAX_CANONICAL_DEPTH then None
      else
        var texts := ItemTexts(v, 0, depth + 1);
        if texts.None? then None else Some([Json.LEFT_BRACKET] + Join(texts.value) + [Json.RIGHT_BRACKET])
    case Object(props) =>
      if depth > MAX_CANONICAL_DEPTH then None
      else
        var texts := EntryTexts(v, Sort(Keys(props)), depth + 1);
        if texts.None? then None else Some([Json.LEFT_BRACE] + Join(texts.value) + [Json.RIGHT_BRACE])
  }

  function ItemTexts(v: Js, i: nat, depth: nat): Option<seq<Str>>
    requires WellFormed(v) && v.Array? && i <= |v.items|
    decreases v, 0, |v.items| - i
  {
    if i == |v.items| then Some([])
    else
      var first := Canonicalize(v.items[i], depth);
      var more := ItemTexts(v, i + 1, depth);
      if first.None? || more.None? then None else Some([first.value] + more.value)
  }

  /** The entries of the sorted keys; a key whose value is undefined has none. */
  function EntryTexts(v: Js, keys: seq<Str>, depth: nat): Option<seq<Str>>
    requires WellFormed(v) && v.Object?
    decreases v, 0, |keys|
  {
    if keys == [] then Some([])
    else
      var i := IndexOf(v.props, keys[0]);
      var more := EntryTexts(v, keys[1..], depth);
      if i == |v.props| || v.props[i].value.Undefined? then more
      else
        var value := Canonicalize(v.props[i].value, depth);
        if value.None? || more.None? then None
        else Some([PrintString(keys[0]) + ([Json.COLON] + value.value)] + more.value)
  }

  function CanonicalJson(v: Js): Option<Str>
    requires WellFormed(v)
  {
    Canonicalize(v, 1)
  }

  // ---------------------------------------------------------------- what a value means

  /** Every number that is not under a dropped property is finite. */
  predicate AllFinite(v: Js) {
    match v
    case NonFinite => false
    case Array(items) => forall i :: 0 <= i < |items| ==> AllFinite(items[i])
    case Object(props) => forall i :: 0 <= i < |props| ==> AllFinite(props[i].value)
    case _ => true
  }

  /** Nested at most `d` levels deep: a top-level array or object is one level. */
  predicate Within(v: Js, d: nat) {
    match v
    case Array(items) => d > 0 && forall i :: 0 <= i < |items| ==> Within(items[i], d - 1)
    case Object(props) => d > 0 && forall i :: 0 <= i < |props| ==> Within(props[i].value, d - 1)
    case _ => true
  }

  predicate Defined(v: Js, key: Str)
    requires v.Object?
  {
    exists i :: 0 <= i < |v.props| && v.props[i].key == key && !v.props[i].value.Undefined?
  }

  /** A value that is no array or object, as JSON knows it: undefined is null and -0 is 0. */
  function Plain(v: Js): Js {
    if v.Undefined? then Null else if v.NegZero? then Number(Zero) else v
  }

  predicate SameKey(p: Prop, q: Prop) {
    p.key == q.key && !p.value.Undefined? && !q.value.Undefined?
  }

  /** Equal as JSON values: objects as maps from keys to defined values. */
  ghost predicate SameJson(a: Js, b: Js) {
    if a.Array? && b.Array? then
      |a.items| == |b.items| && forall i :: 0 <= i < |a.items| ==> SameJson(a.items[i], b.items[i])
    else if a.Object? && b.Object? then
      && (forall key: Str :: Defined(a, key) <==> Defined(b, key))
      && (forall i, j :: 0 <= i < |a.props| && 0 <= j < |b.props| && SameKey(a.props[i], b.props[j]) ==>
            SameJson(a.props[i].value, b.props[j].value))
    else !a.Array? && !a.Object? && Plain(a) == Plain(b)
  }

  /** The JSON value of a JavaScript value without non-finite numbers. */
  function Meaning(v: Js): (j: Json.Value)
    requires WellFormed(v) && AllFinite(v)
    decreases v, 1
  {
    match v
    case Undefined => Json.Null
    case Null => Json.Null
    case Bool(b) => Json.Bool(b)
    case NegZero => Json.Number(Zero)
    case Number(n) => Json.Number(n)
    case String(s) => Json.String(s)
    case Array(items) => Json.Array(ItemMeanings(v, 0))
    case Object(props) => Json.Object(MemberMeanings(v, Sort(Keys(props))))
  }

  function ItemMeanings(v: Js, i: nat): (items: seq<Json.Value>)
    requires WellFormed(v) && AllFinite(v) && v.Array? && i <= |v.items|
    ensures |items| == |v.items| - i
    decreases v, 0, |v.items| - i
  {
    if i == |v.items| then [] else [Meaning(v.items[i])] + ItemMeanings(v, i + 1)
  }

  function MemberMeanings(v: Js, keys: seq<Str>): (ms: seq<Json.Member>)
    requires WellFormed(v) && AllFinite(v) && v.Object?
    decreases v, 0, |keys|
  {
    if keys == [] then []
    else
      var i := IndexOf(v.props, keys[0]);
      (if i == |v.props| || v.props[i].value.Undefined? then [] else [Json.Member(keys[0], Meaning(v.props[i].value))]) +
      MemberMeanings(v, keys[1..])
  }

  // ---------------------------------------------------------------- members

  lemma IndexIsUnique(props: seq<Prop>, i: nat)
    requires Distinct(Keys(props)) && i < |props|
    ensures IndexOf(props, props[i].key) == i
  {
    var j := IndexOf(props, props[i].key);
    assert j < |props|;
    assert Keys(props)[i] == Keys(props)[j];
  }

  lemma SortedKeysAscend(v: Js)
    requires WellFormed(v) && v.Object?
    ensures Ascends(Sort(Keys(v.props)))
  {
    SortAscends(Keys(v.props));
  }

  /** A key has a member when it is listed and its value is defined. */
  lemma {:induction false} MemberKeys(v: Js, keys: seq<Str>, m: nat)
    requires WellFormed(v) && AllFinite(v) && v.Object? && m < |MemberMeanings(v, keys)|
    ensures MemberMeanings(v, keys)[m].key in keys
    decreases |keys|
  {
    var tail := MemberMeanings(v, keys[1..]);
    var skipped := |MemberMeanings(v, keys)| == |tail|;
    if skipped {
      MemberKeys(v, keys[1..], m);
      assert MemberMeanings(v, keys)[m] == tail[m];
    } else if m > 0 {
      MemberKeys(v, keys[1..], m - 1);
      assert MemberMeanings(v, keys)[m] == tail[m - 1];
    }
  }

  lemma {:induction false} MembersAscend(v: Js, keys: seq<Str>)
    requires WellFormed(v) && AllFinite(v) && v.Object? && Ascends(keys)
    ensures Json.KeysAscend(MemberMeanings(v, keys))
    decreases |keys|
  {
    if keys != [] {
      var tail := MemberMeanings(v, keys[1..]);
      assert Ascends(keys[1..]);
      MembersAscend(v, keys[1..]);
      forall m | 0 <= m < |tail| ensures Below(keys[0], tail[m].key) {
        MemberKeys(v, keys[1..], m);
        assert tail[m].key in keys[1..];
      }
    }
  }

  /** Each member is a defined property with the meaning of its value. */
  lemma {:induction false} MemberIsProp(v: Js, keys: seq<Str>, m: nat) returns (i: nat)
    requires WellFormed(v) && AllFinite(v) && v.Object? && m < |MemberMeanings(v, keys)|
    ensures i < |v.props| && !v.props[i].value.Undefined?
    ensures MemberMeanings(v, keys)[m] == Json.Member(v.props[i].key, Meaning(v.props[i].value))
    decreases |keys|
  {
    var tail := MemberMeanings(v, keys[1..]);
    var k := IndexOf(v.props, keys[0]);
    if k == |v.props| || v.props[k].value.Undefined? {
      i := MemberIsProp(v, keys[1..], m);
      assert MemberMeanings(v, keys) == tail;
    } else if m == 0 {
      i := k;
    } else {
      i := MemberIsProp(v, keys[1..], m - 1);
      assert MemberMeanings(v, keys)[m] == tail[m - 1];
    }
  }

  /** And each defined property is a member. */
  lemma {:induction false} PropIsMember(v: Js, keys: seq<Str>, i: nat) returns (m: nat)
    requires WellFormed(v) && AllFinite(v) && v.Object? && i < |v.props| && !v.props[i].value.Undefined? && v.props[i].key in keys
    ensures m < |MemberMeanings(v, keys)|
    ensures MemberMeanings(v, keys)[m] == Json.Member(v.props[i].key, Meaning(v.props[i].value))
    decreases |keys|
  {
    var tail := MemberMeanings(v, keys[1..]);
    IndexIsUnique(v.props, i);
    if keys[0] == v.props[i].key {
      m := 0;
    } else {
      assert v.props[i].key in keys[1..];
      m := PropIsMember(v, keys[1..], i);
      var all := MemberMeanings(v, keys);
      if |all| == |tail| {
        assert all == tail;
      } else {
        assert all[m + 1] == tail[m];
        m := m + 1;
      }
    }
  }

  lemma {:induction false} MeaningIsWellFormed(v: Js)
    requires WellFormed(v) && AllFinite(v)
    ensures Json.WellFormed(Meaning(v))
    decreases v
  {
    if v.Array? {
      forall i | 0 <= i < |v.items| ensures Json.WellFormed(ItemMeanings(v, 0)[i]) {
        ItemMeaning(v, 0, i);
        MeaningIsWellFormed(v.items[i]);
      }
    } else if v.Object? {
      var keys := Sort(Keys(v.props));
      SortedKeysAscend(v);
      MembersAscend(v, keys);
      forall m | 0 <= m < |MemberMeanings(v, keys)| ensures Json.WellFormed(MemberMeanings(v, keys)[m].value) {
        var i := MemberIsProp(v, keys, m);
        MeaningIsWellFormed(v.props[i].value);
      }
    }
  }

  lemma {:induction false} ItemMeaning(v: Js, i: nat, k: nat)
    requires WellFormed(v) && AllFinite(v) && v.Array? && i <= k < |v.items|
    ensures ItemMeanings(v, i)[k - i] == Meaning(v.items[k])
    decreases |v.items| - i
  {
    if i < k {
      ItemMeaning(v, i + 1, k);
    }
  }

  // ---------------------------------------------------------------- the text is the printed meaning

  /** How many more levels may be opened at `depth`. */
  function Room(depth: nat): nat {
    if depth > MAX_CANONICAL_DEPTH then 0 else MAX_CANONICAL_DEPTH + 1 - depth
  }

  predicate Fits(v: Js, room: nat) {
    AllFinite(v) && Within(v, room)
  }

  lemma {:induction false} CanonicalizesWhen(v: Js, depth: nat)
    requires WellFormed(v)
    ensures Canonicalize(v, depth).Some? <==> Fits(v, Room(depth))
    decreases v, 1
  {
    if v.Array? && depth <= MAX_CANONICAL_DEPTH {
      ItemsCanonicalizeWhen(v, 0, depth + 1);
    } else if v.Object? && depth <= MAX_CANONICAL_DEPTH {
      var keys := Sort(Keys(v.props));
      EntriesCanonicalizeWhen(v, keys, depth + 1);
      forall i | 0 <= i < |v.props| ensures v.props[i].key in keys {
        SortHas(Keys(v.props), v.props[i].key);
        assert Keys(v.props)[i] in Keys(v.props);
      }
    }
  }

  lemma {:induction false} ItemsCanonicalizeWhen(v: Js, i: nat, depth: nat)
    requires WellFormed(v) && v.Array? && i <= |v.items|
    ensures ItemTexts(v, i, depth).Some? <==> forall k :: i <= k < |v.items| ==> Fits(v.items[k], Room(depth))
    decreases v, 0, |v.items| - i
  {
    if i < |v.items| {
      CanonicalizesWhen(v.items[i], depth);
      ItemsCanonicalizeWhen(v, i + 1, depth);
    }
  }

  lemma {:induction false} EntriesCanonicalizeWhen(v: Js, keys: seq<Str>, depth: nat)
    requires WellFormed(v) && v.Object?
    ensures EntryTexts(v, keys, depth).Some? <==>
      forall i :: 0 <= i < |v.props| && v.props[i].key in keys ==> Fits(v.props[i].value, Room(depth))
    decreases v, 0, |keys|
  {
    if keys != [] {
      EntriesCanonicalizeWhen(v, keys[1..], depth);
      var k := IndexOf(v.props, keys[0]);
      if k < |v.props| {
        CanonicalizesWhen(v.props[k].value, depth);
      }
      forall i | 0 <= i < |v.props| ensures v.props[i].key in keys <==> i == k || v.props[i].key in keys[1..] {
        IndexIsUnique(v.props, i);
      }
    }
  }

  lemma JoinMore(text: Str, texts: seq<Str>)
    requires texts != []
    ensures Join([text] + texts) == text + ([Json.COMMA] + Join(texts))
  {
    assert ([text] + texts)[1..] == texts;
  }

  lemma {:induction false} ItemTextsArePrinted(v: Js, j: Json.Value, i: nat, depth: nat)
    requires WellFormed(v) && v.Array? && AllFinite(v) && Json.WellFormed(j) && j == Meaning(v)
    requires i < |v.items| && ItemTexts(v, i, depth).Some?
    ensures ItemTexts(v, i, depth).value != []
    ensures Join(ItemTexts(v, i, depth).value) == Json.Print(j.items[i]) + Json.PrintItems(j, i + 1)
    decreases v, 0, |v.items| - i
  {
    CanonicalIsPrinted(v.items[i], depth);
    ItemMeaning(v, 0, i);
    var first := Canonicalize(v.items[i], depth).value;
    if i + 1 < |v.items| {
      ItemTextsArePrinted(v, j, i + 1, depth);
      JoinMore(first, ItemTexts(v, i + 1, depth).value);
    } else {
      assert ItemTexts(v, i, depth).value == [first];
      assert Json.PrintItems(j, i + 1) == [];
    }
  }

  lemma {:induction false} EntryTextsArePrinted(v: Js, j: Json.Value, keys: seq<Str>, m: nat, depth: nat)
    requires WellFormed(v) && v.Object? && AllFinite(v) && Json.WellFormed(j) && j == Meaning(v)
    requires EntryTexts(v, keys, depth).Some? && m <= |j.members| && MemberMeanings(v, keys) == j.members[m..]
    ensures EntryTexts(v, keys, depth).value == [] <==> m == |j.members|
    ensures m < |j.members| ==>
      Join(EntryTexts(v, keys, depth).value) == Json.PrintMember(j, m) + Json.PrintMembers(j, m + 1)
    decreases v, 0, |keys|
  {
    if keys != [] {
      var k := IndexOf(v.props, keys[0]);
      if k == |v.props| || v.props[k].value.Undefined? {
        assert [] + MemberMeanings(v, keys[1..]) == MemberMeanings(v, keys[1..]);
        EntryTextsArePrinted(v, j, keys[1..], m, depth);
      } else {
        var more := EntryTexts(v, keys[1..], depth).value;
        assert MemberMeanings(v, keys)[0] == j.members[m] && MemberMeanings(v, keys)[1..] == MemberMeanings(v, keys[1..]);
        assert j.members[m..][1..] == j.members[m + 1..];
        EntryTextsArePrinted(v, j, keys[1..], m + 1, depth);
        CanonicalIsPrinted(v.props[k].value, depth);
        assert EntryTexts(v, keys, depth).value == [Json.PrintMember(j, m)] + more;
        if more != [] {
          JoinMore(Json.PrintMember(j, m), more);
        } else {
          assert [Json.PrintMember(j, m)] + more == [Json.PrintMember(j, m)];
          assert Json.PrintMembers(j, m + 1) == [];
        }
      }
    }
  }

  lemma Enclosed(open: Unit, first: Str, more: Str, close: Unit)
    ensures [open] + (first + more) + [close] == [open] + (first + (more + [close]))
  {
  }

  lemma {:induction false} ArrayIsPrinted(v: Js, depth: nat)
    requires WellFormed(v) && v.Array? && AllFinite(v) && Json.WellFormed(Meaning(v)) && Canonicalize(v, depth).Some?
    ensures Canonicalize(v, depth).value == Json.Print(Meaning(v))
    decreases v, 1
  {
    var j := Meaning(v);
    if v.items == [] {
      assert j.items == [];
    } else {
      ItemTextsArePrinted(v, j, 0, depth + 1);
      Enclosed(Json.LEFT_BRACKET, Json.Print(j.items[0]), Json.PrintItems(j, 1), Json.RIGHT_BRACKET);
    }
  }

  lemma {:induction false} ObjectIsPrinted(v: Js, depth: nat)
    requires WellFormed(v) && v.Object? && AllFinite(v) && Json.WellFormed(Meaning(v)) && Canonicalize(v, depth).Some?
    ensures Canonicalize(v, depth).value == Json.Print(Meaning(v))
    decreases v, 1
  {
    var j := Meaning(v);
    assert j.members[0..] == j.members;
    EntryTextsArePrinted(v, j, Sort(Keys(v.props)), 0, depth + 1);
    if j.members != [] {
      Enclosed(Json.LEFT_BRACE, Json.PrintMember(j, 0), Json.PrintMembers(j, 1), Json.RIGHT_BRACE);
    }
  }

  /** The canonical text of a value is the printed text of its meaning. */
  lemma {:induction false} CanonicalIsPrinted(v: Js, depth: nat)
    requires WellFormed(v) && Canonicalize(v, depth).Some?
    ensures AllFinite(v) && Json.WellFormed(Meaning(v)) && Canonicalize(v, depth).value == Json.Print(Meaning(v))
    decreases v, 2
  {
    CanonicalizesWhen(v, depth);
    MeaningIsWellFormed(v);
    if v.Array? {
      ArrayIsPrinted(v, depth);
    } else if v.Object? {
      ObjectIsPrinted(v, depth);
    }
  }
}
