/** Canonical JSON is a faithful key: two values have the same text exactly when they are the same JSON value. */
module CanonicalKey {
  import opened Basics
  import opened Text
  import opened JsonNumber
  import opened Canonical
  import Json
  import JsonRoundTrip
  import Utf8

  // ---------------------------------------------------------------- same value, same meaning

  lemma DefinedAt(v: Js, i: nat)
    requires v.Object? && i < |v.props| && !v.props[i].value.Undefined?
    ensures Defined(v, v.props[i].key)
  {
  }

  function MeaningKeys(ms: seq<Json.Member>): (keys: seq<Str>)
    ensures |keys| == |ms| && forall m :: 0 <= m < |keys| ==> keys[m] == ms[m].key
  {
    seq(|ms|, m requires 0 <= m < |ms| => ms[m].key)
  }

  lemma MembersOf(v: Js) returns (ms: seq<Json.Member>)
    requires WellFormed(v) && AllFinite(v) && v.Object?
    ensures Meaning(v) == Json.Object(ms) && Json.KeysAscend(ms) && Ascends(MeaningKeys(ms))
    ensures forall key :: key in MeaningKeys(ms) <==> Defined(v, key)
  {
    var keys := Sort(Keys(v.props));
    ms := MemberMeanings(v, keys);
    SortedKeysAscend(v);
    MembersAscend(v, keys);
    forall key ensures key in MeaningKeys(ms) <==> Defined(v, key) {
      if key in MeaningKeys(ms) {
        var m :| 0 <= m < |ms| && MeaningKeys(ms)[m] == key;
        var i := MemberIsProp(v, keys, m);
        DefinedAt(v, i);
      }
      if Defined(v, key) {
        var i :| 0 <= i < |v.props| && v.props[i].key == key && !v.props[i].value.Undefined?;
        KeyIsSorted(v, i);
        var m := PropIsMember(v, keys, i);
        assert MeaningKeys(ms)[m] == key;
      }
    }
  }

  lemma KeyIsSorted(v: Js, i: nat)
    requires v.Object? && i < |v.props|
    ensures v.props[i].key in Sort(Keys(v.props))
  {
    SortHas(Keys(v.props), v.props[i].key);
    assert Keys(v.props)[i] in Keys(v.props);
  }

  /** In one object, the member of a key has the meaning of its property. */
  lemma MemberOfProp(v: Js, ms: seq<Json.Member>, i: nat, m: nat)
    requires WellFormed(v) && AllFinite(v) && v.Object? && Meaning(v) == Json.Object(ms) && Json.KeysAscend(ms)
    requires i < |v.props| && !v.props[i].value.Undefined? && m < |ms| && ms[m].key == v.props[i].key
    ensures ms[m].value == Meaning(v.props[i].value)
  {
    KeyIsSorted(v, i);
    var k := PropIsMember(v, Sort(Keys(v.props)), i);
    BelowIsIrreflexive(ms[m].key);
    assert k == m;
  }

  lemma {:induction false} SameMeaning(a: Js, b: Js)
    requires WellFormed(a) && AllFinite(a) && WellFormed(b) && AllFinite(b) && SameJson(a, b)
    ensures Meaning(a) == Meaning(b)
    decreases a, 1
  {
    if a.Array? && b.Array? {
      forall k | 0 <= k < |a.items| ensures ItemMeanings(a, 0)[k] == ItemMeanings(b, 0)[k] {
        SameMeaning(a.items[k], b.items[k]);
        ItemMeaning(a, 0, k);
        ItemMeaning(b, 0, k);
      }
      assert ItemMeanings(a, 0) == ItemMeanings(b, 0);
    } else if a.Object? && b.Object? {
      SameMembers(a, b);
    }
  }

  lemma {:induction false} SameMembers(a: Js, b: Js)
    requires WellFormed(a) && AllFinite(a) && WellFormed(b) && AllFinite(b) && SameJson(a, b) && a.Object? && b.Object?
    ensures Meaning(a) == Meaning(b)
    decreases a, 0
  {
    var ms := MembersOf(a);
    var ns := MembersOf(b);
    AscendingIsUnique(MeaningKeys(ms), MeaningKeys(ns));
    forall m | 0 <= m < |ms| ensures ms[m] == ns[m] {
      assert MeaningKeys(ms)[m] == MeaningKeys(ns)[m];
      var i := MemberIsProp(a, Sort(Keys(a.props)), m);
      var j := MemberIsProp(b, Sort(Keys(b.props)), m);
      assert SameKey(a.props[i], b.props[j]);
      SameMeaning(a.props[i].value, b.props[j].value);
    }
    assert ms == ns;
  }

  lemma {:induction false} MeaningDecides(a: Js, b: Js)
    requires WellFormed(a) && AllFinite(a) && WellFormed(b) && AllFinite(b) && Meaning(a) == Meaning(b)
    ensures SameJson(a, b)
    decreases a, 1
  {
    if a.Array? && b.Array? {
      forall k | 0 <= k < |a.items| ensures SameJson(a.items[k], b.items[k]) {
        ItemMeaning(a, 0, k);
        ItemMeaning(b, 0, k);
        MeaningDecides(a.items[k], b.items[k]);
      }
    } else if a.Object? && b.Object? {
      MembersDecide(a, b);
    }
  }

  lemma {:induction false} MembersDecide(a: Js, b: Js)
    requires WellFormed(a) && AllFinite(a) && WellFormed(b) && AllFinite(b) && Meaning(a) == Meaning(b) && a.Object? && b.Object?
    ensures SameJson(a, b)
    decreases a, 0
  {
    var ms := MembersOf(a);
    var ns := MembersOf(b);
    assert ms == ns;
    forall i, j | 0 <= i < |a.props| && 0 <= j < |b.props| && SameKey(a.props[i], b.props[j])
      ensures SameJson(a.props[i].value, b.props[j].value)
    {
      DefinedAt(a, i);
      var m :| 0 <= m < |ms| && MeaningKeys(ms)[m] == a.props[i].key;
      MemberOfProp(a, ms, i, m);
      MemberOfProp(b, ns, j, m);
      MeaningDecides(a.props[i].value, b.props[j].value);
    }
  }

  // ---------------------------------------------------------------- nesting belongs to the meaning

  predicate Nested(j: Json.Value, d: nat) {
    match j
    case Array(items) => d > 0 && forall i :: 0 <= i < |items| ==> Nested(items[i], d - 1)
    case Object(ms) => d > 0 && forall i :: 0 <= i < |ms| ==> Nested(ms[i].value, d - 1)
    case _ => true
  }

  lemma {:induction false} NestingOfMeaning(v: Js, d: nat)
    requires WellFormed(v) && AllFinite(v)
    ensures Within(v, d) <==> Nested(Meaning(v), d)
    decreases v, d
  {
    if v.Array? && d > 0 {
      forall k | 0 <= k < |v.items| ensures Within(v.items[k], d - 1) <==> Nested(Meaning(v).items[k], d - 1) {
        ItemMeaning(v, 0, k);
        NestingOfMeaning(v.items[k], d - 1);
      }
    } else if v.Object? && d > 0 {
      var ms := Meaning(v).members;
      var keys := Sort(Keys(v.props));
      if Within(v, d) {
        forall m | 0 <= m < |ms| ensures Nested(ms[m].value, d - 1) {
          var i := MemberIsProp(v, keys, m);
          NestingOfMeaning(v.props[i].value, d - 1);
        }
      }
      if Nested(Meaning(v), d) {
        forall i | 0 <= i < |v.props| ensures Within(v.props[i].value, d - 1) {
          if !v.props[i].value.Undefined? {
            KeyIsSorted(v, i);
            var m := PropIsMember(v, keys, i);
            NestingOfMeaning(v.props[i].value, d - 1);
          }
        }
      }
    }
  }

  // ---------------------------------------------------------------- the results

  /** A value has a canonical text exactly when its numbers are finite and it is nested at most 64 levels. */
  lemma CanonicalWhen(v: Js)
    requires WellFormed(v)
    ensures CanonicalJson(v).Some? <==> AllFinite(v) && Within(v, MAX_CANONICAL_DEPTH)
  {
    CanonicalizesWhen(v, 1);
  }

  /** A faithful key: two canonical texts are equal exactly when the values are equal as JSON values. */
  lemma TextsAreEqualWhenValuesAre(a: Js, b: Js)
    requires WellFormed(a) && WellFormed(b) && CanonicalJson(a).Some? && CanonicalJson(b).Some?
    ensures CanonicalJson(a) == CanonicalJson(b) <==> SameJson(a, b)
  {
    CanonicalIsPrinted(a, 1);
    CanonicalIsPrinted(b, 1);
    if SameJson(a, b) {
      SameMeaning(a, b);
    }
    if CanonicalJson(a) == CanonicalJson(b) {
      JsonRoundTrip.PrintIsOneToOne(Meaning(a), Meaning(b));
      MeaningDecides(a, b);
    }
  }

  /** Parsing the canonical text gives the value back. */
  lemma ParsingGivesTheValue(v: Js)
    requires WellFormed(v) && CanonicalJson(v).Some?
    ensures AllFinite(v) && Json.Parse(CanonicalJson(v).value) == Some(Meaning(v))
  {
    CanonicalIsPrinted(v, 1);
    JsonRoundTrip.ParseInvertsPrint(Meaning(v));
  }

  /** And printing what was parsed, as whatever JavaScript value, gives the same text. */
  lemma {:induction false} PrintingAgainGivesTheText(v: Js, again: Js)
    requires WellFormed(v) && CanonicalJson(v).Some? && WellFormed(again) && AllFinite(again)
    requires Json.Parse(CanonicalJson(v).value) == Some(Meaning(again))
    ensures CanonicalJson(again) == CanonicalJson(v)
  {
    ParsingGivesTheValue(v);
    CanonicalWhen(v);
    CanonicalWhen(again);
    NestingOfMeaning(v, MAX_CANONICAL_DEPTH);
    NestingOfMeaning(again, MAX_CANONICAL_DEPTH);
    CanonicalIsPrinted(v, 1);
    CanonicalIsPrinted(again, 1);
  }

  /** A canonical text has no lone surrogate, so its UTF-8 bytes say which text it is. */
  lemma {:induction false} CanonicalTextIsWhole(v: Js)
    requires WellFormed(v) && CanonicalJson(v).Some?
    ensures Utf8.Whole(CanonicalJson(v).value)
  {
    CanonicalIsPrinted(v, 1);
    Utf8.PrintIsWhole(Meaning(v));
  }

  /** SHA-256 of bytes, taken to have no collisions. */
  datatype Digest = Sha256(bytes: seq<Utf8.Byte>)

  function RequestHash(v: Js): Option<Digest>
    requires WellFormed(v)
  {
    var text := CanonicalJson(v);
    if text.None? then None else Some(Sha256(Utf8.Encode(text.value)))
  }

  /** A request hash names one JSON value, although it is taken of bytes in which lone surrogates would be lost. */
  lemma HashesAreEqualWhenValuesAre(a: Js, b: Js)
    requires WellFormed(a) && WellFormed(b) && RequestHash(a).Some? && RequestHash(b).Some?
    ensures RequestHash(a) == RequestHash(b) <==> SameJson(a, b)
  {
    TextsAreEqualWhenValuesAre(a, b);
    if RequestHash(a) == RequestHash(b) {
      CanonicalTextIsWhole(a);
      CanonicalTextIsWhole(b);
      Utf8.EncodeIsOneToOne(CanonicalJson(a).value, CanonicalJson(b).value);
    }
  }
}
