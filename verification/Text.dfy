/** Strings as JavaScript has them, sequences of UTF-16 code units, in code unit order. */
module Text {
  import opened Basics

  type Unit = u: int | 0 <= u < 0x1_0000

  type Str = seq<Unit>

  /** Strictly before in code unit order: a proper prefix comes first. */
  predicate Below(a: Str, b: Str) {
    b != [] && (a == [] || a[0] < b[0] || (a[0] == b[0] && Below(a[1..], b[1..])))
  }

  lemma {:induction false} BelowIsTotal(a: Str, b: Str)
    ensures a == b || Below(a, b) || Below(b, a)
  {
    if a != [] && b != [] && a[0] == b[0] {
      BelowIsTotal(a[1..], b[1..]);
      if a[1..] == b[1..] {
        assert a == [a[0]] + a[1..] && b == [b[0]] + b[1..];
      }
    }
  }

  lemma {:induction false} BelowIsTransitive(a: Str, b: Str, c: Str)
    requires Below(a, b) && Below(b, c)
    ensures Below(a, c)
  {
    if a != [] && a[0] == b[0] == c[0] {
      BelowIsTransitive(a[1..], b[1..], c[1..]);
    }
  }

  lemma {:induction false} BelowIsIrreflexive(a: Str)
    ensures !Below(a, a)
  {
    if a != [] {
      BelowIsIrreflexive(a[1..]);
    }
  }

  /** Strictly ascending, so without duplicates. */
  ghost predicate Ascends(s: seq<Str>) {
    forall i, j :: 0 <= i < j < |s| ==> Below(s[i], s[j])
  }

  function Insert(s: seq<Str>, x: Str): (r: seq<Str>)
    ensures |r| == |s| + 1
  {
    if s != [] && Below(x, s[|s| - 1]) then Insert(s[..|s| - 1], x) + [s[|s| - 1]] else s + [x]
  }

  /** `Array.prototype.sort` without a comparer. */
  function Sort(s: seq<Str>): (r: seq<Str>)
    ensures |r| == |s|
  {
    if s == [] then [] else Insert(Sort(s[..|s| - 1]), s[|s| - 1])
  }

  ghost predicate Distinct(s: seq<Str>) {
    forall i, j :: 0 <= i < j < |s| ==> s[i] != s[j]
  }

  lemma {:induction false} InsertHas(s: seq<Str>, x: Str, y: Str)
    ensures y in Insert(s, x) <==> y in s || y == x
  {
    if s != [] && Below(x, s[|s| - 1]) {
      var front := s[..|s| - 1];
      InsertHas(front, x, y);
      InFrontOrLast(s, y);
    }
  }

  lemma {:induction false} InsertAscends(s: seq<Str>, x: Str)
    requires Ascends(s) && x !in s
    ensures Ascends(Insert(s, x))
  {
    if s != [] {
      var front, last := s[..|s| - 1], s[|s| - 1];
      assert s == front + [last];
      BelowIsTotal(x, last);
      if Below(x, last) {
        InsertAscends(front, x);
        var r := Insert(front, x);
        forall i | 0 <= i < |r| ensures Below(r[i], last) {
          InsertHas(front, x, r[i]);
          assert r[i] in r;
        }
      } else {
        forall i | 0 <= i < |s| ensures Below(s[i], x) {
          if i < |front| {
            BelowIsTransitive(s[i], last, x);
          }
        }
      }
    }
  }

  lemma {:induction false} SortHas(s: seq<Str>, y: Str)
    ensures y in Sort(s) <==> y in s
  {
    if s != [] {
      var front := s[..|s| - 1];
      SortHas(front, y);
      InsertHas(Sort(front), s[|s| - 1], y);
      InFrontOrLast(s, y);
    }
  }

  lemma {:induction false} SortAscends(s: seq<Str>)
    requires Distinct(s)
    ensures Ascends(Sort(s))
  {
    if s != [] {
      var front := s[..|s| - 1];
      SortAscends(front);
      SortHas(front, s[|s| - 1]);
      InsertAscends(Sort(front), s[|s| - 1]);
    }
  }

  /** The last of an ascending list is its greatest. */
  lemma LastIsGreatest(s: seq<Str>, x: Str)
    requires Ascends(s) && x in s
    ensures x == s[|s| - 1] || Below(x, s[|s| - 1])
  {
  }

  /** An ascending list is determined by its elements. */
  lemma {:induction false} AscendingIsUnique(a: seq<Str>, b: seq<Str>)
    requires Ascends(a) && Ascends(b) && forall x :: x in a <==> x in b
    ensures a == b
    decreases |a|
  {
    if a == [] {
      assert forall i :: 0 <= i < |b| ==> b[i] in a;
    } else {
      assert a[0] in b;
      if a[0] != b[0] {
        assert b[0] in a;
        BelowIsTransitive(a[0], b[0], a[0]);
        BelowIsIrreflexive(a[0]);
      }
      assert a == [a[0]] + a[1..] && b == [b[0]] + b[1..];
      BelowIsIrreflexive(a[0]);
      forall x ensures x in a[1..] <==> x in b[1..] {
        if x in a[1..] {
          assert x in a && Below(a[0], x);
        }
        if x in b[1..] {
          assert x in b && Below(b[0], x);
        }
      }
      AscendingIsUnique(a[1..], b[1..]);
    }
  }
}
