/** Numerals in any base, most significant digit first, with their leading zeros. */
module Numerals {

  predicate DigitsOf(ds: seq<nat>, base: nat) {
    forall i :: 0 <= i < |ds| ==> ds[i] < base
  }

  function FromDigits(ds: seq<nat>, base: nat): nat {
    if ds == [] then 0 else FromDigits(ds[..|ds| - 1], base) * base + ds[|ds| - 1]
  }

  function ToDigits(v: nat, base: nat): (ds: seq<nat>)
    requires base >= 2
    ensures DigitsOf(ds, base)
  {
    if v == 0 then []
    else
      SmallerQuotient(v, base);
      ToDigits(v / base, base) + [v % base]
  }

  lemma {:induction false} ProductAtLeast(q: int, base: nat)
    ensures q >= 1 ==> q * base >= base
    ensures q <= -1 ==> q * base + base <= 0
    decreases if q >= 0 then q else -q
  {
    if q > 1 {
      ProductAtLeast(q - 1, base);
      assert q * base == (q - 1) * base + base;
    } else if q < -1 {
      ProductAtLeast(q + 1, base);
      assert q * base == (q + 1) * base - base;
    }
  }

  lemma SmallerQuotient(v: nat, base: nat)
    requires v > 0 && base >= 2
    ensures v / base < v
  {
    var q: int := v / base;
    assert v == q * base + v % base;
    assert q * base == q * 2 + q * (base - 2);
    if q >= 1 {
      ProductAtLeast(q, base - 2);
    }
  }

  function LeadingZeros(ds: seq<nat>): (n: nat)
    ensures n <= |ds|
  {
    if ds == [] || ds[0] != 0 then 0 else 1 + LeadingZeros(ds[1..])
  }

  function Zeros(n: nat): (ds: seq<nat>)
    ensures |ds| == n && forall i :: 0 <= i < n ==> ds[i] == 0
  {
    seq(n, i => 0)
  }

  lemma QuotientAndRemainder(q: nat, r: nat, base: nat)
    requires r < base
    ensures (q * base + r) / base == q && (q * base + r) % base == r
  {
    var n := q * base + r;
    assert n == (n / base) * base + n % base;
    var d := n / base - q;
    assert d * base == (n / base) * base - q * base == r - n % base;
    ProductAtLeast(d, base);
  }

  lemma FromDigitsAppend(ds: seq<nat>, d: nat, base: nat)
    ensures FromDigits(ds + [d], base) == FromDigits(ds, base) * base + d
  {
    assert (ds + [d])[..|ds|] == ds;
  }

  lemma ToDigitsStep(v: nat, base: nat)
    requires v > 0 && base >= 2
    ensures v / base < v && ToDigits(v, base) == ToDigits(v / base, base) + [v % base]
  {
    SmallerQuotient(v, base);
  }

  lemma FromToStep(v: nat, base: nat, front: seq<nat>)
    requires base >= 2 && FromDigits(front, base) == v / base
    ensures FromDigits(front + [v % base], base) == v
  {
    FromDigitsAppend(front, v % base, base);
  }

  lemma {:induction false} FromTo(v: nat, base: nat)
    requires base >= 2
    ensures FromDigits(ToDigits(v, base), base) == v
    decreases v
  {
    if v > 0 {
      ToDigitsStep(v, base);
      FromTo(v / base, base);
      FromToStep(v, base, ToDigits(v / base, base));
    }
  }

  /** Reading a numeral back gives its digits without the leading zeros. */
  lemma {:induction false} ToFrom(ds: seq<nat>, base: nat)
    requires base >= 2 && DigitsOf(ds, base)
    ensures ToDigits(FromDigits(ds, base), base) == ds[LeadingZeros(ds)..]
  {
    if ds != [] {
      var (front, last) := (ds[..|ds| - 1], ds[|ds| - 1]);
      var v := FromDigits(front, base);
      ToFrom(front, base);
      ZerosOfFront(ds);
      QuotientAndRemainder(v, last, base);
      if v * base + last == 0 {
        ProductAtLeast(v, base);
        assert front[LeadingZeros(front)..] == [];
      } else {
        SmallerQuotient(v * base + last, base);
        assert ToDigits(v * base + last, base) == front[LeadingZeros(front)..] + [last];
        if LeadingZeros(front) == |front| {
          assert v == 0;
        }
        assert front[LeadingZeros(front)..] + [last] == ds[LeadingZeros(front)..];
      }
    }
  }

  lemma {:induction false} ZerosOfFront(ds: seq<nat>)
    requires ds != []
    ensures var front := ds[..|ds| - 1];
      LeadingZeros(ds) == if LeadingZeros(front) < |front| || ds[|ds| - 1] != 0 then LeadingZeros(front) else |ds|
    decreases |ds|
  {
    if |ds| > 1 && ds[0] == 0 {
      assert ds[1..][..|ds| - 2] == ds[..|ds| - 1][1..];
      ZerosOfFront(ds[1..]);
    }
  }

  lemma {:induction false} LeadingZerosAreZero(ds: seq<nat>)
    ensures forall i :: 0 <= i < LeadingZeros(ds) ==> ds[i] == 0
    ensures LeadingZeros(ds) < |ds| ==> ds[LeadingZeros(ds)] != 0
  {
    if ds != [] && ds[0] == 0 {
      LeadingZerosAreZero(ds[1..]);
      forall i | 0 <= i < LeadingZeros(ds) ensures ds[i] == 0 {
        if i > 0 {
          assert ds[i] == ds[1..][i - 1];
        }
      }
    }
  }

  lemma SplitZeros(ds: seq<nat>)
    ensures ds == Zeros(LeadingZeros(ds)) + ds[LeadingZeros(ds)..]
  {
    LeadingZerosAreZero(ds);
  }

  /** A numeral without a leading zero, after `n` zeros, has exactly those zeros. */
  lemma {:induction false} CountZeros(n: nat, ds: seq<nat>)
    requires ds != [] ==> ds[0] != 0
    ensures LeadingZeros(Zeros(n) + ds) == n && (Zeros(n) + ds)[n..] == ds
  {
    if n == 0 {
      assert Zeros(0) + ds == ds;
    } else {
      assert (Zeros(n) + ds)[1..] == Zeros(n - 1) + ds;
      CountZeros(n - 1, ds);
    }
  }

  lemma {:induction false} NoLeadingZero(v: nat, base: nat)
    requires base >= 2 && v > 0
    ensures ToDigits(v, base) != [] && ToDigits(v, base)[0] != 0
    decreases v
  {
    SmallerQuotient(v, base);
    if v / base > 0 {
      NoLeadingZero(v / base, base);
    } else {
      assert v % base == v;
    }
  }

  /** Changing the base of a numeral, zero digits in front kept one for one. */
  function Rebase(ds: seq<nat>, base: nat, other: nat): seq<nat>
    requires other >= 2
  {
    Zeros(LeadingZeros(ds)) + ToDigits(FromDigits(ds, base), other)
  }

  lemma {:induction false} LeadingZerosDoNotCount(n: nat, ds: seq<nat>, base: nat)
    ensures FromDigits(Zeros(n) + ds, base) == FromDigits(ds, base)
    decreases |ds| + n
  {
    if ds == [] {
      assert Zeros(n) + ds == Zeros(n);
      if n > 0 {
        assert Zeros(n)[..n - 1] == Zeros(n - 1) + [];
        LeadingZerosDoNotCount(n - 1, [], base);
      }
    } else {
      var all := Zeros(n) + ds;
      assert all[..|all| - 1] == Zeros(n) + ds[..|ds| - 1];
      LeadingZerosDoNotCount(n, ds[..|ds| - 1], base);
    }
  }

  /** Back and forth between two bases loses nothing. */
  lemma RebaseBack(ds: seq<nat>, base: nat, other: nat)
    requires base >= 2 && other >= 2 && DigitsOf(ds, base)
    ensures Rebase(Rebase(ds, base, other), other, base) == ds
  {
    var v := FromDigits(ds, base);
    var digits := ToDigits(v, other);
    if v > 0 {
      NoLeadingZero(v, other);
    }
    CountZeros(LeadingZeros(ds), digits);
    LeadingZerosDoNotCount(LeadingZeros(ds), digits, other);
    FromTo(v, other);
    ToFrom(ds, base);
    SplitZeros(ds);
  }
}
