/** Positional numbers with a radix per digit, least significant digit first. Division rounds down and a
    remainder has the sign of the divisor, so radices may be negative. */
module MixedRadix {

  predicate NonZero(rs: seq<int>) {
    forall i :: 0 <= i < |rs| ==> rs[i] != 0
  }

  predicate Positive(rs: seq<int>) {
    forall i :: 0 <= i < |rs| ==> rs[i] > 0
  }

  function FloorMod(x: int, r: int): int
    requires r != 0
  {
    if r > 0 then x % r else -((-x) % (-r))
  }

  function FloorDiv(x: int, r: int): int
    requires r != 0
  {
    if r > 0 then x / r else (-x) / (-r)
  }

  /** A remainder modulo r. */
  predicate Within(d: int, r: int) {
    if r > 0 then 0 <= d < r else r < d <= 0
  }

  function Product(rs: seq<int>): int {
    if rs == [] then 1 else rs[0] * Product(rs[1..])
  }

  function Digits(rs: seq<int>, x: int): (ds: seq<int>)
    requires NonZero(rs)
    ensures |ds| == |rs|
  {
    if rs == [] then [] else [FloorMod(x, rs[0])] + Digits(rs[1..], FloorDiv(x, rs[0]))
  }

  /** What is left of x when all digits have been taken. */
  function Quotient(rs: seq<int>, x: int): int
    requires NonZero(rs)
  {
    if rs == [] then x else Quotient(rs[1..], FloorDiv(x, rs[0]))
  }

  function Value(rs: seq<int>, ds: seq<int>): int
    requires |ds| == |rs|
  {
    if rs == [] then 0 else ds[0] + rs[0] * Value(rs[1..], ds[1..])
  }

  /** Every digit is a remainder modulo its radix. */
  predicate InRange(rs: seq<int>, ds: seq<int>) {
    |ds| == |rs| && forall i :: 0 <= i < |rs| ==> Within(ds[i], rs[i])
  }

  // ---- One division ----

  lemma MulMono(r: nat, a: int, b: int)
    requires a <= b
    ensures r * a <= r * b
  {
  }

  lemma Distribute(r: int, p: int, a: int, b: int)
    ensures r * (p * a + b) == (r * p) * a + r * b
  {
  }

  lemma FloorParts(x: int, r: int)
    requires r != 0
    ensures x == r * FloorDiv(x, r) + FloorMod(x, r) && Within(FloorMod(x, r), r)
  {
    if r < 0 {
      var q, d := (-x) / (-r), (-x) % (-r);
      assert -x == (-r) * q + d;
      Negate(r, q);
    }
  }

  lemma Negate(r: int, q: int)
    ensures (-r) * q == -(r * q) && r * (-q) == -(r * q)
  {
  }

  /** Quotient and remainder are determined by the decomposition. */
  lemma UniqueQuotient(r: nat, q: int, d: nat, q': int, d': nat)
    requires d < r && d' < r && r * q + d == r * q' + d'
    ensures q == q' && d == d'
  {
    if q < q' {
      MulMono(r, q + 1, q');
    } else if q' < q {
      MulMono(r, q' + 1, q);
    }
  }

  lemma UniqueFloor(r: int, q: int, d: int, q': int, d': int)
    requires r != 0 && Within(d, r) && Within(d', r) && r * q + d == r * q' + d'
    ensures q == q' && d == d'
  {
    if r > 0 {
      UniqueQuotient(r, q, d, q', d');
    } else {
      Negate(r, q);
      Negate(r, q');
      UniqueQuotient(-r, q, -d, q', -d');
    }
  }

  lemma FloorOf(r: int, q: int, d: int)
    requires r != 0 && Within(d, r)
    ensures FloorDiv(d + r * q, r) == q && FloorMod(d + r * q, r) == d
  {
    var x := d + r * q;
    FloorParts(x, r);
    UniqueFloor(r, FloorDiv(x, r), FloorMod(x, r), q, d);
  }

  // ---- Digits and values ----

  lemma {:induction false} DigitsInRange(rs: seq<int>, x: int)
    requires NonZero(rs)
    ensures InRange(rs, Digits(rs, x))
  {
    if rs != [] {
      var ds := Digits(rs, x);
      FloorParts(x, rs[0]);
      DigitsInRange(rs[1..], FloorDiv(x, rs[0]));
      forall i | 0 <= i < |rs| ensures Within(ds[i], rs[i]) {
        if i > 0 { assert ds[i] == Digits(rs[1..], FloorDiv(x, rs[0]))[i - 1] && rs[i] == rs[1..][i - 1]; }
      }
    }
  }

  lemma ValueStep(rs: seq<int>, d: int, ds: seq<int>)
    requires rs != [] && |ds| == |rs| - 1
    ensures Value(rs, [d] + ds) == d + rs[0] * Value(rs[1..], ds)
  {
    assert ([d] + ds)[1..] == ds;
  }

  lemma Regroup(d: int, r: int, v: int, p: int, w: int)
    ensures d + r * (v + p * w) == (d + r * v) + (r * p) * w
  {
    Distribute(r, p, w, v);
  }

  /** A number is the value of its digits up to a multiple of the product. */
  lemma {:induction false} Decompose(rs: seq<int>, x: int)
    requires NonZero(rs)
    ensures x == Value(rs, Digits(rs, x)) + Product(rs) * Quotient(rs, x)
  {
    if rs != [] {
      var r, d, y := rs[0], FloorMod(x, rs[0]), FloorDiv(x, rs[0]);
      var v, p, w := Value(rs[1..], Digits(rs[1..], y)), Product(rs[1..]), Quotient(rs[1..], y);
      FloorParts(x, r);
      Decompose(rs[1..], y);
      Regroup(d, r, v, p, w);
      ValueStep(rs, d, Digits(rs[1..], y));
    }
  }

  /** Digits in range are recovered from their value, and from every number that differs from it by a multiple
      of the product. */
  lemma {:induction false} DigitsOfValue(rs: seq<int>, ds: seq<int>, w: int)
    requires NonZero(rs) && InRange(rs, ds)
    ensures Digits(rs, Value(rs, ds) + Product(rs) * w) == ds
  {
    if rs != [] {
      var r, d, v, p := rs[0], ds[0], Value(rs[1..], ds[1..]), Product(rs[1..]);
      Regroup(d, r, v, p, w);
      FloorOf(r, v + p * w, d);
      assert InRange(rs[1..], ds[1..]);
      DigitsOfValue(rs[1..], ds[1..], w);
      OneMoreDigit(rs, Value(rs, ds) + Product(rs) * w, d, v + p * w);
      assert ds == [d] + ds[1..];
    }
  }

  lemma OneMoreDigit(rs: seq<int>, x: int, d: int, q: int)
    requires NonZero(rs) && rs != [] && FloorMod(x, rs[0]) == d && FloorDiv(x, rs[0]) == q
    ensures Digits(rs, x) == [d] + Digits(rs[1..], q)
  {
  }

  /** Digits repeat with the product as period. */
  lemma DigitsPeriodic(rs: seq<int>, x: int, w: int)
    requires NonZero(rs)
    ensures Digits(rs, x + Product(rs) * w) == Digits(rs, x)
  {
    var ds, p, q := Digits(rs, x), Product(rs), Quotient(rs, x);
    Decompose(rs, x);
    DigitsInRange(rs, x);
    Shift(x, Value(rs, ds), p, q, w);
    DigitsOfValue(rs, ds, q + w);
  }

  lemma Shift(x: int, v: int, p: int, q: int, w: int)
    requires x == v + p * q
    ensures x + p * w == v + p * (q + w)
  {
  }

  lemma ModIsShift(v: int, p: int)
    requires p > 0
    ensures v % p == v + p * (-(v / p))
  {
    Negate(p, v / p);
  }

  /** The number in [0, Product) with the given digits. */
  function IndexOf(rs: seq<int>, ds: seq<int>): (x: int)
    requires |ds| == |rs| && Product(rs) > 0
    ensures 0 <= x < Product(rs)
  {
    Value(rs, ds) % Product(rs)
  }

  /** Whenever the product is positive, digits and numbers in [0, Product) determine each other, whatever the
      signs of the radices. */
  lemma DigitsOfIndex(rs: seq<int>, ds: seq<int>)
    requires NonZero(rs) && Product(rs) > 0 && InRange(rs, ds)
    ensures Digits(rs, IndexOf(rs, ds)) == ds
  {
    var v, p := Value(rs, ds), Product(rs);
    ModIsShift(v, p);
    DigitsOfValue(rs, ds, -(v / p));
  }

  lemma IndexOfDigits(rs: seq<int>, x: nat)
    requires NonZero(rs) && x < Product(rs)
    ensures IndexOf(rs, Digits(rs, x)) == x
  {
    Decompose(rs, x);
    ModOf(Value(rs, Digits(rs, x)), Product(rs), Quotient(rs, x), x);
  }

  lemma ModOf(v: int, p: int, q: int, x: int)
    requires 0 <= x < p && x == v + p * q
    ensures v % p == x
  {
    Negate(p, q);
    assert v == x + p * (-q);
    FloorOf(p, -q, x);
  }

  /** The decoding of [0, Product) is injective. */
  lemma DigitsInjective(rs: seq<int>, x: nat, y: nat)
    requires NonZero(rs) && x < Product(rs) && y < Product(rs) && Digits(rs, x) == Digits(rs, y)
    ensures x == y
  {
    IndexOfDigits(rs, x);
    IndexOfDigits(rs, y);
  }

  // ---- Positive radices ----

  lemma {:induction false} ProductPositive(rs: seq<int>)
    requires Positive(rs)
    ensures Product(rs) > 0
  {
    if rs != [] {
      ProductPositive(rs[1..]);
    }
  }

  /** Digits depend only on the number modulo the product. */
  lemma DigitsModulo(rs: seq<int>, x: int)
    requires NonZero(rs) && Product(rs) > 0
    ensures Digits(rs, x % Product(rs)) == Digits(rs, x)
  {
    var p := Product(rs);
    ModIsShift(x, p);
    DigitsPeriodic(rs, x, -(x / p));
  }

  /** Splitting x by r and the quotient by p splits x by r * p. */
  lemma TwoLevels(x: nat, r: nat, p: nat)
    requires r > 0 && p > 0
    ensures var d, a, b := x % r, x / r / p, x / r % p;
            r * p > 0 && x == (d + r * b) + (r * p) * a && d + r * b < r * p
  {
    var d, a, b := x % r, x / r / p, x / r % p;
    assert x == r * (x / r) + d && x / r == p * a + b;
    Distribute(r, p, a, b);
    MulMono(r, b + 1, p);
  }

  lemma DivDiv(x: nat, a: nat, b: nat)
    requires a > 0 && b > 0 && a * b > 0
    ensures x / (a * b) == (x / a) / b
  {
    TwoLevels(x, a, b);
    FloorOf(a * b, x / a / b, x % a + a * (x / a % b));
  }
}
