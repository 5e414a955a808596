/** Order statistics, products and powers over exact reals. */
module Stats {
  import opened Bags
  import opened Sorting

  // ----- sorting and the median

  predicate AtMost(x: real, y: real) { x <= y }

  lemma AtMostIsTotal()
    ensures TotalOrder(AtMost)
  {
  }

  function Median(s: seq<real>): real
    requires s != []
  {
    var r, n := Sort(s, AtMost), |s|;
    if n % 2 == 1 then r[n / 2] else (r[n / 2 - 1] + r[n / 2]) / 2.0
  }

  function Max(s: seq<real>): (m: real)
    requires s != []
    ensures m in s && forall i :: 0 <= i < |s| ==> s[i] <= m
  {
    if |s| == 1 then s[0]
    else
      var m := Max(s[1..]);
      if s[0] >= m then s[0] else m
  }

  function Min(s: seq<real>): (m: real)
    requires s != []
    ensures m in s && forall i :: 0 <= i < |s| ==> m <= s[i]
  {
    if |s| == 1 then s[0]
    else
      var m := Min(s[1..]);
      if s[0] <= m then s[0] else m
  }

  function Range(s: seq<real>): (r: real)
    requires s != []
    ensures r >= 0.0
  {
    Max(s) - Min(s)
  }

  /** Median and range do not depend on the order of the samples. */
  lemma OrderFree(a: seq<real>, b: seq<real>)
    requires a != [] && b != [] && multiset(a) == multiset(b)
    ensures |a| == |b| && Median(a) == Median(b) && Range(a) == Range(b)
  {
    MedianOrderFree(a, b);
    SameHeld(a, b);
    SameExtremes(a, b);
  }

  lemma MedianOrderFree(a: seq<real>, b: seq<real>)
    requires a != [] && b != [] && multiset(a) == multiset(b)
    ensures |a| == |b| && Median(a) == Median(b)
  {
    assert |a| == |multiset(a)| == |multiset(b)| == |b|;
    AtMostIsTotal();
    SortOrderFree(a, b, AtMost);
  }

  lemma SameExtremes(a: seq<real>, b: seq<real>)
    requires a != [] && b != [] && forall x :: x in a <==> x in b
    ensures Max(a) == Max(b) && Min(a) == Min(b)
  {
  }

  predicate Positive(s: seq<real>) {
    forall i :: 0 <= i < |s| ==> s[i] > 0.0
  }

  lemma MedianPositive(s: seq<real>)
    requires s != [] && Positive(s)
    ensures Median(s) > 0.0
  {
    AtMostIsTotal();
    SortKeeps(s, AtMost);
    forall i | 0 <= i < |s|
      ensures Sort(s, AtMost)[i] > 0.0
    {
      assert Sort(s, AtMost)[i] in multiset(Sort(s, AtMost));
      assert Sort(s, AtMost)[i] in s;
    }
  }

  // ----- scaling

  /** Multiplication under a name, so that equal factors are seen to give equal products. */
  function Times(x: real, y: real): real {
    x * y
  }

  function Scale(s: seq<real>, k: real): (r: seq<real>)
    ensures |r| == |s|
  {
    if s == [] then [] else [Times(s[0], k)] + Scale(s[1..], k)
  }

  lemma ScaleCons(x: real, s: seq<real>, k: real)
    ensures Scale([x] + s, k) == [Times(x, k)] + Scale(s, k)
  {
    assert ([x] + s)[1..] == s;
  }

  lemma {:induction false} ScaleAt(s: seq<real>, k: real, i: nat)
    requires i < |s|
    ensures Scale(s, k)[i] == Times(s[i], k)
  {
    if i > 0 {
      ScaleAt(s[1..], k, i - 1);
    }
  }

  lemma TimesOrder(x: real, y: real, k: real)
    requires k > 0.0
    ensures x <= y <==> Times(x, k) <= Times(y, k)
  {
  }

  lemma InsertCons(y: real, x: real, s: seq<real>)
    ensures Insert(y, [x] + s, AtMost) == if y <= x then [y] + ([x] + s) else [x] + Insert(y, s, AtMost)
  {
    assert ([x] + s)[1..] == s;
  }

  lemma {:induction false} InsertScales(x: real, s: seq<real>, k: real)
    requires k > 0.0
    ensures Insert(Times(x, k), Scale(s, k), AtMost) == Scale(Insert(x, s, AtMost), k)
  {
    ScaleCons(x, s, k);
    if s != [] {
      var h, t := s[0], s[1..];
      assert s == [h] + t;
      ScaleCons(h, t, k);
      TimesOrder(x, h, k);
      InsertCons(Times(x, k), Times(h, k), Scale(t, k));
      InsertScales(x, t, k);
      ScaleCons(h, Insert(x, t, AtMost), k);
    }
  }

  lemma {:induction false} SortScales(s: seq<real>, k: real)
    requires k > 0.0
    ensures Sort(Scale(s, k), AtMost) == Scale(Sort(s, AtMost), k)
  {
    if s != [] {
      assert s == [s[0]] + s[1..];
      ScaleCons(s[0], s[1..], k);
      SortScales(s[1..], k);
      InsertScales(s[0], Sort(s[1..], AtMost), k);
      assert ([Times(s[0], k)] + Scale(s[1..], k))[1..] == Scale(s[1..], k);
    }
  }

  lemma Distribute(a: real, b: real, k: real)
    ensures (Times(a, k) + Times(b, k)) / 2.0 == Times((a + b) / 2.0, k)
    ensures Times(a, k) - Times(b, k) == Times(a - b, k)
  {
  }

  lemma {:induction false} MedianScales(s: seq<real>, k: real)
    requires s != [] && k > 0.0
    ensures Median(Scale(s, k)) == Times(Median(s), k)
  {
    SortScales(s, k);
    var r, n := Sort(s, AtMost), |s|;
    ScaleAt(r, k, n / 2);
    if n % 2 == 0 {
      ScaleAt(r, k, n / 2 - 1);
      Distribute(r[n / 2 - 1], r[n / 2], k);
    }
  }

  lemma {:induction false} ExtremesScale(s: seq<real>, k: real)
    requires s != [] && k > 0.0
    ensures Max(Scale(s, k)) == Times(Max(s), k) && Min(Scale(s, k)) == Times(Min(s), k)
  {
    assert s == [s[0]] + s[1..];
    ScaleCons(s[0], s[1..], k);
    assert ([Times(s[0], k)] + Scale(s[1..], k))[1..] == Scale(s[1..], k);
    if |s| > 1 {
      ExtremesScale(s[1..], k);
      TimesOrder(Max(s[1..]), s[0], k);
      TimesOrder(s[0], Min(s[1..]), k);
    }
  }

  /** Measuring every time in another unit scales the median and the range. */
  lemma StatisticsScale(s: seq<real>, k: real)
    requires s != [] && k > 0.0
    ensures Median(Scale(s, k)) == Times(Median(s), k) && Range(Scale(s, k)) == Times(Range(s), k)
  {
    MedianScales(s, k);
    RangeScales(s, k);
  }

  lemma {:induction false} RangeScales(s: seq<real>, k: real)
    requires s != [] && k > 0.0
    ensures Range(Scale(s, k)) == Times(Range(s), k)
  {
    ExtremesScale(s, k);
    RangeFrom(s, Scale(s, k), k);
  }

  lemma {:induction false} RangeFrom(s: seq<real>, t: seq<real>, k: real)
    requires s != [] && t != [] && Max(t) == Times(Max(s), k) && Min(t) == Times(Min(s), k)
    ensures Range(t) == Times(Range(s), k)
  {
    var x, y, a, b := Max(t), Min(t), Max(s), Min(s);
    Differ(x, y, a, b, k);
  }

  lemma Differ(x: real, y: real, a: real, b: real, k: real)
    requires x == Times(a, k) && y == Times(b, k)
    ensures x - y == Times(a - b, k)
  {
    Distribute(a, b, k);
  }

  // ----- products and powers

  function Product(s: seq<real>): real {
    if s == [] then 1.0 else Times(s[0], Product(s[1..]))
  }

  function Power(x: real, n: nat): real {
    if n == 0 then 1.0 else Times(x, Power(x, n - 1))
  }

  lemma {:induction false} ProductJoin(a: seq<real>, b: seq<real>)
    ensures Product(a + b) == Times(Product(a), Product(b))
  {
    if a == [] {
      assert a + b == b;
    } else {
      ProductJoin(a[1..], b);
      assert (a + b)[1..] == a[1..] + b;
    }
  }

  lemma ProductHead(x: real, s: seq<real>)
    ensures Product([x] + s) == Times(x, Product(s))
  {
    assert ([x] + s)[1..] == s;
  }

  lemma Swap(a: real, b: real, c: real)
    ensures Times(a, Times(b, c)) == Times(b, Times(a, c))
  {
  }

  lemma ProductPick(front: seq<real>, x: real, back: seq<real>)
    ensures Product(front + ([x] + back)) == Times(x, Product(front + back))
  {
    ProductJoin(front, [x] + back);
    ProductJoin(front, back);
    ProductHead(x, back);
    Swap(Product(front), x, Product(back));
  }

  lemma MultisetPick(front: seq<real>, x: real, back: seq<real>)
    ensures multiset(front + ([x] + back)) == multiset(front + back) + multiset{x}
  {
  }

  lemma PickFrom(b: seq<real>, x: real) returns (rest: seq<real>)
    requires x in multiset(b)
    ensures multiset(rest) == multiset(b) - multiset{x} && Product(b) == Times(x, Product(rest))
  {
    var i :| 0 <= i < |b| && b[i] == x;
    var front, back := b[..i], b[i + 1..];
    assert b == front + ([x] + back);
    MultisetPick(front, x, back);
    ProductPick(front, x, back);
    rest := front + back;
  }

  /** A product does not depend on the order of its factors. */
  lemma {:induction false} ProductOrderFree(a: seq<real>, b: seq<real>)
    requires multiset(a) == multiset(b)
    ensures |a| == |b| && Product(a) == Product(b)
    decreases |a|
  {
    assert |a| == |multiset(a)| == |multiset(b)| == |b|;
    if a != [] {
      assert a[0] in multiset(b);
      var rest := PickFrom(b, a[0]);
      assert a == [a[0]] + a[1..];
      ProductOrderFree(a[1..], rest);
    }
  }

  lemma {:induction false} ProductPositive(s: seq<real>)
    requires Positive(s)
    ensures Product(s) > 0.0
  {
    if s != [] {
      ProductPositive(s[1..]);
    }
  }

  lemma {:induction false} PowerPositive(x: real, n: nat)
    requires x > 0.0
    ensures Power(x, n) > 0.0
  {
    if n > 0 {
      PowerPositive(x, n - 1);
    }
  }

  lemma PowerStep(x: real, n: nat)
    requires n > 0
    ensures Power(x, n) == Times(x, Power(x, n - 1))
  {
  }

  lemma Associate(a: real, b: real, c: real)
    ensures Times(a, Times(b, c)) == Times(Times(a, b), c)
  {
  }

  lemma One(a: real)
    ensures Times(1.0, a) == a
  {
  }

  lemma {:induction false} PowerAdd(x: real, m: nat, n: nat)
    ensures Power(x, m + n) == Times(Power(x, m), Power(x, n))
  {
    if m > 0 {
      PowerAdd(x, m - 1, n);
      PowerStep(x, m + n);
      PowerStep(x, m);
      Associate(x, Power(x, m - 1), Power(x, n));
    } else {
      One(Power(x, n));
    }
  }

  lemma {:induction false} PowerMul(x: real, m: nat, n: nat)
    ensures Power(x, m * n) == Power(Power(x, m), n)
  {
    if n > 0 {
      PowerMul(x, m, n - 1);
      assert m * n == m + m * (n - 1);
      PowerAdd(x, m, m * (n - 1));
    }
  }

  lemma {:induction false} PowerOfProduct(x: real, y: real, n: nat)
    ensures Power(Times(x, y), n) == Times(Power(x, n), Power(y, n))
  {
    if n > 0 {
      PowerOfProduct(x, y, n - 1);
      Regroup(x, y, Power(x, n - 1), Power(y, n - 1));
    }
  }

  lemma Regroup(a: real, b: real, c: real, d: real)
    ensures Times(Times(a, b), Times(c, d)) == Times(Times(a, c), Times(b, d))
  {
  }

  /** Powers of positive reals keep the order, strictly. */
  lemma {:induction false} PowerOrder(x: real, y: real, n: nat)
    requires x > 0.0 && y > 0.0 && n > 0
    ensures Power(x, n) < Power(y, n) <==> x < y
  {
    PowerPositive(x, n - 1);
    PowerPositive(y, n - 1);
    if n > 1 {
      PowerOrder(x, y, n - 1);
      Monotone(x, y, Power(x, n - 1), Power(y, n - 1));
    }
  }

  lemma Monotone(x: real, y: real, p: real, q: real)
    requires x > 0.0 && y > 0.0 && p > 0.0 && q > 0.0 && (p < q <==> x < y)
    ensures x * p < y * q <==> x < y
  {
    if x < y {
      assert x * p < y * p && y * p < y * q;
    } else {
      assert y * q <= x * q && x * q <= x * p;
    }
  }

  lemma {:induction false} PowerOfOne(n: nat)
    ensures Power(1.0, n) == 1.0
  {
    if n > 0 {
      PowerOfOne(n - 1);
    }
  }

  function Repeat(s: seq<real>, k: nat): seq<real> {
    if k == 0 then [] else s + Repeat(s, k - 1)
  }

  lemma {:induction false} ProductOfRepeat(s: seq<real>, k: nat)
    ensures |Repeat(s, k)| == k * |s| && Product(Repeat(s, k)) == Power(Product(s), k)
  {
    if k > 0 {
      ProductOfRepeat(s, k - 1);
      ProductJoin(s, Repeat(s, k - 1));
    }
  }
}
