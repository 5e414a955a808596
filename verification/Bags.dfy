/** Sequences compared as bags. */
module Bags {
  lemma BagWithout<T>(items: seq<T>, k: nat)
    requires k < |items|
    ensures multiset(items[..k] + items[k + 1..]) == multiset(items) - multiset{items[k]}
  {
    assert items == items[..k] + [items[k]] + items[k + 1..];
  }

  lemma PlaceOf<T>(items: seq<T>, x: T, others: seq<T>) returns (k: nat)
    requires multiset(items) == multiset(others) && x in others
    ensures k < |items| && items[k] == x
  {
    assert x in multiset(items);
    k :| 0 <= k < |items| && items[k] == x;
  }

  lemma SameBagHead<T>(one: seq<T>, two: seq<T>) returns (k: nat)
    requires one != [] && multiset(one) == multiset(two)
    ensures k < |two| && two[k] == one[0]
    ensures multiset(one[1..]) == multiset(two[..k] + two[k + 1..])
  {
    k := PlaceOf(two, one[0], one);
    BagWithout(one, 0);
    BagWithout(two, k);
    assert one[..0] + one[1..] == one[1..];
  }

  lemma SameBagLast<T>(one: seq<T>, two: seq<T>) returns (k: nat)
    requires one != [] && multiset(one) == multiset(two)
    ensures k < |two| && two[k] == one[|one| - 1]
    ensures multiset(one[..|one| - 1]) == multiset(two[..k] + two[k + 1..])
  {
    var last := |one| - 1;
    k := PlaceOf(two, one[last], one);
    BagWithout(one, last);
    BagWithout(two, k);
    assert one[..last] + one[last + 1..] == one[..last];
  }

  lemma BagRest<T>(one: seq<T>, two: seq<T>, all: seq<T>, rest: multiset<T>)
    requires all == one + two && rest + multiset(one) == multiset(all)
    ensures rest == multiset(two)
  {
    assert rest + multiset(one) == multiset(two) + multiset(one);
    assert rest == rest + multiset(one) - multiset(one);
    assert multiset(two) == multiset(two) + multiset(one) - multiset(one);
  }

  /** Items that all differ are in the bag at most once each. */
  lemma {:induction false} OnceEach<T>(items: seq<T>, x: T)
    requires forall i, j :: 0 <= i < j < |items| ==> items[i] != items[j]
    ensures multiset(items)[x] <= 1
  {
    if items != [] {
      var front, last := items[..|items| - 1], items[|items| - 1];
      OnceEach(front, x);
      assert items == front + [last];
      if x == last { assert x !in front; }
    }
  }

  /** Two lists without repetition that hold the same items are the same bag. */
  lemma SameOnce<T>(one: seq<T>, two: seq<T>)
    requires forall i, j :: 0 <= i < j < |one| ==> one[i] != one[j]
    requires forall i, j :: 0 <= i < j < |two| ==> two[i] != two[j]
    requires forall x :: x in one <==> x in two
    ensures multiset(one) == multiset(two)
  {
    forall x ensures multiset(one)[x] == multiset(two)[x] {
      OnceEach(one, x);
      OnceEach(two, x);
      assert x in one <==> multiset(one)[x] > 0;
      assert x in two <==> multiset(two)[x] > 0;
    }
  }

  /** Of items that all differ, none is in two parts. */
  lemma PartsApart<T>(one: seq<T>, two: seq<T>, x: T)
    requires forall i, j :: 0 <= i < j < |one + two| ==> (one + two)[i] != (one + two)[j]
    requires x in one
    ensures x !in two
  {
    var a :| 0 <= a < |one| && one[a] == x;
    forall b | 0 <= b < |two| ensures two[b] != x {
      assert (one + two)[a] != (one + two)[|one| + b];
    }
  }

  lemma BagCancels<T>(a: multiset<T>, b: multiset<T>, c: multiset<T>, more: multiset<T>)
    requires a + b == c + (b + more)
    ensures a == c + more
  {
    assert a == a + b - b;
    assert c + more == c + (b + more) - b;
  }

  /** An item of a part is an item of the whole. */
  lemma InBag<T>(items: seq<T>, part: seq<T>, i: nat) returns (j: nat)
    requires multiset(part) <= multiset(items) && i < |part|
    ensures j < |items| && items[j] == part[i]
  {
    assert part[i] in multiset(part);
    assert part[i] in multiset(items);
    j :| 0 <= j < |items| && items[j] == part[i];
  }

  lemma TwiceIn<T>(items: seq<T>, i: nat, j: nat)
    requires i < j < |items| && items[i] == items[j]
    ensures multiset(items)[items[i]] >= 2
  {
    assert items == items[..j] + [items[j]] + items[j + 1..];
    assert items[i] in items[..j] by { assert items[..j][i] == items[i]; }
  }

  /** Items that all differ do so in any order. */
  lemma ApartInAnyOrder<T>(one: seq<T>, two: seq<T>)
    requires multiset(one) == multiset(two) && forall i, j :: 0 <= i < j < |one| ==> one[i] != one[j]
    ensures forall i, j :: 0 <= i < j < |two| ==> two[i] != two[j]
  {
    forall i, j | 0 <= i < j < |two| ensures two[i] != two[j] {
      if two[i] == two[j] {
        TwiceIn(two, i, j);
        OnceEach(one, two[i]);
      }
    }
  }

  lemma SameLength<T>(one: seq<T>, two: seq<T>)
    requires multiset(one) == multiset(two)
    ensures |one| == |two|
  {
    assert |multiset(one)| == |one| && |multiset(two)| == |two|;
  }

  lemma Around<T>(items: seq<T>, k: nat)
    requires k < |items|
    ensures items == items[..k] + [items[k]] + items[k + 1..]
  {
  }

  lemma SameHeld<T>(a: seq<T>, b: seq<T>)
    requires multiset(a) == multiset(b)
    ensures forall x :: x in a <==> x in b
  {
    forall x ensures x in a <==> x in b {
      assert x in a <==> x in multiset(a);
      assert x in b <==> x in multiset(b);
    }
  }

  /** Items that are equal have equal images: then equal bags have equal bags of images. */
  lemma {:induction false} MappedBag<T, U>(one: seq<T>, two: seq<T>, images: seq<U>, others: seq<U>)
    requires multiset(one) == multiset(two) && |images| == |one| && |others| == |two|
    requires forall i, j :: 0 <= i < |one| && 0 <= j < |two| && one[i] == two[j] ==> images[i] == others[j]
    ensures multiset(images) == multiset(others)
    decreases |one|
  {
    if one == [] {
      SameLength(one, two);
    } else {
      var last := |one| - 1;
      var k := SameBagLast(one, two);
      MappedBag(one[..last], two[..k] + two[k + 1..], images[..last], others[..k] + others[k + 1..]);
      BagWithout(others, k);
      assert images == images[..last] + [images[last]];
    }
  }
}
