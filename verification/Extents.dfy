/** Byte extents, their order, and the sweep that accepts those that tile a section. */
module Extents {
  import opened Sorting

  datatype Extent = Extent(start: int, stop: int)

  predicate Holds(x: Extent, b: int) { x.start <= b < x.stop }

  /** How many extents hold a byte. */
  function Cover(extents: seq<Extent>, b: int): nat {
    if extents == [] then 0 else (if Holds(extents[0], b) then 1 else 0) + Cover(extents[1..], b)
  }

  function Span(extents: seq<Extent>): int {
    if extents == [] then 0 else extents[0].stop - extents[0].start + Span(extents[1..])
  }

  /** Python's order on pairs. */
  predicate Before(x: Extent, y: Extent) {
    x.start < y.start || (x.start == y.start && x.stop <= y.stop)
  }

  lemma BeforeIsTotal()
    ensures TotalOrder(Before)
  {
  }

  lemma {:induction false} InsertCounts(x: Extent, sorted: seq<Extent>, b: int)
    ensures Cover(Insert(x, sorted, Before), b) == Cover(sorted, b) + if Holds(x, b) then 1 else 0
    ensures Span(Insert(x, sorted, Before)) == Span(sorted) + x.stop - x.start
  {
    if sorted == [] {
    } else if Before(x, sorted[0]) {
      assert ([x] + sorted)[1..] == sorted;
    } else {
      InsertCounts(x, sorted[1..], b);
      assert ([sorted[0]] + Insert(x, sorted[1..], Before))[1..] == Insert(x, sorted[1..], Before);
    }
  }

  lemma SortSorts(extents: seq<Extent>)
    ensures multiset(Sort(extents, Before)) == multiset(extents)
    ensures Ordered(Sort(extents, Before), Before)
  {
    BeforeIsTotal();
    SortKeeps(extents, Before);
  }

  lemma {:induction false} SortCounts(extents: seq<Extent>, b: int)
    ensures Cover(Sort(extents, Before), b) == Cover(extents, b)
    ensures Span(Sort(extents, Before)) == Span(extents)
  {
    if extents != [] {
      SortCounts(extents[1..], b);
      InsertCounts(extents[0], Sort(extents[1..], Before), b);
    }
  }

  /** Each extent begins where the one before it stopped, and the last stops at the end. */
  predicate Chain(extents: seq<Extent>, from: int, end: int) {
    if extents == [] then from == end
    else extents[0].start == from && Chain(extents[1..], extents[0].stop, end)
  }

  /** The sweep over the extents in order. */
  method Sweep(extents: seq<Extent>, length: int) returns (accepted: bool)
    ensures accepted <==> Chain(extents, 0, length)
  {
    var end, i := 0, 0;
    while i < |extents|
      invariant 0 <= i <= |extents|
      invariant Chain(extents, 0, length) <==> Chain(extents[i..], end, length)
    {
      if extents[i].start != end { return false; }
      end := extents[i].stop;
      assert extents[i..][1..] == extents[i + 1..];
      i := i + 1;
    }
    accepted := end == length;
  }

  // ----- what the sweep accepts

  predicate Within(x: Extent, from: int, end: int) { from <= x.start <= x.stop <= end }

  predicate AllWithin(extents: seq<Extent>, from: int, end: int) {
    forall i :: 0 <= i < |extents| ==> Within(extents[i], from, end)
  }

  /** Every byte of the section lies in exactly one extent, and no extent holds a byte outside it. */
  ghost predicate Tiles(extents: seq<Extent>, from: int, end: int) {
    forall b :: Cover(extents, b) == if from <= b < end then 1 else 0
  }

  /** x is empty and lies strictly inside y. */
  predicate EmptyInside(x: Extent, y: Extent) {
    x.start == x.stop && y.start < x.start < y.stop
  }

  predicate EmptiesApart(extents: seq<Extent>) {
    forall x, y :: x in extents && y in extents ==> !EmptyInside(x, y)
  }

  lemma {:induction false} MemberCovers(extents: seq<Extent>, i: nat, b: int)
    requires i < |extents| && Holds(extents[i], b)
    ensures Cover(extents, b) >= 1
  {
    if i > 0 { MemberCovers(extents[1..], i - 1, b); }
  }

  lemma {:induction false} CoveringMember(extents: seq<Extent>, b: int) returns (i: nat)
    requires Cover(extents, b) >= 1
    ensures i < |extents| && Holds(extents[i], b)
  {
    if Holds(extents[0], b) {
      i := 0;
    } else {
      var k := CoveringMember(extents[1..], b);
      i := k + 1;
    }
  }

  /** A cover of one is one extent. */
  lemma {:induction false} CoverOnce(extents: seq<Extent>, b: int)
    ensures Cover(extents, b) == 1 <==>
            exists i :: 0 <= i < |extents| && OnlyHolder(extents, b, i)
  {
    if Cover(extents, b) >= 1 {
      var i := CoveringMember(extents, b);
      if Cover(extents, b) == 1 {
        forall j | 0 <= j < |extents| && j != i
          ensures !Holds(extents[j], b)
        {
          if Holds(extents[j], b) { TwoHolders(extents, b, if i < j then i else j, if i < j then j else i); }
        }
        assert OnlyHolder(extents, b, i);
      } else {
        var j, k := TwoMembers(extents, b);
        assert forall m :: 0 <= m < |extents| && OnlyHolder(extents, b, m) ==> m == j && m == k;
      }
    } else {
      forall i | 0 <= i < |extents|
        ensures !OnlyHolder(extents, b, i)
      {
        if Holds(extents[i], b) { MemberCovers(extents, i, b); }
      }
    }
  }

  predicate OnlyHolder(extents: seq<Extent>, b: int, i: int) {
    0 <= i < |extents| && Holds(extents[i], b)
    && forall j :: 0 <= j < |extents| && j != i ==> !Holds(extents[j], b)
  }

  lemma {:induction false} TwoHolders(extents: seq<Extent>, b: int, i: nat, j: nat)
    requires i < j < |extents| && Holds(extents[i], b) && Holds(extents[j], b)
    ensures Cover(extents, b) >= 2
  {
    if i == 0 {
      MemberCovers(extents[1..], j - 1, b);
    } else {
      TwoHolders(extents[1..], b, i - 1, j - 1);
    }
  }

  lemma {:induction false} TwoMembers(extents: seq<Extent>, b: int) returns (i: nat, j: nat)
    requires Cover(extents, b) >= 2
    ensures i < j < |extents| && Holds(extents[i], b) && Holds(extents[j], b)
  {
    if Holds(extents[0], b) {
      var k := CoveringMember(extents[1..], b);
      i, j := 0, k + 1;
    } else {
      var k, l := TwoMembers(extents[1..], b);
      i, j := k + 1, l + 1;
    }
  }

  // ----- the chain

  lemma {:induction false} ChainWithin(extents: seq<Extent>, from: int, end: int)
    requires Chain(extents, from, end)
    requires forall i :: 0 <= i < |extents| ==> extents[i].start <= extents[i].stop
    ensures from <= end && AllWithin(extents, from, end)
    ensures Span(extents) == end - from
  {
    if extents != [] {
      ChainWithin(extents[1..], extents[0].stop, end);
      forall i | 0 <= i < |extents|
        ensures Within(extents[i], from, end)
      {
        if i > 0 { assert Within(extents[1..][i - 1], extents[0].stop, end); }
      }
    }
  }

  lemma {:induction false} ChainTiles(extents: seq<Extent>, from: int, end: int)
    requires Chain(extents, from, end)
    requires forall i :: 0 <= i < |extents| ==> extents[i].start <= extents[i].stop
    ensures Tiles(extents, from, end)
  {
    if extents != [] {
      ChainWithin(extents, from, end);
      ChainWithin(extents[1..], extents[0].stop, end);
      ChainTiles(extents[1..], extents[0].stop, end);
    }
  }

  lemma {:induction false} ChainEmptiesApart(extents: seq<Extent>, from: int, end: int)
    requires Chain(extents, from, end)
    requires forall i :: 0 <= i < |extents| ==> extents[i].start <= extents[i].stop
    ensures EmptiesApart(extents)
  {
    if extents != [] {
      var rest := extents[1..];
      ChainWithin(extents, from, end);
      ChainWithin(rest, extents[0].stop, end);
      ChainEmptiesApart(rest, extents[0].stop, end);
      forall x, y | x in extents && y in extents
        ensures !EmptyInside(x, y)
      {
        if x != extents[0] { assert x in rest; }
        if y != extents[0] { assert y in rest; }
      }
    }
  }

  // ----- the converse

  lemma FirstStarts(extents: seq<Extent>, from: int, end: int)
    requires extents != [] && Ordered(extents, Before) && AllWithin(extents, from, end) && Tiles(extents, from, end)
    ensures extents[0].start == from
  {
    assert Within(extents[0], from, end);
    if from < end {
      assert Cover(extents, from) == 1;
      var i := CoveringMember(extents, from);
      assert Within(extents[i], from, end);
      assert i > 0 ==> Before(extents[0], extents[i]);
    }
  }

  lemma RestBeginsAfter(extents: seq<Extent>, from: int, end: int, i: nat)
    requires 0 < i < |extents| && Ordered(extents, Before) && AllWithin(extents, from, end) && Tiles(extents, from, end)
    requires EmptiesApart(extents) && extents[0].start == from
    ensures extents[0].stop <= extents[i].start
  {
    var x, first := extents[i], extents[0];
    assert Before(first, x) && Within(x, from, end);
    assert Cover(extents, x.start) <= 1;
    assert x in extents && first in extents;
    if x.start < first.stop && x.start < x.stop {
      TwoHolders(extents, x.start, 0, i);
    }
  }

  lemma {:induction false} TilesChain(extents: seq<Extent>, from: int, end: int)
    requires from <= end && Ordered(extents, Before) && AllWithin(extents, from, end)
    requires Tiles(extents, from, end) && EmptiesApart(extents)
    ensures Chain(extents, from, end)
  {
    if extents == [] {
      assert Cover(extents, from) == 0;
    } else {
      FirstStarts(extents, from, end);
      var rest, stop := extents[1..], extents[0].stop;
      assert Within(extents[0], from, end);
      forall i | 0 <= i < |rest|
        ensures Within(rest[i], stop, end)
      {
        RestBeginsAfter(extents, from, end, i + 1);
        assert Within(extents[i + 1], from, end);
      }
      forall b
        ensures Cover(rest, b) == if stop <= b < end then 1 else 0
      {
        assert Cover(extents, b) == (if Holds(extents[0], b) then 1 else 0) + Cover(rest, b);
      }
      TilesChain(rest, stop, end);
    }
  }

  /** The sorted sweep accepts a set of extents inside the section exactly when they tile it and no
      empty extent lies strictly inside another one. */
  lemma SweepMeans(extents: seq<Extent>, length: int)
    requires length >= 0 && AllWithin(extents, 0, length)
    ensures Chain(Sort(extents, Before), 0, length) <==> Tiles(extents, 0, length) && EmptiesApart(extents)
  {
    var sorted := Sort(extents, Before);
    SortSorts(extents);
    forall x ensures x in sorted <==> x in extents {
      assert x in sorted <==> x in multiset(sorted);
    }
    forall i | 0 <= i < |sorted|
      ensures Within(sorted[i], 0, length)
    {
      assert sorted[i] in extents;
    }
    forall b ensures Cover(sorted, b) == Cover(extents, b) { SortCounts(extents, b); }
    if Chain(sorted, 0, length) {
      ChainTiles(sorted, 0, length);
      ChainEmptiesApart(sorted, 0, length);
    }
    if Tiles(extents, 0, length) && EmptiesApart(extents) {
      TilesChain(sorted, 0, length);
    }
  }

  /** The tensors of an accepted section have exactly its bytes between them. */
  lemma SweepSpans(extents: seq<Extent>, length: int)
    requires AllWithin(extents, 0, length) && Chain(Sort(extents, Before), 0, length)
    ensures Span(extents) == length
  {
    SortSorts(extents);
    SortCounts(extents, 0);
    forall i | 0 <= i < |Sort(extents, Before)|
      ensures Sort(extents, Before)[i].start <= Sort(extents, Before)[i].stop
    {
      assert Sort(extents, Before)[i] in multiset(extents);
    }
    ChainWithin(Sort(extents, Before), 0, length);
  }

  /** Four bytes held exactly once each, and refused: the second tensor is empty but sits inside the
      first. */
  lemma EmptyInsideIsRefused()
    ensures Tiles([Extent(0, 4), Extent(2, 2)], 0, 4)
    ensures !Chain(Sort([Extent(0, 4), Extent(2, 2)], Before), 0, 4)
  {
    var extents := [Extent(0, 4), Extent(2, 2)];
    assert extents[1..] == [Extent(2, 2)] && extents[1..][1..] == [];
    forall b ensures Cover(extents, b) == if 0 <= b < 4 then 1 else 0 {
      assert Cover(extents[1..], b) == 0 + Cover(extents[1..][1..], b);
    }
    assert EmptyInside(extents[1], extents[0]);
    SweepMeans(extents, 4);
  }
}
