/** Exactly which registries have the same reclaimable total in every order: those where any two
    neighbours trade evenly. */
module CacheTrades {
  import opened Results
  import opened Bags
  import opened CacheWalk
  import opened CacheSums
  import opened CacheInventory
  import opened CacheOrder

  function Total(namespaces: seq<Namespace>): nat { Reclaimable(Rows(namespaces)) }

  /** The heavy inodes of a namespace that those before it have not met. */
  function Unmet(ns: Namespace, before: seq<Namespace>, bytes: Inode -> nat, links: Inode -> int): set<Inode> {
    Heavy(ns, bytes, links) - Inodes(AllMet(before))
  }

  /** What a namespace reclaims more when this neighbour stands before it, not after it: its own bytes,
      if it is disposable and the neighbour holds all that those before have left it. */
  ghost function Gained(ns: Namespace, neighbour: Namespace, before: seq<Namespace>, bytes: Inode -> nat,
                        links: Inode -> int): nat
  {
    var unmet := Unmet(ns, before, bytes, links);
    if StateOf(ns).ManagedDisposable? && unmet != {} && unmet <= Inodes(FilesOf(neighbour)) then Own(ns, bytes, links) else 0
  }

  ghost predicate Even(one: Namespace, two: Namespace, before: seq<Namespace>, bytes: Inode -> nat, links: Inode -> int) {
    Gained(one, two, before, bytes, links) == Gained(two, one, before, bytes, links)
  }

  /** Any two namespaces of the registry gain as much from each other, whichever others stand before them. */
  ghost predicate TradesEven(namespaces: seq<Namespace>, bytes: Inode -> nat, links: Inode -> int) {
    forall one, two, before {:trigger Even(one, two, before, bytes, links)} ::
      multiset(before + [one, two]) <= multiset(namespaces) ==> Even(one, two, before, bytes, links)
  }

  // ----- one exchange

  lemma MetSnoc(before: seq<Namespace>, ns: Namespace)
    ensures Inodes(AllMet(before + [ns])) == Inodes(AllMet(before)) + Inodes(FilesOf(ns))
  {
    assert (before + [ns])[..|before|] == before;
    InodesConcat(AllMet(before), FilesOf(ns));
  }

  lemma GainedIs(ns: Namespace, neighbour: Namespace, before: seq<Namespace>, bytes: Inode -> nat, links: Inode -> int)
    requires Faithful(FilesOf(ns), bytes, links)
    ensures ReclaimsAfter(ns, before + [neighbour]) ==
            ReclaimsAfter(ns, before) + Gained(ns, neighbour, before, bytes, links)
  {
    RowReclaims(ns, before, bytes, links);
    RowReclaims(ns, before + [neighbour], bytes, links);
    MetSnoc(before, neighbour);
    MinusWithin(Heavy(ns, bytes, links), Inodes(AllMet(before)), Inodes(FilesOf(neighbour)));
  }

  lemma MinusWithin<T>(all: set<T>, some: set<T>, more: set<T>)
    ensures all - some == {} <==> all <= some
    ensures all - some <= more <==> all <= some + more
  {
    if all - some == {} {
      forall x | x in all ensures x in some { assert x !in all - some; }
    }
    if all - some <= more {
      forall x | x in all ensures x in some + more { assert x in some || x in all - some; }
    }
  }

  lemma MetAlike(one: seq<Namespace>, two: seq<Namespace>)
    requires multiset(one) == multiset(two)
    ensures Inodes(AllMet(one)) == Inodes(AllMet(two))
  {
    MetWithin(one, two);
    MetWithin(two, one);
  }

  /** Exchanging the last two changes the total by the difference of what they gain. */
  lemma LastTwo(before: seq<Namespace>, one: Namespace, two: Namespace, bytes: Inode -> nat, links: Inode -> int)
    requires Faithful(FilesOf(one), bytes, links) && Faithful(FilesOf(two), bytes, links)
    ensures Total(before + [one] + [two]) + Gained(one, two, before, bytes, links) ==
            Total(before + [two] + [one]) + Gained(two, one, before, bytes, links)
  {
    LastReclaims(one, before);
    LastReclaims(two, before + [one]);
    LastReclaims(two, before);
    LastReclaims(one, before + [two]);
    GainedIs(one, two, before, bytes, links);
    GainedIs(two, one, before, bytes, links);
  }

  /** One more namespace adds as much to either. */
  lemma AddedAlike(one: seq<Namespace>, two: seq<Namespace>, last: Namespace)
    requires multiset(one) == multiset(two)
    ensures Total(one + [last]) - Total(one) == Total(two + [last]) - Total(two)
  {
    LastReclaims(last, one);
    LastReclaims(last, two);
    MetAlike(one, two);
  }

  lemma SwapBag<T>(before: seq<T>, one: T, two: T, rest: seq<T>)
    ensures multiset(before + [one] + [two] + rest) == multiset(before + [two] + [one] + rest)
    ensures multiset(before + [one, two]) <= multiset(before + [one] + [two] + rest)
  {
    assert before + [one] + [two] == before + [one, two];
  }

  lemma SnocApart<T>(head: seq<T>, rest: seq<T>)
    requires rest != []
    ensures head + rest == head + rest[..|rest| - 1] + [rest[|rest| - 1]]
  {
  }

  /** What comes after them does not notice. */
  lemma {:induction false} Neighbours(before: seq<Namespace>, one: Namespace, two: Namespace, rest: seq<Namespace>,
                                      bytes: Inode -> nat, links: Inode -> int)
    requires Faithful(FilesOf(one), bytes, links) && Faithful(FilesOf(two), bytes, links)
    ensures Total(before + [one] + [two] + rest) + Gained(one, two, before, bytes, links) ==
            Total(before + [two] + [one] + rest) + Gained(two, one, before, bytes, links)
    decreases |rest|
  {
    hide Total, Gained;
    var head, swapped := before + [one] + [two], before + [two] + [one];
    if rest == [] {
      LastTwo(before, one, two, bytes, links);
      assert head + [] == head && swapped + [] == swapped;
    } else {
      var front, last := rest[..|rest| - 1], rest[|rest| - 1];
      Neighbours(before, one, two, front, bytes, links);
      SwapBag(before, one, two, front);
      AddedAlike(head + front, swapped + front, last);
      SnocApart(head, rest);
      SnocApart(swapped, rest);
    }
  }

  // ----- even trades make every order alike

  ghost predicate Tame(namespaces: seq<Namespace>, bytes: Inode -> nat, links: Inode -> int) {
    TradesEven(namespaces, bytes, links) && EachFaithful(namespaces, bytes, links)
  }

  lemma FaithfulIn(namespaces: seq<Namespace>, part: seq<Namespace>, bytes: Inode -> nat, links: Inode -> int)
    requires EachFaithful(namespaces, bytes, links) && multiset(part) <= multiset(namespaces)
    ensures EachFaithful(part, bytes, links)
  {
    hide Faithful;
    forall i | 0 <= i < |part| ensures Faithful(FilesOf(part[i]), bytes, links) {
      var j := InBag(namespaces, part, i);
    }
  }

  lemma TamePart(namespaces: seq<Namespace>, part: seq<Namespace>, bytes: Inode -> nat, links: Inode -> int)
    requires Tame(namespaces, bytes, links) && multiset(part) <= multiset(namespaces)
    ensures Tame(part, bytes, links)
  {
    hide Even, EachFaithful;
    FaithfulIn(namespaces, part, bytes, links);
    forall one, two, before | multiset(before + [one, two]) <= multiset(part)
      ensures Even(one, two, before, bytes, links)
    {
    }
  }

  /** Two neighbours of a tame registry can be exchanged. */
  lemma TameSwap(before: seq<Namespace>, one: Namespace, two: Namespace, rest: seq<Namespace>, bytes: Inode -> nat,
                 links: Inode -> int)
    requires Tame(before + [one] + [two] + rest, bytes, links)
    ensures Total(before + [one] + [two] + rest) == Total(before + [two] + [one] + rest)
    ensures Tame(before + [two] + [one] + rest, bytes, links)
  {
    hide Total, Gained, Faithful;
    var all := before + [one] + [two] + rest;
    SwapBag(before, one, two, rest);
    assert all[|before|] == one && all[|before| + 1] == two;
    assert Even(one, two, before, bytes, links);
    Neighbours(before, one, two, rest, bytes, links);
    TamePart(all, before + [two] + [one] + rest, bytes, links);
  }

  lemma Regroup<T>(front: seq<T>, x: T, back: seq<T>)
    requires back != []
    ensures front + [x] + back == front + [x] + [back[0]] + back[1..]
    ensures front + [back[0]] + [x] + back[1..] == (front + [back[0]]) + [x] + back[1..]
    ensures front + [back[0]] + back[1..] == front + back
  {
  }

  /** A namespace moves to the end past all others. */
  lemma {:induction false} ToTheEnd(front: seq<Namespace>, ns: Namespace, back: seq<Namespace>, bytes: Inode -> nat,
                                    links: Inode -> int)
    requires Tame(front + [ns] + back, bytes, links)
    ensures Total(front + [ns] + back) == Total(front + back + [ns])
    decreases |back|
  {
    hide Total, Tame;
    if back == [] {
      assert front + [ns] + back == front + back + [ns];
    } else {
      Regroup(front, ns, back);
      TameSwap(front, ns, back[0], back[1..], bytes, links);
      ToTheEnd(front + [back[0]], ns, back[1..], bytes, links);
    }
  }

  lemma {:induction false} TameOrderFree(one: seq<Namespace>, two: seq<Namespace>, bytes: Inode -> nat, links: Inode -> int)
    requires multiset(one) == multiset(two) && Tame(one, bytes, links)
    ensures Total(one) == Total(two)
    decreases |one|
  {
    hide Total, Tame;
    if one == [] {
      assert |multiset(two)| == 0;
    } else {
      var k := SameBagLast(one, two);
      var before, last, front, back := one[..|one| - 1], one[|one| - 1], two[..k], two[k + 1..];
      Around(two, k);
      TamePart(one, two, bytes, links);
      ToTheEnd(front, last, back, bytes, links);
      SnocApart([], one);
      assert [] + one == one && [] + before == before;
      TamePart(one, before, bytes, links);
      TameOrderFree(before, front + back, bytes, links);
      AddedAlike(before, front + back, last);
    }
  }

  // ----- and nothing less does

  lemma BagMore<T>(front: seq<T>, last: T, rest: seq<T>)
    ensures multiset(front + [last] + rest) == multiset(front + rest) + multiset{last}
  {
  }

  /** What is missing from a part. */
  lemma {:induction false} Completed<T>(all: seq<T>, part: seq<T>) returns (rest: seq<T>)
    requires multiset(part) <= multiset(all)
    ensures multiset(part + rest) == multiset(all)
    decreases |part|
  {
    if part == [] {
      rest := all;
      assert part + rest == all;
    } else {
      var front, last := part[..|part| - 1], part[|part| - 1];
      assert part == front + [last];
      var k := InBag(all, part, |part| - 1);
      BagWithout(all, k);
      rest := Completed(all[..k] + all[k + 1..], front);
      BagMore(front, last, rest);
    }
  }

  ghost predicate OrderFree(namespaces: seq<Namespace>) {
    forall other: seq<Namespace> :: multiset(other) == multiset(namespaces) ==> Total(other) == Total(namespaces)
  }

  lemma OrderFreeIsEven(namespaces: seq<Namespace>, one: Namespace, two: Namespace, before: seq<Namespace>,
                        bytes: Inode -> nat, links: Inode -> int)
    requires EachFaithful(namespaces, bytes, links) && OrderFree(namespaces)
    requires multiset(before + [one, two]) <= multiset(namespaces)
    ensures Even(one, two, before, bytes, links)
  {
    hide Total, Gained, Faithful;
    var rest := Completed(namespaces, before + [one, two]);
    var here, there := before + [one] + [two] + rest, before + [two] + [one] + rest;
    assert here == before + [one, two] + rest;
    SwapBag(before, one, two, rest);
    FaithfulIn(namespaces, here, bytes, links);
    assert here[|before|] == one && here[|before| + 1] == two;
    Neighbours(before, one, two, rest, bytes, links);
    assert Total(here) == Total(namespaces) && Total(there) == Total(namespaces);
  }

  /** The reclaimable total is the same in every order of the registry exactly when any two namespaces
      gain as much from each other, whichever others stand before them. */
  lemma ReclaimableOrderFreeWhen(namespaces: seq<Namespace>, bytes: Inode -> nat, links: Inode -> int)
    requires Faithful(AllMet(namespaces), bytes, links)
    ensures OrderFree(namespaces) <==> TradesEven(namespaces, bytes, links)
  {
    hide Total, Even, Faithful, EachFaithful;
    PartsFaithful(namespaces, bytes, links);
    if OrderFree(namespaces) {
      forall one, two, before | multiset(before + [one, two]) <= multiset(namespaces)
        ensures Even(one, two, before, bytes, links)
      {
        OrderFreeIsEven(namespaces, one, two, before, bytes, links);
      }
    }
    if TradesEven(namespaces, bytes, links) {
      forall other: seq<Namespace> | multiset(other) == multiset(namespaces) ensures Total(other) == Total(namespaces) {
        TameOrderFree(namespaces, other, bytes, links);
      }
    }
  }
}
