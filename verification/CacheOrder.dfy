/** Which registries call the same bytes reclaimable in every order. */
module CacheOrder {
  import opened Results
  import opened Bags
  import opened CacheWalk
  import opened CacheSums
  import opened CacheInventory

  // ----- one namespace after others

  /** The inodes with other links and some bytes. */
  function Heavy(ns: Namespace, bytes: Inode -> nat, links: Inode -> int): set<Inode> {
    set x | x in Inodes(FilesOf(ns)) && links(x) != 1 && bytes(x) > 0
  }

  ghost function Own(ns: Namespace, bytes: Inode -> nat, links: Inode -> int): nat {
    SumOver(Single(FilesOf(ns), links), bytes)
  }

  /** What the row of a namespace reclaims when these come before it in the registry. */
  function ReclaimsAfter(ns: Namespace, before: seq<Namespace>): nat {
    RowFor(ns, Counted(FilesOf(ns), Inodes(AllMet(before)))).reclaimable
  }

  /** A disposable namespace reclaims its single-link bytes exactly when those before it have met all
      its heavy inodes. */
  lemma RowReclaims(ns: Namespace, before: seq<Namespace>, bytes: Inode -> nat, links: Inode -> int)
    requires Faithful(FilesOf(ns), bytes, links)
    ensures ReclaimsAfter(ns, before) ==
            if StateOf(ns).ManagedDisposable? && Heavy(ns, bytes, links) <= Inodes(AllMet(before))
            then Own(ns, bytes, links) else 0
  {
    var files, seen := FilesOf(ns), Inodes(AllMet(before));
    CountedMeans(files, seen, bytes, links);
    ZeroSum(LinkedElsewhere(files, seen, links), bytes);
    assert Counted(files, seen).shared == 0 <==> Heavy(ns, bytes, links) <= seen;
  }

  lemma {:induction false} MetByOne(namespaces: seq<Namespace>, i: nat)
    requires i < |namespaces|
    ensures Inodes(FilesOf(namespaces[i])) <= Inodes(AllMet(namespaces))
  {
    var front, last := namespaces[..|namespaces| - 1], namespaces[|namespaces| - 1];
    InodesConcat(AllMet(front), FilesOf(last));
    if i < |front| { MetByOne(front, i); }
  }

  lemma {:induction false} MetBySome(namespaces: seq<Namespace>, x: Inode) returns (i: nat)
    requires x in Inodes(AllMet(namespaces))
    ensures i < |namespaces| && x in Inodes(FilesOf(namespaces[i]))
  {
    var front, last := namespaces[..|namespaces| - 1], namespaces[|namespaces| - 1];
    InodesConcat(AllMet(front), FilesOf(last));
    if x in Inodes(FilesOf(last)) {
      i := |namespaces| - 1;
    } else {
      i := MetBySome(front, x);
    }
  }

  /** Fewer namespaces meet fewer inodes. */
  lemma MetWithin(few: seq<Namespace>, many: seq<Namespace>)
    requires multiset(few) <= multiset(many)
    ensures Inodes(AllMet(few)) <= Inodes(AllMet(many))
  {
    forall x | x in Inodes(AllMet(few)) ensures x in Inodes(AllMet(many)) {
      var i := MetBySome(few, x);
      assert few[i] in multiset(few);
      assert few[i] in multiset(many);
      var j :| 0 <= j < |many| && many[j] == few[i];
      MetByOne(many, j);
    }
  }

  /** The row of this namespace depends on where it stands among the others: it would reclaim
      something, and each of its heavy inodes, of which it has some, lies in another namespace too. */
  ghost predicate Swings(ns: Namespace, rest: seq<Namespace>, bytes: Inode -> nat, links: Inode -> int) {
    && StateOf(ns).ManagedDisposable? && Own(ns, bytes, links) > 0
    && Heavy(ns, bytes, links) != {} && Heavy(ns, bytes, links) <= Inodes(AllMet(rest))
  }

  /** A namespace's row reclaims the same wherever it stands among the others exactly when it does
      not swing. */
  lemma RowOrderFreeWhen(ns: Namespace, rest: seq<Namespace>, bytes: Inode -> nat, links: Inode -> int)
    requires Faithful(FilesOf(ns), bytes, links)
    ensures (forall before: seq<Namespace> :: multiset(before) <= multiset(rest) ==>
               ReclaimsAfter(ns, before) == ReclaimsAfter(ns, []))
       <==> !Swings(ns, rest, bytes, links)
  {
    RowReclaims(ns, [], bytes, links);
    assert Inodes(AllMet([])) == {};
    if Swings(ns, rest, bytes, links) {
      RowReclaims(ns, rest, bytes, links);
      assert ReclaimsAfter(ns, rest) != ReclaimsAfter(ns, []);
    } else {
      forall before: seq<Namespace> | multiset(before) <= multiset(rest)
        ensures ReclaimsAfter(ns, before) == ReclaimsAfter(ns, [])
      {
        RowReclaims(ns, before, bytes, links);
        MetWithin(before, rest);
      }
    }
  }

  // ----- the total

  /** What a namespace that does not swing reclaims in every order. */
  ghost function Fixed(ns: Namespace, bytes: Inode -> nat, links: Inode -> int): nat {
    if StateOf(ns).ManagedDisposable? && Heavy(ns, bytes, links) == {} then Own(ns, bytes, links) else 0
  }

  ghost function FixedSum(namespaces: seq<Namespace>, bytes: Inode -> nat, links: Inode -> int): nat {
    if namespaces == [] then 0
    else
      FixedSum(namespaces[..|namespaces| - 1], bytes, links) + Fixed(namespaces[|namespaces| - 1], bytes, links)
  }

  function Others<T>(items: seq<T>, i: nat): seq<T>
    requires i < |items|
  {
    items[..i] + items[i + 1..]
  }

  ghost predicate NoneSwings(namespaces: seq<Namespace>, bytes: Inode -> nat, links: Inode -> int) {
    forall i :: 0 <= i < |namespaces| ==> !Swings(namespaces[i], Others(namespaces, i), bytes, links)
  }

  /** What one more namespace adds to the total. */
  lemma OneMoreReclaims(namespaces: seq<Namespace>, n: nat)
    requires n < |namespaces|
    ensures Reclaimable(Rows(namespaces[..n + 1])) ==
            Reclaimable(Rows(namespaces[..n])) + ReclaimsAfter(namespaces[n], namespaces[..n])
  {
    var next := namespaces[..n + 1];
    assert next[..n] == namespaces[..n];
    var row := RowFor(namespaces[n], Counted(FilesOf(namespaces[n]), Inodes(AllMet(namespaces[..n]))));
    assert Rows(next) == Rows(namespaces[..n]) + [row];
    assert Rows(next)[..|Rows(next)| - 1] == Rows(namespaces[..n]);
  }

  ghost predicate EachFaithful(namespaces: seq<Namespace>, bytes: Inode -> nat, links: Inode -> int) {
    forall i :: 0 <= i < |namespaces| ==> Faithful(FilesOf(namespaces[i]), bytes, links)
  }

  lemma {:induction false} LastFaithful(namespaces: seq<Namespace>, bytes: Inode -> nat, links: Inode -> int)
    requires namespaces != [] && Faithful(AllMet(namespaces), bytes, links)
    ensures Faithful(AllMet(namespaces[..|namespaces| - 1]), bytes, links)
    ensures Faithful(FilesOf(namespaces[|namespaces| - 1]), bytes, links)
  {
    var front, last := namespaces[..|namespaces| - 1], namespaces[|namespaces| - 1];
    assert AllMet(namespaces) == AllMet(front) + FilesOf(last);
    FaithfulParts(AllMet(front), FilesOf(last), bytes, links);
  }

  lemma {:induction false} PartFaithful(namespaces: seq<Namespace>, i: nat, bytes: Inode -> nat, links: Inode -> int)
    requires i < |namespaces| && Faithful(AllMet(namespaces), bytes, links)
    ensures Faithful(FilesOf(namespaces[i]), bytes, links)
  {
    LastFaithful(namespaces, bytes, links);
    if i < |namespaces| - 1 { PartFaithful(namespaces[..|namespaces| - 1], i, bytes, links); }
  }

  lemma {:induction false} PartsFaithful(namespaces: seq<Namespace>, bytes: Inode -> nat, links: Inode -> int)
    requires Faithful(AllMet(namespaces), bytes, links)
    ensures EachFaithful(namespaces, bytes, links)
  {
    forall i | 0 <= i < |namespaces| ensures Faithful(FilesOf(namespaces[i]), bytes, links) {
      PartFaithful(namespaces, i, bytes, links);
    }
  }

  lemma FixedRow(ns: Namespace, before: seq<Namespace>, rest: seq<Namespace>, bytes: Inode -> nat, links: Inode -> int)
    requires Faithful(FilesOf(ns), bytes, links) && multiset(before) <= multiset(rest)
    requires !Swings(ns, rest, bytes, links)
    ensures ReclaimsAfter(ns, before) == Fixed(ns, bytes, links)
  {
    RowReclaims(ns, before, bytes, links);
    MetWithin(before, rest);
  }

  lemma PrefixOfOthers<T>(items: seq<T>, i: nat)
    requires i < |items|
    ensures multiset(items[..i]) <= multiset(Others(items, i))
  {
  }

  lemma FixedSumNext(namespaces: seq<Namespace>, n: nat, bytes: Inode -> nat, links: Inode -> int)
    requires n < |namespaces|
    ensures FixedSum(namespaces[..n + 1], bytes, links) ==
            FixedSum(namespaces[..n], bytes, links) + Fixed(namespaces[n], bytes, links)
  {
    assert namespaces[..n + 1][..n] == namespaces[..n];
  }

  ghost predicate RowFixed(namespaces: seq<Namespace>, n: nat, bytes: Inode -> nat, links: Inode -> int)
    requires n < |namespaces|
  {
    ReclaimsAfter(namespaces[n], namespaces[..n]) == Fixed(namespaces[n], bytes, links)
  }

  lemma {:induction false} FixedRowAt(namespaces: seq<Namespace>, n: nat, bytes: Inode -> nat, links: Inode -> int)
    requires n < |namespaces| && EachFaithful(namespaces, bytes, links) && NoneSwings(namespaces, bytes, links)
    ensures RowFixed(namespaces, n, bytes, links)
  {
    PrefixOfOthers(namespaces, n);
    FixedRow(namespaces[n], namespaces[..n], Others(namespaces, n), bytes, links);
  }

  lemma {:induction false} FixedUpTo(namespaces: seq<Namespace>, n: nat, bytes: Inode -> nat, links: Inode -> int)
    requires n <= |namespaces| && forall i :: 0 <= i < n ==> RowFixed(namespaces, i, bytes, links)
    ensures Reclaimable(Rows(namespaces[..n])) == FixedSum(namespaces[..n], bytes, links)
  {
    if n > 0 {
      FixedUpTo(namespaces, n - 1, bytes, links);
      OneMoreReclaims(namespaces, n - 1);
      FixedSumNext(namespaces, n - 1, bytes, links);
      assert RowFixed(namespaces, n - 1, bytes, links);
    } else {
      assert namespaces[..0] == [];
    }
  }

  lemma {:induction false} FixedTotal(namespaces: seq<Namespace>, bytes: Inode -> nat, links: Inode -> int)
    requires Faithful(AllMet(namespaces), bytes, links) && NoneSwings(namespaces, bytes, links)
    ensures Reclaimable(Rows(namespaces)) == FixedSum(namespaces, bytes, links)
  {
    PartsFaithful(namespaces, bytes, links);
    forall i | 0 <= i < |namespaces| ensures RowFixed(namespaces, i, bytes, links) {
      FixedRowAt(namespaces, i, bytes, links);
    }
    FixedUpTo(namespaces, |namespaces|, bytes, links);
    assert namespaces[..|namespaces|] == namespaces;
  }

  lemma {:induction false} FixedConcat(one: seq<Namespace>, two: seq<Namespace>, bytes: Inode -> nat, links: Inode -> int)
    ensures FixedSum(one + two, bytes, links) == FixedSum(one, bytes, links) + FixedSum(two, bytes, links)
    decreases |two|
  {
    if two == [] {
      assert one + two == one;
    } else {
      assert (one + two)[..|one + two| - 1] == one + two[..|two| - 1];
      FixedConcat(one, two[..|two| - 1], bytes, links);
    }
  }

  lemma {:induction false} FixedOrderFree(one: seq<Namespace>, two: seq<Namespace>, bytes: Inode -> nat,
                                          links: Inode -> int)
    requires multiset(one) == multiset(two)
    ensures FixedSum(one, bytes, links) == FixedSum(two, bytes, links)
    decreases |one|
  {
    if one == [] {
      assert |multiset(two)| == 0;
    } else {
      var k := SameBagLast(one, two);
      var front, back := two[..k], two[k + 1..];
      FixedOrderFree(one[..|one| - 1], front + back, bytes, links);
      FixedConcat(front, back, bytes, links);
      FixedConcat(front + [two[k]], back, bytes, links);
      FixedConcat(front, [two[k]], bytes, links);
      assert two == front + [two[k]] + back;
      FixedOne(two[k], bytes, links);
    }
  }

  lemma FixedOne(ns: Namespace, bytes: Inode -> nat, links: Inode -> int)
    ensures FixedSum([ns], bytes, links) == Fixed(ns, bytes, links)
  {
    assert [ns][..0] == [];
  }

  lemma OthersAlike<T>(one: seq<T>, two: seq<T>, j: nat) returns (i: nat)
    requires multiset(one) == multiset(two) && j < |two|
    ensures i < |one| && one[i] == two[j] && multiset(Others(one, i)) == multiset(Others(two, j))
  {
    assert two[j] in multiset(one);
    i :| 0 <= i < |one| && one[i] == two[j];
    BagWithout(one, i);
    BagWithout(two, j);
  }

  lemma NoneSwingsAlike(one: seq<Namespace>, two: seq<Namespace>, bytes: Inode -> nat, links: Inode -> int)
    requires multiset(one) == multiset(two) && NoneSwings(one, bytes, links)
    ensures NoneSwings(two, bytes, links)
  {
    forall j | 0 <= j < |two| ensures !Swings(two[j], Others(two, j), bytes, links) {
      var i := OthersAlike(one, two, j);
      MetWithin(Others(one, i), Others(two, j));
      MetWithin(Others(two, j), Others(one, i));
    }
  }

  /** Where no namespace swings, the reclaimable bytes are the same in every order of the registry. */
  lemma ReclaimableOrderFree(one: seq<Namespace>, two: seq<Namespace>, bytes: Inode -> nat, links: Inode -> int)
    requires multiset(one) == multiset(two) && NoneSwings(one, bytes, links)
    requires Faithful(AllMet(one), bytes, links) && Faithful(AllMet(two), bytes, links)
    ensures Reclaimable(Rows(one)) == Reclaimable(Rows(two))
  {
    NoneSwingsAlike(one, two, bytes, links);
    FixedTotal(one, bytes, links);
    FixedTotal(two, bytes, links);
    FixedOrderFree(one, two, bytes, links);
  }

  /** No inode with other links and some bytes lies in two of the namespaces. */
  ghost predicate NothingShared(namespaces: seq<Namespace>, bytes: Inode -> nat, links: Inode -> int) {
    forall i, j :: 0 <= i < j < |namespaces| ==> Heavy(namespaces[i], bytes, links) !! Heavy(namespaces[j], bytes, links)
  }

  lemma {:induction false} MetByOther(namespaces: seq<Namespace>, i: nat, x: Inode) returns (k: nat)
    requires i < |namespaces| && x in Inodes(AllMet(Others(namespaces, i)))
    ensures k < |namespaces| && k != i && x in Inodes(FilesOf(namespaces[k]))
  {
    var j := MetBySome(Others(namespaces, i), x);
    k := if j < i then j else j + 1;
    assert Others(namespaces, i)[j] == namespaces[k];
  }

  lemma {:induction false} SwingShares(namespaces: seq<Namespace>, i: nat, bytes: Inode -> nat, links: Inode -> int)
    returns (k: nat)
    requires i < |namespaces| && Swings(namespaces[i], Others(namespaces, i), bytes, links)
    ensures k < |namespaces| && k != i && !(Heavy(namespaces[i], bytes, links) !! Heavy(namespaces[k], bytes, links))
  {
    var x :| x in Heavy(namespaces[i], bytes, links);
    k := MetByOther(namespaces, i, x);
    assert x in Heavy(namespaces[k], bytes, links);
  }

  /** In particular nothing swings where no hard-linked content lies in two namespaces. */
  lemma {:induction false} NothingSharedNoneSwings(namespaces: seq<Namespace>, bytes: Inode -> nat, links: Inode -> int)
    requires NothingShared(namespaces, bytes, links)
    ensures NoneSwings(namespaces, bytes, links)
  {
    forall i | 0 <= i < |namespaces| ensures !Swings(namespaces[i], Others(namespaces, i), bytes, links) {
      if Swings(namespaces[i], Others(namespaces, i), bytes, links) {
        var k := SwingShares(namespaces, i, bytes, links);
      }
    }
  }

  // ----- the converse

  /** The row of one of the others is the same with this namespace before it and without. */
  ghost predicate RestFixed(ns: Namespace, rest: seq<Namespace>, n: nat, bytes: Inode -> nat, links: Inode -> int)
    requires n < |rest|
  {
    ReclaimsAfter(rest[n], [ns] + rest[..n]) == ReclaimsAfter(rest[n], rest[..n]) == Fixed(rest[n], bytes, links)
  }

  lemma {:induction false} RestRow(ns: Namespace, rest: seq<Namespace>, n: nat, bytes: Inode -> nat, links: Inode -> int)
    requires n < |rest| && Faithful(FilesOf(rest[n]), bytes, links)
    requires !Swings(rest[n], [ns] + Others(rest, n), bytes, links)
    ensures RestFixed(ns, rest, n, bytes, links)
  {
    PrefixOfOthers(rest, n);
    assert multiset([ns] + rest[..n]) <= multiset([ns] + Others(rest, n));
    assert multiset(rest[..n]) <= multiset([ns] + Others(rest, n));
    FixedRow(rest[n], [ns] + rest[..n], [ns] + Others(rest, n), bytes, links);
    FixedRow(rest[n], rest[..n], [ns] + Others(rest, n), bytes, links);
  }

  lemma FirstThenRest(ns: Namespace, rest: seq<Namespace>, n: nat)
    requires n < |rest|
    ensures Reclaimable(Rows([ns] + rest[..n + 1])) ==
            Reclaimable(Rows([ns] + rest[..n])) + ReclaimsAfter(rest[n], [ns] + rest[..n])
  {
    var all := [ns] + rest;
    OneMoreReclaims(all, n + 1);
    assert all[..n + 2] == [ns] + rest[..n + 1] && all[..n + 1] == [ns] + rest[..n];
  }

  lemma OnlyFirst(ns: Namespace)
    ensures Reclaimable(Rows([ns])) == ReclaimsAfter(ns, [])
  {
    OneMoreReclaims([ns], 0);
    assert [ns][..1] == [ns] && [ns][..0] == [];
  }

  lemma {:induction false} RestAfter(ns: Namespace, rest: seq<Namespace>, n: nat, bytes: Inode -> nat,
                                     links: Inode -> int)
    requires n <= |rest| && forall i :: 0 <= i < n ==> RestFixed(ns, rest, i, bytes, links)
    ensures Reclaimable(Rows([ns] + rest[..n])) == ReclaimsAfter(ns, []) + FixedSum(rest[..n], bytes, links)
    ensures Reclaimable(Rows(rest[..n])) == FixedSum(rest[..n], bytes, links)
  {
    if n == 0 {
      OnlyFirst(ns);
      assert [ns] + rest[..0] == [ns] && rest[..0] == [];
    } else {
      RestAfter(ns, rest, n - 1, bytes, links);
      FirstThenRest(ns, rest, n - 1);
      OneMoreReclaims(rest, n - 1);
      FixedSumNext(rest, n - 1, bytes, links);
      assert RestFixed(ns, rest, n - 1, bytes, links);
    }
  }

  lemma {:induction false} LastReclaims(ns: Namespace, rest: seq<Namespace>)
    ensures Reclaimable(Rows(rest + [ns])) == Reclaimable(Rows(rest)) + ReclaimsAfter(ns, rest)
  {
    OneMoreReclaims(rest + [ns], |rest|);
    assert (rest + [ns])[..|rest| + 1] == rest + [ns] && (rest + [ns])[..|rest|] == rest;
  }

  lemma {:induction false} SwingRows(ns: Namespace, rest: seq<Namespace>, bytes: Inode -> nat, links: Inode -> int)
    requires Faithful(FilesOf(ns), bytes, links) && Swings(ns, rest, bytes, links)
    ensures ReclaimsAfter(ns, []) == 0 && ReclaimsAfter(ns, rest) == Own(ns, bytes, links) > 0
  {
    RowReclaims(ns, rest, bytes, links);
    RowReclaims(ns, [], bytes, links);
    assert Inodes(AllMet([])) == {};
  }

  lemma RestFaithful(ns: Namespace, rest: seq<Namespace>, bytes: Inode -> nat, links: Inode -> int)
    requires EachFaithful([ns] + rest, bytes, links)
    ensures Faithful(FilesOf(ns), bytes, links) && EachFaithful(rest, bytes, links)
  {
    var all := [ns] + rest;
    assert all[0] == ns;
    forall i | 0 <= i < |rest| ensures Faithful(FilesOf(rest[i]), bytes, links) { assert all[i + 1] == rest[i]; }
  }

  /** One namespace that swings alone changes the total: last in the registry it reclaims its own
      bytes, first it reclaims none, and the others reclaim the same. */
  lemma {:induction false} OneSwings(ns: Namespace, rest: seq<Namespace>, bytes: Inode -> nat, links: Inode -> int)
    requires Faithful(AllMet([ns] + rest), bytes, links) && Swings(ns, rest, bytes, links)
    requires forall i :: 0 <= i < |rest| ==> !Swings(rest[i], [ns] + Others(rest, i), bytes, links)
    ensures Reclaimable(Rows(rest + [ns])) == Reclaimable(Rows([ns] + rest)) + Own(ns, bytes, links)
    ensures Own(ns, bytes, links) > 0
  {
    PartsFaithful([ns] + rest, bytes, links);
    RestFaithful(ns, rest, bytes, links);
    forall i | 0 <= i < |rest| ensures RestFixed(ns, rest, i, bytes, links) { RestRow(ns, rest, i, bytes, links); }
    RestAfter(ns, rest, |rest|, bytes, links);
    assert rest[..|rest|] == rest;
    LastReclaims(ns, rest);
    SwingRows(ns, rest, bytes, links);
  }

  /** Two namespaces that both swing can balance: the one that is kept for the shared file and the one
      that is not hold as much, so here the total is the same in either order. */
  const LEFT := Namespace(false, false, 0, Some(Dir(0, 0, [LINKED, File(0, 0, Inode(2), 5, 1)])))

  lemma SwingsCanBalance()
    ensures Reclaimable(Rows([LEFT, SECOND])) == Reclaimable(Rows([SECOND, LEFT])) == 5 * BLOCK
    ensures ReclaimsAfter(LEFT, []) == ReclaimsAfter(SECOND, []) == 0
    ensures ReclaimsAfter(LEFT, [SECOND]) == ReclaimsAfter(SECOND, [LEFT]) == 5 * BLOCK
  {
    PairReclaims(LEFT, SECOND, Inode(2), 5, Inode(3), 5);
    PairReclaims(SECOND, LEFT, Inode(3), 5, Inode(2), 5);
    BalancedRows(LEFT, SECOND, Inode(2), Inode(3));
    BalancedRows(SECOND, LEFT, Inode(3), Inode(2));
  }

  lemma BalancedRows(one: Namespace, two: Namespace, mine: Inode, yours: Inode)
    requires one == Namespace(false, false, 0, Some(Dir(0, 0, [LINKED, File(0, 0, mine, 5, 1)])))
    requires two == Namespace(false, false, 0, Some(Dir(0, 0, [LINKED, File(0, 0, yours, 5, 1)])))
    requires mine != Inode(1) && yours != Inode(1) && mine != yours
    ensures ReclaimsAfter(one, []) == 0 && ReclaimsAfter(two, [one]) == 5 * BLOCK
  {
    var a, b := File(0, 0, mine, 5, 1), File(0, 0, yours, 5, 1);
    TwoFiles(LINKED, a);
    TwoFiles(LINKED, b);
    CountedPair(LINKED, a, {});
    CountedPair(LINKED, b, {Inode(1), mine});
    assert Inodes([]) == {} && [one][..0] == [];
    assert AllMet([one]) == [] + FilesOf(one) == FilesOf(one);
  }
}
