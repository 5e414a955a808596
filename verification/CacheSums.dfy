/** What the walk's sums mean: bytes over distinct inodes, whatever the order of the walk. */
module CacheSums {
  import opened Results
  import opened CacheWalk

  ghost function SumOver(inodes: set<Inode>, bytes: Inode -> nat): nat {
    if inodes == {} then 0
    else
      var x :| x in inodes;
      bytes(x) + SumOver(inodes - {x}, bytes)
  }

  lemma {:induction false} SumPick(inodes: set<Inode>, x: Inode, bytes: Inode -> nat)
    requires x in inodes
    ensures SumOver(inodes, bytes) == bytes(x) + SumOver(inodes - {x}, bytes)
    decreases |inodes|
  {
    var y :| y in inodes && SumOver(inodes, bytes) == bytes(y) + SumOver(inodes - {y}, bytes);
    if y != x {
      SumPick(inodes - {y}, x, bytes);
      SumPick(inodes - {x}, y, bytes);
      assert inodes - {y} - {x} == inodes - {x} - {y};
    }
  }

  lemma SumAdd(inodes: set<Inode>, x: Inode, bytes: Inode -> nat)
    requires x !in inodes
    ensures SumOver(inodes + {x}, bytes) == bytes(x) + SumOver(inodes, bytes)
  {
    SumPick(inodes + {x}, x, bytes);
    assert inodes + {x} - {x} == inodes;
  }

  lemma {:induction false} SumUnion(one: set<Inode>, two: set<Inode>, bytes: Inode -> nat)
    requires one !! two
    ensures SumOver(one + two, bytes) == SumOver(one, bytes) + SumOver(two, bytes)
    decreases |two|
  {
    if two == {} {
      assert one + two == one;
    } else {
      var x :| x in two;
      SumPick(two, x, bytes);
      SumUnion(one, two - {x}, bytes);
      SumAdd(one + (two - {x}), x, bytes);
      assert one + (two - {x}) + {x} == one + two;
    }
  }

  /** A filesystem gives every inode one allocation and one link count, and an inode with one link
      has one directory entry. */
  predicate Faithful(files: seq<Node>, bytes: Inode -> nat, links: Inode -> int)
    requires AllFiles(files)
  {
    && (forall i :: 0 <= i < |files| ==>
          Allocated(files[i]) == bytes(files[i].inode) && files[i].links == links(files[i].inode))
    && (forall i, j :: 0 <= i < j < |files| && files[i].inode == files[j].inode ==> files[i].links != 1)
  }

  function Single(files: seq<Node>, links: Inode -> int): set<Inode>
    requires AllFiles(files)
  {
    set x | x in Inodes(files) && links(x) == 1
  }

  function LinkedElsewhere(files: seq<Node>, seen: set<Inode>, links: Inode -> int): set<Inode>
    requires AllFiles(files)
  {
    set x | x in Inodes(files) && x !in seen && links(x) != 1
  }

  lemma FaithfulFront(files: seq<Node>, file: Node, bytes: Inode -> nat, links: Inode -> int)
    requires AllFiles(files) && file.File? && Faithful(files + [file], bytes, links)
    ensures Faithful(files, bytes, links)
    ensures Allocated(file) == bytes(file.inode) && file.links == links(file.inode)
    ensures file.links == 1 ==> file.inode !in Inodes(files)
  {
    var all := files + [file];
    assert all[|files|] == file;
    forall i | 0 <= i < |files|
      ensures all[i] == files[i] && (file.links == 1 ==> files[i].inode != file.inode)
    {
    }
  }

  /** The walk's sums are sums over sets of inodes: those first met here, those with one link, and
      those first met here that have other links. */
  lemma {:induction false} CountedMeans(files: seq<Node>, seen: set<Inode>, bytes: Inode -> nat, links: Inode -> int)
    requires AllFiles(files) && Faithful(files, bytes, links)
    ensures Counted(files, seen) == Sums(SumOver(Inodes(files) - seen, bytes), SumOver(Single(files, links), bytes),
                                         SumOver(LinkedElsewhere(files, seen, links), bytes))
  {
    if files == [] {
      assert Inodes(files) - seen == {} && Single(files, links) == {} && LinkedElsewhere(files, seen, links) == {};
    } else {
      var front, file := files[..|files| - 1], files[|files| - 1];
      assert files == front + [file];
      FaithfulFront(front, file, bytes, links);
      CountedMeans(front, seen, bytes, links);
      InodesConcat(front, [file]);
      assert Inodes([file]) == {file.inode} by { assert [file][0] == file; }
      OneMoreInode(front, file, seen, bytes, links);
    }
  }

  lemma OneMoreInode(front: seq<Node>, file: Node, seen: set<Inode>, bytes: Inode -> nat, links: Inode -> int)
    requires AllFiles(front) && file.File? && Inodes(front + [file]) == Inodes(front) + {file.inode}
    requires file.links == 1 ==> file.inode !in Inodes(front)
    requires file.links == links(file.inode) && Allocated(file) == bytes(file.inode)
    ensures Count(Sums(SumOver(Inodes(front) - seen, bytes), SumOver(Single(front, links), bytes),
                       SumOver(LinkedElsewhere(front, seen, links), bytes)), seen + Inodes(front), file)
         == Sums(SumOver(Inodes(front + [file]) - seen, bytes), SumOver(Single(front + [file], links), bytes),
                 SumOver(LinkedElsewhere(front + [file], seen, links), bytes))
  {
    var x, all := file.inode, front + [file];
    if x in seen + Inodes(front) {
      assert Inodes(all) - seen == Inodes(front) - seen;
      assert LinkedElsewhere(all, seen, links) == LinkedElsewhere(front, seen, links);
    } else {
      assert Inodes(all) - seen == Inodes(front) - seen + {x};
      SumAdd(Inodes(front) - seen, x, bytes);
      if file.links == 1 {
        assert LinkedElsewhere(all, seen, links) == LinkedElsewhere(front, seen, links);
      } else {
        assert LinkedElsewhere(all, seen, links) == LinkedElsewhere(front, seen, links) + {x};
        SumAdd(LinkedElsewhere(front, seen, links), x, bytes);
      }
    }
    if file.links == 1 {
      assert Single(all, links) == Single(front, links) + {x};
      SumAdd(Single(front, links), x, bytes);
    } else {
      assert Single(all, links) == Single(front, links);
    }
  }

  /** Which inodes are met does not depend on the order of the walk. */
  lemma InodesOrderFree(one: seq<Node>, two: seq<Node>)
    requires AllFiles(one) && AllFiles(two) && multiset(one) == multiset(two)
    ensures Inodes(one) == Inodes(two)
  {
    InodesWithin(one, two);
    InodesWithin(two, one);
  }

  lemma InodesWithin(one: seq<Node>, two: seq<Node>)
    requires AllFiles(one) && AllFiles(two) && multiset(one) == multiset(two)
    ensures Inodes(one) <= Inodes(two)
  {
    forall x | x in Inodes(one)
      ensures x in Inodes(two)
    {
      var i :| 0 <= i < |one| && one[i].inode == x;
      assert one[i] in multiset(two);
      var j :| 0 <= j < |two| && two[j] == one[i];
    }
  }
}
