/** The bounded walk over one cache namespace, counting each inode's bytes once. */
module CacheWalk {
  import opened Results

  const MAX_TREE_ENTRIES := 100000
  const BLOCK := 512

  datatype Inode = Inode(number: int)

  /** A directory entry; `owner` stands for user and group, and inodes are those of one device,
      since the walk refuses any other. */
  datatype Node =
    | Dir(owner: int, device: int, children: seq<Node>)
    | File(owner: int, device: int, inode: Inode, blocks: nat, links: int)
    | Special

  class TreeBudget {
    var entries: nat

    constructor ()
      ensures entries == 0
    {
      entries := 0;
    }

    method Add() returns (ok: bool)
      modifies this
      ensures entries == old(entries) + 1
      ensures ok <==> entries <= MAX_TREE_ENTRIES
    {
      entries := entries + 1;
      ok := entries <= MAX_TREE_ENTRIES;
    }
  }

  function Allocated(file: Node): nat
    requires file.File?
  {
    file.blocks * BLOCK
  }

  datatype Sums = Sums(physical: nat, exclusive: nat, shared: nat)

  /** Adding one file when these inodes were seen before it. */
  function Count(sums: Sums, seen: set<Inode>, file: Node): Sums
    requires file.File?
  {
    var bytes, unseen := Allocated(file), file.inode !in seen;
    Sums(sums.physical + (if unseen then bytes else 0),
         sums.exclusive + (if file.links == 1 then bytes else 0),
         sums.shared + (if unseen && file.links != 1 then bytes else 0))
  }

  predicate AllFiles(files: seq<Node>) {
    forall i :: 0 <= i < |files| ==> files[i].File?
  }

  function Inodes(files: seq<Node>): set<Inode>
    requires AllFiles(files)
  {
    set i | 0 <= i < |files| :: files[i].inode
  }

  /** The sums over files in the order they are met. */
  function Counted(files: seq<Node>, seen: set<Inode>): Sums
    requires AllFiles(files)
  {
    if files == [] then Sums(0, 0, 0)
    else
      var front := files[..|files| - 1];
      Count(Counted(front, seen), seen + Inodes(front), files[|files| - 1])
  }

  function FilesAmong(children: seq<Node>): (files: seq<Node>)
    ensures AllFiles(files)
  {
    if children == [] then []
    else FilesAmong(children[..|children| - 1]) + if children[|children| - 1].File? then [children[|children| - 1]] else []
  }

  function DirsAmong(children: seq<Node>): (dirs: seq<Node>)
    ensures AllDirs(dirs)
  {
    if children == [] then []
    else DirsAmong(children[..|children| - 1]) + if children[|children| - 1].Dir? then [children[|children| - 1]] else []
  }

  predicate AllDirs(nodes: seq<Node>) {
    forall i :: 0 <= i < |nodes| ==> nodes[i].Dir?
  }

  // ----- the size of what is left to walk

  /** Budget a directory uses: itself when it is popped, and every entry below it as it is listed. */
  function Cost(node: Node): nat
    decreases node, 0
  {
    if node.Dir? then 1 + ListCost(node, |node.children|) else 0
  }

  function ListCost(node: Node, n: nat): nat
    requires node.Dir? && n <= |node.children|
    decreases node, 0, n
  {
    if n == 0 then 0 else ListCost(node, n - 1) + 1 + Cost(node.children[n - 1])
  }

  function StackCost(stack: seq<Node>): nat {
    if stack == [] then 0 else StackCost(stack[..|stack| - 1]) + Cost(stack[|stack| - 1])
  }

  lemma {:induction false} StackCostConcat(one: seq<Node>, two: seq<Node>)
    ensures StackCost(one + two) == StackCost(one) + StackCost(two)
    decreases |two|
  {
    if two == [] {
      assert one + two == one;
    } else {
      assert (one + two)[..|one + two| - 1] == one + two[..|two| - 1];
      StackCostConcat(one, two[..|two| - 1]);
    }
  }

  lemma {:induction false} ListedCost(node: Node, n: nat)
    requires node.Dir? && n <= |node.children|
    ensures ListCost(node, n) == n + StackCost(DirsAmong(node.children[..n]))
  {
    if n != 0 {
      ListedCost(node, n - 1);
      var listed := node.children[..n];
      assert listed[..n - 1] == node.children[..n - 1];
      if listed[n - 1].Dir? {
        StackCostConcat(DirsAmong(listed[..n - 1]), [listed[n - 1]]);
        assert [listed[n - 1]][..0] == [];
        assert StackCost([listed[n - 1]]) == Cost(listed[n - 1]);
      } else {
        assert DirsAmong(listed) == DirsAmong(listed[..n - 1]);
      }
    }
  }

  // ----- what the walk requires of every node

  predicate Owned(node: Node, owner: int, device: int) {
    !node.Special? && node.owner == owner && node.device == device
  }

  predicate SafeList(children: seq<Node>, owner: int, device: int) {
    forall i :: 0 <= i < |children| ==> Owned(children[i], owner, device)
  }

  /** Every node of the tree is a directory or regular file of this owner on this device. */
  predicate Safe(node: Node, owner: int, device: int) {
    Owned(node, owner, device)
    && (node.Dir? ==> forall i :: 0 <= i < |node.children| ==> Safe(node.children[i], owner, device))
  }

  predicate SafeStack(stack: seq<Node>, owner: int, device: int) {
    forall i :: 0 <= i < |stack| ==> Safe(stack[i], owner, device)
  }

  // ----- the walk

  /** The files met by a walk that pops the last directory and pushes its own. */
  function Met(stack: seq<Node>): (files: seq<Node>)
    requires AllDirs(stack)
    ensures AllFiles(files)
    decreases StackCost(stack)
  {
    if stack == [] then []
    else
      var front, top := stack[..|stack| - 1], stack[|stack| - 1];
      PoppedCost(front, top);
      FilesAmong(top.children) + Met(front + DirsAmong(top.children))
  }

  lemma PoppedCost(front: seq<Node>, top: Node)
    requires top.Dir?
    ensures StackCost(front + [top]) == StackCost(front + DirsAmong(top.children)) + |top.children| + 1
    ensures (front + [top])[..|front|] == front
  {
    StackCostConcat(front, DirsAmong(top.children));
    ListedCost(top, |top.children|);
    assert top.children[..|top.children|] == top.children;
    assert (front + [top])[..|front|] == front;
  }

  lemma {:induction false} CountedConcat(one: seq<Node>, two: seq<Node>, seen: set<Inode>)
    requires AllFiles(one) && AllFiles(two)
    ensures Counted(one + two, seen) == Plus(Counted(one, seen), Counted(two, seen + Inodes(one)))
    ensures Inodes(one + two) == Inodes(one) + Inodes(two)
    decreases |two|
  {
    InodesConcat(one, two);
    if two == [] {
      assert one + two == one;
    } else {
      var front := two[..|two| - 1];
      assert (one + two)[..|one + two| - 1] == one + front;
      CountedConcat(one, front, seen);
      assert seen + Inodes(one + front) == seen + Inodes(one) + Inodes(front);
    }
  }

  lemma InodesConcat(one: seq<Node>, two: seq<Node>)
    requires AllFiles(one) && AllFiles(two)
    ensures Inodes(one + two) == Inodes(one) + Inodes(two)
  {
    forall x ensures x in Inodes(one + two) <==> x in Inodes(one) || x in Inodes(two) {
      if x in Inodes(one) {
        var i :| 0 <= i < |one| && one[i].inode == x;
        assert (one + two)[i].inode == x;
      }
      if x in Inodes(two) {
        var i :| 0 <= i < |two| && two[i].inode == x;
        assert (one + two)[|one| + i].inode == x;
      }
    }
  }

  function Plus(a: Sums, b: Sums): Sums {
    Sums(a.physical + b.physical, a.exclusive + b.exclusive, a.shared + b.shared)
  }

  lemma OneMoreFile(files: seq<Node>, file: Node, seen: set<Inode>)
    requires AllFiles(files) && file.File?
    ensures Counted(files + [file], seen) == Count(Counted(files, seen), seen + Inodes(files), file)
    ensures seen + Inodes(files + [file]) == seen + Inodes(files) + {file.inode}
  {
    assert (files + [file])[..|files|] == files;
    InodesConcat(files, [file]);
    assert Inodes([file]) == {file.inode} by { assert [file][0] == file; }
  }

  lemma OneMoreChild(children: seq<Node>, i: nat)
    requires i < |children|
    ensures var item := children[i];
            && DirsAmong(children[..i + 1]) == DirsAmong(children[..i]) + (if item.Dir? then [item] else [])
            && FilesAmong(children[..i + 1]) == FilesAmong(children[..i]) + (if item.File? then [item] else [])
  {
    assert children[..i + 1][..i] == children[..i];
  }

  lemma SafeListNext(children: seq<Node>, i: nat, owner: int, device: int)
    requires i < |children|
    ensures SafeList(children[..i + 1], owner, device) <==>
            SafeList(children[..i], owner, device) && Owned(children[i], owner, device)
    ensures !SafeList(children[..i + 1], owner, device) ==> !SafeList(children, owner, device)
  {
    assert children[..i + 1] == children[..i] + [children[i]];
  }

  /** One directory's listing. */
  method List(children: seq<Node>, owner: int, device: int, seen: set<Inode>, budget: TreeBudget)
    returns (ok: bool, sums: Sums, now: set<Inode>, dirs: seq<Node>)
    requires budget.entries <= MAX_TREE_ENTRIES
    modifies budget
    ensures ok <==> SafeList(children, owner, device) && old(budget.entries) + |children| <= MAX_TREE_ENTRIES
    ensures ok ==> budget.entries == old(budget.entries) + |children|
    ensures ok ==> dirs == DirsAmong(children)
    ensures ok ==> sums == Counted(FilesAmong(children), seen) && now == seen + Inodes(FilesAmong(children))
  {
    sums, now, dirs := Sums(0, 0, 0), seen, [];
    ghost var files: seq<Node> := [];
    var i := 0;
    while i < |children|
      invariant 0 <= i <= |children|
      invariant SafeList(children[..i], owner, device)
      invariant budget.entries == old(budget.entries) + i <= MAX_TREE_ENTRIES
      invariant dirs == DirsAmong(children[..i]) && files == FilesAmong(children[..i])
      invariant sums == Counted(files, seen) && now == seen + Inodes(files)
    {
      var item := children[i];
      OneMoreChild(children, i);
      SafeListNext(children, i, owner, device);
      ok := budget.Add();
      if !ok || item.Special? || item.owner != owner || item.device != device { return false, sums, now, dirs; }
      if item.Dir? {
        dirs := dirs + [item];
      } else {
        OneMoreFile(files, item, seen);
        sums, now, files := Count(sums, now, item), now + {item.inode}, files + [item];
      }
      i := i + 1;
    }
    assert children[..i] == children;
    ok := true;
  }

  /** Where a walk stands: what it met so far, what is on its stack, and what it has counted. */
  ghost predicate Walking(root: Node, seen: set<Inode>, stack: seq<Node>, met: seq<Node>, sums: Sums, now: set<Inode>)
    requires root.Dir?
  {
    && AllDirs(stack) && AllFiles(met)
    && met + Met(stack) == Met([root])
    && sums == Counted(met, seen) && now == seen + Inodes(met)
  }

  lemma WalkOn(root: Node, seen: set<Inode>, front: seq<Node>, top: Node, met: seq<Node>, sums: Sums, now: set<Inode>)
    requires root.Dir? && top.Dir? && Walking(root, seen, front + [top], met, sums, now)
    ensures var files := FilesAmong(top.children);
            Walking(root, seen, front + DirsAmong(top.children), met + files,
                    Plus(sums, Counted(files, now)), now + Inodes(files))
  {
    var files, rest := FilesAmong(top.children), Met(front + DirsAmong(top.children));
    MetPops(front, top);
    CountedConcat(met, files, seen);
    Regroup(met, files, rest);
    AllDirsParts(front, top);
    assert seen + Inodes(met) + Inodes(files) == seen + (Inodes(met) + Inodes(files));
  }

  lemma Regroup<T>(one: seq<T>, two: seq<T>, three: seq<T>)
    ensures one + two + three == one + (two + three)
  {
  }

  lemma AllDirsParts(front: seq<Node>, top: Node)
    requires top.Dir? && AllDirs(front + [top])
    ensures AllDirs(front + DirsAmong(top.children))
  {
    forall i | 0 <= i < |front| ensures front[i].Dir? { assert (front + [top])[i] == front[i]; }
  }

  lemma MetPops(front: seq<Node>, top: Node)
    requires top.Dir? && AllDirs(front + [top])
    ensures AllDirs(front + DirsAmong(top.children))
    ensures Met(front + [top]) == FilesAmong(top.children) + Met(front + DirsAmong(top.children))
  {
    AllDirsParts(front, top);
    assert (front + [top])[..|front|] == front;
  }

  /** The walk with its stack. It ends normally exactly when every node is safe and the budget
      covers the whole tree, and then has counted the files of the tree once each. */
  method SafeTree(root: Node, owner: int, device: int, seen: set<Inode>, budget: TreeBudget)
    returns (ok: bool, sums: Sums, now: set<Inode>)
    requires budget.entries <= MAX_TREE_ENTRIES
    modifies budget
    ensures ok <==> root.Dir? && Safe(root, owner, device) && old(budget.entries) + Cost(root) <= MAX_TREE_ENTRIES
    ensures ok ==> budget.entries == old(budget.entries) + Cost(root)
    ensures ok ==> sums == Counted(Met([root]), seen) && now == seen + Inodes(Met([root]))
  {
    if !root.Dir? { return false, Sums(0, 0, 0), seen; }
    var stack := [root];
    sums, now := Sums(0, 0, 0), seen;
    ghost var met: seq<Node> := [];
    WalkBegins(root, owner, device, seen);
    while stack != []
      invariant budget.entries <= MAX_TREE_ENTRIES
      invariant Walking(root, seen, stack, met, sums, now)
      invariant budget.entries + StackCost(stack) == old(budget.entries) + Cost(root)
      invariant Safe(root, owner, device) <==> SafeStack(stack, owner, device)
      decreases StackCost(stack)
    {
      var front, current := stack[..|stack| - 1], stack[|stack| - 1];
      assert stack == front + [current];
      PoppedCost(front, current);
      PoppedSafe(front, current, owner, device);
      WalkOn(root, seen, front, current, met, sums, now);
      ok := budget.Add();
      if !ok || current.Special? || current.owner != owner || current.device != device { return false, sums, now; }
      var more: Sums, dirs: seq<Node>;
      ghost var files := FilesAmong(current.children);
      ok, more, now, dirs := List(current.children, owner, device, now, budget);
      if !ok { return false, sums, now; }
      sums, stack, met := Plus(sums, more), front + dirs, met + files;
    }
    assert met + Met([]) == met;
    ok := true;
  }

  lemma WalkBegins(root: Node, owner: int, device: int, seen: set<Inode>)
    requires root.Dir?
    ensures Walking(root, seen, [root], [], Sums(0, 0, 0), seen)
    ensures StackCost([root]) == Cost(root)
    ensures SafeStack([root], owner, device) <==> Safe(root, owner, device)
  {
    assert [] + Met([root]) == Met([root]);
    assert [root][..0] == [] && [root][0] == root;
    assert seen + Inodes([]) == seen;
  }

  lemma PoppedSafe(front: seq<Node>, top: Node, owner: int, device: int)
    requires top.Dir?
    ensures SafeStack(front + [top], owner, device) <==>
            Owned(top, owner, device) && SafeList(top.children, owner, device)
            && SafeStack(front + DirsAmong(top.children), owner, device)
  {
    SafeParts(front, [top], owner, device);
    SafeParts(front, DirsAmong(top.children), owner, device);
    ListSafe(top.children, owner, device);
    assert SafeStack([top], owner, device) <==> Safe(top, owner, device) by { assert [top][0] == top; }
  }

  lemma SafeParts(one: seq<Node>, two: seq<Node>, owner: int, device: int)
    ensures SafeStack(one + two, owner, device) <==> SafeStack(one, owner, device) && SafeStack(two, owner, device)
  {
    if SafeStack(one + two, owner, device) {
      forall i | 0 <= i < |one| ensures Safe(one[i], owner, device) { assert (one + two)[i] == one[i]; }
      forall i | 0 <= i < |two| ensures Safe(two[i], owner, device) { assert (one + two)[|one| + i] == two[i]; }
    }
  }

  lemma {:induction false} ListSafe(children: seq<Node>, owner: int, device: int)
    ensures SafeStack(children, owner, device) <==>
            SafeList(children, owner, device) && SafeStack(DirsAmong(children), owner, device)
  {
    if children != [] {
      var front, last := children[..|children| - 1], children[|children| - 1];
      ListSafe(front, owner, device);
      assert children == front + [last];
      SafeParts(front, [last], owner, device);
      SafeParts(DirsAmong(front), [last], owner, device);
      assert SafeStack([last], owner, device) <==> Safe(last, owner, device) by { assert [last][0] == last; }
      assert SafeList(children, owner, device) <==> SafeList(front, owner, device) && Owned(last, owner, device);
      if !last.Dir? { assert DirsAmong(children) == DirsAmong(front); }
    }
  }

  // ----- the files of a tree, said without a walk

  function Content(node: Node): multiset<Node>
    decreases node, 0
  {
    match node
    case Dir(_, _, children) => ContentOf(node, |children|)
    case File(_, _, _, _, _) => multiset{node}
    case Special => multiset{}
  }

  function ContentOf(node: Node, n: nat): multiset<Node>
    requires node.Dir? && n <= |node.children|
    decreases node, 0, n
  {
    if n == 0 then multiset{} else ContentOf(node, n - 1) + Content(node.children[n - 1])
  }

  function StackContent(stack: seq<Node>): multiset<Node> {
    if stack == [] then multiset{} else StackContent(stack[..|stack| - 1]) + Content(stack[|stack| - 1])
  }

  lemma {:induction false} StackContentConcat(one: seq<Node>, two: seq<Node>)
    ensures StackContent(one + two) == StackContent(one) + StackContent(two)
    decreases |two|
  {
    if two == [] {
      assert one + two == one;
    } else {
      assert (one + two)[..|one + two| - 1] == one + two[..|two| - 1];
      StackContentConcat(one, two[..|two| - 1]);
    }
  }

  lemma {:induction false} ListedContent(node: Node, n: nat)
    requires node.Dir? && n <= |node.children|
    ensures ContentOf(node, n) ==
            multiset(FilesAmong(node.children[..n])) + StackContent(DirsAmong(node.children[..n]))
  {
    if n != 0 {
      ListedContent(node, n - 1);
      var last := node.children[n - 1];
      OneMoreChild(node.children, n - 1);
      StackContentConcat(DirsAmong(node.children[..n - 1]), if last.Dir? then [last] else []);
      StackContentOne(last);
    }
  }

  lemma StackContentOne(node: Node)
    ensures StackContent([node]) == Content(node)
    ensures node.File? ==> Content(node) == multiset{node}
    ensures node.Special? ==> Content(node) == multiset{}
  {
    assert [node][..0] == [];
  }

  /** The walk meets each file of the tree exactly as often as the tree holds it. */
  lemma {:induction false} MetIsContent(stack: seq<Node>)
    requires AllDirs(stack)
    ensures multiset(Met(stack)) == StackContent(stack)
    decreases StackCost(stack)
  {
    if stack != [] {
      var front, top := stack[..|stack| - 1], stack[|stack| - 1];
      assert stack == front + [top];
      PoppedCost(front, top);
      MetIsContent(front + DirsAmong(top.children));
      StackContentConcat(front, DirsAmong(top.children));
      ListedContent(top, |top.children|);
      assert top.children[..|top.children|] == top.children;
    }
  }
}
