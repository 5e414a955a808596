/** The inventory over registered namespaces, and the prune plan made from it. */
module CacheInventory {
  import opened Results
  import opened CacheWalk
  import opened CacheSums

  const MAX_NAMESPACES := 128

  /** A registered namespace; `tree` is absent when its path does not exist. */
  datatype Namespace = Namespace(active: bool, lastKnownGood: bool, owner: int, tree: Option<Node>)

  datatype State = MissingPreserve | ProtectedActive | ProtectedLastKnownGood | ManagedDisposable

  datatype Row = Row(state: State, sums: Sums, reclaimable: nat)

  function StateOf(ns: Namespace): State {
    if ns.tree.None? then MissingPreserve
    else if ns.active then ProtectedActive
    else if ns.lastKnownGood then ProtectedLastKnownGood
    else ManagedDisposable
  }

  function FilesOf(ns: Namespace): (files: seq<Node>)
    ensures AllFiles(files)
  {
    if ns.tree.Some? && ns.tree.value.Dir? then Met([ns.tree.value]) else []
  }

  function RowFor(ns: Namespace, sums: Sums): Row {
    Row(StateOf(ns), sums, if StateOf(ns).ManagedDisposable? && sums.shared == 0 then sums.exclusive else 0)
  }

  function AllMet(namespaces: seq<Namespace>): (files: seq<Node>)
    ensures AllFiles(files)
  {
    if namespaces == [] then []
    else AllMet(namespaces[..|namespaces| - 1]) + FilesOf(namespaces[|namespaces| - 1])
  }

  /** One row a namespace, each counting what those before it had not met. */
  function Rows(namespaces: seq<Namespace>): (rows: seq<Row>)
    ensures |rows| == |namespaces|
  {
    if namespaces == [] then []
    else
      var front, last := namespaces[..|namespaces| - 1], namespaces[|namespaces| - 1];
      Rows(front) + [RowFor(last, Counted(FilesOf(last), Inodes(AllMet(front))))]
  }

  predicate Registrable(ns: Namespace, device: int) {
    ns.tree.Some? ==> ns.tree.value.Dir? && Safe(ns.tree.value, ns.owner, device)
  }

  function TreeCost(namespaces: seq<Namespace>): nat {
    if namespaces == [] then 0
    else
      TreeCost(namespaces[..|namespaces| - 1]) + CostOf(namespaces[|namespaces| - 1])
  }

  function CostOf(ns: Namespace): nat {
    if ns.tree.Some? then Cost(ns.tree.value) else 0
  }

  predicate AllRegistrable(namespaces: seq<Namespace>, device: int) {
    forall i :: 0 <= i < |namespaces| ==> Registrable(namespaces[i], device)
  }

  lemma CostOfPrefix(namespaces: seq<Namespace>, n: nat)
    requires n <= |namespaces|
    ensures TreeCost(namespaces[..n]) <= TreeCost(namespaces)
    decreases |namespaces|
  {
    if n < |namespaces| {
      var front := namespaces[..|namespaces| - 1];
      assert namespaces[..n] == front[..n];
      CostOfPrefix(front, n);
    } else {
      assert namespaces[..n] == namespaces;
    }
  }

  lemma OneMoreNamespace(namespaces: seq<Namespace>, i: nat, device: int)
    requires i < |namespaces|
    ensures var front, ns, next := namespaces[..i], namespaces[i], namespaces[..i + 1];
            && TreeCost(next) == TreeCost(front) + CostOf(ns)
            && TreeCost(next) <= TreeCost(namespaces)
            && (AllRegistrable(next, device) <==> AllRegistrable(front, device) && Registrable(ns, device))
            && Inodes(AllMet(next)) == Inodes(AllMet(front)) + Inodes(FilesOf(ns))
            && Rows(next) == Rows(front) + [RowFor(ns, Counted(FilesOf(ns), Inodes(AllMet(front))))]
  {
    assert namespaces[..i + 1] == namespaces[..i] + [namespaces[i]];
    assert namespaces[..i + 1][..i] == namespaces[..i];
    CostOfPrefix(namespaces, i + 1);
    InodesConcat(AllMet(namespaces[..i]), FilesOf(namespaces[i]));
  }

  /** Entries of the managed parents that no registry row names. */
  method CountUnregistered(unregistered: nat, budget: TreeBudget) returns (ok: bool)
    requires budget.entries == 0
    modifies budget
    ensures ok <==> unregistered <= MAX_NAMESPACES
    ensures ok ==> budget.entries == unregistered
  {
    var listed := 0;
    while listed < unregistered
      invariant listed <= unregistered && listed <= MAX_NAMESPACES
      invariant budget.entries == listed
    {
      ok := budget.Add();
      if !ok || listed >= MAX_NAMESPACES { return false; }
      listed := listed + 1;
    }
    ok := true;
  }

  /** One namespace's row. */
  method Measure(ns: Namespace, device: int, seen: set<Inode>, budget: TreeBudget)
    returns (ok: bool, row: Row, now: set<Inode>)
    requires budget.entries <= MAX_TREE_ENTRIES
    modifies budget
    ensures ok <==> Registrable(ns, device) && old(budget.entries) + CostOf(ns) <= MAX_TREE_ENTRIES
    ensures ok ==> budget.entries == old(budget.entries) + CostOf(ns)
    ensures ok ==> row == RowFor(ns, Counted(FilesOf(ns), seen)) && now == seen + Inodes(FilesOf(ns))
  {
    var sums := Sums(0, 0, 0);
    ok, now := true, seen;
    if ns.tree.Some? {
      ok, sums, now := SafeTree(ns.tree.value, ns.owner, device, seen, budget);
    }
    var state := if ns.tree.None? then MissingPreserve else if ns.active then ProtectedActive
                 else if ns.lastKnownGood then ProtectedLastKnownGood else ManagedDisposable;
    var kept := ns.tree.None? || ns.active || ns.lastKnownGood || sums.shared != 0;
    row := Row(state, sums, if kept then 0 else sums.exclusive);
  }

  /** The inventory succeeds exactly when every tree is safe and all of them fit one budget. */
  method Inventory(namespaces: seq<Namespace>, unregistered: nat, device: int) returns (rows: Option<seq<Row>>)
    ensures rows.Some? <==>
            && unregistered <= MAX_NAMESPACES && AllRegistrable(namespaces, device)
            && unregistered + TreeCost(namespaces) <= MAX_TREE_ENTRIES
    ensures rows.Some? ==> rows.value == Rows(namespaces)
  {
    var budget := new TreeBudget();
    var ok := CountUnregistered(unregistered, budget);
    if !ok { return None; }
    var seen: set<Inode>, found: seq<Row>, i := {}, [], 0;
    while i < |namespaces|
      invariant 0 <= i <= |namespaces|
      invariant budget.entries == unregistered + TreeCost(namespaces[..i]) <= MAX_TREE_ENTRIES
      invariant AllRegistrable(namespaces[..i], device)
      invariant seen == Inodes(AllMet(namespaces[..i]))
      invariant found == Rows(namespaces[..i])
    {
      var ns := namespaces[i];
      OneMoreNamespace(namespaces, i, device);
      var row: Row;
      ok, row, seen := Measure(ns, device, seen, budget);
      if !ok {
        assert Registrable(ns, device) ==> unregistered + TreeCost(namespaces[..i + 1]) > MAX_TREE_ENTRIES;
        return None;
      }
      found := found + [row];
      i := i + 1;
    }
    assert namespaces[..i] == namespaces;
    rows := Some(found);
  }

  // ----- totals

  function Physical(rows: seq<Row>): nat {
    if rows == [] then 0 else Physical(rows[..|rows| - 1]) + rows[|rows| - 1].sums.physical
  }

  function Reclaimable(rows: seq<Row>): nat {
    if rows == [] then 0 else Reclaimable(rows[..|rows| - 1]) + rows[|rows| - 1].reclaimable
  }

  lemma FaithfulParts(one: seq<Node>, two: seq<Node>, bytes: Inode -> nat, links: Inode -> int)
    requires AllFiles(one) && AllFiles(two) && Faithful(one + two, bytes, links)
    ensures Faithful(one, bytes, links) && Faithful(two, bytes, links)
    ensures Single(one, links) !! Single(two, links)
  {
    var all := one + two;
    forall i | 0 <= i < |two| ensures all[|one| + i] == two[i] {}
    forall i | 0 <= i < |one| ensures all[i] == one[i] {}
    forall x | x in Single(one, links)
      ensures x !in Single(two, links)
    {
      var i :| 0 <= i < |one| && one[i].inode == x;
      assert all[i].links == 1;
      forall j | 0 <= j < |two| ensures two[j].inode != x { assert all[|one| + j] == two[j]; }
    }
  }

  /** The physical bytes of all rows are the bytes of the distinct inodes, each once. */
  lemma {:induction false} PhysicalTotal(namespaces: seq<Namespace>, bytes: Inode -> nat, links: Inode -> int)
    requires Faithful(AllMet(namespaces), bytes, links)
    ensures Physical(Rows(namespaces)) == SumOver(Inodes(AllMet(namespaces)), bytes)
  {
    if namespaces != [] {
      var front, last := namespaces[..|namespaces| - 1], namespaces[|namespaces| - 1];
      FaithfulParts(AllMet(front), FilesOf(last), bytes, links);
      PhysicalTotal(front, bytes, links);
      CountedMeans(FilesOf(last), Inodes(AllMet(front)), bytes, links);
      InodesConcat(AllMet(front), FilesOf(last));
      SumUnion(Inodes(AllMet(front)), Inodes(FilesOf(last)) - Inodes(AllMet(front)), bytes);
      assert Inodes(AllMet(namespaces)) ==
             Inodes(AllMet(front)) + (Inodes(FilesOf(last)) - Inodes(AllMet(front)));
    }
  }

  function Contents(namespaces: seq<Namespace>): multiset<Node> {
    if namespaces == [] then multiset{}
    else
      var last := namespaces[|namespaces| - 1];
      Contents(namespaces[..|namespaces| - 1])
      + if last.tree.Some? && last.tree.value.Dir? then Content(last.tree.value) else multiset{}
  }

  lemma {:induction false} AllMetIsContents(namespaces: seq<Namespace>)
    ensures multiset(AllMet(namespaces)) == Contents(namespaces)
  {
    if namespaces != [] {
      var last := namespaces[|namespaces| - 1];
      AllMetIsContents(namespaces[..|namespaces| - 1]);
      if last.tree.Some? && last.tree.value.Dir? {
        MetIsContent([last.tree.value]);
        StackContentOne(last.tree.value);
      }
    }
  }

  /** The total does not depend on the order of the registry or of any directory listing: it is the
      same for any two arrangements that hold the same files. */
  lemma PhysicalOrderFree(one: seq<Namespace>, two: seq<Namespace>, bytes: Inode -> nat, links: Inode -> int)
    requires Contents(one) == Contents(two)
    requires Faithful(AllMet(one), bytes, links) && Faithful(AllMet(two), bytes, links)
    ensures Physical(Rows(one)) == Physical(Rows(two))
  {
    PhysicalTotal(one, bytes, links);
    PhysicalTotal(two, bytes, links);
    AllMetIsContents(one);
    AllMetIsContents(two);
    InodesOrderFree(AllMet(one), AllMet(two));
  }

  /** The single-link inodes of the namespaces that are disposable and showed nothing shared. */
  function Disposable(namespaces: seq<Namespace>, links: Inode -> int): set<Inode> {
    if namespaces == [] then {}
    else
      var front, last := namespaces[..|namespaces| - 1], namespaces[|namespaces| - 1];
      Disposable(front, links)
      + if StateOf(last).ManagedDisposable? && Counted(FilesOf(last), Inodes(AllMet(front))).shared == 0
        then Single(FilesOf(last), links) else {}
  }

  lemma {:induction false} DisposableSingle(namespaces: seq<Namespace>, links: Inode -> int)
    ensures Disposable(namespaces, links) <= Single(AllMet(namespaces), links)
  {
    if namespaces != [] {
      var front, last := namespaces[..|namespaces| - 1], namespaces[|namespaces| - 1];
      DisposableSingle(front, links);
      InodesConcat(AllMet(front), FilesOf(last));
    }
  }

  /** Reclaimable bytes are the bytes of single-link inodes of disposable namespaces, each once. */
  lemma {:induction false} ReclaimableTotal(namespaces: seq<Namespace>, bytes: Inode -> nat, links: Inode -> int)
    requires Faithful(AllMet(namespaces), bytes, links)
    ensures Reclaimable(Rows(namespaces)) == SumOver(Disposable(namespaces, links), bytes)
  {
    if namespaces != [] {
      var front, last := namespaces[..|namespaces| - 1], namespaces[|namespaces| - 1];
      FaithfulParts(AllMet(front), FilesOf(last), bytes, links);
      ReclaimableTotal(front, bytes, links);
      CountedMeans(FilesOf(last), Inodes(AllMet(front)), bytes, links);
      DisposableSingle(front, links);
      var mine := Single(FilesOf(last), links);
      SumUnion(Disposable(front, links), mine, bytes);
      assert Disposable(front, links) + {} == Disposable(front, links);
    }
  }

  lemma {:induction false} SumWithin(few: set<Inode>, many: set<Inode>, bytes: Inode -> nat)
    requires few <= many
    ensures SumOver(few, bytes) <= SumOver(many, bytes)
  {
    SumUnion(few, many - few, bytes);
    assert few + (many - few) == many;
  }

  /** No plan can free more than the walk found. */
  lemma ReclaimableWithin(namespaces: seq<Namespace>, bytes: Inode -> nat, links: Inode -> int)
    requires Faithful(AllMet(namespaces), bytes, links)
    ensures Reclaimable(Rows(namespaces)) <= Physical(Rows(namespaces))
  {
    PhysicalTotal(namespaces, bytes, links);
    ReclaimableTotal(namespaces, bytes, links);
    DisposableSingle(namespaces, links);
    SumWithin(Disposable(namespaces, links), Inodes(AllMet(namespaces)), bytes);
  }

  /** A disposable namespace is kept for hard-linked content exactly when it is the first to meet
      an inode with other links and some bytes. */
  lemma KeptForSharing(namespaces: seq<Namespace>, at: nat, bytes: Inode -> nat, links: Inode -> int)
    requires at < |namespaces| && Faithful(FilesOf(namespaces[at]), bytes, links)
    ensures var files, seen := FilesOf(namespaces[at]), Inodes(AllMet(namespaces[..at]));
            Counted(files, seen).shared == 0 <==>
            forall x :: x in Inodes(files) && x !in seen && links(x) != 1 ==> bytes(x) == 0
  {
    var files, seen := FilesOf(namespaces[at]), Inodes(AllMet(namespaces[..at]));
    CountedMeans(files, seen, bytes, links);
    ZeroSum(LinkedElsewhere(files, seen, links), bytes);
  }

  lemma {:induction false} ZeroSum(inodes: set<Inode>, bytes: Inode -> nat)
    ensures SumOver(inodes, bytes) == 0 <==> forall x :: x in inodes ==> bytes(x) == 0
    decreases |inodes|
  {
    if inodes != {} {
      var x :| x in inodes;
      SumPick(inodes, x, bytes);
      ZeroSum(inodes - {x}, bytes);
      assert forall y :: y in inodes ==> y == x || y in inodes - {x};
    }
  }

  /** Two disposable namespaces that hold one hard-linked file between them. */
  const LINKED := File(0, 0, Inode(1), 1, 2)
  const FIRST := Namespace(false, false, 0, Some(Dir(0, 0, [LINKED, File(0, 0, Inode(2), 1, 1)])))
  const SECOND := Namespace(false, false, 0, Some(Dir(0, 0, [LINKED, File(0, 0, Inode(3), 5, 1)])))

  lemma TwoFiles(a: Node, b: Node)
    requires a.File? && b.File?
    ensures FilesOf(Namespace(false, false, 0, Some(Dir(0, 0, [a, b])))) == [a, b]
  {
    var children := [a, b];
    assert children[..1] == [a] && [a][..0] == [];
    assert FilesAmong(children) == FilesAmong([a]) + [b] == [a] + [b];
    assert DirsAmong(children) == DirsAmong([a]) == [];
    MetPops([], Dir(0, 0, children));
    assert [] + [Dir(0, 0, children)] == [Dir(0, 0, children)];
    assert Met([] + DirsAmong(children)) == [];
  }

  lemma CountedPair(a: Node, b: Node, seen: set<Inode>)
    requires a.File? && b.File? && a.inode != b.inode
    ensures Inodes([a, b]) == {a.inode, b.inode}
    ensures Counted([a, b], seen) == Count(Count(Sums(0, 0, 0), seen, a), seen + {a.inode}, b)
  {
    OneMoreFile([], a, seen);
    OneMoreFile([a], b, seen);
    assert [] + [a] == [a] && [a] + [b] == [a, b];
    assert Inodes([a]) == {a.inode} by { assert [a][0] == a; }
    InodesConcat([a], [b]);
    assert Inodes([b]) == {b.inode} by { assert [b][0] == b; }
  }

  /** What is reclaimable, unlike the physical total, depends on the order of the registry: only the
      namespace that meets the shared file first keeps its own bytes for it. */
  lemma ReclaimableDependsOnOrder()
    ensures Reclaimable(Rows([FIRST, SECOND])) == 5 * BLOCK
    ensures Reclaimable(Rows([SECOND, FIRST])) == 1 * BLOCK
  {
    PairReclaims(FIRST, SECOND, Inode(2), 1, Inode(3), 5);
    PairReclaims(SECOND, FIRST, Inode(3), 5, Inode(2), 1);
  }

  lemma PairTotal(one: Row, two: Row)
    ensures Reclaimable([one, two]) == one.reclaimable + two.reclaimable
  {
    assert [one, two][..1] == [one] && [one][..0] == [];
    assert Reclaimable([one]) == Reclaimable([]) + one.reclaimable;
  }

  lemma PairReclaims(one: Namespace, two: Namespace, mine: Inode, few: nat, yours: Inode, many: nat)
    requires one == Namespace(false, false, 0, Some(Dir(0, 0, [LINKED, File(0, 0, mine, few, 1)])))
    requires two == Namespace(false, false, 0, Some(Dir(0, 0, [LINKED, File(0, 0, yours, many, 1)])))
    requires mine != Inode(1) && yours != Inode(1) && mine != yours
    ensures Reclaimable(Rows([one, two])) == many * BLOCK
  {
    var a, b := File(0, 0, mine, few, 1), File(0, 0, yours, many, 1);
    TwoFiles(LINKED, a);
    TwoFiles(LINKED, b);
    CountedPair(LINKED, a, {});
    CountedPair(LINKED, b, {Inode(1), mine});
    RowsPair(one, two);
    PairTotal(Rows([one, two])[0], Rows([one, two])[1]);
    assert Rows([one, two]) == [Rows([one, two])[0], Rows([one, two])[1]];
  }

  lemma RowsPair(one: Namespace, two: Namespace)
    ensures Rows([one, two]) == [RowFor(one, Counted(FilesOf(one), {})),
                                 RowFor(two, Counted(FilesOf(two), Inodes(FilesOf(one))))]
  {
    assert [one, two][..1] == [one] && [one][..0] == [];
    assert Inodes([]) == {};
    assert AllMet([one]) == [] + FilesOf(one) == FilesOf(one);
    assert Rows([one]) == [] + [RowFor(one, Counted(FilesOf(one), {}))];
  }

  // ----- the plan

  const MIB := 1024 * 1024

  datatype Status = NoPruneRequired | ReviewRequired | Blocked

  datatype Plan = Plan(status: Status, shortfall: int, disposable: nat, candidates: seq<Row>, wouldMeet: bool)

  function Candidates(rows: seq<Row>): seq<Row> {
    if rows == [] then []
    else
      var last := rows[|rows| - 1];
      Candidates(rows[..|rows| - 1]) + if last.state.ManagedDisposable? && last.reclaimable > 0 then [last] else []
  }

  function PrunePlan(rows: seq<Row>, free: int, reserveMib: int): Option<Plan> {
    if reserveMib <= 0 || free < 0 then None
    else
      var required, candidates := reserveMib * MIB, Candidates(rows);
      var disposable := Reclaimable(candidates);
      var shortfall := if required - free > 0 then required - free else 0;
      var status := if shortfall == 0 then NoPruneRequired
                    else if disposable >= shortfall then ReviewRequired else Blocked;
      Some(Plan(status, shortfall, disposable, candidates, free + disposable >= required))
  }

  /** The disposable rows that reclaim something, and what they reclaim together. */
  method ListCandidates(rows: seq<Row>) returns (candidates: seq<Row>, disposable: nat)
    ensures candidates == Candidates(rows) && disposable == Reclaimable(candidates)
  {
    candidates, disposable := [], 0;
    var i := 0;
    while i < |rows|
      invariant 0 <= i <= |rows| && candidates == Candidates(rows[..i]) && disposable == Reclaimable(candidates)
    {
      assert rows[..i + 1][..i] == rows[..i];
      if rows[i].state == ManagedDisposable && rows[i].reclaimable != 0 {
        assert (candidates + [rows[i]])[..|candidates|] == candidates;
        candidates, disposable := candidates + [rows[i]], disposable + rows[i].reclaimable;
      }
      i := i + 1;
    }
    assert rows[..i] == rows;
  }

  /** The plan: disposable rows that reclaim something, against the space the reserve still lacks. */
  method MakePlan(rows: seq<Row>, free: int, reserveMib: int) returns (plan: Option<Plan>)
    ensures plan == PrunePlan(rows, free, reserveMib)
  {
    hide Candidates, Reclaimable;
    if reserveMib < 1 || free < 0 { return None; }
    var required := reserveMib * 1048576;
    var candidates, disposable := ListCandidates(rows);
    var status, shortfall := NoPruneRequired, 0;
    if free < required {
      shortfall := required - free;
      status := if shortfall <= disposable then ReviewRequired else Blocked;
    }
    plan := Some(Plan(status, shortfall, disposable, candidates, required <= free + disposable));
  }

  /** Only disposable rows reclaim anything: an invariant of every inventory. */
  predicate RowsHonest(rows: seq<Row>) {
    forall i :: 0 <= i < |rows| && !rows[i].state.ManagedDisposable? ==> rows[i].reclaimable == 0
  }

  lemma {:induction false} InventoryHonest(namespaces: seq<Namespace>)
    ensures RowsHonest(Rows(namespaces))
  {
    if namespaces != [] { InventoryHonest(namespaces[..|namespaces| - 1]); }
  }

  lemma {:induction false} CandidatesReclaim(rows: seq<Row>)
    requires RowsHonest(rows)
    ensures Reclaimable(Candidates(rows)) == Reclaimable(rows)
  {
    if rows != [] {
      var front, last := rows[..|rows| - 1], rows[|rows| - 1];
      CandidatesReclaim(front);
      if last.state.ManagedDisposable? && last.reclaimable > 0 {
        assert (Candidates(front) + [last])[..|Candidates(front)|] == Candidates(front);
      } else {
        assert Candidates(rows) == Candidates(front);
      }
    }
  }

  /** The plan of an inventory is blocked exactly when free space and the bytes of disposable
      single-link inodes together fall short of the reserve. */
  lemma BlockedWhen(namespaces: seq<Namespace>, free: int, reserveMib: int, bytes: Inode -> nat, links: Inode -> int)
    requires reserveMib > 0 && free >= 0 && Faithful(AllMet(namespaces), bytes, links)
    ensures var plan := PrunePlan(Rows(namespaces), free, reserveMib);
            && plan.Some?
            && (plan.value.status.Blocked? <==>
                free + SumOver(Disposable(namespaces, links), bytes) < reserveMib * MIB)
            && (plan.value.wouldMeet <==> !plan.value.status.Blocked?)
            && (plan.value.status.NoPruneRequired? <==> free >= reserveMib * MIB)
  {
    InventoryHonest(namespaces);
    CandidatesReclaim(Rows(namespaces));
    ReclaimableTotal(namespaces, bytes, links);
  }
}
