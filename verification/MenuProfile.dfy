/** The five-request profile menu cut out of a derived menu, and the report made from it. */
module MenuProfile {
  import opened Results
  import opened Bags
  import opened Folding
  import opened Menu
  import MenuRows
  import opened MenuSchedule
  import opened MenuCases
  import opened Arms
  import opened MenuArms
  import opened Report
  import Jobs
  import Snapshot

  /** The chosen requests: the three warmups, and the pair of one C2 case. */
  const CHOSEN: seq<nat> := [0, 1, 2, 5, 6]

  function Renumbered(o: nat): nat { if o == 5 then 3 else if o == 6 then 4 else o }

  function RenumberAll(ordinals: seq<nat>): (r: seq<nat>)
    ensures |r| == |ordinals| && forall i :: 0 <= i < |r| ==> r[i] == Renumbered(ordinals[i])
  {
    seq(|ordinals|, i requires 0 <= i < |ordinals| => Renumbered(ordinals[i]))
  }

  predicate Chosen(ordinals: seq<nat>) {
    forall i :: 0 <= i < |ordinals| ==> ordinals[i] in CHOSEN
  }

  /** The groups whose requests were all chosen, with their requests renumbered. */
  function KeptGroups(groups: seq<Group>): seq<Group> {
    if groups == [] then []
    else
      var last := groups[|groups| - 1];
      KeptGroups(groups[..|groups| - 1])
      + if Chosen(last.ordinals) then [last.(ordinals := RenumberAll(last.ordinals))] else []
  }

  predicate Cold(row: Row) { !row.policy.warm && row.seed.None? }

  function ChosenRows(rows: seq<Row>, n: nat): (chosen: seq<Row>)
    requires n <= 5 && |rows| >= 7
    ensures |chosen| == n
    ensures forall i :: 0 <= i < n ==> chosen[i] == rows[CHOSEN[i]].(ordinal := i)
  {
    if n == 0 then [] else ChosenRows(rows, n - 1) + [rows[CHOSEN[n - 1]].(ordinal := n - 1)]
  }

  datatype ProfileMenu = ProfileMenu(rows: seq<Row>, groups: seq<Group>)

  predicate AllCold(rows: seq<Row>, n: nat)
    requires n <= 5 && |rows| >= 7
  {
    forall i :: 0 <= i < n ==> Cold(rows[CHOSEN[i]])
  }

  predicate Profilable(menu: State) {
    |menu.rows| >= 7 && AllCold(menu.rows, 5) && |KeptGroups(menu.groups)| == 3
  }

  method DeriveProfile(menu: State) returns (profile: Option<ProfileMenu>)
    ensures profile.Some? <==> Profilable(menu)
    ensures profile.Some? ==> profile.value == ProfileMenu(ChosenRows(menu.rows, 5), KeptGroups(menu.groups))
  {
    if |menu.rows| < 7 { return None; }
    var rows, n := [], 0;
    while n < 5
      invariant 0 <= n <= 5 && AllCold(menu.rows, n) && rows == ChosenRows(menu.rows, n)
    {
      if !Cold(menu.rows[CHOSEN[n]]) { return None; }
      rows, n := rows + [menu.rows[CHOSEN[n]].(ordinal := n)], n + 1;
    }
    var groups, i := [], 0;
    while i < |menu.groups|
      invariant 0 <= i <= |menu.groups| && groups == KeptGroups(menu.groups[..i])
    {
      var group := menu.groups[i];
      assert menu.groups[..i + 1][..i] == menu.groups[..i];
      if Chosen(group.ordinals) { groups := groups + [group.(ordinals := RenumberAll(group.ordinals))]; }
      i := i + 1;
    }
    assert menu.groups[..i] == menu.groups;
    if |groups| != 3 { return None; }
    profile := Some(ProfileMenu(rows, groups));
  }

  function ProfileWorkload(groups: seq<Group>): Workload { Workload(5, 1, true, groups, []) }

  // ----- when the cut is the profile the report asks for

  predicate PairAt(groups: seq<Group>, j: nat) { j < |groups| && groups[j].ordinals == [5, 6] }

  predicate HasPair(groups: seq<Group>) { exists j :: 0 <= j < |groups| && PairAt(groups, j) }

  lemma {:induction false} KeptConcat(one: seq<Group>, two: seq<Group>)
    ensures KeptGroups(one + two) == KeptGroups(one) + KeptGroups(two)
    decreases |two|
  {
    if two == [] {
      assert one + two == one;
    } else {
      assert (one + two)[..|one + two| - 1] == one + two[..|two| - 1];
      KeptConcat(one, two[..|two| - 1]);
    }
  }

  lemma {:induction false} NoneKept(groups: seq<Group>)
    requires forall i :: 0 <= i < |groups| ==> !Chosen(groups[i].ordinals)
    ensures KeptGroups(groups) == []
  {
    if groups != [] { NoneKept(groups[..|groups| - 1]); }
  }

  lemma {:induction false} KeptFrom(groups: seq<Group>, k: nat) returns (i: nat)
    requires k < |KeptGroups(groups)|
    ensures i < |groups| && Chosen(groups[i].ordinals)
    ensures KeptGroups(groups)[k] == groups[i].(ordinals := RenumberAll(groups[i].ordinals))
  {
    var front := groups[..|groups| - 1];
    if k < |KeptGroups(front)| {
      i := KeptFrom(front, k);
    } else {
      i := |groups| - 1;
    }
  }

  /** Different groups of a partition share no request. */
  lemma {:induction false} GroupsApart(groups: seq<Group>, n: nat, i: nat, j: nat, o: nat)
    requires Flat(groups) == Count(0, n) && i < j < |groups| && o in groups[i].ordinals
    ensures o !in groups[j].ordinals
    decreases |groups|
  {
    var front, last := groups[..|groups| - 1], groups[|groups| - 1];
    assert Flat(groups) == Flat(front) + last.ordinals;
    if j < |front| {
      var m := |Flat(front)|;
      assert Flat(front) == Count(0, n)[..m] == Count(0, m);
      GroupsApart(front, m, i, j, o);
    } else {
      FlatHolds(front, i, o);
      PartsApart(Flat(front), last.ordinals, o);
    }
  }

  /** What a derived menu's groups are: the two warmups first, then timed ones, none of them empty,
      and together the requests in order. */
  predicate MenuGroups(groups: seq<Group>, n: nat) {
    && |groups| >= 2 && Flat(groups) == Count(0, n) && DistinctIds(groups)
    && groups[0].ordinals == [0] && groups[1].ordinals == [1, 2]
    && (forall i :: 0 <= i < |groups| ==> (groups[i].warmup <==> i < 2))
    && (forall i :: 0 <= i < |groups| ==> groups[i].concurrency == |groups[i].ordinals| > 0)
  }

  /** A later group is kept only if it lies in the pair. */
  lemma LaterInPair(groups: seq<Group>, n: nat, i: nat)
    requires MenuGroups(groups, n) && 2 <= i < |groups| && Chosen(groups[i].ordinals)
    ensures forall o :: o in groups[i].ordinals ==> o == 5 || o == 6
  {
    forall o | o in groups[i].ordinals ensures o == 5 || o == 6 {
      assert 0 in groups[0].ordinals && 1 in groups[1].ordinals && 2 in groups[1].ordinals;
      GroupsApart(groups, n, 0, i, 0);
      GroupsApart(groups, n, 1, i, 1);
      GroupsApart(groups, n, 1, i, 2);
      assert o in CHOSEN;
    }
  }

  /** Where one group is the pair, no other later group is kept. */
  lemma OnlyThePair(groups: seq<Group>, n: nat, i: nat, j: nat)
    requires MenuGroups(groups, n) && 2 <= i < |groups| && 2 <= j < |groups| && i != j && PairAt(groups, j)
    ensures !Chosen(groups[i].ordinals)
  {
    if Chosen(groups[i].ordinals) {
      LaterInPair(groups, n, i);
      var o := groups[i].ordinals[0];
      assert o in groups[i].ordinals && o in groups[j].ordinals;
      if i < j { GroupsApart(groups, n, i, j, o); } else { GroupsApart(groups, n, j, i, o); }
    }
  }

  lemma KeptOne(group: Group)
    ensures KeptGroups([group]) == if Chosen(group.ordinals) then [group.(ordinals := RenumberAll(group.ordinals))] else []
  {
    assert [group][..0] == [];
  }

  lemma WarmupsKept(groups: seq<Group>, n: nat)
    requires MenuGroups(groups, n)
    ensures KeptGroups(groups[..2]) == groups[..2]
  {
    assert groups[..2] == [groups[0]] + [groups[1]];
    KeptConcat([groups[0]], [groups[1]]);
    KeptOne(groups[0]);
    KeptOne(groups[1]);
    assert RenumberAll([0]) == [0] && RenumberAll([1, 2]) == [1, 2];
  }

  lemma CutAround<T>(items: seq<T>, i: nat, j: nat)
    requires i <= j < |items|
    ensures items == items[..i] + (items[i..j] + ([items[j]] + items[j + 1..]))
  {
  }

  lemma AroundPair(groups: seq<Group>, n: nat, j: nat)
    requires MenuGroups(groups, n) && 2 <= j && PairAt(groups, j)
    ensures KeptGroups(groups[2..j]) == [] && KeptGroups(groups[j + 1..]) == []
  {
    var middle, back := groups[2..j], groups[j + 1..];
    forall i | 0 <= i < |middle| ensures !Chosen(middle[i].ordinals) { OnlyThePair(groups, n, 2 + i, j); }
    forall i | 0 <= i < |back| ensures !Chosen(back[i].ordinals) { OnlyThePair(groups, n, j + 1 + i, j); }
    NoneKept(middle);
    NoneKept(back);
  }

  lemma KeptThrough(front: seq<Group>, middle: seq<Group>, one: Group, back: seq<Group>)
    requires KeptGroups(middle) == [] && KeptGroups(back) == []
    ensures KeptGroups(front + (middle + ([one] + back))) == KeptGroups(front) + KeptGroups([one])
  {
    KeptConcat(front, middle + ([one] + back));
    KeptConcat(middle, [one] + back);
    KeptConcat([one], back);
  }

  lemma KeptPair(group: Group)
    requires group.ordinals == [5, 6]
    ensures KeptGroups([group]) == [group.(ordinals := [3, 4])]
  {
    KeptOne(group);
    assert RenumberAll([5, 6]) == [3, 4];
    assert Chosen(group.ordinals);
  }

  lemma PairKept(groups: seq<Group>, n: nat, j: nat)
    requires MenuGroups(groups, n) && PairAt(groups, j)
    ensures j >= 2 && KeptGroups(groups) == groups[..2] + [groups[j].(ordinals := [3, 4])]
  {
    assert j >= 2;
    CutAround(groups, 2, j);
    AroundPair(groups, n, j);
    WarmupsKept(groups, n);
    KeptPair(groups[j]);
    KeptThrough(groups[..2], groups[2..j], groups[j], groups[j + 1..]);
  }

  /** The groups cut out of a menu have the shape the profile report asks for exactly when one group
      of the menu is the pair of requests 5 and 6. */
  lemma ProfileShapeWhen(groups: seq<Group>, n: nat)
    requires MenuGroups(groups, n)
    ensures ProfileShape(ProfileWorkload(KeptGroups(groups))) <==> HasPair(groups)
  {
    if HasPair(groups) {
      var j :| 0 <= j < |groups| && PairAt(groups, j);
      PairKept(groups, n, j);
    }
    if ProfileShape(ProfileWorkload(KeptGroups(groups))) {
      var i := KeptFrom(groups, 2);
      var ordinals := groups[i].ordinals;
      assert RenumberAll(ordinals) == [3, 4] && |ordinals| == 2;
      assert Renumbered(ordinals[0]) == 3 && Renumbered(ordinals[1]) == 4;
      assert ordinals[0] in CHOSEN && ordinals[1] in CHOSEN;
      assert PairAt(groups, i);
    }
  }

  lemma DerivedGroups(originals: seq<Source>, cases: seq<Case>, samples: nat)
    requires Derived(originals, cases, samples).Some? && DistinctNames(cases)
    ensures var menu := Derived(originals, cases, samples).value; MenuGroups(menu.groups, |menu.rows|)
  {
    var rounds, menu := Rounds(cases, samples), Derived(originals, cases, samples).value;
    MenuCovers(originals, cases, samples);
    RoundsApart(cases, samples);
    WarmupsFirst(originals, rounds);
    FlatOfTwo(menu.groups);
    PartitionPrefix(menu.groups, 2, |menu.rows|);
    assert menu.groups[0].ordinals + menu.groups[1].ordinals == Count(0, 3) == [0, 1, 2];
    assert menu.groups[0].ordinals == (menu.groups[0].ordinals + menu.groups[1].ordinals)[..1];
    assert menu.groups[1].ordinals == (menu.groups[0].ordinals + menu.groups[1].ordinals)[1..];
    RunNonempty(originals, rounds);
  }

  lemma {:induction false} RunNonempty(originals: seq<Source>, rounds: seq<Round>)
    requires Run(originals, rounds).Some?
    ensures forall i :: 0 <= i < |Run(originals, rounds).value.groups| ==>
      Run(originals, rounds).value.groups[i].ordinals != []
  {
    if rounds != [] {
      var front := rounds[..|rounds| - 1];
      RunNonempty(originals, front);
      GroupedAdds(originals, Run(originals, front).value, rounds[|rounds| - 1]);
    }
  }

  lemma KeptCovers(groups: seq<Group>, n: nat)
    requires MenuGroups(groups, n) && HasPair(groups)
    ensures var kept := KeptGroups(groups);
            && |kept| == 3 && DistinctIds(kept) && Flat(kept) == Count(0, 5)
            && forall i :: 0 <= i < 3 ==> kept[i].concurrency == |kept[i].ordinals| && InRange(kept[i].ordinals, 5)
  {
    var j :| 0 <= j < |groups| && PairAt(groups, j);
    PairKept(groups, n, j);
    ThreeCover(groups, n, KeptGroups(groups), j);
  }

  lemma ThreeCover(groups: seq<Group>, n: nat, kept: seq<Group>, j: nat)
    requires MenuGroups(groups, n) && 2 <= j < |groups|
    requires |kept| == 3 && kept[0] == groups[0] && kept[1] == groups[1]
    requires kept[2] == groups[j].(ordinals := [3, 4]) && groups[j].concurrency == 2
    ensures DistinctIds(kept) && Flat(kept) == Count(0, 5)
    ensures forall i :: 0 <= i < 3 ==> kept[i].concurrency == |kept[i].ordinals| && InRange(kept[i].ordinals, 5)
  {
    FlatOfThree(kept);
    assert [0] + [1, 2] + [3, 4] == Count(0, 5);
  }

  /** An arm joins the profile workload exactly when it executed it. */
  lemma ProfileJoins(groups: seq<Group>, n: nat, arm: Arm)
    requires MenuGroups(groups, n) && HasPair(groups)
    ensures ArmOk(arm, ProfileWorkload(KeptGroups(groups))) <==> Executes(arm, ProfileWorkload(KeptGroups(groups)))
  {
    var kept := KeptGroups(groups);
    KeptCovers(groups, n);
    if RowsOk(arm, 5) && |arm.groups| == 3 {
      forall i | 0 <= i < 3 ensures GroupOk(arm.groups[i], kept[i], arm) <==> Follows(arm.groups[i], kept[i], arm) {
      }
    }
  }

  lemma FlatOfThree(groups: seq<Group>)
    requires |groups| == 3
    ensures Flat(groups) == groups[0].ordinals + groups[1].ordinals + groups[2].ordinals
  {
    FlatOfTwo(groups);
    assert groups[..3] == groups;
  }

  /** The case that starts two requests after the warmups is a cold pair. */
  predicate PairCase(cases: seq<Case>, i: nat) {
    i < |cases| && Requests(cases[..i]) == 2 && |cases[i].indices| == 2 && !cases[i].warm
  }

  /** Filed groups hold the requests of their samples. */
  lemma SampleGroup(e: Entry, k: nat, groups: seq<Group>)
    requires EntryFiled(e, groups) && k < |e.samples| && e.samples[k].ordinals == [5, 6]
    ensures HasPair(groups)
  {
    assert SampleFiled(e.samples[k], e.concurrency, groups);
    var i :| 0 <= i < |groups| && FiledAt(e.samples[k], e.concurrency, groups, i);
    assert PairAt(groups, i);
  }

  lemma PairThere(originals: seq<Source>, cases: seq<Case>, samples: nat, i: nat)
    requires Derived(originals, cases, samples).Some? && DistinctNames(cases) && samples > 0 && PairCase(cases, i)
    ensures HasPair(Derived(originals, cases, samples).value.groups)
  {
    var menu := Derived(originals, cases, samples).value;
    MenuLists(originals, cases, samples);
    RunFiled(originals, Rounds(cases, samples));
    assert EntryIs(menu.cases[i], originals, cases, i, samples) && EntryFiled(menu.cases[i], menu.groups);
    assert menu.cases[i].samples[0].ordinals == Count(5, 2) == [5, 6];
    SampleGroup(menu.cases[i], 0, menu.groups);
  }

  lemma PairCold(originals: seq<Source>, cases: seq<Case>, samples: nat, i: nat)
    requires Derived(originals, cases, samples).Some? && samples > 0 && PairCase(cases, i)
    ensures var rows := Derived(originals, cases, samples).value.rows; |rows| >= 7 && AllCold(rows, 5)
  {
    CaseRowsLike(originals, cases, samples, i);
    WarmupRowsCold(originals, cases, samples);
    MenuRows.RunKeepsRows(originals, Rounds(cases, samples));
    var rows := Derived(originals, cases, samples).value.rows;
    forall k | 0 <= k < 5 ensures Cold(rows[CHOSEN[k]]) {
      assert !rows[CHOSEN[k]].policy.warm;
    }
  }

  /** Where the list has such a case, the profile menu is cut and has the shape of the profile report. */
  lemma PairProfiles(originals: seq<Source>, cases: seq<Case>, samples: nat, i: nat)
    requires Derived(originals, cases, samples).Some? && DistinctNames(cases) && samples > 0 && PairCase(cases, i)
    ensures var menu := Derived(originals, cases, samples).value;
            && |menu.rows| >= 7 && AllCold(menu.rows, 5) && HasPair(menu.groups)
            && Profilable(menu) && ProfileShape(ProfileWorkload(KeptGroups(menu.groups)))
  {
    var menu := Derived(originals, cases, samples).value;
    PairThere(originals, cases, samples, i);
    PairCold(originals, cases, samples, i);
    DerivedGroups(originals, cases, samples);
    ProfileShapeWhen(menu.groups, |menu.rows|);
  }

  /** End to end: where a derived menu has that pair and the chosen requests are cold, the profile
      menu is cut, arms that executed it and a complete capture of the graded pair make a report, and
      the report is accepted. */
  lemma ProfileReportAccepted(originals: seq<Source>, cases: seq<Case>, samples: nat, bf16: Arm, kv4: Arm, job: Job,
                              capture: Capture, claim: Snapshot.Claim, hex: Jobs.Sha -> string)
    requires Derived(originals, cases, samples).Some? && DistinctNames(cases)
    requires var menu := Derived(originals, cases, samples).value;
             |menu.rows| >= 7 && AllCold(menu.rows, 5) && HasPair(menu.groups)
    requires Admitted(job, Jobs.Profile, hex) && Registered(job, hex) && CaptureOk(capture, kv4)
    requires claim.id == job.request.id && claim.request == Jobs.CanonicalRequest(job.request)
    ensures var menu := Derived(originals, cases, samples).value;
            var workload := ProfileWorkload(KeptGroups(menu.groups));
            && Profilable(menu)
            && (ProfileMade(bf16, kv4, workload, job, capture, hex) <==>
                Executes(bf16, workload) && Executes(kv4, workload))
            && (Executes(bf16, workload) && Executes(kv4, workload) ==> Accepted(ProfileOf(job, capture), job, claim, hex))
  {
    var menu := Derived(originals, cases, samples).value;
    DerivedGroups(originals, cases, samples);
    ProfileShapeWhen(menu.groups, |menu.rows|);
    ProfileJoins(menu.groups, |menu.rows|, bf16);
    ProfileJoins(menu.groups, |menu.rows|, kv4);
    if ProfileMade(bf16, kv4, ProfileWorkload(KeptGroups(menu.groups)), job, capture, hex) {
      ProfileAgrees(bf16, kv4, ProfileWorkload(KeptGroups(menu.groups)), job, capture, claim, hex);
    }
  }
}
