/** The repeated cold and warm menu derived from a request corpus.

    The program fixes six cases and three repetitions (`ShippedMenu`); here any list of cases and any
    number of repetitions is a menu. A case digest is the list of terms it is taken of. */
module Menu {
  import opened Results
  import opened Folding

  const CONTEXT := 131040
  const POOL := 262144
  const OUTPUT_CAP := 4096
  const WARM_PERCENT := 95

  /** One request of the corpus: the client row with its token count, and the count its settings row
      plans with, which nothing compares with the first. `accepted` holds the checks on its body and
      answer that this model does not look into; `binding` stands for its message digest and grade. */
  datatype Source = Source(tokens: seq<int>, inputTokens: int, planned: int, task: nat, binding: nat, accepted: bool)

  datatype Case = Case(name: string, indices: seq<nat>, warm: bool)

  /** One call of the program's inner `group`. */
  datatype Round = Round(case_: Case, repetition: nat, warmup: bool)

  datatype Key = Key(family: string, repetition: nat, position: nat)

  datatype Policy = Policy(warm: bool, minimum: int, maximum: int)

  datatype Row = Row(ordinal: nat, source: nat, name: string, group: string, warmup: bool, salt: string,
                     seed: Option<nat>, policy: Policy)

  datatype Seed = Seed(ordinal: nat, tokens: seq<int>)

  datatype Group = Group(id: string, warmup: bool, concurrency: nat, ordinals: seq<nat>, task: nat)

  datatype Term = Term(binding: nat, tokens: seq<int>, inputTokens: int, policy: Policy)

  datatype Sample = Sample(group: string, ordinals: seq<nat>, repetition: nat)

  datatype Entry = Entry(name: string, concurrency: nat, contract: seq<Term>, samples: seq<Sample>)

  datatype State = State(rows: seq<Row>, groups: seq<Group>, seeds: map<Key, Seed>, cases: seq<Entry>)

  const Blank := State([], [], map[], [])

  // ----- names

  function Decimal(n: nat): string {
    if n < 10 then ["0123456789"[n]] else Decimal(n / 10) + ["0123456789"[n % 10]]
  }

  /** Every "-warm" becomes "-cold". */
  function Family(name: string): string {
    if name == "" then ""
    else if "-warm" <= name then "-cold" + Family(name[5..])
    else [name[0]] + Family(name[1..])
  }

  function Salt(key: Key): string {
    "hyperloom-" + key.family + "-r" + Decimal(key.repetition) + "-" + Decimal(key.position)
  }

  function GroupId(round: Round): string {
    if round.warmup then round.case_.name else round.case_.name + "-r" + Decimal(round.repetition)
  }

  function RowName(round: Round, position: nat): string {
    GroupId(round) + if |round.case_.indices| == 2 && position < 2 then "-" + ["ab"[position]] else ""
  }

  function KeyOf(round: Round, position: nat): Key {
    Key(Family(round.case_.name), round.repetition, position)
  }

  // ----- one request of a group

  function PolicyOf(source: Source, warm: bool): Policy {
    if warm then
      var maximum := source.inputTokens - 1;
      Policy(true, (WARM_PERCENT * maximum + 99) / 100, maximum)
    else Policy(false, 0, 0)
  }

  predicate Usable(source: Source) {
    source.accepted && |source.tokens| == source.inputTokens
  }

  function RowOf(originals: seq<Source>, round: Round, position: nat, ordinal: nat, seed: Option<nat>): Row
    requires position < |round.case_.indices| && round.case_.indices[position] < |originals|
  {
    var source := round.case_.indices[position];
    Row(ordinal, source, RowName(round, position), GroupId(round), round.warmup, Salt(KeyOf(round, position)), seed,
        PolicyOf(originals[source], round.case_.warm))
  }

  function Placed(originals: seq<Source>, st: State, round: Round, position: nat): Option<State>
    requires position < |round.case_.indices|
  {
    var index, key := round.case_.indices[position], KeyOf(round, position);
    if index >= |originals| || !Usable(originals[index]) then None
    else if round.case_.warm then
      if key !in st.seeds || st.seeds[key].tokens != originals[index].tokens then None
      else
        Some(st.(rows := st.rows + [RowOf(originals, round, position, |st.rows|, Some(st.seeds[key].ordinal))]))
    else if key in st.seeds then None
    else
      Some(st.(rows := st.rows + [RowOf(originals, round, position, |st.rows|, None)],
               seeds := st.seeds[key := Seed(|st.rows|, originals[index].tokens)]))
  }

  /** The first `n` requests of a group, in order. */
  function PlacedUpTo(originals: seq<Source>, st: State, round: Round, n: nat): Option<State>
    requires n <= |round.case_.indices|
  {
    if n == 0 then Some(st)
    else
      match PlacedUpTo(originals, st, round, n - 1)
      case Some(mid) => Placed(originals, mid, round, n - 1)
      case None => None
  }

  // ----- one group

  function Count(first: nat, n: nat): (ordinals: seq<nat>)
    ensures |ordinals| == n && forall i :: 0 <= i < n ==> ordinals[i] == first + i
  {
    if n == 0 then [] else Count(first, n - 1) + [first + n - 1]
  }

  /** The ordinals given out so far. */
  predicate Counted(ordinals: seq<nat>, first: nat, n: nat) { ordinals == Count(first, n) }

  lemma CountNext(ordinals: seq<nat>, first: nat, n: nat)
    requires Counted(ordinals, first, n)
    ensures Counted(ordinals + [first + n], first, n + 1)
  {
  }

  predicate Indexed(originals: seq<Source>, indices: seq<nat>) {
    forall i :: 0 <= i < |indices| ==> indices[i] < |originals|
  }

  function Terms(originals: seq<Source>, case_: Case): (terms: seq<Term>)
    requires Indexed(originals, case_.indices)
    ensures |terms| == |case_.indices|
  {
    seq(|case_.indices|, i requires 0 <= i < |case_.indices| =>
      var source := originals[case_.indices[i]];
      Term(source.binding, source.tokens, source.inputTokens, PolicyOf(source, case_.warm)))
  }

  function Capacity(source: Source): int { source.planned + OUTPUT_CAP + 16 }

  function Capacities(originals: seq<Source>, indices: seq<nat>): int
    requires Indexed(originals, indices)
  {
    if indices == [] then 0
    else Capacities(originals, indices[..|indices| - 1]) + Capacity(originals[indices[|indices| - 1]])
  }

  /** One task, and room for every request and for all of them at once. */
  predicate Fits(originals: seq<Source>, indices: seq<nat>)
    requires Indexed(originals, indices)
  {
    && indices != []
    && (forall i :: 0 <= i < |indices| ==> originals[indices[i]].task == originals[indices[0]].task)
    && (forall i :: 0 <= i < |indices| ==> Capacity(originals[indices[i]]) <= CONTEXT)
    && Capacities(originals, indices) <= POOL
  }

  /** Where a case is listed, or the length when it is not. */
  function Find(cases: seq<Entry>, name: string): (at: nat)
    ensures at <= |cases|
    ensures at < |cases| ==> cases[at].name == name
    ensures forall i :: 0 <= i < at ==> cases[i].name != name
  {
    if cases == [] || cases[0].name == name then 0 else 1 + Find(cases[1..], name)
  }

  /** The case list with one more sample; nothing when the case changed. */
  function Sampled(cases: seq<Entry>, name: string, concurrency: nat, contract: seq<Term>, sample: Sample)
    : Option<seq<Entry>>
  {
    var at := Find(cases, name);
    if at == |cases| then Some(cases + [Entry(name, concurrency, contract, [sample])])
    else if cases[at].contract != contract then None
    else Some(cases[at := cases[at].(samples := cases[at].samples + [sample])])
  }

  function Grouped(originals: seq<Source>, st: State, round: Round): Option<State> {
    var case_ := round.case_;
    match PlacedUpTo(originals, st, round, |case_.indices|)
    case None => None
    case Some(mid) =>
      if !Indexed(originals, case_.indices) || !Fits(originals, case_.indices) then None
      else Closed(originals, mid, round, Count(|st.rows|, |case_.indices|))
  }

  /** The group is listed, and a timed one is filed under its case. */
  function Closed(originals: seq<Source>, st: State, round: Round, ordinals: seq<nat>): Option<State>
    requires Indexed(originals, round.case_.indices) && round.case_.indices != []
  {
    var case_ := round.case_;
    var group := Group(GroupId(round), round.warmup, |case_.indices|, ordinals, originals[case_.indices[0]].task);
    var listed := st.(groups := st.groups + [group]);
    if round.warmup then Some(listed)
    else
      match Sampled(st.cases, case_.name, |case_.indices|, Terms(originals, case_),
                    Sample(group.id, ordinals, round.repetition))
      case Some(cases) => Some(listed.(cases := cases))
      case None => None
  }

  // ----- the menu

  const Warmups := [Round(Case("warmup-c1", [0], false), 0, true), Round(Case("warmup-c2", [1, 2], false), 0, true)]

  function Repetition(cases: seq<Case>, repetition: nat): (rounds: seq<Round>)
    ensures |rounds| == |cases|
    ensures forall i :: 0 <= i < |cases| ==> rounds[i] == Round(cases[i], repetition, false)
  {
    seq(|cases|, i requires 0 <= i < |cases| => Round(cases[i], repetition, false))
  }

  function Rounds(cases: seq<Case>, samples: nat): seq<Round> {
    if samples == 0 then Warmups else Rounds(cases, samples - 1) + Repetition(cases, samples - 1)
  }

  function Step(originals: seq<Source>): (State, Round) -> Option<State> {
    (st, round) => Grouped(originals, st, round)
  }

  function Run(originals: seq<Source>, rounds: seq<Round>): Option<State> {
    Fold(Step(originals), Blank, rounds)
  }

  function Derived(originals: seq<Source>, cases: seq<Case>, samples: nat): Option<State> {
    Run(originals, Rounds(cases, samples))
  }

  lemma FamilyFrom(name: string, i: nat)
    requires i <= |name|
    ensures Family(name[|name|..]) == "" && name[0..] == name
    ensures i < |name| ==>
      Family(name[i..]) == if i + 5 <= |name| && name[i..i + 5] == "-warm" then "-cold" + Family(name[i + 5..])
                           else [name[i]] + Family(name[i + 1..])
  {
    if i + 5 <= |name| {
      assert name[i..][..5] == name[i..i + 5] && name[i..][5..] == name[i + 5..];
    }
    if i < |name| { assert name[i..][1..] == name[i + 1..]; }
  }

  /** Every "-warm" of a name replaced, from left to right. */
  method ReplaceWarm(name: string) returns (family: string)
    ensures family == Family(name)
  {
    hide Family;
    var i := 0;
    family := "";
    FamilyFrom(name, 0);
    while i < |name|
      invariant 0 <= i <= |name| && family + Family(name[i..]) == Family(name)
    {
      if i + 5 <= |name| && name[i..i + 5] == "-warm" {
        FamilyFrom(name, i);
        family, i := family + "-cold", i + 5;
      } else {
        FamilyFrom(name, i);
        family, i := family + [name[i]], i + 1;
      }
    }
  }

  /** One row of the menu: its name, group, salt, seed and cache policy. */
  method MakeRow(originals: seq<Source>, round: Round, position: nat, ordinal: nat, family: string, seed: Option<nat>)
    returns (row: Row)
    requires position < |round.case_.indices| && round.case_.indices[position] < |originals|
    requires family == Family(round.case_.name)
    ensures row == RowOf(originals, round, position, ordinal, seed)
  {
    var source, group := originals[round.case_.indices[position]], round.case_.name;
    if !round.warmup { group := group + "-r" + Decimal(round.repetition); }
    var name := group;
    if |round.case_.indices| == 2 { name := name + "-" + [(97 + position) as char]; }
    var salt := "hyperloom-" + family + "-r" + Decimal(round.repetition) + "-" + Decimal(position);
    var policy := Policy(false, 0, 0);
    if round.case_.warm {
      var maximum := source.inputTokens - 1;
      policy := Policy(true, (95 * maximum + 99) / 100, maximum);
    }
    row := Row(ordinal, round.case_.indices[position], name, group, round.warmup, salt, seed, policy);
  }

  /** One task for the whole group, and room for each request and for all of them. */
  method CheckRoom(originals: seq<Source>, indices: seq<nat>) returns (ok: bool)
    requires Indexed(originals, indices)
    ensures ok <==> Fits(originals, indices)
  {
    if |indices| == 0 { return false; }
    var total, i := 0, 0;
    while i < |indices|
      invariant 0 <= i <= |indices| && total == Capacities(originals, indices[..i])
      invariant forall k :: 0 <= k < i ==> originals[indices[k]].task == originals[indices[0]].task
      invariant forall k :: 0 <= k < i ==> Capacity(originals[indices[k]]) <= CONTEXT
    {
      var source := originals[indices[i]];
      var capacity := source.planned + 4096 + 16;
      assert indices[..i + 1][..i] == indices[..i];
      if source.task != originals[indices[0]].task || capacity > 131040 { return false; }
      total, i := total + capacity, i + 1;
    }
    assert indices[..i] == indices;
    ok := total <= 262144;
  }

  /** The lists the program fills while it derives a menu. */
  class Builder {
    const originals: seq<Source>
    var rows: seq<Row>
    var groups: seq<Group>
    var seeds: map<Key, Seed>
    var cases: seq<Entry>

    constructor (originals: seq<Source>)
      ensures this.originals == originals && Menu() == Blank
    {
      this.originals := originals;
      rows, groups, seeds, cases := [], [], map[], [];
    }

    function Menu(): State
      reads this
    {
      State(rows, groups, seeds, cases)
    }

    method Place(round: Round, position: nat) returns (ok: bool)
      requires position < |round.case_.indices|
      modifies this`rows, this`seeds
      ensures ok <==> Placed(originals, old(Menu()), round, position).Some?
      ensures ok ==> Placed(originals, old(Menu()), round, position) == Some(Menu())
    {
      var index := round.case_.indices[position];
      if index >= |originals| || !originals[index].accepted || |originals[index].tokens| != originals[index].inputTokens {
        return false;
      }
      var family := ReplaceWarm(round.case_.name);
      var key := Key(family, round.repetition, position);
      var ordinal, seed := |rows|, None;
      if round.case_.warm {
        if key !in seeds || seeds[key].tokens != originals[index].tokens { return false; }
        seed := Some(seeds[key].ordinal);
      } else {
        if key in seeds { return false; }
        seeds := seeds[key := Seed(ordinal, originals[index].tokens)];
      }
      var row := MakeRow(originals, round, position, ordinal, family, seed);
      rows := rows + [row];
      return true;
    }

    /** The next request of a group whose first ones were placed from `start`. */
    method PlaceFrom(ghost start: State, round: Round, position: nat) returns (ok: bool)
      requires position < |round.case_.indices| && PlacedTo(originals, start, round, position, Menu())
      modifies this`rows, this`seeds
      ensures ok ==> PlacedTo(originals, start, round, position + 1, Menu()) && |rows| == old(|rows|) + 1
      ensures !ok ==> Unplaceable(originals, start, round)
    {
      ghost var now := Menu();
      ok := Place(round, position);
      if ok {
        PlaceNext(originals, start, round, position, now, Menu());
      } else {
        PlacingFails(originals, start, round, position, now);
      }
    }

    method PlaceAll(round: Round) returns (ok: bool, ordinals: seq<nat>)
      modifies this`rows, this`seeds
      ensures !ok ==> Unplaceable(originals, old(Menu()), round)
      ensures ok ==> PlacedTo(originals, old(Menu()), round, |round.case_.indices|, Menu())
      ensures ok ==> ordinals == Count(old(|rows|), |round.case_.indices|)
    {
      hide PlacedUpTo, PlacedTo, Placed, Count;
      ghost var start, first := Menu(), |rows|;
      NonePlaced(originals, start, round, first);
      var n, position := |round.case_.indices|, 0;
      ordinals := [];
      while position < n
        invariant 0 <= position <= n
        invariant PlacedTo(originals, start, round, position, Menu())
        invariant |rows| == first + position
        invariant Counted(ordinals, first, position)
      {
        CountNext(ordinals, first, position);
        ordinals := ordinals + [|rows|];
        ok := PlaceFrom(start, round, position);
        if !ok { return; }
        position := position + 1;
      }
      ok := true;
    }

    method AddGroup(round: Round) returns (ok: bool)
      modifies this
      ensures ok <==> Grouped(originals, old(Menu()), round).Some?
      ensures ok ==> Grouped(originals, old(Menu()), round) == Some(Menu())
    {
      var ordinals;
      ghost var start := Menu();
      ok, ordinals := PlaceAll(round);
      if ok { AllInRange(originals, start, round, Menu()); }
      if !ok { return false; }
      ok := CheckRoom(originals, round.case_.indices);
      if !ok { return false; }
      ok := Close(round, ordinals);
    }

    method Close(round: Round, ordinals: seq<nat>) returns (ok: bool)
      requires Indexed(originals, round.case_.indices) && round.case_.indices != []
      modifies this`groups, this`cases
      ensures ok <==> Closed(originals, old(Menu()), round, ordinals).Some?
      ensures ok ==> Closed(originals, old(Menu()), round, ordinals) == Some(Menu())
    {
      var case_ := round.case_;
      groups := groups + [Group(GroupId(round), round.warmup, |case_.indices|, ordinals,
                                originals[case_.indices[0]].task)];
      if !round.warmup {
        var at, contract := Find(cases, case_.name), Terms(originals, case_);
        var sample := Sample(GroupId(round), ordinals, round.repetition);
        if at == |cases| {
          cases := cases + [Entry(case_.name, |case_.indices|, contract, [sample])];
        } else if cases[at].contract != contract {
          return false;
        } else {
          cases := cases[at := cases[at].(samples := cases[at].samples + [sample])];
        }
      }
      return true;
    }

    method AddRepetition(plan: seq<Case>, repetition: nat) returns (ok: bool)
      modifies this
      ensures ok <==> Fold(Step(originals), old(Menu()), Repetition(plan, repetition)).Some?
      ensures ok ==> Fold(Step(originals), old(Menu()), Repetition(plan, repetition)) == Some(Menu())
    {
      ghost var all := Repetition(plan, repetition);
      var i := 0;
      while i < |plan|
        invariant 0 <= i <= |plan|
        invariant Fold(Step(originals), old(Menu()), all[..i]) == Some(Menu())
      {
        FoldSnoc(Step(originals), old(Menu()), all[..i], all[i]);
        assert all[..i] + [all[i]] == all[..i + 1];
        ok := AddGroup(Round(plan[i], repetition, false));
        if !ok {
          RefusalStands(Step(originals), old(Menu()), all[..i + 1], all[i + 1..]);
          assert all[..i + 1] + all[i + 1..] == all;
          return;
        }
        i := i + 1;
      }
      assert all[..i] == all;
      return true;
    }
  }

  /** The requests of the group cannot all be placed. */
  predicate Unplaceable(originals: seq<Source>, st: State, round: Round) {
    PlacedUpTo(originals, st, round, |round.case_.indices|).None?
  }

  predicate PlacedTo(originals: seq<Source>, st: State, round: Round, n: nat, next: State) {
    n <= |round.case_.indices| && PlacedUpTo(originals, st, round, n) == Some(next)
  }

  lemma NonePlaced(originals: seq<Source>, st: State, round: Round, first: nat)
    ensures PlacedTo(originals, st, round, 0, st) && Counted([], first, 0)
  {
  }

  lemma PlacedNext(originals: seq<Source>, st: State, round: Round, n: nat)
    requires n < |round.case_.indices|
    ensures PlacedUpTo(originals, st, round, n + 1) ==
            if PlacedUpTo(originals, st, round, n).None? then None
            else Placed(originals, PlacedUpTo(originals, st, round, n).value, round, n)
  {
  }

  lemma PlaceNext(originals: seq<Source>, st: State, round: Round, n: nat, mid: State, next: State)
    requires n < |round.case_.indices| && PlacedTo(originals, st, round, n, mid)
    requires Placed(originals, mid, round, n) == Some(next)
    ensures PlacedTo(originals, st, round, n + 1, next)
    ensures |next.rows| == |mid.rows| + 1
  {
  }

  lemma {:induction false} PlacedInRange(originals: seq<Source>, st: State, round: Round, n: nat, next: State, p: nat)
    requires PlacedTo(originals, st, round, n, next) && p < n
    ensures round.case_.indices[p] < |originals|
    decreases n
  {
    var mid := PlacedUpTo(originals, st, round, n - 1).value;
    if p == n - 1 {
      PlacedNeeds(originals, mid, round, p);
    } else {
      PlacedInRange(originals, st, round, n - 1, mid, p);
    }
  }

  lemma AllInRange(originals: seq<Source>, st: State, round: Round, next: State)
    requires PlacedTo(originals, st, round, |round.case_.indices|, next)
    ensures Indexed(originals, round.case_.indices)
  {
    forall p | 0 <= p < |round.case_.indices| ensures round.case_.indices[p] < |originals| {
      PlacedInRange(originals, st, round, |round.case_.indices|, next, p);
    }
  }

  lemma PlacedNeeds(originals: seq<Source>, st: State, round: Round, position: nat)
    requires position < |round.case_.indices| && Placed(originals, st, round, position).Some?
    ensures round.case_.indices[position] < |originals|
  {
  }

  lemma PlacingFails(originals: seq<Source>, st: State, round: Round, n: nat, mid: State)
    requires n < |round.case_.indices| && PlacedTo(originals, st, round, n, mid)
    requires Placed(originals, mid, round, n).None?
    ensures PlacedUpTo(originals, st, round, |round.case_.indices|).None?
  {
    hide PlacedUpTo, Placed;
    PlacedNext(originals, st, round, n);
    FailureStands(originals, st, round, n + 1);
  }

  lemma {:induction false} FailureStands(originals: seq<Source>, st: State, round: Round, n: nat)
    requires n <= |round.case_.indices| && PlacedUpTo(originals, st, round, n).None?
    ensures PlacedUpTo(originals, st, round, |round.case_.indices|).None?
    decreases |round.case_.indices| - n
  {
    if n < |round.case_.indices| { FailureStands(originals, st, round, n + 1); }
  }

  method Derive(originals: seq<Source>, cases: seq<Case>, samples: nat) returns (menu: Option<State>)
    ensures menu == Derived(originals, cases, samples)
  {
    var builder := new Builder(originals);
    var ok := builder.AddGroup(Warmups[0]);
    WarmupsRun(originals);
    if ok { ok := builder.AddGroup(Warmups[1]); }
    if !ok {
      LongerFails(originals, cases, 0, samples);
      return None;
    }
    var repetition := 0;
    while repetition < samples
      invariant repetition <= samples
      invariant builder.originals == originals
      invariant fresh(builder)
      invariant Derived(originals, cases, repetition) == Some(builder.Menu())
    {
      FoldConcat(Step(originals), Blank, Rounds(cases, repetition), Repetition(cases, repetition));
      ok := builder.AddRepetition(cases, repetition);
      repetition := repetition + 1;
      if !ok {
        LongerFails(originals, cases, repetition, samples);
        return None;
      }
    }
    menu := Some(builder.Menu());
  }

  lemma WarmupsRun(originals: seq<Source>)
    ensures Run(originals, Warmups) ==
            if Grouped(originals, Blank, Warmups[0]).None? then None
            else Grouped(originals, Grouped(originals, Blank, Warmups[0]).value, Warmups[1])
  {
    FoldSnoc(Step(originals), Blank, [], Warmups[0]);
    FoldSnoc(Step(originals), Blank, [Warmups[0]], Warmups[1]);
    assert [] + [Warmups[0]] == [Warmups[0]] && [Warmups[0]] + [Warmups[1]] == Warmups;
  }

  lemma {:induction false} LongerFails(originals: seq<Source>, cases: seq<Case>, few: nat, samples: nat)
    requires few <= samples && Derived(originals, cases, few).None?
    ensures Derived(originals, cases, samples).None?
  {
    if few < samples {
      LongerFails(originals, cases, few, samples - 1);
      RefusalStands(Step(originals), Blank, Rounds(cases, samples - 1), Repetition(cases, samples - 1));
    }
  }
}
