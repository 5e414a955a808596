/** The measured loop over repetitions and concurrency levels, and the cold variants it consumes.

    Concurrent execution within a batch and the sampling beside it are not part of this model. */
module ServingLoop {
  import opened Results

  datatype Slot = Slot(repetition: nat, concurrency: nat)

  /** What one batch sent. */
  datatype Batch<V> = Batch(slot: Slot, requests: seq<V>)

  function Reversed(levels: seq<nat>): (backwards: seq<nat>)
    ensures |backwards| == |levels|
  {
    if levels == [] then [] else Reversed(levels[1..]) + [levels[0]]
  }

  /** Even repetitions run the levels as listed, odd ones backwards. */
  function Order(levels: seq<nat>, repetition: nat): (order: seq<nat>)
    ensures |order| == |levels|
  {
    if repetition % 2 == 0 then levels else Reversed(levels)
  }

  function Slots(order: seq<nat>, repetition: nat): (slots: seq<Slot>)
    ensures |slots| == |order|
    ensures forall i :: 0 <= i < |order| ==> slots[i] == Slot(repetition, order[i])
  {
    seq(|order|, i requires 0 <= i < |order| => Slot(repetition, order[i]))
  }

  function Plan(levels: seq<nat>, repetitions: nat): seq<Slot> {
    if repetitions == 0 then []
    else Plan(levels, repetitions - 1) + Slots(Order(levels, repetitions - 1), repetitions - 1)
  }

  function Sum(levels: seq<nat>): nat {
    if levels == [] then 0 else Sum(levels[..|levels| - 1]) + levels[|levels| - 1]
  }

  function Size(slot: Slot, perWorker: nat): nat { slot.concurrency * perWorker }

  /** Requests all these slots send. */
  function Needed(slots: seq<Slot>, perWorker: nat): nat {
    if slots == [] then 0 else Needed(slots[..|slots| - 1], perWorker) + Size(slots[|slots| - 1], perWorker)
  }

  function Sent<V>(batches: seq<Batch<V>>): seq<V> {
    if batches == [] then [] else Sent(batches[..|batches| - 1]) + batches[|batches| - 1].requests
  }

  /** The batches run these slots in order, each with as many requests as its slot has. */
  predicate Runs<V>(batches: seq<Batch<V>>, slots: seq<Slot>, perWorker: nat) {
    && |batches| == |slots|
    && forall i :: 0 <= i < |slots| ==>
         batches[i].slot == slots[i] && |batches[i].requests| == Size(slots[i], perWorker)
  }

  // ----- how many requests a plan sends

  lemma {:induction false} SumConcat(one: seq<nat>, two: seq<nat>)
    ensures Sum(one + two) == Sum(one) + Sum(two)
    decreases |two|
  {
    if two == [] {
      assert one + two == one;
    } else {
      assert (one + two)[..|one + two| - 1] == one + two[..|two| - 1];
      SumConcat(one, two[..|two| - 1]);
    }
  }

  lemma {:induction false} SumReversed(levels: seq<nat>)
    ensures Sum(Reversed(levels)) == Sum(levels)
  {
    if levels != [] {
      SumReversed(levels[1..]);
      SumConcat(Reversed(levels[1..]), [levels[0]]);
      SumConcat([levels[0]], levels[1..]);
      assert [levels[0]] + levels[1..] == levels;
      assert [levels[0]][..0] == [];
      assert Sum([levels[0]]) == levels[0];
    }
  }

  lemma {:induction false} NeededConcat(one: seq<Slot>, two: seq<Slot>, perWorker: nat)
    ensures Needed(one + two, perWorker) == Needed(one, perWorker) + Needed(two, perWorker)
    decreases |two|
  {
    if two == [] {
      assert one + two == one;
    } else {
      assert (one + two)[..|one + two| - 1] == one + two[..|two| - 1];
      NeededConcat(one, two[..|two| - 1], perWorker);
    }
  }

  lemma Distributes(a: nat, b: nat, n: nat)
    ensures (a + b) * n == a * n + b * n
  {
  }

  lemma {:induction false} SlotsNeed(order: seq<nat>, repetition: nat, perWorker: nat)
    ensures Needed(Slots(order, repetition), perWorker) == Sum(order) * perWorker
  {
    if order != [] {
      var front := order[..|order| - 1];
      SlotsNeed(front, repetition, perWorker);
      assert Slots(order, repetition)[..|order| - 1] == Slots(front, repetition);
      Distributes(Sum(front), order[|order| - 1], perWorker);
    }
  }

  lemma OneMore(n: nat, repetitions: nat)
    requires repetitions > 0
    ensures n * repetitions == n * (repetitions - 1) + n
  {
  }

  lemma RepetitionNeeds(levels: seq<nat>, repetition: nat, perWorker: nat)
    ensures Needed(Slots(Order(levels, repetition), repetition), perWorker) == Sum(levels) * perWorker
  {
    SlotsNeed(Order(levels, repetition), repetition, perWorker);
    SumReversed(levels);
  }

  /** Every repetition sends this many. */
  ghost predicate EachNeeds(levels: seq<nat>, perWorker: nat, each: nat) {
    forall r: nat :: Needed(Slots(Order(levels, r), r), perWorker) == each
  }

  lemma {:induction false} PlanNeedsEach(levels: seq<nat>, repetitions: nat, perWorker: nat, each: nat)
    requires EachNeeds(levels, perWorker, each)
    ensures Needed(Plan(levels, repetitions), perWorker) == each * repetitions
  {
    if repetitions > 0 {
      var before, slots := Plan(levels, repetitions - 1), Slots(Order(levels, repetitions - 1), repetitions - 1);
      PlanNeedsEach(levels, repetitions - 1, perWorker, each);
      NeededConcat(before, slots, perWorker);
      OneMore(each, repetitions);
    }
  }

  /** The plan sends exactly the number the workload declares. */
  lemma PlanNeeds(levels: seq<nat>, repetitions: nat, perWorker: nat)
    ensures Needed(Plan(levels, repetitions), perWorker) == Sum(levels) * perWorker * repetitions
  {
    var each := Sum(levels) * perWorker;
    forall r: nat ensures Needed(Slots(Order(levels, r), r), perWorker) == each {
      RepetitionNeeds(levels, r, perWorker);
    }
    PlanNeedsEach(levels, repetitions, perWorker, each);
  }

  // ----- the loop

  lemma {:induction false} NeededPrefix(slots: seq<Slot>, n: nat, perWorker: nat)
    requires n <= |slots|
    ensures Needed(slots[..n], perWorker) <= Needed(slots, perWorker)
    ensures n < |slots| ==> Needed(slots[..n + 1], perWorker) == Needed(slots[..n], perWorker) + Size(slots[n], perWorker)
  {
    assert slots == slots[..n] + slots[n..];
    NeededConcat(slots[..n], slots[n..], perWorker);
    if n < |slots| { assert slots[..n + 1][..n] == slots[..n]; }
  }

  /** The variants one batch takes from the shared iterator. */
  method Draw<V>(variants: seq<V>, next: nat, size: nat) returns (requests: seq<V>, after: nat)
    requires next + size <= |variants|
    ensures after == next + size && requests == variants[next..after]
  {
    requests, after := [], next;
    while |requests| < size
      invariant after == next + |requests| <= next + size
      invariant requests == variants[next..after]
    {
      requests := requests + [variants[after]];
      after := after + 1;
    }
  }

  lemma SentSnoc<V>(batches: seq<Batch<V>>, batch: Batch<V>)
    ensures Sent(batches + [batch]) == Sent(batches) + batch.requests
  {
    assert (batches + [batch])[..|batches|] == batches;
  }

  lemma {:induction false} PlanPrefix(levels: seq<nat>, few: nat, many: nat)
    requires few <= many
    ensures Plan(levels, few) <= Plan(levels, many)
  {
    if few < many {
      PlanPrefix(levels, few, many - 1);
      PrefixGrows(Plan(levels, few), Plan(levels, many - 1), Slots(Order(levels, many - 1), many - 1));
    }
  }

  lemma PrefixGrows<T>(few: seq<T>, some: seq<T>, more: seq<T>)
    requires few <= some
    ensures few <= some + more
  {
  }

  lemma Onward<T>(items: seq<T>, from: nat, to: nat)
    requires from <= to <= |items|
    ensures items[..from] + items[from..to] == items[..to]
  {
  }

  lemma NextSlot<T>(before: seq<T>, slots: seq<T>, i: nat, all: seq<T>)
    requires i < |slots| && before + slots <= all
    ensures before + slots[..i] + [slots[i]] == before + slots[..i + 1]
    ensures before + slots[..i] + [slots[i]] <= all
  {
    assert slots == slots[..i] + [slots[i]] + slots[i + 1..];
    assert before + slots == before + slots[..i] + [slots[i]] + slots[i + 1..];
  }

  lemma RunsSnoc<V>(batches: seq<Batch<V>>, slots: seq<Slot>, perWorker: nat, batch: Batch<V>)
    requires Runs(batches, slots, perWorker) && |batch.requests| == Size(batch.slot, perWorker)
    ensures Runs(batches + [batch], slots + [batch.slot], perWorker)
  {
  }

  lemma NeededWithin(few: seq<Slot>, slot: Slot, all: seq<Slot>, perWorker: nat)
    requires few + [slot] <= all
    ensures Needed(few + [slot], perWorker) == Needed(few, perWorker) + Size(slot, perWorker)
    ensures Needed(few, perWorker) + Size(slot, perWorker) <= Needed(all, perWorker)
  {
    NeededPrefix(all, |few + [slot]|, perWorker);
    assert all[..|few + [slot]|] == few + [slot];
    NeededConcat(few, [slot], perWorker);
    assert [slot][..0] == [];
    assert Needed([slot], perWorker) == Size(slot, perWorker);
  }

  /** The nested loops. They never run out of variants, and when they end every variant has been
      sent exactly once, in the order the workload lists them. */
  method Measure<V>(levels: seq<nat>, perWorker: nat, repetitions: nat, variants: seq<V>)
    returns (batches: Option<seq<Batch<V>>>)
    ensures batches.Some? <==> |variants| == Sum(levels) * perWorker * repetitions
    ensures batches.Some? ==> Runs(batches.value, Plan(levels, repetitions), perWorker) && Sent(batches.value) == variants
  {
    if |variants| != Sum(levels) * perWorker * repetitions { return None; }
    PlanNeeds(levels, repetitions, perWorker);
    var run: seq<Batch<V>>, next, repetition := [], 0, 0;
    while repetition < repetitions
      invariant repetition <= repetitions
      invariant Runs(run, Plan(levels, repetition), perWorker)
      invariant next == Needed(Plan(levels, repetition), perWorker) <= |variants|
      invariant Sent(run) == variants[..next]
    {
      PlanPrefix(levels, repetition + 1, repetitions);
      run, next := MeasureOnce(levels, perWorker, repetition, variants, run, next, Plan(levels, repetitions));
      repetition := repetition + 1;
    }
    assert variants[..next] == variants;
    batches := Some(run);
  }

  lemma {:induction false} ReversedAt(levels: seq<nat>, k: nat)
    requires k < |levels|
    ensures Reversed(levels)[k] == levels[|levels| - 1 - k]
  {
    if k < |levels| - 1 { ReversedAt(levels[1..], k); }
  }

  /** The first, third, fifth, ... pass runs the levels as listed, every other from the last to the first. */
  lemma PassesAlternate(levels: seq<nat>, pass: nat, k: nat)
    requires k < |levels|
    ensures Order(levels, 2 * pass)[k] == levels[k]
    ensures Order(levels, 2 * pass + 1)[k] == levels[|levels| - 1 - k]
  {
    ReversedAt(levels, k);
  }

  method OrderOf(levels: seq<nat>, repetition: nat) returns (order: seq<nat>)
    ensures order == Order(levels, repetition)
  {
    if repetition % 2 == 0 { return levels; }
    order := [];
    while |order| < |levels|
      invariant |order| <= |levels| && order == Reversed(levels)[..|order|]
    {
      ReversedAt(levels, |order|);
      order := order + [levels[|levels| - 1 - |order|]];
    }
  }

  method MeasureOnce<V>(levels: seq<nat>, perWorker: nat, repetition: nat, variants: seq<V>, sent: seq<Batch<V>>,
                        drawn: nat, ghost all: seq<Slot>)
    returns (run: seq<Batch<V>>, next: nat)
    requires Plan(levels, repetition + 1) <= all
    requires Needed(all, perWorker) == |variants|
    requires Runs(sent, Plan(levels, repetition), perWorker)
    requires drawn == Needed(Plan(levels, repetition), perWorker) <= |variants| && Sent(sent) == variants[..drawn]
    ensures Runs(run, Plan(levels, repetition + 1), perWorker)
    ensures next == Needed(Plan(levels, repetition + 1), perWorker) <= |variants| && Sent(run) == variants[..next]
  {
    var order := OrderOf(levels, repetition);
    var i := 0;
    ghost var before, slots := Plan(levels, repetition), Slots(order, repetition);
    run, next := sent, drawn;
    assert before + slots[..0] == before;
    while i < |order|
      invariant 0 <= i <= |order|
      invariant Runs(run, before + slots[..i], perWorker)
      invariant next == Needed(before + slots[..i], perWorker) <= |variants|
      invariant Sent(run) == variants[..next]
    {
      var slot := Slot(repetition, order[i]);
      NextSlot(before, slots, i, all);
      NeededWithin(before + slots[..i], slot, all, perWorker);
      var requests, after := Draw(variants, next, Size(slot, perWorker));
      SentSnoc(run, Batch(slot, requests));
      RunsSnoc(run, before + slots[..i], perWorker, Batch(slot, requests));
      Onward(variants, next, after);
      run, next, i := run + [Batch(slot, requests)], after, i + 1;
    }
    assert slots[..i] == slots;
  }
}
