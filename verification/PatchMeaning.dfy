/** Patches on documents that are equal to the tested ones as JSON values, and spelled otherwise:
    members in another order, or a number written as a fraction. */
module PatchMeaning {
  import opened Results
  import opened Json
  import opened Patches
  import MemoryPatch

  predicate Alike(a: Json, b: Json) {
    WellFormed(a) && WellFormed(b) && Denote(a) == Denote(b)
  }

  lemma AlikeIsEqual(a: Json, b: Json)
    requires WellFormed(a) && WellFormed(b)
    ensures Alike(a, b) <==> JsonEqual(a, b)
  {
    EqualMeansSame(a, b);
  }

  // ----- one step

  lemma {:induction false} KeyMeans(j: Json, name: string)
    requires WellFormed(j) && j.Obj?
    ensures HasStep(j, Key(name)) <==> name in Denote(j).members
    ensures HasStep(j, Key(name)) ==> Denote(j).members[name] == Denote(Child(j, Key(name)))
  {
    MembersDenote(j, |j.members|);
    var at := Position(j.members, name);
    if at < |j.members| { assert j.members[at].0 == name; }
  }

  lemma {:induction false} StepAlike(a: Json, b: Json, step: Step)
    requires Alike(a, b)
    ensures HasStep(a, step) <==> HasStep(b, step)
    ensures HasStep(a, step) ==> Alike(Child(a, step), Child(b, step))
  {
    if step.Key? && a.Obj? {
      KeyMeans(a, step.name);
      KeyMeans(b, step.name);
    } else if step.At? && a.Arr? && step.index < |a.items| {
      assert Denote(a).items[step.index] == Denote(a.items[step.index]);
      assert Denote(b).items[step.index] == Denote(b.items[step.index]);
    }
    if HasStep(a, step) {
      MemoryPatch.ChildWellFormed(a, step);
      MemoryPatch.ChildWellFormed(b, step);
    }
  }

  /** Two objects with the same names in the same places, and the same members but one. */
  lemma {:induction false} OtherNameKept(one: Json, two: Json, at: nat, key: string)
    requires WellFormed(one) && WellFormed(two) && one.Obj? && two.Obj? && |one.members| == |two.members|
    requires at < |one.members| && two.members[at].0 == one.members[at].0 != key
    requires forall i :: 0 <= i < |one.members| && i != at ==> two.members[i] == one.members[i]
    requires key in Denote(one).members
    ensures key in Denote(two).members && Denote(two).members[key] == Denote(one).members[key]
  {
    var i := NameDenoted(one, |one.members|, key);
    MemberDenotes(one, |one.members|, i);
    MemberDenotes(two, |two.members|, i);
  }

  /** Replacing a member replaces what the object denotes at its name, and nothing else. */
  lemma {:induction false} MemberReplaced(j: Json, name: string, value: Json)
    requires WellFormed(j) && WellFormed(value) && HasStep(j, Key(name))
    ensures Denote(WithChild(j, Key(name), value)) == Dictionary(Denote(j).members[name := Denote(value)])
  {
    var at, next := Position(j.members, name), WithChild(j, Key(name), value);
    MemoryPatch.WithWellFormed(j, Key(name), value);
    MemberDenotes(next, |next.members|, at);
    var m, n := Denote(j).members, Denote(next).members;
    forall key
      ensures key != name ==> (key in n <==> key in m) && (key in n ==> n[key] == m[key])
    {
      if key != name && key in m { OtherNameKept(j, next, at, key); }
      if key != name && key in n { OtherNameKept(next, j, at, key); }
    }
    assert n == m[name := Denote(value)];
  }

  lemma {:induction false} ItemReplaced(j: Json, index: nat, value: Json)
    requires HasStep(j, At(index))
    ensures Denote(WithChild(j, At(index), value)) == Sequence(Denote(j).items[index := Denote(value)])
  {
    var next := WithChild(j, At(index), value);
    assert Denote(next).items == Denote(j).items[index := Denote(value)];
  }

  lemma {:induction false} WithAlike(a: Json, b: Json, step: Step, v: Json, w: Json)
    requires Alike(a, b) && Alike(v, w) && HasStep(a, step) && HasStep(b, step)
    ensures Alike(WithChild(a, step, v), WithChild(b, step, w))
  {
    MemoryPatch.WithWellFormed(a, step, v);
    MemoryPatch.WithWellFormed(b, step, w);
    if step.Key? {
      MemberReplaced(a, step.name, v);
      MemberReplaced(b, step.name, w);
    } else {
      ItemReplaced(a, step.index, v);
      ItemReplaced(b, step.index, w);
    }
  }

  // ----- a path

  /** Reading and replacing at a path respect what the values denote. */
  lemma {:induction false} PathAlike(a: Json, b: Json, path: seq<Step>, v: Json, w: Json)
    requires Alike(a, b) && Alike(v, w)
    ensures Lookup(a, path).Some? <==> Lookup(b, path).Some?
    ensures Lookup(a, path).Some? ==> Alike(Lookup(a, path).value, Lookup(b, path).value)
    ensures Lookup(a, path).Some? ==> Alike(Update(a, path, v), Update(b, path, w))
    decreases |path|
  {
    if path != [] {
      StepAlike(a, b, path[0]);
      if HasStep(a, path[0]) {
        PathAlike(Child(a, path[0]), Child(b, path[0]), path[1..], v, w);
        if Lookup(a, path).Some? {
          WithAlike(a, b, path[0], Update(Child(a, path[0]), path[1..], v), Update(Child(b, path[0]), path[1..], w));
        }
      }
    }
  }

  // ----- patch and rollback

  /** A test-and-replace patch on a document whose value is equal to the tested one replaces the part
      in that document's own value. */
  lemma {:induction false} PatchAlike(document: Json, root: seq<Step>, part: seq<Step>, before: Json, after: Json,
                                      live: Json)
    requires Lookup(document, root) == Some(live) && JsonEqual(live, before)
    requires Lookup(after, part).Some? && Lookup(live, part).Some?
    ensures ApplyAll(document, Patch(root, part, before, after)) ==
            Some(Update(document, root, Update(live, part, Lookup(after, part).value)))
  {
    var patch := Patch(root, part, before, after);
    assert patch[1..] == [patch[1]] && patch[1..][1..] == [];
    UpdateNested(document, root, part, Lookup(after, part).value);
    assert ApplyAll(document, patch) == ApplyAll(document, patch[1..]);
    assert ApplyAll(document, patch[1..]) == Apply(document, patch[1]);
  }

  /** On a document that holds a value equal to the planned one, the patch and then the rollback
      leave an equal value again: the part is now spelled as the plan spells it, and all else as it
      was. The document is restored exactly when the part was spelled so before. */
  lemma {:induction false} RollbackAlike(document: Json, root: seq<Step>, part: seq<Step>, before: Json, after: Json,
                                         live: Json)
    requires Lookup(before, part).Some? && Lookup(after, part).Some?
    requires Update(before, part, Lookup(after, part).value) == after
    requires WellFormed(before) && WellFormed(after) && WellFormed(live)
    requires Lookup(document, root) == Some(live) && JsonEqual(live, before)
    ensures Lookup(live, part).Some?
    ensures var patched := Update(document, root, Update(live, part, Lookup(after, part).value));
            var back := Update(live, part, Lookup(before, part).value);
            && ApplyAll(document, Patch(root, part, before, after)) == Some(patched)
            && ApplyAll(patched, Patch(root, part, after, before)) == Some(Update(document, root, back))
            && JsonEqual(back, live) && JsonEqual(back, before)
            && (Update(document, root, back) == document <==> Lookup(live, part) == Lookup(before, part))
  {
    var resized, planned := Lookup(after, part).value, Lookup(before, part).value;
    AlikeIsEqual(live, before);
    LookupWellFormed(after, part);
    LookupWellFormed(before, part);
    PathAlike(live, before, part, resized, resized);
    PathAlike(live, before, part, planned, planned);
    var changed, back := Update(live, part, resized), Update(live, part, planned);
    UpdateLaws(before, part, planned, planned);
    UpdateLaws(live, part, resized, planned);
    UpdateLaws(live, part, planned, planned);
    UpdateLaws(document, root, changed, back);
    UpdateLaws(document, root, back, live);
    AlikeIsEqual(changed, after);
    AlikeIsEqual(back, before);
    AlikeIsEqual(back, live);
    PatchAlike(document, root, part, before, after, live);
    PatchAlike(Update(document, root, changed), root, part, after, before, changed);
  }

  /** What a plan's patch and rollback leave of a live specification that is equal to the planned one. */
  lemma {:induction false} PlanRollsBackAlike(deployment: Json, spec: Json, live: Json, memory: string)
    requires MemoryPatch.Sized(spec) && WellFormed(spec) && WellFormed(live)
    requires Lookup(deployment, MemoryPatch.ROOT) == Some(live) && JsonEqual(live, spec)
    ensures Lookup(live, MemoryPatch.RESOURCES).Some?
    ensures Lookup(MemoryPatch.Candidate(spec, memory), MemoryPatch.RESOURCES).Some?
    ensures var candidate, resources := MemoryPatch.Candidate(spec, memory), Lookup(spec, MemoryPatch.RESOURCES).value;
            var patched := ApplyAll(deployment, Patch(MemoryPatch.ROOT, MemoryPatch.RESOURCES, spec, candidate));
            var back := Update(live, MemoryPatch.RESOURCES, resources);
            && patched.Some?
            && ApplyAll(patched.value, Patch(MemoryPatch.ROOT, MemoryPatch.RESOURCES, candidate, spec))
               == Some(Update(deployment, MemoryPatch.ROOT, back))
            && JsonEqual(back, live)
            && (Update(deployment, MemoryPatch.ROOT, back) == deployment <==>
                Lookup(live, MemoryPatch.RESOURCES) == Some(resources))
  {
    var resources := Lookup(spec, MemoryPatch.RESOURCES).value;
    var resized := MemoryPatch.Resized(resources, memory);
    LookupWellFormed(spec, MemoryPatch.RESOURCES);
    MemoryPatch.ResizedWellFormed(resources, memory);
    UpdateLaws(spec, MemoryPatch.RESOURCES, resized, resized);
    MemoryPatch.UpdateWellFormed(spec, MemoryPatch.RESOURCES, resized);
    RollbackAlike(deployment, MemoryPatch.ROOT, MemoryPatch.RESOURCES, spec, MemoryPatch.Candidate(spec, memory), live);
  }
}
