/** The patch a memory plan writes, and the serving runs it rests on. */
module MemoryPatch {
  import opened Results
  import opened Json
  import opened Patches

  const ROOT := [Key("spec"), Key("template"), Key("spec")]
  const RESOURCES := [Key("containers"), At(0), Key("resources")]
  const REQUEST := [Key("requests"), Key("memory")]
  const LIMIT := [Key("limits"), Key("memory")]

  /** A specification whose first container requests and limits memory. */
  predicate Sized(spec: Json) {
    && Lookup(spec, RESOURCES).Some?
    && var resources := Lookup(spec, RESOURCES).value;
       Lookup(resources, REQUEST).Some? && Lookup(resources, LIMIT).Some?
  }

  lemma {:induction false} FirstStepOnly(j: Json, path: seq<Step>, value: Json, other: seq<Step>)
    requires path != [] && other != [] && path[0] != other[0] && path[0].Key? && other[0].Key?
    requires Lookup(j, path).Some?
    ensures Lookup(Update(j, path, value), other).Some? <==> Lookup(j, other).Some?
  {
    var inner := Update(Child(j, path[0]), path[1..], value);
    SiblingKept(j, path[0].name, inner, other[0].name);
  }

  lemma SiblingKept(j: Json, key: string, value: Json, other: string)
    requires HasStep(j, Key(key)) && key != other
    ensures HasStep(WithChild(j, Key(key), value), Key(other)) <==> HasStep(j, Key(other))
    ensures HasStep(j, Key(other)) ==> Child(WithChild(j, Key(key), value), Key(other)) == Child(j, Key(other))
  {
    var at, members := Position(j.members, key), j.members;
    var next := members[at := (key, value)];
    assert forall i :: 0 <= i < |members| ==> next[i].0 == members[i].0;
    var p, q := Position(members, other), Position(next, other);
    assert p < |members| ==> next[p].0 == other;
    assert q < |next| ==> members[q].0 == other;
  }

  /** The resources with both memory sizes replaced. */
  function Resized(resources: Json, memory: string): Json
    requires Lookup(resources, REQUEST).Some? && Lookup(resources, LIMIT).Some?
  {
    FirstStepOnly(resources, REQUEST, Str(memory), LIMIT);
    Update(Update(resources, REQUEST, Str(memory)), LIMIT, Str(memory))
  }

  function Candidate(spec: Json, memory: string): Json
    requires Sized(spec)
  {
    Update(spec, RESOURCES, Resized(Lookup(spec, RESOURCES).value, memory))
  }

  lemma {:induction false} UpdateWellFormed(j: Json, path: seq<Step>, value: Json)
    requires WellFormed(j) && WellFormed(value) && Lookup(j, path).Some?
    ensures WellFormed(Update(j, path, value))
    decreases |path|
  {
    if path != [] {
      var child := Child(j, path[0]);
      ChildWellFormed(j, path[0]);
      UpdateWellFormed(child, path[1..], value);
      WithWellFormed(j, path[0], Update(child, path[1..], value));
    }
  }

  lemma ChildWellFormed(j: Json, step: Step)
    requires WellFormed(j) && HasStep(j, step)
    ensures WellFormed(Child(j, step))
  {
    if step.Key? { assert WellFormed(j.members[Position(j.members, step.name)].1); }
  }

  lemma WithWellFormed(j: Json, step: Step, value: Json)
    requires WellFormed(j) && WellFormed(value) && HasStep(j, step)
    ensures WellFormed(WithChild(j, step, value))
  {
    if step.Key? {
      var at := Position(j.members, step.name);
      var next := j.members[at := (step.name, value)];
      assert forall i :: 0 <= i < |next| ==> next[i].0 == j.members[i].0;
      forall i | 0 <= i < |next| ensures WellFormed(next[i].1) {
        if i != at { assert WellFormed(j.members[i].1); }
      }
    }
  }

  /** On a deployment that still holds the planned specification, the patch installs the candidate
      and the rollback then restores the deployment exactly; on any other specification neither
      changes anything. */
  lemma PlanRollsBack(deployment: Json, spec: Json, memory: string)
    requires Sized(spec) && WellFormed(spec)
    ensures Lookup(Candidate(spec, memory), RESOURCES).Some?
    ensures var candidate := Candidate(spec, memory);
            var patch, rollback := Patch(ROOT, RESOURCES, spec, candidate), Patch(ROOT, RESOURCES, candidate, spec);
            && (Lookup(deployment, ROOT) == Some(spec) ==>
                  && ApplyAll(deployment, patch) == Some(Update(deployment, ROOT, candidate))
                  && ApplyAll(Update(deployment, ROOT, candidate), rollback) == Some(deployment))
            && (Lookup(deployment, ROOT).None? || !JsonEqual(Lookup(deployment, ROOT).value, spec) ==>
                  ApplyAll(deployment, patch).None?)
  {
    var resources := Lookup(spec, RESOURCES).value;
    var resized, candidate := Resized(resources, memory), Candidate(spec, memory);
    LookupWellFormed(spec, RESOURCES);
    ResizedWellFormed(resources, memory);
    UpdateLaws(spec, RESOURCES, resized, resized);
    UpdateWellFormed(spec, RESOURCES, resized);
    PatchApplies(deployment, ROOT, RESOURCES, spec, candidate);
    if Lookup(deployment, ROOT) == Some(spec) {
      RollbackRestores(deployment, ROOT, RESOURCES, spec, candidate);
    }
  }

  lemma ResizedWellFormed(resources: Json, memory: string)
    requires WellFormed(resources) && Lookup(resources, REQUEST).Some? && Lookup(resources, LIMIT).Some?
    ensures WellFormed(Resized(resources, memory))
  {
    FirstStepOnly(resources, REQUEST, Str(memory), LIMIT);
    UpdateWellFormed(resources, REQUEST, Str(memory));
    UpdateWellFormed(Update(resources, REQUEST, Str(memory)), LIMIT, Str(memory));
  }

  /** The candidate asks for the planned size in both places. */
  lemma CandidateAsks(spec: Json, memory: string)
    requires Sized(spec)
    ensures Lookup(Candidate(spec, memory), RESOURCES).Some?
    ensures var resources := Lookup(Candidate(spec, memory), RESOURCES).value;
            Lookup(resources, REQUEST) == Some(Str(memory)) && Lookup(resources, LIMIT) == Some(Str(memory))
  {
    var resources := Lookup(spec, RESOURCES).value;
    FirstStepOnly(resources, REQUEST, Str(memory), LIMIT);
    var first := Update(resources, REQUEST, Str(memory));
    UpdateLaws(spec, RESOURCES, Resized(resources, memory), Str(memory));
    UpdateLaws(resources, REQUEST, Str(memory), Str(memory));
    UpdateLaws(first, LIMIT, Str(memory), Str(memory));
    OtherBranch(first, "limits", "memory", "requests", Str(memory));
  }

  lemma OtherBranch(j: Json, key: string, inner: string, other: string, value: Json)
    requires key != other && Lookup(j, [Key(key), Key(inner)]).Some?
    ensures Lookup(Update(j, [Key(key), Key(inner)], value), [Key(other), Key(inner)]) ==
            Lookup(j, [Key(other), Key(inner)])
  {
    var path, away := [Key(key), Key(inner)], [Key(other), Key(inner)];
    var changed := Update(Child(j, path[0]), path[1..], value);
    SiblingKept(j, key, changed, other);
    assert path[0] == Key(key) && away[0] == Key(other);
    assert Update(j, path, value) == WithChild(j, Key(key), changed);
    if HasStep(j, Key(other)) {
      assert Lookup(j, away) == Lookup(Child(j, Key(other)), away[1..]);
    }
  }
}
