/** The two JSON patch operations a memory plan uses: test and replace (RFC 6902, sections 4.6 and 4.3). */
module Patches {
  import opened Results
  import opened Json

  datatype Step = Key(name: string) | At(index: nat)

  datatype Operation = Test(path: seq<Step>, value: Json) | Replace(path: seq<Step>, value: Json)

  function Position(members: seq<(string, Json)>, key: string): (at: nat)
    ensures at <= |members|
    ensures at < |members| ==> members[at].0 == key
    ensures forall i :: 0 <= i < at ==> members[i].0 != key
  {
    if members == [] || members[0].0 == key then 0 else 1 + Position(members[1..], key)
  }

  predicate HasStep(j: Json, step: Step) {
    match step
    case Key(name) => j.Obj? && Position(j.members, name) < |j.members|
    case At(index) => j.Arr? && index < |j.items|
  }

  function Child(j: Json, step: Step): Json
    requires HasStep(j, step)
  {
    match step
    case Key(name) => j.members[Position(j.members, name)].1
    case At(index) => j.items[index]
  }

  function WithChild(j: Json, step: Step, value: Json): Json
    requires HasStep(j, step)
  {
    match step
    case Key(name) => Obj(j.members[Position(j.members, name) := (name, value)])
    case At(index) => Arr(j.items[index := value])
  }

  function Lookup(j: Json, path: seq<Step>): Option<Json> {
    if path == [] then Some(j)
    else if !HasStep(j, path[0]) then None
    else Lookup(Child(j, path[0]), path[1..])
  }

  /** The document with another value at a path it has. */
  function Update(j: Json, path: seq<Step>, value: Json): Json
    requires Lookup(j, path).Some?
  {
    if path == [] then value
    else WithChild(j, path[0], Update(Child(j, path[0]), path[1..], value))
  }

  function Apply(document: Json, operation: Operation): Option<Json> {
    match operation
    case Test(path, value) =>
      if Lookup(document, path).Some? && JsonEqual(Lookup(document, path).value, value) then Some(document) else None
    case Replace(path, value) =>
      if Lookup(document, path).Some? then Some(Update(document, path, value)) else None
  }

  /** All operations in order, or nothing. */
  function ApplyAll(document: Json, operations: seq<Operation>): Option<Json>
    decreases |operations|
  {
    if operations == [] then Some(document)
    else
      match Apply(document, operations[0])
      case Some(next) => ApplyAll(next, operations[1..])
      case None => None
  }

  // ----- reading what was written

  lemma ChildOfWith(j: Json, step: Step, value: Json, again: Json)
    requires HasStep(j, step)
    ensures HasStep(WithChild(j, step, value), step)
    ensures Child(WithChild(j, step, value), step) == value
    ensures WithChild(WithChild(j, step, value), step, again) == WithChild(j, step, again)
    ensures WithChild(j, step, Child(j, step)) == j
  {
    if step.Key? {
      var at, next := Position(j.members, step.name), WithChild(j, step, value).members;
      PositionKept(j.members, step.name, at, value);
      assert next[at := (step.name, again)] == j.members[at := (step.name, again)];
      assert j.members[at := (step.name, j.members[at].1)] == j.members;
    } else {
      assert j.items[step.index := value][step.index := again] == j.items[step.index := again];
      assert j.items[step.index := j.items[step.index]] == j.items;
    }
  }

  lemma PositionKept(members: seq<(string, Json)>, key: string, at: nat, value: Json)
    requires at < |members| && members[at].0 == key && Position(members, key) == at
    ensures Position(members[at := (key, value)], key) == at
  {
    var next := members[at := (key, value)];
    var found := Position(next, key);
    assert forall i :: 0 <= i < |next| ==> next[i].0 == members[i].0;
    assert next[at].0 == key;
  }

  lemma {:induction false} UpdateLaws(j: Json, path: seq<Step>, value: Json, again: Json)
    requires Lookup(j, path).Some?
    ensures Lookup(Update(j, path, value), path) == Some(value)
    ensures Update(Update(j, path, value), path, again) == Update(j, path, again)
    ensures Update(j, path, Lookup(j, path).value) == j
    decreases |path|
  {
    if path != [] {
      var child := Child(j, path[0]);
      UpdateLaws(child, path[1..], value, again);
      var inner := Update(child, path[1..], value);
      ChildOfWith(j, path[0], inner, Update(inner, path[1..], again));
    }
  }

  /** A path in two parts is two paths. */
  lemma {:induction false} UpdateNested(j: Json, outer: seq<Step>, inner: seq<Step>, value: Json)
    requires Lookup(j, outer).Some?
    ensures Lookup(j, outer + inner) == Lookup(Lookup(j, outer).value, inner)
    ensures Lookup(j, outer + inner).Some? ==>
      Update(j, outer + inner, value) == Update(j, outer, Update(Lookup(j, outer).value, inner, value))
    decreases |outer|
  {
    if outer == [] {
      assert outer + inner == inner;
    } else {
      assert (outer + inner)[0] == outer[0] && (outer + inner)[1..] == outer[1..] + inner;
      UpdateNested(Child(j, outer[0]), outer[1..], inner, value);
    }
  }

  lemma {:induction false} LookupWellFormed(j: Json, path: seq<Step>)
    requires WellFormed(j) && Lookup(j, path).Some?
    ensures WellFormed(Lookup(j, path).value)
    decreases |path|
  {
    if path != [] {
      if path[0].Key? { assert WellFormed(j.members[Position(j.members, path[0].name)].1); }
      LookupWellFormed(Child(j, path[0]), path[1..]);
    }
  }

  // ----- a patch and its rollback

  /** The patch that turns `before` at `root` into `after` by replacing what lies at `part`. */
  function Patch(root: seq<Step>, part: seq<Step>, before: Json, after: Json): seq<Operation>
    requires Lookup(after, part).Some?
  {
    [Test(root, before), Replace(root + part, Lookup(after, part).value)]
  }

  /** On a document that holds `before`, the patch gives the document that holds `after`, whenever
      the two differ at `part` only; on one whose value differs it does nothing. */
  lemma PatchApplies(document: Json, root: seq<Step>, part: seq<Step>, before: Json, after: Json)
    requires Lookup(before, part).Some? && Lookup(after, part).Some?
    requires Update(before, part, Lookup(after, part).value) == after
    requires WellFormed(before)
    ensures Lookup(document, root) == Some(before) ==>
      ApplyAll(document, Patch(root, part, before, after)) == Some(Update(document, root, after))
    ensures Lookup(document, root).None? || !JsonEqual(Lookup(document, root).value, before) ==>
      ApplyAll(document, Patch(root, part, before, after)).None?
  {
    var patch := Patch(root, part, before, after);
    assert patch[1..] == [patch[1]] && patch[1..][1..] == [];
    if Lookup(document, root) == Some(before) {
      JsonEquality(before, before, before);
      UpdateNested(document, root, part, Lookup(after, part).value);
      assert ApplyAll(document, patch) == ApplyAll(document, patch[1..]);
      assert ApplyAll(document, patch[1..]) == Apply(document, patch[1]);
    }
  }

  /** The patch, then the rollback made from the same two values, restores the document exactly. */
  lemma RollbackRestores(document: Json, root: seq<Step>, part: seq<Step>, before: Json, after: Json)
    requires Lookup(before, part).Some? && Lookup(after, part).Some?
    requires Update(before, part, Lookup(after, part).value) == after
    requires WellFormed(before) && WellFormed(after)
    requires Lookup(document, root) == Some(before)
    ensures ApplyAll(document, Patch(root, part, before, after)).Some?
    ensures ApplyAll(ApplyAll(document, Patch(root, part, before, after)).value, Patch(root, part, after, before))
            == Some(document)
  {
    PatchApplies(document, root, part, before, after);
    var patched := Update(document, root, after);
    UpdateLaws(document, root, after, before);
    UpdateLaws(before, part, Lookup(after, part).value, Lookup(before, part).value);
    PatchApplies(patched, root, part, after, before);
  }
}
