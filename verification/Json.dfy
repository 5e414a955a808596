/** JSON values as the coding evaluation compares them. */
module Json {
  import opened Results

  datatype Json =
    | Null
    | Bool(flag: bool)
    | Int(n: int)
    | Float(r: real)
    | Str(text: string)
    | Arr(items: seq<Json>)
    | Obj(members: seq<(string, Json)>)

  /** The member of that name, as a dictionary read finds it. */
  function Get(members: seq<(string, Json)>, key: string): (found: Option<Json>)
    ensures found.Some? ==> exists i :: 0 <= i < |members| && members[i] == (key, found.value)
    ensures found.None? ==> forall i :: 0 <= i < |members| ==> members[i].0 != key
  {
    if members == [] then None
    else if members[0].0 == key then Some(members[0].1)
    else
      assert members == [members[0]] + members[1..];
      Get(members[1..], key)
  }

  predicate UniqueKeys(members: seq<(string, Json)>) {
    forall i, j :: 0 <= i < j < |members| ==> members[i].0 != members[j].0
  }

  /** No object anywhere repeats a member name: what the parser's hook guarantees. */
  predicate WellFormed(j: Json) {
    match j
    case Arr(items) => forall i :: 0 <= i < |items| ==> WellFormed(items[i])
    case Obj(members) => UniqueKeys(members) && forall i :: 0 <= i < |members| ==> WellFormed(members[i].1)
    case _ => true
  }

  function Number(j: Json): Option<real> {
    match j
    case Int(n) => Some(n as real)
    case Float(r) => Some(r)
    case _ => None
  }

  /** Equality of what is neither Boolean nor a pair of containers. */
  predicate ScalarEqual(a: Json, b: Json) {
    if Number(a).Some? || Number(b).Some? then Number(a) == Number(b) else a == b
  }

  predicate JsonEqual(a: Json, b: Json)
    decreases b
  {
    if a.Bool? || b.Bool? then a == b
    else if a.Obj? && b.Obj? then
      && (forall i :: 0 <= i < |a.members| ==> Get(b.members, a.members[i].0).Some?)
      && (forall i :: 0 <= i < |b.members| ==>
            var found := Get(a.members, b.members[i].0);
            found.Some? && JsonEqual(found.value, b.members[i].1))
    else if a.Arr? && b.Arr? then
      |a.items| == |b.items| && forall i :: 0 <= i < |b.items| ==> JsonEqual(a.items[i], b.items[i])
    else if a.Arr? || b.Arr? || a.Obj? || b.Obj? then false
    else ScalarEqual(a, b)
  }

  // ----- what a JSON value denotes

  datatype Value =
    | Nothing
    | Truth(flag: bool)
    | Quantity(r: real)
    | Text(text: string)
    | Sequence(items: seq<Value>)
    | Dictionary(members: map<string, Value>)

  function Denote(j: Json): Value
    decreases j
  {
    match j
    case Null => Nothing
    case Bool(b) => Truth(b)
    case Int(n) => Quantity(n as real)
    case Float(r) => Quantity(r)
    case Str(s) => Text(s)
    case Arr(items) => Sequence(seq(|items|, i requires 0 <= i < |items| => Denote(items[i])))
    case Obj(members) => Dictionary(DenoteMembers(j, |members|))
  }

  /** A dictionary built from the first `n` members; a later member replaces an earlier one. */
  function DenoteMembers(j: Json, n: nat): map<string, Value>
    requires j.Obj? && n <= |j.members|
    decreases j, n
  {
    if n == 0 then map[]
    else
      var entry := j.members[n - 1];
      DenoteMembers(j, n - 1)[entry.0 := Denote(entry.1)]
  }

  lemma {:induction false} MemberDenotes(j: Json, n: nat, i: nat)
    requires j.Obj? && i < n <= |j.members| && UniqueKeys(j.members)
    ensures j.members[i].0 in DenoteMembers(j, n) && DenoteMembers(j, n)[j.members[i].0] == Denote(j.members[i].1)
    decreases n
  {
    if i < n - 1 {
      MemberDenotes(j, n - 1, i);
      assert j.members[i].0 != j.members[n - 1].0;
    }
  }

  lemma {:induction false} NameDenoted(j: Json, n: nat, k: string) returns (i: nat)
    requires j.Obj? && n <= |j.members| && k in DenoteMembers(j, n)
    ensures i < n && j.members[i].0 == k
    decreases n
  {
    if k == j.members[n - 1].0 {
      i := n - 1;
    } else {
      i := NameDenoted(j, n - 1, k);
    }
  }

  lemma MembersDenote(j: Json, n: nat)
    requires j.Obj? && n <= |j.members| && UniqueKeys(j.members)
    ensures forall i :: 0 <= i < n ==>
      j.members[i].0 in DenoteMembers(j, n) && DenoteMembers(j, n)[j.members[i].0] == Denote(j.members[i].1)
    ensures forall k :: k in DenoteMembers(j, n) ==> exists i :: 0 <= i < n && j.members[i].0 == k
  {
    forall i | 0 <= i < n { MemberDenotes(j, n, i); }
    forall k | k in DenoteMembers(j, n) ensures exists i :: 0 <= i < n && j.members[i].0 == k {
      var i := NameDenoted(j, n, k);
    }
  }

  /** Reading a name in the object is reading it in the dictionary it denotes. */
  lemma {:induction false} GetDenotes(j: Json, key: string)
    requires j.Obj? && UniqueKeys(j.members)
    ensures var m := DenoteMembers(j, |j.members|); var found := Get(j.members, key);
            (found.Some? <==> key in m) && (found.Some? ==> m[key] == Denote(found.value))
  {
    MembersDenote(j, |j.members|);
  }

  /** json_equal holds of two values exactly when they denote the same thing: it is therefore an
      equivalence, and it never takes a Boolean for a number. */
  lemma {:induction false} EqualMeansSame(a: Json, b: Json)
    requires WellFormed(a) && WellFormed(b)
    ensures JsonEqual(a, b) <==> Denote(a) == Denote(b)
    decreases b
  {
    if a.Arr? && b.Arr? {
      var m, n := Denote(a).items, Denote(b).items;
      assert |m| == |a.items| && |n| == |b.items|;
      if |a.items| == |b.items| {
        forall i | 0 <= i < |b.items|
          ensures JsonEqual(a.items[i], b.items[i]) <==> m[i] == n[i]
        {
          EqualMeansSame(a.items[i], b.items[i]);
        }
        assert JsonEqual(a, b) ==> m == n;
      }
    } else if a.Obj? && b.Obj? {
      ObjectsMeanSame(a, b);
    }
  }

  /** One member of b has an equal in a exactly when the two dictionaries agree at its name. */
  lemma {:induction false} MemberMeansSame(a: Json, b: Json, i: nat)
    requires WellFormed(a) && WellFormed(b) && a.Obj? && b.Obj? && i < |b.members|
    ensures var found := Get(a.members, b.members[i].0);
            var m := DenoteMembers(a, |a.members|);
            (found.Some? && JsonEqual(found.value, b.members[i].1)) <==>
            (b.members[i].0 in m && m[b.members[i].0] == Denote(b.members[i].1))
    decreases b, 0
  {
    var found := Get(a.members, b.members[i].0);
    GetDenotes(a, b.members[i].0);
    if found.Some? {
      var k :| 0 <= k < |a.members| && a.members[k] == (b.members[i].0, found.value);
      assert WellFormed(a.members[k].1);
      EqualMeansSame(found.value, b.members[i].1);
    }
  }

  ghost predicate MembersAgree(a: Json, b: Json)
    requires a.Obj? && b.Obj?
  {
    var m := DenoteMembers(a, |a.members|);
    && (forall i :: 0 <= i < |a.members| ==> a.members[i].0 in DenoteMembers(b, |b.members|))
    && (forall i :: 0 <= i < |b.members| ==> b.members[i].0 in m && m[b.members[i].0] == Denote(b.members[i].1))
  }

  lemma {:induction false} AgreeingMembers(a: Json, b: Json)
    requires a.Obj? && b.Obj? && UniqueKeys(a.members) && UniqueKeys(b.members)
    ensures MembersAgree(a, b) <==> DenoteMembers(a, |a.members|) == DenoteMembers(b, |b.members|)
  {
    MembersDenote(a, |a.members|);
    MembersDenote(b, |b.members|);
    var m, n := DenoteMembers(a, |a.members|), DenoteMembers(b, |b.members|);
    if MembersAgree(a, b) {
      forall k | k in m || k in n
        ensures k in m && k in n && m[k] == n[k]
      {
        if k in m {
          var i :| 0 <= i < |a.members| && a.members[i].0 == k;
        }
        var i :| 0 <= i < |b.members| && b.members[i].0 == k;
      }
      assert m == n;
    }
  }

  lemma {:induction false} ObjectsMeanSame(a: Json, b: Json)
    requires WellFormed(a) && WellFormed(b) && a.Obj? && b.Obj?
    ensures JsonEqual(a, b) <==> Denote(a) == Denote(b)
    decreases b, 1
  {
    forall i | 0 <= i < |a.members|
      ensures Get(b.members, a.members[i].0).Some? <==> a.members[i].0 in DenoteMembers(b, |b.members|)
    {
      GetDenotes(b, a.members[i].0);
    }
    forall i | 0 <= i < |b.members|
      ensures var found := Get(a.members, b.members[i].0);
              var m := DenoteMembers(a, |a.members|);
              (found.Some? && JsonEqual(found.value, b.members[i].1)) <==>
              (b.members[i].0 in m && m[b.members[i].0] == Denote(b.members[i].1))
    {
      MemberMeansSame(a, b, i);
    }
    assert JsonEqual(a, b) <==> MembersAgree(a, b);
    AgreeingMembers(a, b);
  }

  lemma JsonEquality(a: Json, b: Json, c: Json)
    requires WellFormed(a) && WellFormed(b) && WellFormed(c)
    ensures JsonEqual(a, a)
    ensures JsonEqual(a, b) <==> JsonEqual(b, a)
    ensures JsonEqual(a, b) && JsonEqual(b, c) ==> JsonEqual(a, c)
    ensures JsonEqual(a, b) ==> (a.Bool? <==> b.Bool?)
  {
    EqualMeansSame(a, a);
    EqualMeansSame(a, b);
    EqualMeansSame(b, a);
    EqualMeansSame(b, c);
    EqualMeansSame(a, c);
  }
}
