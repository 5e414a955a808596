/** What the rows of a derived menu promise about cache namespaces. */
module MenuRows {
  import opened Results
  import opened Folding
  import opened Menu

  // ----- a salt names one namespace

  lemma {:induction false} DecimalDigits(n: nat)
    ensures Decimal(n) != "" && forall i :: 0 <= i < |Decimal(n)| ==> '0' <= Decimal(n)[i] <= '9'
  {
    if n >= 10 { DecimalDigits(n / 10); }
  }

  lemma {:induction false} DecimalInjective(m: nat, n: nat)
    requires Decimal(m) == Decimal(n)
    ensures m == n
    decreases m + n
  {
    var s, t := Decimal(m), Decimal(n);
    assert s[|s| - 1] == t[|t| - 1] && s[..|s| - 1] == t[..|t| - 1];
    var digits := "0123456789";
    assert digits[m % 10] == s[|s| - 1] && digits[n % 10] == t[|t| - 1];
    DigitInjective(m % 10, n % 10);
    if m >= 10 { DecimalDigits(m / 10); }
    if n >= 10 { DecimalDigits(n / 10); }
    if m >= 10 && n >= 10 {
      DecimalInjective(m / 10, n / 10);
    }
  }

  lemma DigitInjective(a: nat, b: nat)
    requires a < 10 && b < 10 && "0123456789"[a] == "0123456789"[b]
    ensures a == b
  {
  }

  predicate NoDash(s: string) { forall i :: 0 <= i < |s| ==> s[i] != '-' }

  lemma NoDashAfter(s: string, d: string, i: nat)
    requires NoDash(d) && |s| < i < |s + "-" + d|
    ensures (s + "-" + d)[i] != '-'
  {
    assert (s + "-" + d)[i] == d[i - |s| - 1];
  }

  /** A text is cut at its last dash in one way only. */
  lemma LastDash(s: string, d: string, t: string, e: string)
    requires NoDash(d) && NoDash(e) && s + "-" + d == t + "-" + e
    ensures s == t && d == e
  {
    var whole := s + "-" + d;
    forall i | |s| < i < |whole| ensures whole[i] != '-' { NoDashAfter(s, d, i); }
    forall i | |t| < i < |whole| ensures whole[i] != '-' { NoDashAfter(t, e, i); }
    assert whole[|s|] == '-' && whole[|t|] == '-';
    assert whole[..|s|] == s && whole[..|t|] == t;
    assert whole[|s| + 1..] == d && whole[|t| + 1..] == e;
  }

  lemma SaltParts(key: Key)
    ensures Salt(key) == "hyperloom-" + key.family + "-" + ("r" + Decimal(key.repetition)) + "-" + Decimal(key.position)
    ensures NoDash("r" + Decimal(key.repetition)) && NoDash(Decimal(key.position))
  {
    DecimalDigits(key.repetition);
    DecimalDigits(key.position);
    var base := "hyperloom-" + key.family;
    assert "-" + "r" == "-r";
    assert base + "-r" + Decimal(key.repetition) == base + "-" + ("r" + Decimal(key.repetition));
  }

  /** Two requests share a salt only when they share family, repetition and position. */
  lemma SaltInjective(one: Key, two: Key)
    ensures Salt(one) == Salt(two) <==> one == two
  {
    SaltParts(one);
    SaltParts(two);
    if Salt(one) == Salt(two) {
      var f, g := "hyperloom-" + one.family, "hyperloom-" + two.family;
      var r, q := "r" + Decimal(one.repetition), "r" + Decimal(two.repetition);
      LastDash(f + "-" + r, Decimal(one.position), g + "-" + q, Decimal(two.position));
      LastDash(f, r, g, q);
      assert r[1..] == Decimal(one.repetition) && q[1..] == Decimal(two.repetition);
      assert f[10..] == one.family && g[10..] == two.family;
      DecimalInjective(one.repetition, two.repetition);
      DecimalInjective(one.position, two.position);
    }
  }

  // ----- rows

  /** A cold row owns its namespace. */
  predicate Owns(st: State, row: Row, key: Key) {
    key in st.seeds && st.seeds[key].ordinal == row.ordinal && row.salt == Salt(key)
  }

  predicate ColdRow(st: State, row: Row) {
    exists key :: key in st.seeds && Owns(st, row, key)
  }

  /** A warm row runs in the namespace of an earlier cold row that sent the same tokens. */
  predicate WarmRow(originals: seq<Source>, rows: seq<Row>, i: nat)
    requires i < |rows|
  {
    && rows[i].seed.Some? && rows[i].seed.value < i
    && SeedRow(originals, rows, rows[i].seed.value, rows[i].salt, rows[i].source)
  }

  predicate SeedRow(originals: seq<Source>, rows: seq<Row>, k: nat, salt: string, source: nat)
    requires k < |rows|
  {
    && !rows[k].policy.warm && rows[k].salt == salt
    && rows[k].source < |originals| && source < |originals|
    && originals[rows[k].source].tokens == originals[source].tokens
  }

  predicate SeedHeld(originals: seq<Source>, st: State, key: Key)
    requires key in st.seeds
  {
    var seed := st.seeds[key];
    && seed.ordinal < |st.rows|
    && var row := st.rows[seed.ordinal];
       !row.policy.warm && row.salt == Salt(key) && row.source < |originals|
       && originals[row.source].tokens == seed.tokens
  }

  ghost predicate RowsOk(originals: seq<Source>, st: State) {
    && (forall i :: 0 <= i < |st.rows| ==> st.rows[i].ordinal == i)
    && (forall i :: 0 <= i < |st.rows| && !st.rows[i].policy.warm ==> st.rows[i].seed.None? && ColdRow(st, st.rows[i]))
    && (forall i :: 0 <= i < |st.rows| && st.rows[i].policy.warm ==> WarmRow(originals, st.rows, i))
    && (forall key :: key in st.seeds ==> SeedHeld(originals, st, key))
  }

  lemma WarmPlacedKeeps(originals: seq<Source>, st: State, round: Round, position: nat, next: State)
    requires position < |round.case_.indices| && round.case_.warm
    requires RowsOk(originals, st) && Placed(originals, st, round, position) == Some(next)
    ensures RowsOk(originals, next)
  {
    var key := KeyOf(round, position);
    assert SeedHeld(originals, st, key);
    forall i | 0 <= i < |next.rows| && !next.rows[i].policy.warm
      ensures next.rows[i].seed.None? && ColdRow(next, next.rows[i])
    {
      OwnerKept(st, next, st.rows[i]);
    }
    forall i | 0 <= i < |next.rows| && next.rows[i].policy.warm
      ensures WarmRow(originals, next.rows, i)
    {
      if i < |st.rows| { assert WarmRow(originals, st.rows, i); }
    }
    forall key | key in next.seeds
      ensures SeedHeld(originals, next, key)
    {
      assert SeedHeld(originals, st, key);
    }
  }

  lemma OwnerKept(st: State, next: State, row: Row)
    requires ColdRow(st, row)
    requires forall key :: key in st.seeds ==> key in next.seeds && next.seeds[key] == st.seeds[key]
    ensures ColdRow(next, row)
  {
    var key :| key in st.seeds && Owns(st, row, key);
    assert Owns(next, row, key);
  }

  lemma ColdPlacedKeeps(originals: seq<Source>, st: State, round: Round, position: nat, next: State)
    requires position < |round.case_.indices| && !round.case_.warm
    requires RowsOk(originals, st) && Placed(originals, st, round, position) == Some(next)
    ensures RowsOk(originals, next)
  {
    var key := KeyOf(round, position);
    forall i | 0 <= i < |next.rows| && !next.rows[i].policy.warm
      ensures next.rows[i].seed.None? && ColdRow(next, next.rows[i])
    {
      if i < |st.rows| {
        OwnerKept(st, next, st.rows[i]);
      } else {
        assert Owns(next, next.rows[i], key);
      }
    }
    forall i | 0 <= i < |next.rows| && next.rows[i].policy.warm
      ensures WarmRow(originals, next.rows, i)
    {
      assert WarmRow(originals, st.rows, i);
    }
    forall other | other in next.seeds
      ensures SeedHeld(originals, next, other)
    {
      if other != key { assert SeedHeld(originals, st, other); }
    }
  }

  lemma {:induction false} PlacedKeeps(originals: seq<Source>, st: State, round: Round, n: nat)
    requires n <= |round.case_.indices| && RowsOk(originals, st)
    requires PlacedUpTo(originals, st, round, n).Some?
    ensures RowsOk(originals, PlacedUpTo(originals, st, round, n).value)
  {
    if n != 0 {
      PlacedKeeps(originals, st, round, n - 1);
      PlacedNext(originals, st, round, n - 1);
      var mid, next := PlacedUpTo(originals, st, round, n - 1).value, PlacedUpTo(originals, st, round, n).value;
      if round.case_.warm {
        WarmPlacedKeeps(originals, mid, round, n - 1, next);
      } else {
        ColdPlacedKeeps(originals, mid, round, n - 1, next);
      }
    }
  }

  lemma RowsOnly(originals: seq<Source>, one: State, two: State)
    requires one.rows == two.rows && one.seeds == two.seeds && RowsOk(originals, one)
    ensures RowsOk(originals, two)
  {
    forall i | 0 <= i < |two.rows| && !two.rows[i].policy.warm
      ensures ColdRow(two, two.rows[i])
    {
      OwnerKept(one, two, two.rows[i]);
    }
    forall key | key in two.seeds
      ensures SeedHeld(originals, two, key)
    {
      assert SeedHeld(originals, one, key);
    }
  }

  lemma {:induction false} RunKeepsRows(originals: seq<Source>, rounds: seq<Round>)
    requires Run(originals, rounds).Some?
    ensures RowsOk(originals, Run(originals, rounds).value)
  {
    if rounds != [] {
      var front, round := rounds[..|rounds| - 1], rounds[|rounds| - 1];
      RunKeepsRows(originals, front);
      var st, next := Run(originals, front).value, Run(originals, rounds).value;
      PlacedKeeps(originals, st, round, |round.case_.indices|);
      RowsOnly(originals, PlacedUpTo(originals, st, round, |round.case_.indices|).value, next);
    }
  }

  /** In every menu that is derived, no two cold requests share a cache namespace, and every warm
      request runs in the namespace of one earlier cold request that sent the same tokens. */
  lemma NamespacesAreFresh(originals: seq<Source>, cases: seq<Case>, samples: nat)
    requires Derived(originals, cases, samples).Some?
    ensures var rows := Derived(originals, cases, samples).value.rows;
            && (forall i, j :: 0 <= i < j < |rows| && !rows[i].policy.warm && !rows[j].policy.warm ==>
                  rows[i].salt != rows[j].salt)
            && (forall i :: 0 <= i < |rows| && rows[i].policy.warm ==> WarmRow(originals, rows, i))
            && (forall i, k :: 0 <= i < |rows| && 0 <= k < |rows| && rows[i].policy.warm && !rows[k].policy.warm ==>
                  (rows[k].salt == rows[i].salt <==> rows[i].seed == Some(k)))
  {
    RunKeepsRows(originals, Rounds(cases, samples));
    var st := Derived(originals, cases, samples).value;
    forall i, j | 0 <= i < |st.rows| && 0 <= j < |st.rows| && !st.rows[i].policy.warm && !st.rows[j].policy.warm
      ensures st.rows[i].salt == st.rows[j].salt ==> i == j
    {
      OneOwner(originals, st, i, j);
    }
    forall i | 0 <= i < |st.rows| && st.rows[i].policy.warm
      ensures WarmRow(originals, st.rows, i)
    {
    }
  }

  lemma OneOwner(originals: seq<Source>, st: State, i: nat, j: nat)
    requires RowsOk(originals, st) && i < |st.rows| && j < |st.rows|
    requires !st.rows[i].policy.warm && !st.rows[j].policy.warm
    ensures st.rows[i].salt == st.rows[j].salt ==> i == j
  {
    var one :| one in st.seeds && Owns(st, st.rows[i], one);
    var two :| two in st.seeds && Owns(st, st.rows[j], two);
    SaltInjective(one, two);
  }
}
