/** Which rows a comparison judges: the last one listed for each case. */
module Alignment {
  import opened Results
  import opened Bags
  import opened Sorting
  import opened Gates
  import opened Decision

  lemma SortedAlike(one: seq<Row>, two: seq<Row>)
    requires ByKey(one).Keys == ByKey(two).Keys
    ensures SortedKeys(one) == SortedKeys(two)
  {
    ListedAre(one);
    ListedAre(two);
    SameOnce(CaseKeys(one), CaseKeys(two));
    KeyAtMostIsTotal();
    SortOrderFree(CaseKeys(one), CaseKeys(two), KeyAtMost);
  }

  /** Two lists of rows with the same last row for each case are aligned alike. */
  lemma AlignedAlike(first: Profile, other: Profile, second: Profile)
    requires ByKey(first.cases) == ByKey(other.cases) && first.servingObserved == other.servingObserved
    ensures Align(first, second).1 == Align(other, second).1
    ensures Align(first, second).0.status == Align(other, second).0.status
  {
    SortedAlike(first.cases, other.cases);
  }

  lemma {:induction false} ByKeyConcat(one: seq<Row>, two: seq<Row>)
    ensures ByKey(one + two) == ByKey(one) + ByKey(two)
    decreases |two|
  {
    if two == [] {
      assert one + two == one;
    } else {
      var front := two[..|two| - 1];
      assert (one + two)[..|one + two| - 1] == one + front;
      ByKeyConcat(one, front);
    }
  }

  lemma OutcomeAlike(m: Measures, n: Measures, equivalent: bool, qualityPassed: bool, limits: Limits)
    requires m == n.(alignment := m.alignment) && m.alignment.status == n.alignment.status
    ensures OutcomeOf(m, equivalent, qualityPassed, limits) == OutcomeOf(n, equivalent, qualityPassed, limits)
  {
  }

  lemma MeasuredAlike(first: Profile, second: Profile, rows: seq<Row>, limits: Limits)
    requires ByKey(rows) == ByKey(second.cases)
    ensures var other := second.(cases := rows);
            var m, n := Measured(first, other, limits), Measured(first, second, limits);
            m == n.(alignment := m.alignment) && m.alignment.status == n.alignment.status
  {
  }

  /** A row listed before another row of its case has no effect on the outcome, whatever it measured:
      failures in it do not keep a candidate from being recommended. */
  lemma EarlierRowIgnored(first: Profile, second: Profile, extra: Row, limits: Limits, equivalent: bool,
                          qualityPassed: bool)
    requires extra.key in ByKey(second.cases)
    ensures var longer := second.(cases := [extra] + second.cases);
            OutcomeOf(Measured(first, longer, limits), equivalent, qualityPassed, limits) ==
            OutcomeOf(Measured(first, second, limits), equivalent, qualityPassed, limits)
  {
    var longer := second.(cases := [extra] + second.cases);
    ByKeyConcat([extra], second.cases);
    assert [extra][..0] == [];
    assert ByKey([extra]) == map[][extra.key := extra];
    assert ByKey(longer.cases) == ByKey(second.cases);
    MeasuredAlike(first, second, longer.cases, limits);
    OutcomeAlike(Measured(first, longer, limits), Measured(first, second, limits), equivalent, qualityPassed, limits);
  }

  lemma {:induction false} JudgedRow(rows: seq<Row>, key: Key)
    ensures key in ByKey(rows) ==> exists i :: 0 <= i < |rows| && rows[i] == ByKey(rows)[key]
  {
    if rows != [] {
      var front, last := rows[..|rows| - 1], rows[|rows| - 1];
      JudgedRow(front, key);
      if key in ByKey(rows) && key != last.key {
        var i :| 0 <= i < |front| && front[i] == ByKey(front)[key];
        assert rows[i] == front[i];
      } else {
        assert rows[|rows| - 1] == last;
      }
    }
  }

  predicate Judged(rows: seq<Row>, i: nat)
    requires i < |rows|
  {
    rows[i].key in ByKey(rows) && ByKey(rows)[rows[i].key] == rows[i]
  }

  /** Every listed row is judged exactly when no case is listed twice with different rows. */
  lemma EveryRowJudged(rows: seq<Row>)
    ensures (forall i :: 0 <= i < |rows| ==> Judged(rows, i)) <==>
            forall i, j :: 0 <= i < j < |rows| && rows[i].key == rows[j].key ==> rows[i] == rows[j]
  {
    if forall i :: 0 <= i < |rows| ==> Judged(rows, i) {
      forall i, j | 0 <= i < j < |rows| && rows[i].key == rows[j].key ensures rows[i] == rows[j] {
        assert Judged(rows, i) && Judged(rows, j);
      }
    }
    if forall i, j :: 0 <= i < j < |rows| && rows[i].key == rows[j].key ==> rows[i] == rows[j] {
      forall i | 0 <= i < |rows| ensures Judged(rows, i) {
        SortedAreKeys(rows);
        KeyListed(rows, i);
        JudgedRow(rows, rows[i].key);
        var k :| 0 <= k < |rows| && rows[k] == ByKey(rows)[rows[i].key];
        assert rows[k].key == rows[i].key;
      }
    }
  }

  lemma {:induction false} KeyListed(rows: seq<Row>, i: nat)
    requires i < |rows|
    ensures rows[i].key in ByKey(rows)
  {
    if i < |rows| - 1 { KeyListed(rows[..|rows| - 1], i); }
  }
}
