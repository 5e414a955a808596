/** One pass over a sequence by a step that may refuse. */
module Folding {
  import opened Results

  lemma CutAt<T>(items: seq<T>, k: nat)
    requires k <= |items|
    ensures items == items[..k] + items[k..]
  {
  }

  lemma TakeNext<T>(items: seq<T>, k: nat)
    requires k < |items|
    ensures items[..k + 1] == items[..k] + [items[k]]
  {
  }

  lemma LastApart<T>(items: seq<T>)
    requires items != []
    ensures items == items[..|items| - 1] + [items[|items| - 1]]
  {
  }

  function Fold<S, T>(step: (S, T) -> Option<S>, start: S, items: seq<T>): Option<S> {
    if items == [] then Some(start)
    else
      match Fold(step, start, items[..|items| - 1])
      case Some(state) => step(state, items[|items| - 1])
      case None => None
  }

  lemma FoldSnoc<S, T>(step: (S, T) -> Option<S>, start: S, items: seq<T>, item: T)
    ensures Fold(step, start, items + [item]) ==
            if Fold(step, start, items).None? then None else step(Fold(step, start, items).value, item)
  {
    assert (items + [item])[..|items|] == items;
  }

  /** Items refused once are refused with anything after them. */
  lemma {:induction false} RefusalStands<S, T>(step: (S, T) -> Option<S>, start: S, one: seq<T>, two: seq<T>)
    requires Fold(step, start, one).None?
    ensures Fold(step, start, one + two).None?
    decreases |two|
  {
    if two == [] {
      assert one + two == one;
    } else {
      FoldSnoc(step, start, one, two[0]);
      RefusalStands(step, start, one + [two[0]], two[1..]);
      assert one + [two[0]] + two[1..] == one + two;
    }
  }

  /** A pass over two parts is a pass over the second from where the first ends. */
  lemma {:induction false} FoldConcat<S, T>(step: (S, T) -> Option<S>, start: S, one: seq<T>, two: seq<T>)
    ensures Fold(step, start, one + two) ==
            if Fold(step, start, one).None? then None else Fold(step, Fold(step, start, one).value, two)
    decreases |two|
  {
    if two == [] {
      assert one + two == one;
    } else {
      var front, last := two[..|two| - 1], two[|two| - 1];
      FoldConcat(step, start, one, front);
      assert one + two == one + front + [last];
      FoldSnoc(step, start, one + front, last);
    }
  }

  /** Items that each leave a state alone leave it alone together. */
  lemma {:induction false} FoldIdle<S, T>(step: (S, T) -> Option<S>, start: S, one: seq<T>, two: seq<T>, state: S)
    requires Fold(step, start, one) == Some(state)
    requires forall i :: 0 <= i < |two| ==> step(state, two[i]) == Some(state)
    ensures Fold(step, start, one + two) == Some(state)
    decreases |two|
  {
    if two == [] {
      assert one + two == one;
    } else {
      FoldSnoc(step, start, one, two[0]);
      FoldIdle(step, start, one + [two[0]], two[1..], state);
      assert one + [two[0]] + two[1..] == one + two;
    }
  }
}
