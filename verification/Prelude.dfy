// Small shared vocabulary: optional values and the sequence facts several modules use.
module Prelude {
  datatype Option<+T> = None | Some(value: T)

  datatype Result<+T, +E> = Ok(value: T) | Err(error: E) {
    predicate IsFailure() {
      Err?
    }

    function PropagateFailure<U>(): Result<U, E>
      requires Err?
    {
      Err(error)
    }

    function Extract(): T
      requires Ok?
    {
      value
    }
  }

  predicate Distinct<T(==)>(xs: seq<T>) {
    forall a, b | 0 <= a < b < |xs| :: xs[a] != xs[b]
  }

  /** Every element but the last. */
  function Front<T>(xs: seq<T>): (r: seq<T>)
    requires xs != []
  {
    xs[..|xs| - 1]
  }

  function Last<T>(xs: seq<T>): (r: T)
    requires xs != []
  {
    xs[|xs| - 1]
  }

  lemma FrontMultiset<T>(xs: seq<T>)
    requires xs != []
    ensures multiset(xs) == multiset(Front(xs)) + multiset{Last(xs)}
  {
    assert xs == Front(xs) + [Last(xs)];
  }

  /** The elements of a sequence with their multiplicities. */
  function Bag<T>(xs: seq<T>): (b: multiset<T>) {
    if xs == [] then multiset{} else Bag(Front(xs)) + multiset{Last(xs)}
  }

  lemma BagSnoc<T>(xs: seq<T>, x: T)
    ensures Bag(xs + [x]) == Bag(xs) + multiset{x}
  {
    assert Front(xs + [x]) == xs;
  }

  // Sequence equalities are lemmas of their own: beside recursive functions they are costly to find again.

  lemma SnocAssociates<T>(xs: seq<T>, ys: seq<T>, y: T)
    ensures xs + (ys + [y]) == (xs + ys) + [y]
  {
  }

  lemma ConcatNothing<T>(xs: seq<T>)
    ensures xs + [] == xs
  {
  }

  lemma FrontAndLast<T>(xs: seq<T>)
    requires xs != []
    ensures Front(xs) + [Last(xs)] == xs
  {
  }

  lemma ConcatAssociates<T>(xs: seq<T>, ys: seq<T>, zs: seq<T>)
    ensures xs + (ys + zs) == (xs + ys) + zs
  {
  }

  lemma TakeOneMore<T>(xs: seq<T>, k: nat)
    requires k < |xs|
    ensures xs[..k + 1] == xs[..k] + [xs[k]]
  {
  }

  lemma TakeAll<T>(xs: seq<T>)
    ensures xs[..|xs|] == xs
  {
  }

  lemma BagConcatSnoc<T>(xs: seq<T>, ys: seq<T>, y: T)
    requires Bag(xs + ys) == Bag(xs) + Bag(ys)
    ensures Bag(xs + (ys + [y])) == Bag(xs) + Bag(ys + [y])
  {
    SnocAssociates(xs, ys, y);
    BagSnoc(xs + ys, y);
    BagSnoc(ys, y);
  }

  lemma {:induction false} BagConcat<T>(xs: seq<T>, ys: seq<T>)
    ensures Bag(xs + ys) == Bag(xs) + Bag(ys)
    decreases |ys|
  {
    if ys == [] {
      ConcatNothing(xs);
    } else {
      BagConcat(xs, Front(ys));
      BagConcatSnoc(xs, Front(ys), Last(ys));
      FrontAndLast(ys);
    }
  }

  lemma {:induction false} BagIsMultiset<T>(xs: seq<T>)
    ensures Bag(xs) == multiset(xs)
    ensures |Bag(xs)| == |xs|
  {
    if xs == [] {
    } else {
      BagIsMultiset(Front(xs));
      FrontMultiset(xs);
    }
  }
}
