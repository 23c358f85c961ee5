/**
 * `onBetterSheetDidAttemptToDismiss`: content registers actions to run when
 * the user tries to swipe away a sheet that is modal in presentation. Every
 * publisher contributes a one-element list; the lists are concatenated.
 */
module DismissAttempt {
  import opened SheetDescriptor

  /**
   * `BetterSheetDidAttemptToDismissCallback`: a reference type wrapping the
   * action, so two callbacks are equal exactly when they are the same object.
   */
  class Callback {
    const action: ActionId

    constructor (action: ActionId)
      ensures this.action == action
    {
      this.action := action;
    }
  }

  /** `static var defaultValue: Value = []` */
  function DefaultValue<T>(): (r: seq<T>)
    ensures |r| == 0
  {
    []
  }

  /**
   * `value.append(contentsOf: nextValue())` on the `inout` array: the
   * accumulated callbacks keep their place and the next publisher's follow.
   */
  function Reduce<T>(value: seq<T>, next: seq<T>): (r: seq<T>)
    ensures |r| == |value| + |next|
    ensures r[..|value|] == value && r[|value|..] == next
    ensures next == [] ==> r == value
  {
    value + next
  }

  /** The merged list of the publishers `published`, in traversal order. */
  function Fold<T>(published: seq<seq<T>>): seq<T> {
    if published == [] then DefaultValue()
    else Reduce(Fold(published[..|published| - 1]), published[|published| - 1])
  }

  /** Reference definition: the lists laid end to end, first one first. */
  function Concat<T>(published: seq<seq<T>>): seq<T> {
    if published == [] then [] else published[0] + Concat(published[1..])
  }

  lemma {:induction false} ConcatAppend<T>(xs: seq<seq<T>>, ys: seq<seq<T>>)
    ensures Concat(xs + ys) == Concat(xs) + Concat(ys)
  {
    if xs != [] {
      assert (xs + ys)[1..] == xs[1..] + ys;
      ConcatAppend(xs[1..], ys);
    } else {
      assert xs + ys == ys;
    }
  }

  /** Merging many publishers yields all their callbacks, in traversal order. */
  lemma {:induction false} FoldIsConcat<T>(published: seq<seq<T>>)
    ensures Fold(published) == Concat(published)
  {
    if published != [] {
      var n := |published| - 1;
      FoldIsConcat(published[..n]);
      assert published == published[..n] + [published[n]];
      ConcatAppend(published[..n], [published[n]]);
      assert Concat([published[n]]) == published[n] + Concat([]);
    }
  }

  /** Merging two groups separately and reducing the results merges them all. */
  lemma FoldAppend<T>(xs: seq<seq<T>>, ys: seq<seq<T>>)
    ensures Fold(xs + ys) == Reduce(Fold(xs), Fold(ys))
  {
    FoldIsConcat(xs + ys);
    FoldIsConcat(xs);
    FoldIsConcat(ys);
    ConcatAppend(xs, ys);
  }

  /**
   * The preference value `onBetterSheetDidAttemptToDismiss(perform:)`
   * publishes: a one-element list holding a callback object made for it.
   */
  method OnDidAttemptToDismiss(action: ActionId) returns (published: seq<Callback>)
    ensures |published| == 1 && fresh(published[0]) && published[0].action == action
  {
    var callback := new Callback(action);
    published := [callback];
  }
}
