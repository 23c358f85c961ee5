/**
 * The "last non-nil wins" merge rule shared by `BetterSheetPreferenceKey`
 * (the pending sheet) and `BetterSheetIsModalInPresentationPreferenceKey`
 * (the modal flag). SwiftUI starts from `defaultValue` and calls `reduce`
 * once per further publisher, in traversal order; `Fold` is that walk.
 */
module PreferenceMerge {
  import opened Wrappers

  /** `static var defaultValue: Value = nil` */
  function DefaultValue<T>(): (r: Option<T>)
    ensures r.None?
  {
    None
  }

  /** `value = nextValue() ?? value` */
  function Reduce<T>(value: Option<T>, next: Option<T>): (r: Option<T>)
    ensures next.None? ==> r == value
    ensures next.Some? ==> r == next
    ensures value == next ==> r == value
  {
    match next
    case Some(_) => next
    case None => value
  }

  /** The merged value of the publishers `published`, in traversal order. */
  function Fold<T>(published: seq<Option<T>>): Option<T> {
    if published == [] then DefaultValue()
    else Reduce(Fold(published[..|published| - 1]), published[|published| - 1])
  }

  /**
   * Independent statement of the rule: `r` is nil when every publisher is
   * nil, and otherwise the value of the last non-nil publisher.
   */
  ghost predicate IsLastNonNil<T>(published: seq<Option<T>>, r: Option<T>) {
    if r.None? then
      forall i :: 0 <= i < |published| ==> published[i].None?
    else
      exists i :: 0 <= i < |published| && published[i] == r && NilAfter(published, i)
  }

  ghost predicate NilAfter<T>(published: seq<Option<T>>, i: nat) {
    forall j :: i < j < |published| ==> published[j].None?
  }

  /** The fold yields the last non-nil publisher, or nil if there is none. */
  lemma {:induction false} FoldIsLastNonNil<T>(published: seq<Option<T>>)
    ensures IsLastNonNil(published, Fold(published))
  {
    if published != [] {
      var n := |published| - 1;
      var front := published[..n];
      FoldIsLastNonNil(front);
      if published[n].Some? {
        assert published[n] == Fold(published) && NilAfter(published, n);
      } else if Fold(front).Some? {
        var i :| 0 <= i < |front| && front[i] == Fold(front) && NilAfter(front, i);
        assert published[i] == Fold(published) && NilAfter(published, i);
      } else {
        assert forall i :: 0 <= i < n ==> front[i] == published[i];
      }
    }
  }

  /**
   * Merging is associative: merging two groups of publishers separately
   * (say, two subtrees) and then reducing the results gives the merge of all.
   */
  lemma {:induction false} FoldAppend<T>(xs: seq<Option<T>>, ys: seq<Option<T>>)
    ensures Fold(xs + ys) == Reduce(Fold(xs), Fold(ys))
  {
    if ys == [] {
      assert xs + ys == xs;
    } else {
      var n := |ys| - 1;
      assert (xs + ys)[..|xs + ys| - 1] == xs + ys[..n];
      FoldAppend(xs, ys[..n]);
    }
  }

  /** `reduce` itself is associative. */
  lemma ReduceAssociative<T>(a: Option<T>, b: Option<T>, c: Option<T>)
    ensures Reduce(Reduce(a, b), c) == Reduce(a, Reduce(b, c))
  {
  }
}
