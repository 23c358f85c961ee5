/**
 * `betterSheetIsModalInPresentation`: content publishes whether the sheet
 * it sits in is locked against interactive dismissal. The flags merge with
 * the "last non-nil wins" rule of PreferenceMerge.
 */
module ModalPreference {
  import opened Wrappers
  import opened PreferenceMerge

  /** The preference value `betterSheetIsModalInPresentation(value)` publishes. */
  function IsModalInPresentation(value: bool): (r: Option<bool>)
    ensures r.Some? && r.value == value
  {
    Some(value)
  }

  /** `reduce(v, v) == v`. */
  lemma ReduceIdempotent(v: Option<bool>)
    ensures Reduce(v, v) == v
  {
  }

  /**
   * The merged flag is the one the last modifier in traversal order
   * published, whatever came before it, and stays so when later publishers
   * publish nothing.
   */
  lemma {:induction false} LastModifierWins(before: seq<Option<bool>>, value: bool, after: seq<Option<bool>>)
    requires forall i :: 0 <= i < |after| ==> after[i].None?
    ensures Fold(before + [IsModalInPresentation(value)] + after) == Some(value)
  {
    var last := before + [IsModalInPresentation(value)];
    FoldAppend(last, after);
    assert last[..|last| - 1] == before;
    FoldIsLastNonNil(after);
  }
}
