/**
 * The sheet descriptor `BetterSheet`: an immutable record describing one
 * requested presentation. Its closures are represented by tags: `content`
 * and `onDismiss` by the identity of the client's closure, `shouldDismiss`
 * and `resetBinding` by the `Trigger` they were built from (the module
 * SheetModifiers gives their meaning).
 */
module SheetDescriptor {
  import opened Wrappers
  import opened Bindings

  /** The `UUID` a descriptor draws when it is built. */
  type SheetId = nat

  /** Identity of a client closure (an `onDismiss` or a dismiss-attempt action). */
  type ActionId = nat

  /** Identity of the type-erased content factory; it is never inspected. */
  type ContentId = nat

  /** The binding a descriptor was built from, and the item it captured. */
  datatype Trigger =
    | FromFlag(flag: Binding<bool>)
    | FromItem(selection: Binding<Option<Item>>, shown: Item)

  datatype BetterSheet = BetterSheet(
    id: SheetId,
    content: ContentId,
    onDismiss: Option<ActionId>,
    trigger: Trigger)

  /** The objects `shouldDismiss` reads and `resetBinding` writes. */
  function Footprint(t: Trigger): set<object> {
    match t
    case FromFlag(flag) => {flag}
    case FromItem(selection, _) => {selection}
  }

  /** Swift's `==` on descriptors: the ids alone decide. */
  predicate Equal(lhs: BetterSheet, rhs: BetterSheet) {
    lhs.id == rhs.id
  }

  /** Equality ignores every closure: content, onDismiss and the trigger. */
  lemma EqualIgnoresClosures(lhs: BetterSheet, rhs: BetterSheet)
    requires lhs.id == rhs.id
    ensures Equal(lhs, rhs)
    ensures Equal(lhs, rhs.(content := lhs.content, onDismiss := lhs.onDismiss, trigger := lhs.trigger))
  {
  }

  /** Two descriptors with different ids differ, however alike their closures. */
  lemma DistinctIdsUnequal(lhs: BetterSheet, rhs: BetterSheet)
    requires lhs.id != rhs.id
    ensures !Equal(lhs, rhs)
    ensures !Equal(lhs, lhs.(id := rhs.id))
  {
  }

  /** Being id equality, `==` is an equivalence relation. */
  lemma EqualIsEquivalence(a: BetterSheet, b: BetterSheet, c: BetterSheet)
    ensures Equal(a, a)
    ensures Equal(a, b) <==> Equal(b, a)
    ensures Equal(a, b) && Equal(b, c) ==> Equal(a, c)
  {
  }

  /**
   * `UUID()`: every call hands out an id never handed out before. The set of
   * issued ids stands for the generator's uniqueness promise.
   */
  class IdSource {
    ghost var issued: set<SheetId>
    var next: SheetId

    ghost predicate Valid()
      reads this
    {
      forall id :: id in issued ==> id < next
    }

    constructor ()
      ensures Valid() && issued == {}
    {
      issued := {};
      next := 0;
    }

    method Fresh() returns (id: SheetId)
      requires Valid()
      modifies this
      ensures Valid()
      ensures id !in old(issued)
      ensures issued == old(issued) + {id}
    {
      id := next;
      next := next + 1;
      issued := issued + {id};
    }
  }
}
