/**
 * The two `betterSheet` view modifiers: the descriptor each builds, the
 * preference value each publishes from `body`, and the meaning of the
 * `shouldDismiss` and `resetBinding` closures they put in the descriptor.
 */
module SheetModifiers {
  import opened Wrappers
  import opened Bindings
  import opened SheetDescriptor

  /** `self.item?.id`: the id of the currently selected item, if any. */
  function SelectedId(selection: Option<Item>): Option<ItemId> {
    match selection
    case Some(item) => Some(item.id)
    case None => None
  }

  /**
   * The `shouldDismiss` closure, evaluated now: it reads the binding at call
   * time. Bool variant: `!isPresented`. Item variant: the selection no longer
   * carries the id of the item the descriptor was built for (a nil selection
   * counts as different).
   */
  predicate ShouldDismiss(t: Trigger)
    reads Footprint(t)
  {
    match t
    case FromFlag(flag) => !flag.value
    case FromItem(selection, shown) => SelectedId(selection.value) != Some(shown.id)
  }

  /** The state `resetBinding` leaves behind. */
  predicate Cleared(t: Trigger)
    reads Footprint(t)
  {
    match t
    case FromFlag(flag) => flag.value == false
    case FromItem(selection, _) => selection.value == None
  }

  /** Once cleared, a binding no longer asks for the sheet it triggered. */
  lemma ClearedShouldDismiss(t: Trigger)
    requires Cleared(t)
    ensures ShouldDismiss(t)
  {
  }

  /** The `resetBinding` closure: `isPresented = false` or `item = nil`. */
  method ResetBinding(t: Trigger)
    modifies Footprint(t)
    ensures Cleared(t)
    ensures ShouldDismiss(t)
  {
    match t
    case FromFlag(flag) =>
      flag.value := false;
    case FromItem(selection, _) =>
      selection.value := None;
  }

  /** `BetterSheetIsPresented.sheet()`, given the id it draws. */
  function IsPresentedSheet(id: SheetId, isPresented: Binding<bool>, onDismiss: Option<ActionId>, content: ContentId): BetterSheet {
    BetterSheet(id, content, onDismiss, FromFlag(isPresented))
  }

  /** `BetterSheetItem.sheet(for:)`, given the id it draws. */
  function ItemSheet(id: SheetId, selection: Binding<Option<Item>>, item: Item, onDismiss: Option<ActionId>, content: ContentId): BetterSheet {
    BetterSheet(id, content, onDismiss, FromItem(selection, item))
  }

  /**
   * The preference value `BetterSheetIsPresented.body` publishes: a fresh
   * descriptor while `isPresented` is true, nil otherwise. A published
   * descriptor does not (yet) want to be dismissed, and carries `onDismiss`
   * through unchanged.
   */
  function IsPresentedPreference(id: SheetId, isPresented: Binding<bool>, onDismiss: Option<ActionId>, content: ContentId): (r: Option<BetterSheet>)
    reads isPresented
    ensures r.None? <==> !isPresented.value
    ensures r.Some? ==> r.value.id == id && r.value.onDismiss == onDismiss && r.value.content == content
    ensures r.Some? ==> Footprint(r.value.trigger) == {isPresented} && !ShouldDismiss(r.value.trigger)
  {
    if isPresented.value then Some(IsPresentedSheet(id, isPresented, onDismiss, content)) else None
  }

  /**
   * The preference value `BetterSheetItem.body` publishes: a fresh descriptor
   * for the selected item while there is one, nil otherwise. The descriptor
   * captures the selected item, so right after it is built it does not want
   * to be dismissed.
   */
  function ItemPreference(id: SheetId, selection: Binding<Option<Item>>, onDismiss: Option<ActionId>, content: ContentId): (r: Option<BetterSheet>)
    reads selection
    ensures r.None? <==> selection.value.None?
    ensures r.Some? ==> r.value.id == id && r.value.onDismiss == onDismiss && r.value.content == content
    ensures r.Some? ==> r.value.trigger.FromItem? && Some(r.value.trigger.shown) == selection.value
    ensures r.Some? ==> Footprint(r.value.trigger) == {selection} && !ShouldDismiss(r.value.trigger)
  {
    if selection.value.Some? then Some(ItemSheet(id, selection, selection.value.value, onDismiss, content)) else None
  }

  /**
   * The bool variant publishes a descriptor exactly when the descriptor it
   * would build does not want to be dismissed: the preference and
   * `shouldDismiss` never disagree.
   */
  lemma IsPresentedPublishedIffWanted(id: SheetId, isPresented: Binding<bool>, onDismiss: Option<ActionId>, content: ContentId)
    ensures IsPresentedPreference(id, isPresented, onDismiss, content).Some?
        <==> !ShouldDismiss(IsPresentedSheet(id, isPresented, onDismiss, content).trigger)
  {
  }

  /** After `resetBinding`, the modifier publishes nil again. */
  lemma ClearedWithdrawsPreference(id: SheetId, s: BetterSheet, onDismiss: Option<ActionId>, content: ContentId)
    requires Cleared(s.trigger)
    ensures s.trigger.FromFlag? ==> IsPresentedPreference(id, s.trigger.flag, onDismiss, content).None?
    ensures s.trigger.FromItem? ==> ItemPreference(id, s.trigger.selection, onDismiss, content).None?
  {
  }

  /**
   * Item variant: the descriptor stays wanted while the selection keeps the
   * captured id, even if the item's other data changed, and wants dismissal
   * as soon as another id (or none) is selected.
   */
  lemma ItemShouldDismissTracksId(selection: Binding<Option<Item>>, shown: Item)
    ensures selection.value.Some? && selection.value.value.id == shown.id ==> !ShouldDismiss(FromItem(selection, shown))
    ensures selection.value.Some? && selection.value.value.id != shown.id ==> ShouldDismiss(FromItem(selection, shown))
    ensures selection.value.None? ==> ShouldDismiss(FromItem(selection, shown))
  {
  }
}
