/**
 * Client runs built only from the contracts of the other modules: the
 * basic, item-keyed and modal-locked usages of the example app.
 */
module Scenarios {
  import opened Wrappers
  import opened Bindings
  import opened SheetDescriptor
  import opened SheetModifiers
  import PreferenceMerge
  import opened DismissAttempt
  import opened ModalPreference
  import opened Coordination
  import opened PresentationModes
  import opened Support

  /** A root coordinator hooked up to its hosting controller, as `withBetterSheetSupport` does. */
  method NewRoot() returns (root: Coordinator)
    ensures fresh(root) && root.Valid()
    ensures root.presenting == null && root.presented == null && root.viewController.Some?
  {
    root := new Coordinator();
    root.viewController := Some(HostingController(false));
  }

  /** One publisher: the merged value is what it published. */
  lemma SinglePublisher<T>(published: Option<T>)
    ensures PreferenceMerge.Fold([published]) == published
  {
    assert [published][..0] == [];
  }

  /**
   * Basic usage: the flag turns true, the sheet is presented, the user swipes
   * it away. The flag is reset, `onDismiss` runs once, and the next render,
   * which publishes nil, does nothing more.
   */
  method BasicUsage(onDismiss: ActionId) returns (id: SheetId, events: seq<Effect>, showDetail: bool)
    ensures events == [PresentController(id), BindingReset(id), OnDismissCalled(onDismiss)]
    ensures !showDetail
  {
    var ids := new IdSource();
    var log := new EffectLog();
    var root := NewRoot();
    var flag := new Binding(false);
    flag.value := true;

    id := ids.Fresh();
    var published := IsPresentedPreference(id, flag, Some(onDismiss), 0);
    SinglePublisher(published);
    OnSheetChange(root, PreferenceMerge.Fold([published]), log);
    var child := root.presented;
    assert IsPresented(PresentationModeFor(child));

    child.PresentationControllerDidDismiss(log);
    assert root.presented == null && !IsPresented(PresentationModeFor(child));

    published := IsPresentedPreference(id + 1, flag, Some(onDismiss), 0);
    SinglePublisher(published);
    OnSheetChange(root, PreferenceMerge.Fold([published]), log);
    events, showDetail := log.events, flag.value;
  }

  /**
   * Item-keyed usage: Apple is selected and presented; the selection moves
   * to Banana, so Apple's sheet lets go and Banana's request tears it down
   * (without touching the selection) and takes its place. A dismiss through
   * Apple's stale handle then does nothing.
   */
  method SelectionChange() returns (apple: SheetId, banana: SheetId, events: seq<Effect>, selected: Option<Item>)
    ensures events == [PresentController(apple), DismissController(apple), PresentController(banana)]
    ensures selected == Some(Item("Banana", ""))
  {
    var ids := new IdSource();
    var log := new EffectLog();
    var root := NewRoot();
    var selection := new Binding<Option<Item>>(None);

    selection.value := Some(Item("Apple", ""));
    apple := ids.Fresh();
    var published := ItemPreference(apple, selection, None, 0);
    SinglePublisher(published);
    OnSheetChange(root, PreferenceMerge.Fold([published]), log);
    var appleChild := root.presented;
    assert log.events == [PresentController(apple)];
    assert appleChild.viewController.Some? && appleChild.sheet == published;

    selection.value := Some(Item("Banana", ""));
    banana := ids.Fresh();
    published := ItemPreference(banana, selection, None, 0);
    SinglePublisher(published);
    assert ShouldDismiss(appleChild.sheet.value.trigger);
    OnSheetChange(root, PreferenceMerge.Fold([published]), log);
    var bananaChild := root.presented;
    assert log.events == [PresentController(apple), DismissController(apple), PresentController(banana)];
    assert bananaChild != appleChild && !IsPresented(PresentationModeFor(appleChild));

    Dismiss(PresentationModeFor(appleChild), log);
    assert root.presented == bananaChild;
    events, selected := log.events, selection.value;
  }

  /**
   * A second request while the presented sheet is still wanted is dropped:
   * with the Apple editor up, tapping "Add" publishes another sheet, and the
   * coordinator keeps the Apple editor.
   */
  method RequestWhilePresented() returns (edit: SheetId, events: seq<Effect>, stillEditing: bool)
    ensures events == [PresentController(edit)]
    ensures stillEditing
  {
    var ids := new IdSource();
    var log := new EffectLog();
    var root := NewRoot();
    var addFruit := new Binding(false);
    var editFruit := new Binding<Option<Item>>(Some(Item("Apple", "")));

    edit := ids.Fresh();
    var add := ids.Fresh();
    var addPublished := IsPresentedPreference(add, addFruit, None, 0);
    var editPublished := ItemPreference(edit, editFruit, None, 1);
    PreferenceMerge.FoldIsLastNonNil([addPublished, editPublished]);
    OnSheetChange(root, PreferenceMerge.Fold([addPublished, editPublished]), log);
    var editor := root.presented;

    addFruit.value := true;
    add := ids.Fresh();
    addPublished := IsPresentedPreference(add, addFruit, None, 0);
    editPublished := ItemPreference(edit + add + 1, editFruit, None, 1);
    PreferenceMerge.FoldIsLastNonNil([addPublished, editPublished]);
    OnSheetChange(root, PreferenceMerge.Fold([addPublished, editPublished]), log);
    events, stillEditing := log.events, root.presented == editor;
  }

  /**
   * The editor's content publishes `betterSheetIsModalInPresentation(true)`
   * and one `onBetterSheetDidAttemptToDismiss` action; the support layer
   * delivers both merged values to the editor's coordinator.
   */
  method LockEditor(editor: Coordinator, confirm: ActionId)
    requires editor.viewController.Some?
    modifies editor
    ensures editor.viewController == Some(HostingController(true))
    ensures |editor.onDidAttemptToDismiss| == 1 && editor.onDidAttemptToDismiss[0].action == confirm
    ensures editor.presented == old(editor.presented)
  {
    var callbacks := OnDidAttemptToDismiss(confirm);
    SinglePublisher(IsModalInPresentation(true));
    OnModalChange(editor, PreferenceMerge.Fold([IsModalInPresentation(true)]));
    var lists: seq<seq<Callback>> := [callbacks];
    assert lists[..0] == [];
    assert DismissAttempt.Fold(lists) == callbacks;
    OnCallbacksChange(editor, DismissAttempt.Fold(lists));
  }

  /**
   * Modal-locked form: the editor publishes that it is modal and registers a
   * dismiss-attempt action. A swipe only runs the action, once, and leaves
   * the sheet up; "Cancel" then dismisses it through the handle, resetting
   * the flag.
   */
  method ModalLockedForm(confirm: ActionId) returns (id: SheetId, events: seq<Effect>, addFruit: bool)
    ensures events == [PresentController(id), AttemptCallbackCalled(confirm), DismissController(id), BindingReset(id)]
    ensures !addFruit
  {
    var ids := new IdSource();
    var log := new EffectLog();
    var root := NewRoot();
    var flag := new Binding(true);

    id := ids.Fresh();
    var published := IsPresentedPreference(id, flag, None, 0);
    SinglePublisher(published);
    OnSheetChange(root, PreferenceMerge.Fold([published]), log);
    var editor := root.presented;
    var mode := PresentationModeFor(editor);
    assert log.events == [PresentController(id)];
    assert editor.IsCurrent() && editor.sheet == published && !ShouldDismiss(published.value.trigger);

    LockEditor(editor, confirm);
    assert log.events == [PresentController(id)];
    editor.PresentationControllerDidAttemptToDismiss(log);
    assert Invocations(editor.onDidAttemptToDismiss) == [AttemptCallbackCalled(confirm)];
    assert root.presented == editor && IsPresented(mode);
    assert log.events == [PresentController(id), AttemptCallbackCalled(confirm)];

    Dismiss(mode, log);
    events, addFruit := log.events, flag.value;
  }
}
