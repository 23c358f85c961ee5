/**
 * `BetterSheetCoordinator`: one node per level of sheet presentation. A
 * node presents at most one child node (`presented`), knows the node that
 * presented it (`presenting`), and holds the hosting controller it is shown
 * in. Calls into UIKit and into client closures are recorded, in order, in
 * an `EffectLog`.
 */
module Coordination {
  import opened Wrappers
  import opened Bindings
  import opened SheetDescriptor
  import opened SheetModifiers
  import opened DismissAttempt

  /** The hosting controller a coordinator is shown in, as far as the library touches it. */
  datatype HostingController = HostingController(isModalInPresentation: bool)

  /** The outside calls the coordinator makes. */
  datatype Effect =
    | PresentController(sheet: SheetId)   // `viewController.present(_:animated:)` for the child's hosting controller
    | DismissController(sheet: SheetId)   // `viewController.dismiss(animated:)` on the child's hosting controller
    | BindingReset(sheet: SheetId)        // the sheet's `resetBinding` closure ran
    | OnDismissCalled(action: ActionId)   // the sheet's `onDismiss` closure ran
    | AttemptCallbackCalled(action: ActionId)  // a dismiss-attempt callback's action ran

  /** The world outside the coordinators: the calls made so far. */
  class EffectLog {
    var events: seq<Effect>

    constructor ()
      ensures events == []
    {
      events := [];
    }
  }

  /**
   * The calls `dismissPresentedSheet` makes while tearing down a child shown
   * for `s`: one `DismissController` first, and only if the child still had
   * its hosting controller; one `BindingReset` exactly when the binding still
   * asks for the sheet; one `onDismiss` call last, if the sheet has one; and
   * nothing else.
   */
  function TeardownEffects(s: BetterSheet, hadController: bool, shouldDismiss: bool): (r: seq<Effect>)
    ensures |r| == (if hadController then 1 else 0) + (if shouldDismiss then 0 else 1) + (if s.onDismiss.Some? then 1 else 0)
    ensures hadController ==> r[0] == DismissController(s.id)
    ensures s.onDismiss.Some? ==> r[|r| - 1] == OnDismissCalled(s.onDismiss.value)
  {
    (if hadController then [DismissController(s.id)] else [])
    + (if shouldDismiss then [] else [BindingReset(s.id)])
    + (match s.onDismiss case Some(a) => [OnDismissCalled(a)] case None => [])
  }

  /**
   * Exactly-once: a teardown dismisses the hosting controller once if it was
   * still there, resets the binding once if it still asked for the sheet,
   * and calls `onDismiss` once if there is one.
   */
  lemma TeardownExactlyOnce(s: BetterSheet, hadController: bool, shouldDismiss: bool)
    ensures multiset(TeardownEffects(s, hadController, shouldDismiss))[DismissController(s.id)] == if hadController then 1 else 0
    ensures multiset(TeardownEffects(s, hadController, shouldDismiss))[BindingReset(s.id)] == if shouldDismiss then 0 else 1
    ensures s.onDismiss.Some? ==> multiset(TeardownEffects(s, hadController, shouldDismiss))[OnDismissCalled(s.onDismiss.value)] == 1
  {
  }

  /** The calls running the dismiss-attempt callbacks makes: each action once, in list order. */
  function Invocations(callbacks: seq<Callback>): (r: seq<Effect>)
    ensures |r| == |callbacks|
    ensures forall k :: 0 <= k < |callbacks| ==> r[k] == AttemptCallbackCalled(callbacks[k].action)
  {
    if callbacks == [] then []
    else Invocations(callbacks[..|callbacks| - 1]) + [AttemptCallbackCalled(callbacks[|callbacks| - 1].action)]
  }

  class Coordinator {
    /** The sheet this node shows; nil for the root. Only `init` sets it. */
    const sheet: Option<BetterSheet>
    /** The node that presented this one (a weak reference); only `init` sets it. */
    const presenting: Coordinator?
    /** The one child this node currently presents. */
    var presented: Coordinator?
    /** The (weakly held) hosting controller this node is shown in. */
    var viewController: Option<HostingController>
    /** The merged dismiss-attempt callbacks of this node's content. */
    var onDidAttemptToDismiss: seq<Callback>

    /** A child points back at its parent; no node presents itself. */
    ghost predicate Valid()
      reads this
    {
      presenting != this && (presented != null ==> presented.presenting == this)
    }

    /** The binding this node's sheet was triggered from. */
    function BindingFrame(): set<object> {
      if sheet.None? then {} else Footprint(sheet.value.trigger)
    }

    /** The objects tearing down the current child may touch. */
    function ChildFrame(): set<object>
      reads this
    {
      if presented == null then {} else {presented} + presented.BindingFrame()
    }

    /** This node is still its parent's presented child (the stale-handle guard). */
    predicate IsCurrent()
      reads presenting
    {
      presenting != null && presenting.presented == this
    }

    /** The current child shows a sheet whose binding still asks for it. */
    predicate ChildStaysUp()
      reads this, ChildFrame()
    {
      presented != null && presented.sheet.Some? && !ShouldDismiss(presented.sheet.value.trigger)
    }

    /** `init(sheet:presentingCoordinator:)`; with no arguments it makes a root. */
    constructor (sheet: Option<BetterSheet> := None, presenting: Coordinator? := null)
      ensures this.sheet == sheet && this.presenting == presenting
      ensures presented == null && viewController == None && onDidAttemptToDismiss == []
      ensures Valid()
    {
      this.sheet := sheet;
      this.presenting := presenting;
      presented := null;
      viewController := None;
      onDidAttemptToDismiss := [];
    }

    /**
     * `present(sheet:)`: a child whose sheet is still wanted keeps its place
     * and the request is dropped; otherwise that child is torn down and a
     * new child showing `s` is installed.
     */
    method Present(s: BetterSheet, log: EffectLog)
      requires Valid()
      modifies this, log, ChildFrame()
      ensures Valid()
      ensures PresentOutcome(this, old(presented), s, log)
    {
      if presented != null && presented.sheet.Some? {
        if ShouldDismiss(presented.sheet.value.trigger) {
          presented.Dismiss(log);
        } else {
          return;
        }
      }
      var coordinator := new Coordinator(Some(s), this);
      coordinator.viewController := Some(HostingController(false));
      presented := coordinator;
      if viewController.Some? {
        log.events := log.events + [PresentController(s.id)];
      }
    }

    /**
     * `dismissPresentedSheet()`: does nothing without a child showing a
     * sheet; otherwise takes the child's hosting controller away (dismissing
     * it if it was still there), forgets the child, resets the binding if it
     * still asks for the sheet, and calls `onDismiss` once.
     */
    method DismissPresentedSheet(log: EffectLog)
      requires presented != this
      modifies this, log, ChildFrame()
      ensures DismissPresentedOutcome(this, old(presented), log)
    {
      if presented == null || presented.sheet.None? {
        return;
      }
      var child := presented;
      var s := child.sheet.value;
      if child.viewController.Some? {
        child.viewController := None;
        log.events := log.events + [DismissController(s.id)];
      }
      presented := null;
      if !ShouldDismiss(s.trigger) {
        ResetBinding(s.trigger);
        log.events := log.events + [BindingReset(s.id)];
      }
      if s.onDismiss.Some? {
        log.events := log.events + [OnDismissCalled(s.onDismiss.value)];
      }
    }

    /**
     * `dismiss()`: asks the presenting node to tear this node down, but only
     * while this node is still its presented child.
     */
    method Dismiss(log: EffectLog)
      requires presenting != this
      modifies presenting, this, log, BindingFrame()
      ensures DismissOutcome(this, log)
    {
      if presenting != null && presenting.presented == this {
        presenting.DismissPresentedSheet(log);
      }
    }

    /**
     * `presentationControllerDidAttemptToDismiss(_:)`: runs every registered
     * callback once, in order, and changes no coordinator.
     */
    method PresentationControllerDidAttemptToDismiss(log: EffectLog)
      modifies log
      ensures log.events == old(log.events) + Invocations(onDidAttemptToDismiss)
    {
      var callbacks := onDidAttemptToDismiss;
      var i := 0;
      while i < |callbacks|
        invariant 0 <= i <= |callbacks|
        invariant log.events == old(log.events) + Invocations(callbacks[..i])
      {
        assert callbacks[..i + 1][..i] == callbacks[..i];
        log.events := log.events + [AttemptCallbackCalled(callbacks[i].action)];
        i := i + 1;
      }
      assert callbacks[..i] == callbacks;
    }

    /**
     * `presentationControllerDidDismiss(_:)`: UIKit has already removed the
     * hosting controller, so the node forgets it and then dismisses itself;
     * no `DismissController` call follows.
     */
    method PresentationControllerDidDismiss(log: EffectLog)
      requires presenting != this
      modifies presenting, this, log, BindingFrame()
      ensures viewController == None
      ensures presented == old(presented) && onDidAttemptToDismiss == old(onDidAttemptToDismiss)
      ensures old(IsCurrent()) && sheet.Some? ==>
        && presenting.presented == null
        && presenting.viewController == old(presenting.viewController)
        && presenting.onDidAttemptToDismiss == old(presenting.onDidAttemptToDismiss)
        && BindingSettled(sheet.value.trigger)
        && log.events == old(log.events) + TeardownEffects(sheet.value, false, old(ShouldDismiss(sheet.value.trigger)))
      ensures !(old(IsCurrent()) && sheet.Some?) ==>
        && log.events == old(log.events) && unchanged(BindingFrame())
        && (presenting != null ==> unchanged(presenting))
      ensures forall k :: |old(log.events)| <= k < |log.events| ==> !log.events[k].DismissController?
    {
      viewController := None;
      Dismiss(log);
    }
  }

  /**
   * What a teardown does to the binding: left alone when it had already let
   * go of the sheet, cleared when it still asked for it; either way it no
   * longer asks for the sheet afterwards.
   */
  twostate predicate BindingSettled(t: Trigger)
    reads Footprint(t)
  {
    && (old(ShouldDismiss(t)) ==> unchanged(Footprint(t)))
    && (!old(ShouldDismiss(t)) ==> Cleared(t))
    && ShouldDismiss(t)
  }

  /** `parent` has torn down its child `child`, which showed a sheet. */
  twostate predicate TornDown(parent: Coordinator, child: Coordinator, log: EffectLog)
    requires child.sheet.Some?
    reads parent, child, log, child.BindingFrame()
  {
    var s := child.sheet.value;
    && parent.presented == null
    && parent.viewController == old(parent.viewController)
    && parent.onDidAttemptToDismiss == old(parent.onDidAttemptToDismiss)
    && child.viewController == None
    && child.presented == old(child.presented)
    && child.onDidAttemptToDismiss == old(child.onDidAttemptToDismiss)
    && BindingSettled(s.trigger)
    && log.events == old(log.events) + TeardownEffects(s, old(child.viewController).Some?, old(ShouldDismiss(s.trigger)))
  }

  /** The outcome of `parent.dismissPresentedSheet()` when `child` was its presented child. */
  twostate predicate DismissPresentedOutcome(parent: Coordinator, child: Coordinator?, log: EffectLog)
    reads parent, child, log, if child == null then {} else child.BindingFrame()
  {
    if child == null || child.sheet.None? then
      unchanged(parent, log) && (child != null ==> unchanged(child))
    else
      TornDown(parent, child, log)
  }

  /** The outcome of `c.dismiss()`. */
  twostate predicate DismissOutcome(c: Coordinator, log: EffectLog)
    reads c, c.presenting, log, c.BindingFrame()
  {
    if old(c.IsCurrent()) && c.sheet.Some? then
      TornDown(c.presenting, c, log)
    else
      unchanged(c, log) && unchanged(c.BindingFrame()) && (c.presenting != null ==> unchanged(c.presenting))
  }

  /** The outcome of `c.present(sheet: s)` when `child` was the presented child. */
  twostate predicate PresentOutcome(c: Coordinator, child: Coordinator?, s: BetterSheet, log: EffectLog)
    reads c, c.presented, log, child, if child == null then {} else child.BindingFrame()
  {
    var teardown := child != null && child.sheet.Some?;
    if teardown && !old(ShouldDismiss(child.sheet.value.trigger)) then
      // the request is dropped
      unchanged(c, log, child) && unchanged(child.BindingFrame())
    else
      && c.presented != null && fresh(c.presented)
      && c.presented.sheet == Some(s) && c.presented.presenting == c
      && c.presented.viewController == Some(HostingController(false))
      && c.presented.presented == null && c.presented.onDidAttemptToDismiss == []
      && c.viewController == old(c.viewController)
      && c.onDidAttemptToDismiss == old(c.onDidAttemptToDismiss)
      && (teardown ==>
            && child.viewController == None
            && child.presented == old(child.presented)
            && child.onDidAttemptToDismiss == old(child.onDidAttemptToDismiss)
            && unchanged(child.BindingFrame()))
      && (child != null && !teardown ==> unchanged(child))
      && log.events == old(log.events)
           + (if teardown then TeardownEffects(child.sheet.value, old(child.viewController).Some?, true) else [])
           + (if c.viewController.Some? then [PresentController(s.id)] else [])
  }
}
