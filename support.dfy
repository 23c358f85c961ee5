/**
 * `BetterSheetSupport`: wraps the content shown by one coordinator, hands
 * the content a presentation-mode handle for that coordinator, and feeds the
 * three merged preferences of the content into the coordinator.
 */
module Support {
  import opened Wrappers
  import opened SheetDescriptor
  import opened DismissAttempt
  import opened Coordination
  import opened PresentationModes

  /** The handle `init` stores in `presentationMode` and `body` injects. */
  function PresentationModeFor(coordinator: Coordinator): (mode: PresentationMode)
    ensures mode.coordinator == coordinator
    ensures IsPresented(mode) <==> coordinator.viewController.Some?
  {
    PresentationMode(coordinator)
  }

  /**
   * The handler for the merged pending sheet: a sheet is presented, nil
   * dismisses whatever is presented.
   */
  method OnSheetChange(coordinator: Coordinator, sheet: Option<BetterSheet>, log: EffectLog)
    requires coordinator.Valid()
    modifies coordinator, log, coordinator.ChildFrame()
    ensures coordinator.Valid()
    ensures sheet.Some? ==> PresentOutcome(coordinator, old(coordinator.presented), sheet.value, log)
    ensures sheet.None? ==> DismissPresentedOutcome(coordinator, old(coordinator.presented), log)
  {
    match sheet
    case Some(s) =>
      coordinator.Present(s, log);
    case None =>
      coordinator.DismissPresentedSheet(log);
  }

  /** The handler for the merged callbacks: the list is replaced, not merged with the old one. */
  method OnCallbacksChange(coordinator: Coordinator, value: seq<Callback>)
    modifies coordinator
    ensures coordinator.onDidAttemptToDismiss == value
    ensures coordinator.presented == old(coordinator.presented)
    ensures coordinator.viewController == old(coordinator.viewController)
  {
    coordinator.onDidAttemptToDismiss := value;
  }

  /**
   * The handler for the merged modal flag: applied to the hosting controller
   * when there is one, with nil read as false.
   */
  method OnModalChange(coordinator: Coordinator, value: Option<bool>)
    modifies coordinator
    ensures old(coordinator.viewController) == None ==> coordinator.viewController == None
    ensures old(coordinator.viewController) != None ==>
      coordinator.viewController == Some(HostingController(value == Some(true)))
    ensures coordinator.presented == old(coordinator.presented)
    ensures coordinator.onDidAttemptToDismiss == old(coordinator.onDidAttemptToDismiss)
  {
    if coordinator.viewController.Some? {
      coordinator.viewController := Some(coordinator.viewController.value.(isModalInPresentation := value.GetOr(false)));
    }
  }
}
