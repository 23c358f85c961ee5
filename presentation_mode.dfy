/**
 * `BetterSheetPresentationMode`: the handle presented content receives to
 * ask whether it is presented and to dismiss itself.
 */
module PresentationModes {
  import opened Coordination

  datatype PresentationMode = PresentationMode(coordinator: Coordinator?)

  /** The handle content sees outside any sheet: `BetterSheetPresentationMode()`. */
  const Default := PresentationMode(null)

  /** `isPresented`: `coordinator?.viewController != nil`. */
  predicate IsPresented(mode: PresentationMode)
    reads mode.coordinator
  {
    mode.coordinator != null && mode.coordinator.viewController.Some?
  }

  /** Outside any sheet, content is not presented. */
  lemma DefaultIsNotPresented()
    ensures !IsPresented(Default)
  {
  }

  /** The objects `Dismiss(mode, _)` may touch besides the log. */
  function DismissFrame(mode: PresentationMode): set<object?> {
    if mode.coordinator == null then {}
    else {mode.coordinator, mode.coordinator.presenting} + mode.coordinator.BindingFrame()
  }

  /**
   * `dismiss()`: `coordinator?.dismiss()`, so it does nothing for the default
   * handle and exactly what the coordinator's `dismiss` does otherwise,
   * including ignoring a stale handle.
   */
  method Dismiss(mode: PresentationMode, log: EffectLog)
    requires mode.coordinator != null ==> mode.coordinator.presenting != mode.coordinator
    modifies log, DismissFrame(mode)
    ensures mode.coordinator == null ==> unchanged(log)
    ensures mode.coordinator != null ==> DismissOutcome(mode.coordinator, log)
  {
    if mode.coordinator != null {
      mode.coordinator.Dismiss(log);
    }
  }
}
