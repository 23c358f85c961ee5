# BetterSheet presentation coordinator in Dafny

BetterSheet adds stacked modal sheets to SwiftUI. It has three parts:

- **Sheet descriptors.** A view asks for a sheet by publishing a *sheet descriptor* (`BetterSheet`) as a preference. The descriptor is built from a `Bool` binding or from an optional `Identifiable` item binding.
- **Coordinators.** A *coordinator* (`BetterSheetCoordinator`) per presentation level presents at most one child coordinator, and tears it down again.
- **Support view.** `BetterSheetSupport` wraps each level's content. It feeds the merged preferences into the coordinator and injects a *presentation-mode* handle, which content uses to ask whether it is presented and to dismiss itself.

This project models those parts and proves what they promise:

- the drop-or-preempt policy of `present`;
- the conditional binding reset and the single `onDismiss` call of `dismissPresentedSheet`;
- the stale-handle guard of `dismiss`;
- the three preference merge rules;
- the glue between the support view, the presentation-mode handle and the coordinator.

Modules, one per source file:

| module | file | form |
|---|---|---|
| `Wrappers` | (Swift `Optional`) | `Option` datatype |
| `Bindings` | (SwiftUI `Binding`, `Identifiable`) | `Binding<T>` class: a heap cell shared by everything built from it |
| `SheetDescriptor` | `BetterSheet.swift` | immutable `BetterSheet` datatype, id-only equality, UUID source |
| `SheetModifiers` | `View+BetterSheet.swift` | descriptor builders, published preference values, `shouldDismiss`/`resetBinding` |
| `PreferenceMerge` | `BetterSheetPreferenceKey.swift` (rule also used by the modal key) | "last non-nil wins" `reduce` and its fold |
| `ModalPreference` | `BetterSheetIsModalInPresentation.swift` | modal flag publication |
| `DismissAttempt` | `OnBetterSheetDidAttemptToDismiss.swift` | callback class, "append" `reduce` and its fold |
| `Coordination` | `BetterSheetCoordinator.swift` | `Coordinator` class with the effect log |
| `PresentationModes` | `BetterSheetPresentationMode.swift` | presentation-mode handle |
| `Support` | `BetterSheetSupport.swift` | the three preference handlers and the injected handle |
| `Scenarios` | `Example/BetterSheetExample/ContentView.swift` | client runs proved from the contracts alone |

Modelling choices:

- **Closures.** A descriptor's closures become tags. `shouldDismiss` and `resetBinding` are represented by the `Trigger` they were built from: `FromFlag(binding)` or `FromItem(binding, capturedItem)`.
  - `SheetModifiers.ShouldDismiss` evaluates `shouldDismiss` against the binding's *current* value.
  - `SheetModifiers.ResetBinding` writes the binding.
  - `onDismiss`, the content factory and the dismiss-attempt actions are identities (`ActionId`, `ContentId`) of client code.
- **Effect log.** Every outside call the coordinator makes is appended, in order, to an `EffectLog` object passed to its methods: UIKit `present`/`dismiss`, the reset closure, `onDismiss` and the dismiss-attempt actions. Ordering and exactly-once claims are stated against that log.
- **Hosting controller.** The weak `viewController` field is an `Option<HostingController>`. The `isModalInPresentation` flag lives on the hosting controller, as in UIKit.
- **Fixed fields.** Swift only assigns `sheet` and `presentingCoordinator` in `init`, so they are `const` fields.
- **Invariant.** `Valid()` says that no node presents itself and that a presented child points back at its presenter. The constructor establishes it, `Present` keeps it, and the other methods only ever clear `presented`. `Dismiss` and `PresentationControllerDidDismiss` need only the first half (`presenting != this`), which holds for every node the constructor builds.
- **Grandchildren.** Tearing a child down leaves that child's own `presented` link untouched, as the source does (`TornDown` states `child.presented == old(child.presented)`).

Where the description of the system and the code differ, the model follows the code:

- There is no separate "dismissing" state.
- `onDismiss` runs synchronously inside `dismissPresentedSheet`, right after the hosting controller's `dismiss(animated:)` call, not after the animation ends.
- The dismiss-attempt callbacks are an ordered list, not a set.
- `present` installs the new child even when the presenting node has no hosting controller. It then simply makes no `present` call to UIKit.

## Model

| member | source | states |
|---|---|---|
| `SheetDescriptor.EqualIgnoresClosures` | Sources/BetterSheet/BetterSheet.swift:18-20 | descriptors with the same id are equal whatever their content, `onDismiss` and binding closures |
| `SheetDescriptor.DistinctIdsUnequal` | Sources/BetterSheet/BetterSheet.swift:12-20 | descriptors with different ids are unequal, even when every closure is the same |
| `SheetDescriptor.EqualIsEquivalence` | Sources/BetterSheet/BetterSheet.swift:18-20 | `==` is reflexive, symmetric and transitive |
| `SheetDescriptor.IdSource.Fresh` | Sources/BetterSheet/BetterSheet.swift:12 | each construction draws an id never drawn before |
| `SheetModifiers.ResetBinding` | Sources/BetterSheet/View+BetterSheet.swift:20-49 | `resetBinding` sets `isPresented` to false or `item` to nil, after which `shouldDismiss` is true |
| `SheetModifiers.ClearedShouldDismiss` | Sources/BetterSheet/View+BetterSheet.swift:20-49 | a cleared binding makes `shouldDismiss` true, for both variants |
| `SheetModifiers.IsPresentedPreference` | Sources/BetterSheet/View+BetterSheet.swift:16-36 | the bool modifier publishes nil iff `isPresented` is false; a published descriptor carries the given id and `onDismiss`, reads exactly that binding, and does not want dismissal when built |
| `SheetModifiers.ItemPreference` | Sources/BetterSheet/View+BetterSheet.swift:44-64 | the item modifier publishes nil iff the item is nil; a published descriptor captures the selected item, carries `onDismiss` through and does not want dismissal when built |
| `SheetModifiers.IsPresentedPublishedIffWanted` | Sources/BetterSheet/View+BetterSheet.swift:20-33 | the bool modifier publishes a descriptor exactly when that descriptor's `shouldDismiss` is false |
| `SheetModifiers.ClearedWithdrawsPreference` | Sources/BetterSheet/View+BetterSheet.swift:29-63 | once `resetBinding` has run, both modifiers publish nil |
| `SheetModifiers.ItemShouldDismissTracksId` | Sources/BetterSheet/View+BetterSheet.swift:48 | item `shouldDismiss` is false iff the selection holds an item with the captured id; nil or another id means dismiss |
| `PreferenceMerge.DefaultValue` | Sources/BetterSheet/BetterSheetPreferenceKey.swift:14 | the pending-sheet default is nil |
| `PreferenceMerge.Reduce` | Sources/BetterSheet/BetterSheetPreferenceKey.swift:16-19 | a nil next value keeps the accumulator, a non-nil one replaces it; reducing a value with itself keeps it |
| `PreferenceMerge.FoldIsLastNonNil` | Sources/BetterSheet/BetterSheetPreferenceKey.swift:14-19 | folding publishers from the default yields the last non-nil one, or nil when all are nil |
| `PreferenceMerge.FoldAppend` | Sources/BetterSheet/BetterSheetPreferenceKey.swift:16-19 | merging two groups of publishers separately and then reducing equals merging them all |
| `PreferenceMerge.ReduceAssociative` | Sources/BetterSheet/BetterSheetPreferenceKey.swift:17-18 | `reduce` is associative |
| `ModalPreference.IsModalInPresentation` | Sources/BetterSheet/BetterSheetIsModalInPresentation.swift:22-24 | the modifier publishes `Some(value)` |
| `ModalPreference.ReduceIdempotent` | Sources/BetterSheet/BetterSheetIsModalInPresentation.swift:16-18 | `reduce(v, v) == v` for the modal flag |
| `ModalPreference.LastModifierWins` | Sources/BetterSheet/BetterSheetIsModalInPresentation.swift:14-24 | the merged flag is the one published by the last modifier, whatever came before, when later publishers publish nil |
| `DismissAttempt.Callback.constructor` | Sources/BetterSheet/OnBetterSheetDidAttemptToDismiss.swift:11-20 | a callback object wraps its action; equality is object identity |
| `DismissAttempt.DefaultValue` | Sources/BetterSheet/OnBetterSheetDidAttemptToDismiss.swift:26 | the callback-list default is empty |
| `DismissAttempt.Reduce` | Sources/BetterSheet/OnBetterSheetDidAttemptToDismiss.swift:28-30 | `reduce` keeps the accumulated callbacks in place and appends the next ones in order; lengths add; an empty next is the identity |
| `DismissAttempt.FoldIsConcat` | Sources/BetterSheet/OnBetterSheetDidAttemptToDismiss.swift:26-30 | merging many publishers yields the concatenation of their lists in traversal order |
| `DismissAttempt.FoldAppend` | Sources/BetterSheet/OnBetterSheetDidAttemptToDismiss.swift:28-30 | merging two groups separately and then reducing equals merging them all |
| `DismissAttempt.OnDidAttemptToDismiss` | Sources/BetterSheet/OnBetterSheetDidAttemptToDismiss.swift:34-36 | the modifier publishes a one-element list holding a newly made callback for the action |
| `Coordination.TeardownEffects` | Sources/BetterSheet/BetterSheetCoordinator.swift:52-67 | a teardown dismisses the hosting controller first and only if it was still there, resets the binding only when `shouldDismiss` is false, calls `onDismiss` last if present, and makes no other call |
| `Coordination.TeardownExactlyOnce` | Sources/BetterSheet/BetterSheetCoordinator.swift:55-66 | in one teardown, each of those three calls happens exactly once when its condition holds and never otherwise |
| `Coordination.Invocations` | Sources/BetterSheet/BetterSheetCoordinator.swift:74-78 | running the dismiss-attempt callbacks calls each registered action once, in list order |
| `Coordination.Coordinator.constructor` | Sources/BetterSheet/BetterSheetCoordinator.swift:25-28 | a new node has the given sheet and presenter (none by default: a root), no child, no hosting controller and no callbacks |
| `Coordination.Coordinator.Present` | Sources/BetterSheet/BetterSheetCoordinator.swift:30-50 | if the current child's sheet is still wanted, nothing changes and no call is made. Otherwise the old child is torn down (no binding reset, `onDismiss` before the new `present` call) and a new child with the given sheet, this node as presenter and a fresh hosting controller is installed. The invariant is kept |
| `Coordination.Coordinator.DismissPresentedSheet` | Sources/BetterSheet/BetterSheetCoordinator.swift:52-67 | a no-op without a child or a child sheet. Otherwise the child loses its hosting controller, the child link is cleared, the binding is reset iff `shouldDismiss` was false (and no longer asks for the sheet afterwards), and the calls are exactly `TeardownEffects` |
| `Coordination.Coordinator.Dismiss` | Sources/BetterSheet/BetterSheetCoordinator.swift:69-72 | a no-op on a root and on a node that is no longer its presenter's child; otherwise exactly the presenter's `dismissPresentedSheet` |
| `Coordination.Coordinator.PresentationControllerDidAttemptToDismiss` | Sources/BetterSheet/BetterSheetCoordinator.swift:74-78 | appends one call per registered callback, in order, and changes no coordinator |
| `Coordination.Coordinator.PresentationControllerDidDismiss` | Sources/BetterSheet/BetterSheetCoordinator.swift:80-83 | clears the node's hosting controller, then behaves as `dismiss`; no `DismissController` call is issued |
| `PresentationModes.DefaultIsNotPresented` | Sources/BetterSheet/BetterSheetPresentationMode.swift:14-22 | the default, coordinator-less handle reports not presented |
| `PresentationModes.Dismiss` | Sources/BetterSheet/BetterSheetPresentationMode.swift:24-26 | does nothing on the default handle; otherwise has exactly the coordinator's `dismiss` outcome, stale-handle no-op included |
| `Support.PresentationModeFor` | Sources/BetterSheet/BetterSheetSupport.swift:16-24 | the injected handle refers to exactly this coordinator, and `isPresented` is true iff that coordinator has a hosting controller |
| `Support.OnSheetChange` | Sources/BetterSheet/BetterSheetSupport.swift:25-31 | a non-nil merged sheet has exactly the outcome of `present(sheet:)`, nil that of `dismissPresentedSheet()` |
| `Support.OnCallbacksChange` | Sources/BetterSheet/BetterSheetSupport.swift:32-34 | the coordinator's callback list is replaced wholesale by the merged list |
| `Support.OnModalChange` | Sources/BetterSheet/BetterSheetSupport.swift:35-37 | with a hosting controller, its modal flag becomes true iff the merged flag is `Some(true)`, so nil reads as false; without one, nothing is set |
| `Scenarios.NewRoot` | Sources/BetterSheet/UIHostingController+BetterSheet.swift:12-24 | a root built with the default `init` and hooked to its hosting controller is valid, has no presenter and no child |
| `Scenarios.BasicUsage` | Example/BetterSheetExample/ContentView.swift:22-36 | flag set, sheet presented, user swipe: the calls are `present`, binding reset, `onDismiss` once; the flag ends false; the nil republication does nothing |
| `Scenarios.SelectionChange` | Example/BetterSheetExample/ContentView.swift:38-53 | Apple then Banana: Apple is presented, then dismissed without a binding reset, then Banana is presented; Apple's stale handle then does nothing |
| `Scenarios.RequestWhilePresented` | Example/BetterSheetExample/ContentView.swift:140-165 | with the item editor up, an "Add" request is dropped: only the first `present` call is made and the editor stays |
| `Scenarios.LockEditor` | Example/BetterSheetExample/ContentView.swift:114-117 | the merged modal flag and callback list reach the editor's coordinator |
| `Scenarios.ModalLockedForm` | Example/BetterSheetExample/ContentView.swift:89-137 | on a locked editor a swipe only runs the registered action once; "Cancel" then dismisses it, resetting the flag |

## Left out

- UIKit presentation: `UIHostingController`, `present(_:animated:)`, `dismiss(animated:)` and the animations are not modelled. Only the calls are recorded as effects. The `presentationController?.delegate = self` wiring and what `isModalInPresentation` does to the swipe gesture are left out too: the platform callbacks are plain method calls.
- Asynchrony: platform callbacks are modelled as synchronous calls in the order the caller makes them.
- Weak references and ARC: `presentingCoordinator` and `viewController` are plain (nullable or optional) fields that are never released. In particular, the model does not capture a child's hosting controller being freed when its presenter had no hosting controller to present it from.
- Client code: `onDismiss`, the dismiss-attempt actions and the content factory are identities. Running them is recorded as an effect; what they do, including re-entering the coordinator from inside an action, is not modelled.
- Type-erased content (`AnyView`, `content()`) is a `ContentId` tag that the logic never reads.
- The item type: `Identifiable` items are modelled as `Item(id, rest)` with a string id, as in the example app; the library only reads `id`.
- UUID generation: `SheetDescriptor.IdSource` hands out fresh ids from a counter. The builders take the drawn id as an argument.
- SwiftUI's preference walk: the merges are modelled as a left fold of `reduce` from `defaultValue` over publishers in traversal order. When `onPreferenceChange` fires (only on a changed value) is not modelled; the handlers are called directly.
- Environment-key plumbing (`BetterSheetPresentationModeEnvironmentKey`, `EnvironmentValues.betterSheetPresentationMode`): the handle is handed to content as a value. `Default` stands for the environment default.
- `UIHostingController+BetterSheet.swift` is not part of this model beyond `Scenarios.NewRoot`, which builds the root coordinator the same way.
- The example app's views, editing logic and `Package.swift` are not modelled.
