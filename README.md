# RentalAssistant detection core, modelled in Dafny

RentalAssistant is an augmented-reality app that points the camera at household
objects and shows instructions for them (door lock code, WiFi credentials,
appliance guides). This project models the part of it that decides *what* is
shown:

- the **frame throttle** of the AR session coordinator (`ARViewContainer.Coordinator`),
  which lets a camera frame through at most every 100 ms and hands it to the
  classifier only while scanning is on;
- the **detection pipeline** of `ARViewModel`: observations at or below
  confidence 0.05 are dropped, the remaining identifiers are lower-cased and
  resolved to one of six categories by ordered keyword groups
  (`identifyObject`), a recognised category is published after a 300 ms
  debounce, and a detection is cleared after more than 1.5 s without a
  recognition when a batch with no qualifying observation arrives;
- the manual override `selectObject` and the `startDetection`/`stopDetection`
  switches;
- the six-case `DetectedObjectInfo` enum with its `id` and `title`.

Files:

- `wrappers.dfy` — `Option`, standing for Swift's `T?`.
- `text.dfy` — substring search (`String.contains`) as an executable function
  proved equal to the existential definition; ASCII lower-casing.
- `detected_object.dfy` — the enum, `id`, `title`, `allCases`, `init?(rawValue:)`.
- `resolver.dfy` — `identifyObject` and its first-match characterisation.
- `detection.dfy` — the confidence filter and classification, a pure model of
  the view model's state (`ViewState`, `Step`, `Run` over serialised events),
  the trace lemmas about debounce and decay, and the `ARViewModel` class whose
  methods are proved against `Step`.
- `frame_throttle.dfy` — the gate, a pure model of a run of frame arrivals,
  the spacing lemma, and the `Coordinator` class whose ghost history ties it
  to that model.

Conventions of the model:

- Time is an integer number of milliseconds; a moment is passed in as `now`.
- A confidence is an integer in units of 1/10000, so the `Float` threshold
  0.05 is 500.
- All events (classifier results, timer firings, taps, frames) are
  serialised; the debounced publish is an explicit pending
  `(category, due time)` that a `Tick(now)` / `TimerFired(now)` event
  delivers once `now >= due`.

Behaviour of the code worth knowing, all of it modelled as written:

- A frame that passes the 100 ms gate is handed to the classifier only while
  `isDetecting` is true. It restarts the 100 ms window either way
  (`ARViewContainer.swift:46-54`).
- A detection is cleared only when a batch arrives with *no* observation
  above the threshold, and more than 1.5 s have passed since the last
  *recognised* batch. A batch that passes the threshold but matches no
  category never clears anything (`ARViewModel.swift:79-93`).
- Clearing a stale detection does not cancel a pending publish
  (`ARViewModel.swift:79-88`). `DecayOnlyAfterDue` shows that in any
  reachable state such a publish is already due when decay clears; if the
  timer has not fired yet, it fires later and writes the category back
  (`DecayThenOverdueTimerRepublishes`).
- `selectObject` does not touch `lastDetectionTime`. A manual selection is
  therefore cleared by the next batch with nothing above the threshold, once
  1.5 s have passed since the last recognition or since creation
  (`ARViewModel.swift:36-40` with `79-88`; `SelectionClearedByDecay`).
- `selectObject` does not cancel a pending publish either. A selection made
  while a recognised category is pending is overwritten by that category
  when its 300 ms are up (`ARViewModel.swift:36-40` with `98-105`;
  `SelectionOverwrittenByPendingPublish`).

## Model

| member | source | states |
|---|---|---|
| `Text.Contains` | RentalAssistant/ARViewModel.swift:110-112 | the executable left-to-right substring test used for `String.contains` holds exactly when the keyword occurs at some position of the label |
| `Text.Lower` | RentalAssistant/ARViewModel.swift:90 | `lowercased()` keeps the length, maps each letter A-Z to the letter 32 code points above it (a-z) and leaves every other character as it is |
| `Text.LowerIsLowerCase` | RentalAssistant/ARViewModel.swift:90 | lower-cased text has no upper-case letter, and lower-casing it again changes nothing |
| `DetectedObjects.FromRawValue` | RentalAssistant/ARViewModel.swift:159 | the raw-value initialiser returns a case whose `id` is the given string, and returns nothing exactly when no case has that `id` |
| `DetectedObjects.RawValueRoundTrip` | RentalAssistant/ARViewModel.swift:159-167 | every case is recovered from its `id` |
| `DetectedObjects.DetectedObjectInfo.Id` | RentalAssistant/ARViewModel.swift:159-167 | `id` is the raw value, the case name; `RawValueRoundTrip` and `IdsAndTitlesDistinct` state its properties |
| `DetectedObjects.DetectedObjectInfo.Title` | RentalAssistant/ARViewModel.swift:169-178 | the six card titles; `IdsAndTitlesDistinct` states that they tell the cases apart |
| `DetectedObjects.AllCases` | RentalAssistant/ARViewModel.swift:159-165 | `allCases` has six entries, entry `i` is the `i`-th declared case, and every case is in it at its position |
| `DetectedObjects.IdsAndTitlesDistinct` | RentalAssistant/ARViewModel.swift:167-178 | two cases with the same `id`, or the same `title`, are the same case |
| `Resolver.IdentifyObject` | RentalAssistant/ARViewModel.swift:109-153 | the six group checks in the source's order, first match returned; its meaning is stated by `IdentifyObjectIsFirstMatch` and `IdentifyObjectNone` |
| `Resolver.AnyLabelIsGroupMatch` | RentalAssistant/ARViewModel.swift:110-113 | the `contains(where:)` check of one keyword group holds exactly when some label contains some keyword of that group |
| `Resolver.IdentifyObjectIsFirstMatch` | RentalAssistant/ARViewModel.swift:109-150 | `identifyObject` returns category `c` exactly when `c`'s group matches and no group declared before `c` matches |
| `Resolver.IdentifyObjectNone` | RentalAssistant/ARViewModel.swift:109-152 | `identifyObject` returns nil exactly when no label contains any keyword of any group |
| `Resolver.NoLabelsNoCategory` | RentalAssistant/ARViewModel.swift:152 | an empty label list resolves to nil |
| `Resolver.LockWins` | RentalAssistant/ARViewModel.swift:110-115 | any label containing "lock" yields doorLock, whatever the other labels are |
| `Resolver.Keywords` | RentalAssistant/ARViewModel.swift:110-149 | the keyword list of each of the six categories, in the order the resolver tries them |
| `Resolver.RouterLockIsDoorLock` | RentalAssistant/ARViewModel.swift:110-122 | for any labels, if some label matches the router group and some label matches the lock group, the result is doorLock, the earlier group |
| `Resolver.RouterLockExample` | RentalAssistant/ARViewModel.swift:110-122 | the label "router lock" matches the router group and still resolves to doorLock |
| `Resolver.ClockIsDoorLock` | RentalAssistant/ARViewModel.swift:110-115 | matching is by substring, so the label "wall clock" resolves to doorLock |
| `Resolver.DoorLockGroupReduces` | RentalAssistant/ARViewModel.swift:110-113 | the door-lock group matches exactly when some label contains "lock" or "doorbell"; "combination lock" and "padlock" add nothing |
| `Resolver.DependsOnlyOnLabelSet` | RentalAssistant/ARViewModel.swift:110-149 | two label lists with the same members (reordered or duplicated) resolve to the same result |
| `Detection.TopObservations` | RentalAssistant/ARViewModel.swift:77 | the filter keeps exactly the observations whose confidence exceeds 0.05, and no more than it was given |
| `Detection.Identifiers` | RentalAssistant/ARViewModel.swift:90 | one identifier per qualifying observation, and a string is among them exactly when it is the lower-cased identifier of a qualifying observation |
| `Detection.Classify` | RentalAssistant/ARViewModel.swift:76-93 | a batch takes the decay path exactly when no observation in it exceeds the threshold |
| `Detection.LowConfidenceIgnored` | RentalAssistant/ARViewModel.swift:77 | inserting an observation with confidence at most 0.05 anywhere in a batch never changes the outcome, whatever its label |
| `Detection.CaseInsensitive` | RentalAssistant/ARViewModel.swift:90 | batches whose identifiers agree up to letter case, with the same confidences, have the same outcome |
| `Detection.ClassifyRecognized` | RentalAssistant/ARViewModel.swift:76-95 | a batch is recognised as `c` exactly when some observation above the threshold has a lower-cased identifier containing a keyword of `c` and none does for an earlier category |
| `Detection.ClassifyUnrecognized` | RentalAssistant/ARViewModel.swift:77-93 | a batch takes the silent path exactly when some observation exceeds the threshold but no qualifying identifier matches any group |
| `Detection.RecognizedStep` | RentalAssistant/ARViewModel.swift:95-106 | a recognised batch at `now` sets `lastDetectionTime` to `now`, replaces any pending publish by one due at `now + 300`, and changes nothing else |
| `Detection.Initial` | RentalAssistant/ARViewModel.swift:10-26 | a new view model shows nothing, is not scanning, has no pending publish, has `lastDetectionTime` equal to its creation time, and satisfies the debounce invariant |
| `Detection.Step` | RentalAssistant/ARViewModel.swift:28-107 | the transition every class method is proved against; it keeps the debounce invariant, only a batch moves `lastDetectionTime` (to the batch's time), only start/stop move `isDetecting`, and `detectedObject` changes only to nil on a batch, to the pending category on a timer, or to the selected case on a tap |
| `Detection.QuietStep` | RentalAssistant/ARViewModel.swift:79-105 | an event that is neither a recognised batch nor a timer at or after the due time keeps the pending publish and `lastDetectionTime`, and publishes nothing |
| `Detection.QuietPrefixes` | RentalAssistant/ARViewModel.swift:79-105 | every prefix of a run of such events keeps the pending publish, and no step of it writes the pending category |
| `Detection.DebounceCoalesces` | RentalAssistant/ARViewModel.swift:95-106 | after a recognition of `c1` at `t1`, any events that are not recognitions, and no timer later than `t2`, keep `c1`'s publish pending and never write it; a recognition of `c2` at `t2 < t1 + 300` then leaves only `c2` pending, due at `t2 + 300`, with `lastDetectionTime = t2` |
| `Detection.RunKeepsDebounceInvariant` | RentalAssistant/ARViewModel.swift:95-106 | under every event sequence a pending publish stays due exactly 300 ms after `lastDetectionTime` |
| `Detection.DecayOnlyAfterDue` | RentalAssistant/ARViewModel.swift:79-100 | in any state reachable from creation, when a batch with no qualifying observation arrives more than 1.5 s after the last recognition, the detection is cleared and, if a publish is pending, it is already due |
| `Detection.DecayThenOverdueTimerRepublishes` | RentalAssistant/ARViewModel.swift:79-105 | decay does not cancel a pending publish: a batch with nothing above the threshold more than 1.5 s after the last recognition clears the detection, and a timer at or after the due time then writes the pending category back |
| `Detection.TimerDeliversOnce` | RentalAssistant/ARViewModel.swift:99-105 | a timer at or after the due time writes the pending category to `detectedObject` and clears the pending publish, so a later timer changes nothing |
| `Detection.SelectionClearedByDecay` | RentalAssistant/ARViewModel.swift:36-88 | a manual selection shows at once, and a batch with nothing above the threshold more than 1.5 s after the last recognition clears it |
| `Detection.SelectionOverwrittenByPendingPublish` | RentalAssistant/ARViewModel.swift:36-105 | a manual selection shows at once, and a pending publish that comes due afterwards replaces it with the pending category |
| `Detection.ARViewModel.constructor` | RentalAssistant/ARViewModel.swift:10-26 | a new view model has no detection, is not scanning, has no pending publish, has `lastDetectionTime` equal to its creation time, and satisfies `Valid` (the debounce invariant) |
| `Detection.ARViewModel.StartDetection` | RentalAssistant/ARViewModel.swift:28-30 | sets `isDetecting` and changes no other field |
| `Detection.ARViewModel.StopDetection` | RentalAssistant/ARViewModel.swift:32-34 | clears `isDetecting` and changes no other field |
| `Detection.ARViewModel.SelectObject` | RentalAssistant/ARViewModel.swift:36-40 | sets `detectedObject` at once and leaves `lastDetectionTime`, the pending publish and `isDetecting` untouched |
| `Detection.ARViewModel.ProcessClassifications` | RentalAssistant/ARViewModel.swift:76-107 | decay path: clears the detection only if more than 1.5 s passed since `lastDetectionTime`, which it never changes; unrecognised path: changes nothing; recognised path: stamps `now` and replaces the pending publish by one due at `now + 300`; in all cases the new state is `Step` of the old and `Valid` is kept; when decay clears the detection, any pending publish is already due |
| `Detection.ARViewModel.Tick` | RentalAssistant/ARViewModel.swift:99-105 | delivers the pending category and clears the pending publish once `now` reaches its due time, otherwise changes nothing |
| `FrameThrottle.PassesGate` | RentalAssistant/ARViewContainer.swift:46 | a frame passes the gate exactly when at least 100 ms have elapsed since `lastProcessedTime` |
| `FrameThrottle.LastProcessed` | RentalAssistant/ARViewContainer.swift:37-49 | `lastProcessedTime` after a sequence of arrivals: the creation time, moved to each arrival that passes the gate |
| `FrameThrottle.Forwarded` | RentalAssistant/ARViewContainer.swift:44-54 | the times of the arrivals that pass the gate while scanning is on, in arrival order |
| `FrameThrottle.ForwardedSpaced` | RentalAssistant/ARViewContainer.swift:37-54 | for any sequence of arrivals, `lastProcessedTime` never falls below the creation time, every forwarded frame is at least 100 ms after creation and no later than `lastProcessedTime`, and any two forwarded frames are at least 100 ms apart |
| `FrameThrottle.EarlyFrameRejected` | RentalAssistant/ARViewContainer.swift:37-48 | a frame arriving less than 100 ms after the coordinator was created fails the gate whatever came before it, leaves `lastProcessedTime` unchanged and is not forwarded |
| `FrameThrottle.ThrottleExample` | RentalAssistant/ARViewContainer.swift:37-54 | of frames at 60, 120 and 170 ms after creation, only the one at 120 ms is forwarded |
| `FrameThrottle.Coordinator.constructor` | RentalAssistant/ARViewContainer.swift:37-42 | `lastProcessedTime` starts at the creation time and nothing has been forwarded |
| `FrameThrottle.Coordinator.SessionDidUpdate` | RentalAssistant/ARViewContainer.swift:44-55 | a frame is forwarded exactly when at least 100 ms passed since `lastProcessedTime` and scanning is on; a frame that passes the gate sets `lastProcessedTime` to its time even when scanning is off; a rejected frame leaves it unchanged; the forwarded history grows by exactly the forwarded frame |

## Left out

- The Vision plumbing (`setupVision`, `processFrame`, `VNImageRequestHandler.perform`, the error logging): the classifier is a black box, so its output is an input of `ProcessClassifications`, and "forwarded to `processFrame`" is the boolean result of `SessionDidUpdate`.
- The ARKit/RealityKit session set-up (`makeUIView`, `updateUIView`, `makeCoordinator`) and the `arView` field: platform I/O.
- Combine's `Just(...).delay(...).sink`, `RunLoop.main` and `DispatchQueue.main.async`: events are serialised, and the debounce is a pending `(category, due)` pair delivered by `Tick`. The model does not force the timer to fire at its due time; `DecayOnlyAfterDue` covers the case where it has not yet fired. Decay does not cancel an overdue pending publish either, so when the timer does fire after the clear it writes the pending category back (`DecayThenOverdueTimerRepublishes`).
- `Date`, `TimeInterval` and `Float`: time is integer milliseconds, and confidence is an integer in units of 1/10000. The rounding of the `Float` literal 0.05 is not modelled.
- `Text.Lower`: `lowercased()` is modelled for ASCII letters only. Swift's Unicode case mapping is not modelled.
- `Text.Contains`: Swift compares strings by extended grapheme cluster under canonical equivalence. The model compares characters one by one.
- `withAnimation` and the `[weak self]` captures: they have no effect on the state modelled here.
- `debugLabel`: the source declares it but never writes it.
- The enum's `subtitle`, `instructions`, `icon` and `color`: static display text with no logic.
- ContentView.swift and InfoCardView.swift: SwiftUI views. They read `isDetecting` and `detectedObject` and call `startDetection`, `stopDetection` and `selectObject`.
