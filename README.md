# Directional drag area

A model of the `DirectionalDragArea` gesture recognizer of the Ubuntu Gestures
plugin and of the active-touch registry it consults.

The recognizer follows one finger that moves in a configured direction. It
rests in `WaitingForTouch` until a single new touch lands outside the
composition window of earlier touches. That touch becomes the candidate and
the status becomes `Undecided`. While the gesture is `Undecided`, each later
batch is first checked for three early exits, in this order:

- the candidate is missing from the batch;
- the candidate is released;
- a press arrives while the composition window is open.

Any of these returns the gesture to `WaitingForTouch`, and such a batch feeds
nothing. Every other batch feeds the candidate's position to a damped filter
and a velocity calculator, then applies these tests, in order:

- the cone test (the damped position stays inside a cone that opens along the
  direction);
- the direction test (no step backwards);
- the composition window;
- the distance threshold.

Only the first two reject: a failed cone or direction test returns the gesture
to `WaitingForTouch`. While the composition window is still open, or while the
candidate has not yet moved far enough, the gesture stays `Undecided` and waits
for a later batch. It becomes `Recognized` once all four pass. Once
`Recognized`, a batch only updates the reported position and ends the gesture
when the candidate is released or missing; nothing is fed to the filter or the
calculator any more. While undecided, a recognition timer ticks every 60 ms.
Each tick drops the gesture if it is too slow or has been silent for too long.
`SetStatus` is the single place where the status changes, and it also starts
and stops the timer.

The registry is an ordered list of (touch id, start time) entries. Presses
append an entry and releases remove the first entry with that id. The
composition window is open while the clock is at most `compositionTime` past
the start time of the last entry.

Every operation that can change the status sends exactly one status
notification when the status ends up different, together with the dragging
notification `SetStatus` sends for that change (none for `Undecided` to
`Recognized`). It sends nothing when the status ends up the same
(`SignalsFollowStatus`).

Files:

- `optional.dfy`: the `Option` type.
- `geometry.dfy`: points, directions and the three pure decision predicates,
  with lemmas about them.
- `touch.dfy`: touch points, batches, and the queries and searches over a
  batch.
- `active_touches.dfy`: the registry. This is the class `ActiveTouchesInfo`
  with its index loops. The loops of `Update` and `RemoveTouchPoint` are
  proved against the functional specifications `Fold` and `RemoveFirst`. The
  loop of `MostRecentStartTime` is proved to return the last entry's start
  time. There are lemmas on ordering by start time.
- `drag_area.dfy`: the recognizer as the class `DirectionalDragArea`.
  - Each handler's effect is a two-state predicate over the old and new
    fields: `AbsentStep`, `UndecidedStep` (with `TrackStep`) and
    `RecognizedStep`.
  - `TouchEvent` promises the right one of these for the old status.
  - `Valid()` is the invariant every operation keeps: the timer runs exactly
    while `Undecided`, and the last status and dragging notifications agree
    with the status.
- `scenarios.dfy`: concrete runs, each proved to produce its sequence of
  statuses.

Inputs from outside the model:

- The clock is the parameter `now` of `TouchEvent`.
- The damped filter's update rule is the constant function `damp`, which
  maps (clamp, current, target) to the new position.
- The velocity calculator is its sample count. The count saturates at the
  injected window size `maxSamples`, and `minSamplesNeeded` is injected too.
  The speed it computes is the parameter of `CheckSpeed`.
- `CheckSpeed` counts a tick as silent when the sample count has not changed
  since the last tick. So once the count has reached `maxSamples`, a candidate
  that is still moving counts as silent, and enough ticks drop the gesture.
  Whether the real calculator behaves this way depends on how it counts its
  samples, and that code is not part of this model.
- The tangent of the widening angle is passed to `SetWideningAngle` together
  with the angle.

## Model

| member | source | states |
|---|---|---|
| Geometry.PointInsideAllowedArea | plugins/Ubuntu/Gestures/DirectionalDragArea.cpp:441-456 | Definition of the cone test, case by case as in the source: for `Rightwards`, dX >= 0 and the magnitude of dY is at most dX times the widening factor, and likewise for the other three directions. Its properties are the lemmas below. |
| Geometry.ConeIsUniform | plugins/Ubuntu/Gestures/DirectionalDragArea.cpp:441-456 | The four direction cases of the cone test are one rule. The point passes exactly when its progress along the direction is non-negative and its sideways deviation is at most that progress times the widening factor. |
| Geometry.ZeroWideningIsAxisAligned | plugins/Ubuntu/Gestures/DirectionalDragArea.cpp:441-456 | With widening factor 0, a point passes exactly when it lies on the axis, the right way from the start. |
| Geometry.ConeGrowsWithWidening | plugins/Ubuntu/Gestures/DirectionalDragArea.cpp:441-456 | A larger widening factor accepts every point a smaller one accepts. |
| Geometry.AxisAheadIsInside | plugins/Ubuntu/Gestures/DirectionalDragArea.cpp:441-456 | For a non-negative factor, every point on the axis ahead of the start passes. |
| Geometry.MovingInRightDirection | plugins/Ubuntu/Gestures/DirectionalDragArea.cpp:458-470 | Definition of the direction test: the damped position did not move back against the direction since the previous update. |
| Geometry.DirectionIsNonNegativeProgress | plugins/Ubuntu/Gestures/DirectionalDragArea.cpp:458-470 | The direction test accepts exactly the steps whose progress along the direction is non-negative. |
| Geometry.DirectionComposes | plugins/Ubuntu/Gestures/DirectionalDragArea.cpp:458-470 | Two steps that each pass the direction test compose into one that passes it. |
| Geometry.MovedFarEnough | plugins/Ubuntu/Gestures/DirectionalDragArea.cpp:472-482 | Definition of the distance test: always true for a threshold at most 0, otherwise the axis distance from the start must strictly exceed the threshold. |
| Geometry.FarEnoughIsAxisDistance | plugins/Ubuntu/Gestures/DirectionalDragArea.cpp:472-482 | The distance test holds exactly when the threshold is at most 0, or when the magnitude of the axis displacement strictly exceeds the threshold. |
| Geometry.FarEnoughForLowerThreshold | plugins/Ubuntu/Gestures/DirectionalDragArea.cpp:472-482 | Lowering the threshold never makes a passing distance test fail. |
| Touch.HasState | plugins/Ubuntu/Gestures/DirectionalDragArea.cpp:298-299 | Definition of the batch's phase flag (`touchPointStates().testFlag(...)`, also at lines 368 and 614): some point of the batch is in the phase. `CountStatePositive` relates it to the count. |
| Touch.IndexOfId | plugins/Ubuntu/Gestures/DirectionalDragArea.cpp:428-439 | The index of the first point with a given id, or none when no point has it. |
| Touch.IndexOfState | plugins/Ubuntu/Gestures/DirectionalDragArea.cpp:306-327 | The index of the first point in a phase. It is none exactly when the batch's phase flags lack that phase. |
| Touch.CountStatePositive | plugins/Ubuntu/Gestures/DirectionalDragArea.cpp:298-327 | A phase is flagged for the batch exactly when at least one of its points is in that phase. |
| ActiveTouches.IndexOfEntry | plugins/Ubuntu/Gestures/DirectionalDragArea.cpp:638-647 | The index of the first entry with the id. It is none exactly when no entry has it. |
| ActiveTouches.RemoveFirst | plugins/Ubuntu/Gestures/DirectionalDragArea.cpp:638-647 | The functional form of `removeTouchPoint`. A registered id leaves the list one entry shorter, and an unregistered one leaves it unchanged. `RemoveFirstKeepsOrder` says which entry goes. |
| ActiveTouches.Step | plugins/Ubuntu/Gestures/DirectionalDragArea.cpp:619-626 | Definition of the effect of one batch point on the list: a press appends (id, now), a release removes the first entry with the id, and any other phase leaves the list unchanged. |
| ActiveTouches.Fold | plugins/Ubuntu/Gestures/DirectionalDragArea.cpp:612-628 | Definition of the effect of a whole batch: `Step` applied point by point in batch order. `FoldIgnoresOtherPhases`, `FoldSize` and `FoldPreservesOrdered` state its properties. |
| ActiveTouches.ActiveTouchesInfo.constructor | plugins/Ubuntu/Gestures/DirectionalDragArea.cpp:603-610 | The registry starts empty. |
| ActiveTouches.ActiveTouchesInfo.IsEmpty | plugins/Ubuntu/Gestures/DirectionalDragArea.cpp:596 | Definition of the registry's emptiness test used by the composition window: no entry is registered. |
| ActiveTouches.ActiveTouchesInfo.Update | plugins/Ubuntu/Gestures/DirectionalDragArea.cpp:612-628 | The new list is `Fold` of the old one over the batch: point by point in order, a press appends (id, now) and a release removes the first entry with that id. |
| ActiveTouches.ActiveTouchesInfo.AddTouchPoint | plugins/Ubuntu/Gestures/DirectionalDragArea.cpp:630-636 | Appends (id, now) at the end. |
| ActiveTouches.ActiveTouchesInfo.RemoveTouchPoint | plugins/Ubuntu/Gestures/DirectionalDragArea.cpp:638-647 | When the id is registered, takes out exactly its first entry, so the list shrinks by one. |
| ActiveTouches.ActiveTouchesInfo.MostRecentStartTime | plugins/Ubuntu/Gestures/DirectionalDragArea.cpp:649-661 | On a non-empty registry, returns the start time of the last entry. |
| ActiveTouches.FoldIgnoresOtherPhases | plugins/Ubuntu/Gestures/DirectionalDragArea.cpp:614-617 | A batch with neither presses nor releases leaves the list untouched. |
| ActiveTouches.RemoveFirstKeepsOrder | plugins/Ubuntu/Gestures/DirectionalDragArea.cpp:638-647 | Removal keeps every other entry in its relative order: the entries before the removed one stay in place, and the ones after it shift down by one. |
| ActiveTouches.FoldSize | plugins/Ubuntu/Gestures/DirectionalDragArea.cpp:612-647 | When every release finds its entry, the list grows by the batch's presses and shrinks by its releases. |
| ActiveTouches.RemoveFirstPreservesOrdered | plugins/Ubuntu/Gestures/DirectionalDragArea.cpp:638-647 | Removal keeps the start times ordered and within the clock's reading. |
| ActiveTouches.FoldPreservesOrdered | plugins/Ubuntu/Gestures/DirectionalDragArea.cpp:612-636 | A batch applied at time `now` to a list whose start times are ordered and all at most `now` leaves a list with the same two properties. |
| ActiveTouches.ReplayKeepsLastLatest | plugins/Ubuntu/Gestures/DirectionalDragArea.cpp:612-661 | From an empty registry and under a clock that never runs backwards, any run of batches leaves the list ordered by start time, and the last entry, which `mostRecentStartTime` reads, carries the greatest start time of all entries. |
| ActiveTouches.LastIsLatest | plugins/Ubuntu/Gestures/DirectionalDragArea.cpp:649-661 | On an ordered list, the last start time is the maximum. |
| ActiveTouches.WindowIsAnyRecentTouch | plugins/Ubuntu/Gestures/DirectionalDragArea.cpp:594-599 | On an ordered registry, the window test on the last entry holds exactly when some registered touch is still within its own composition window. |
| DragArea.DirectionalDragArea.constructor | plugins/Ubuntu/Gestures/DirectionalDragArea.cpp:109-131 | The initial state is `WaitingForTouch`, with touch id -1 and direction `Rightwards`. Widening, distance threshold and minimum speed are 0. The maximum silence is 200 ms, the composition time 60 ms and the timer interval 60 ms. The timer is stopped and the registry is empty. |
| DragArea.DirectionalDragArea.Distance | plugins/Ubuntu/Gestures/DirectionalDragArea.cpp:231-238 | The local distance read-out, signed by the screen axis: it equals the progress along the direction for `Rightwards` and `Downwards`, and minus the progress for `Leftwards` and `Upwards`. |
| DragArea.DirectionalDragArea.SceneDistance | plugins/Ubuntu/Gestures/DirectionalDragArea.cpp:240-247 | The scene distance read-out, signed like `Distance`. The distance test on the last scene position holds exactly when the threshold is at most 0 or the magnitude of this read-out exceeds the threshold. |
| DragArea.DirectionalDragArea.SetDirection | plugins/Ubuntu/Gestures/DirectionalDragArea.cpp:138-144 | Sets the direction and leaves the other settings alone. It notifies only when the value changes. |
| DragArea.DirectionalDragArea.SetMaxDeviation | plugins/Ubuntu/Gestures/DirectionalDragArea.cpp:146-152 | Sets the damped filter's clamp. It notifies only when the value changes. |
| DragArea.DirectionalDragArea.SetWideningAngle | plugins/Ubuntu/Gestures/DirectionalDragArea.cpp:159-167 | An unchanged angle changes nothing. A new angle sets the angle and its factor together and notifies once. |
| DragArea.DirectionalDragArea.SetDistanceThreshold | plugins/Ubuntu/Gestures/DirectionalDragArea.cpp:169-175 | Sets the threshold. It notifies only when the value changes. |
| DragArea.DirectionalDragArea.SetMinSpeed | plugins/Ubuntu/Gestures/DirectionalDragArea.cpp:177-183 | Sets the minimum speed. It notifies only when the value changes. |
| DragArea.DirectionalDragArea.SetMaxSilenceTime | plugins/Ubuntu/Gestures/DirectionalDragArea.cpp:185-191 | Sets the maximum silence. It notifies only when the value changes. |
| DragArea.DirectionalDragArea.SetCompositionTime | plugins/Ubuntu/Gestures/DirectionalDragArea.cpp:193-199 | Sets the composition time. It notifies only when the value changes. |
| DragArea.DirectionalDragArea.IsWithinTouchCompositionWindow | plugins/Ubuntu/Gestures/DirectionalDragArea.cpp:594-599 | False on an empty registry. Otherwise it holds exactly when `now` is at most the last entry's start time plus the composition time. |
| DragArea.DirectionalDragArea.FetchTargetTouchPoint | plugins/Ubuntu/Gestures/DirectionalDragArea.cpp:428-439 | Finds the first point of the batch with the candidate's id, or reports that none has it. |
| DragArea.DirectionalDragArea.SignalsFollowStatus | plugins/Ubuntu/Gestures/DirectionalDragArea.cpp:509-541 | Definition of the notifications an operation sends: the new status once and its dragging notification (as `SetStatus` emits them) when the status ends up different, nothing when it ends up the same. |
| DragArea.DirectionalDragArea.SetStatus | plugins/Ubuntu/Gestures/DirectionalDragArea.cpp:509-543 | The same status changes nothing and emits nothing. A new status leaves `Undecided` with the timer stopped and enters `Undecided` with it started, so the timer runs exactly while `Undecided`. It emits the status, and it emits dragging false on `WaitingForTouch`, true on `Undecided`, and true on `Recognized` only when coming from `WaitingForTouch`. |
| DragArea.DirectionalDragArea.UpdateVelocityCalculator | plugins/Ubuntu/Gestures/DirectionalDragArea.cpp:585-592 | One more sample in the velocity window, up to its capacity. |
| DragArea.DirectionalDragArea.TouchEvent | plugins/Ubuntu/Gestures/DirectionalDragArea.cpp:269-294 | Applies the step of the status held before the batch, judging the composition window on the registry as it stood before the batch. Only then does it update the registry to `Fold` of the batch. The configuration is unchanged and `Valid()` is kept. One status notification, with the dragging notification `SetStatus` sends for that change (none for `Undecided` to `Recognized`), is sent when the status changed. Nothing is sent when it did not. |
| DragArea.DirectionalDragArea.TouchEventAbsent | plugins/Ubuntu/Gestures/DirectionalDragArea.cpp:296-345 | `AbsentStep`: the status becomes `Undecided` exactly when the batch has exactly one press and the composition window is closed. That press is then the candidate: its position is the start and the damped position, the velocity window and silence counters are zeroed and the timer is started. A batch with two or more presses is rejected but leaves the first press's id as `touchId`. |
| DragArea.DirectionalDragArea.StartTracking | plugins/Ubuntu/Gestures/DirectionalDragArea.cpp:333-342 | The adopted point's id and positions become the candidate, start, read-out and damped positions. The sample count is 0 after the velocity calculator is fed the start and reset, and the silence counters are 0. |
| DragArea.DirectionalDragArea.ScanPressedPoints | plugins/Ubuntu/Gestures/DirectionalDragArea.cpp:306-327 | The scan stops at the second press. It yields the press exactly when there is one, and it leaves the first press's id behind. |
| DragArea.DirectionalDragArea.AdoptCandidate | plugins/Ubuntu/Gestures/DirectionalDragArea.cpp:329-344 | `AdoptStep`: the candidate's fields are set from the point, the counters are zeroed and the status is `Undecided`. |
| DragArea.DirectionalDragArea.TouchEventUndecided | plugins/Ubuntu/Gestures/DirectionalDragArea.cpp:347-407 | `UndecidedStep`: the candidate missing, released, or joined by a press inside the window gives `WaitingForTouch` with nothing else changed. Otherwise the result is `TrackStep`. |
| DragArea.DirectionalDragArea.CandidateRejected | plugins/Ubuntu/Gestures/DirectionalDragArea.cpp:349-373 | Finds the candidate's point. It rejects exactly when the point is missing, when it is released, or when the batch has a press while the composition window is open. |
| DragArea.DirectionalDragArea.TrackCandidate | plugins/Ubuntu/Gestures/DirectionalDragArea.cpp:375-406 | `TrackStep`: the damped position moves by `damp` and the sample is counted. A failed cone or direction test gives `WaitingForTouch`. Otherwise the read-outs take the point, and the gesture is `Recognized` exactly when the window has closed and the point moved far enough. A recognized gesture satisfies the cone test and exceeds any positive threshold. |
| DragArea.DirectionalDragArea.RecordSample | plugins/Ubuntu/Gestures/DirectionalDragArea.cpp:375-378 | The previous damped position is the old one, the new one is `damp` of it toward the sample, and the window grows by one sample up to its capacity. |
| DragArea.DirectionalDragArea.ClassifySample | plugins/Ubuntu/Gestures/DirectionalDragArea.cpp:380-406 | The cone test, then the direction test, then the window and then the distance test decide the new status. |
| DragArea.DirectionalDragArea.RecognitionNeedsEveryTest | plugins/Ubuntu/Gestures/DirectionalDragArea.cpp:347-407 | Reaching `Recognized` from `Undecided` implies every condition: the candidate is present and not released, the window has closed, the cone and direction tests pass, and the distance test passes. |
| DragArea.DirectionalDragArea.TouchEventRecognized | plugins/Ubuntu/Gestures/DirectionalDragArea.cpp:409-426 | `RecognizedStep`: a missing candidate gives `WaitingForTouch`. Otherwise the read-outs take the point, and its release gives `WaitingForTouch`. |
| DragArea.DirectionalDragArea.CheckSpeed | plugins/Ubuntu/Gestures/DirectionalDragArea.cpp:484-507 | Silence grows by the timer interval when no sample arrived since the last tick, and resets to 0 otherwise. The status becomes `WaitingForTouch` exactly when there are enough samples and the speed is below the minimum (per millisecond), or when the silence exceeds the maximum. The sample count is recorded for the next tick. A tick that changes the status sends one status notification and one dragging notification (false), even when both rejection rules apply; a tick that keeps the status sends none. |
| Scenarios.ShortSwipe | plugins/Ubuntu/Gestures/DirectionalDragArea.cpp:347-407 | A rightward move of 5 with threshold 10 stays `Undecided`. |
| Scenarios.RightwardSwipe | plugins/Ubuntu/Gestures/DirectionalDragArea.cpp:269-426 | A press, then a move of 15 past the threshold 10 after the composition window, is `Recognized`. The release returns to `WaitingForTouch`. |
| Scenarios.SidewaysDrift | plugins/Ubuntu/Gestures/DirectionalDragArea.cpp:380-384 | A move outside the zero-width cone returns to `WaitingForTouch`. |
| Scenarios.Backwards | plugins/Ubuntu/Gestures/DirectionalDragArea.cpp:386-390 | A move right by 10 and then a step back to 5, still inside the cone, fails the direction test and returns to `WaitingForTouch`. |
| Scenarios.TwoFingersAtOnce | plugins/Ubuntu/Gestures/DirectionalDragArea.cpp:306-327 | Two presses in one batch stay `WaitingForTouch`, and both are registered. |
| Scenarios.SecondFingerSoon | plugins/Ubuntu/Gestures/DirectionalDragArea.cpp:367-372 | A second press inside the composition window ends an undecided gesture. |
| Scenarios.TooSlow | plugins/Ubuntu/Gestures/DirectionalDragArea.cpp:486-494 | A tick with enough samples and a speed below the minimum ends the gesture. |
| Scenarios.Silence | plugins/Ubuntu/Gestures/DirectionalDragArea.cpp:497-504 | Without samples, the fourth 60 ms tick passes the 200 ms maximum silence and ends the gesture. |

## Left out

- Debug output (the stringification helpers and the `qDebug`/`qCritical` lines) has no effect on state and is not modelled.
- The `RecognitionTimer` Qt wrapper and `setRecognitionTimer` are not modelled. The timer is the flag `timerRunning` with the constant interval 60 ms, and its ticks are calls to `CheckSpeed`.
- `setTimeSource` and the real-time clock are not modelled. The clock reading is the parameter `now`. The source reads the clock once in the window test of `touchEvent_absent`, or up to twice in the window tests of `touchEvent_undecided` (the press check and the check before recognition), each through `isWithinTouchCompositionWindow`, and then once per Pressed point in `addTouchPoint`. The model takes every read of one batch as the single reading `now`, so all presses of a batch get the same start time.
- SetWideningAngle: the factor is `tan` of the angle in the source. Here the caller supplies it, because floating-point trigonometry is outside the model.
- Coordinates are exact reals rather than `qreal` floating point. Times are unbounded integers rather than `qint64`; overflow is not modelled.
- The damped filter and the velocity calculator live in other files. The filter's rule is the injected `damp`, and the calculator is a saturating sample counter whose speed is the parameter of `CheckSpeed`.
- UpdateVelocityCalculator: the tracked coordinate (x or y by direction) is not recorded, because only the count of samples is modelled.
- ActiveTouches.ActiveTouchesInfo.RemoveTouchPoint: releasing an unregistered id is an assertion failure in the source. It is a precondition here. `TouchEvent` therefore requires `ReleasesRegistered`: every release in a batch finds its entry when it is processed.
- Qt change notifications of the setters are a ghost log of `ConfigSignal` values. Those of `setPreviousPos`/`setPreviousScenePos` are not modelled, and the read-outs are plain field updates.
- The read-out getters `touchX`, `touchY`, `touchSceneX` and `touchSceneY` return fields and are not separate members.
- The `isEnabled()`/`isVisible()` early return in `touchEvent` is not modelled. In the source, a disabled or hidden item passes the event to the host item and returns, which skips both the status handler and the registry update. The model is of an enabled, visible item: every batch reaches the handler and the registry.
- The cone property of a `Recognized` gesture is proved for the step that recognizes it. Later batches do not re-test the cone, and the configuration may change in between.
