/**
  The directional drag area: a recognizer for a single-finger drag along one
  direction. It waits for a touch (WaitingForTouch), follows one candidate touch
  while the gesture is still open (Undecided) and keeps following it once the
  drag is accepted (Recognized). Touch batches and timer ticks are its inputs;
  the active-touch registry lets it reject touches pressed too close in time to
  another one.

  Collaborators outside this model are injected: the clock reading `now` is a
  parameter of every touch batch, the damped position filter's update rule is
  the constant function `damp`, and the velocity calculator is reduced to its
  sample counter plus the speed value it computes, which `CheckSpeed` receives.
*/
module DragArea {
  import opened Optional
  import opened Geometry
  import opened Touch
  import opened ActiveTouches

  datatype Status = WaitingForTouch | Undecided | Recognized

  /** The externally set properties that steer recognition (maxDeviation is the
      damped filter's per-update clamp). */
  datatype Config = Config(
    direction: Direction,
    maxDeviation: real,
    wideningAngle: real,
    wideningFactor: real,      // tan of wideningAngle, supplied with it
    distanceThreshold: real,
    minSpeed: real,            // units per second
    maxSilenceTime: int,       // milliseconds
    compositionTime: int)      // milliseconds

  /** Change notifications of the configuration properties. */
  datatype ConfigSignal =
    | DirectionChanged(direction: Direction)
    | MaxDeviationChanged(maxDeviation: real)
    | WideningAngleChanged(angle: real)
    | DistanceThresholdChanged(distanceThreshold: real)
    | MinSpeedChanged(minSpeed: real)
    | MaxSilenceTimeChanged(maxSilenceTime: int)
    | CompositionTimeChanged(compositionTime: int)

  class DirectionalDragArea {
    var config: Config

    // The candidate touch
    var status: Status
    var touchId: int
    var startPos: Point
    var startScenePos: Point
    var previousPos: Point
    var previousScenePos: Point
    var previousDampedScenePos: Point
    var silenceTime: int
    var numSamplesOnLastSpeedCheck: nat

    // The damped scene position filter: its position and its update rule
    // (clamp, current position, target) -> new position
    var dampedScenePos: Point
    const damp: (real, Point, Point) -> Point

    // The velocity calculator: occupancy of its bounded sample window
    var numSamples: nat
    const maxSamples: nat
    const minSamplesNeeded: nat

    // The recognition timer
    var timerRunning: bool
    const timerInterval: int

    const activeTouches: ActiveTouchesInfo

    // Notifications emitted so far
    ghost var statusSignals: seq<Status>
    ghost var draggingSignals: seq<bool>
    ghost var configSignals: seq<ConfigSignal>

    /** The timer runs exactly while the gesture is undecided, and the last
        status and dragging notifications agree with the current status. */
    ghost predicate Valid()
      reads this
    {
      (timerRunning <==> status == Undecided) &&
      (statusSignals == [] ==> status == WaitingForTouch) &&
      (statusSignals != [] ==> statusSignals[|statusSignals| - 1] == status) &&
      (draggingSignals == [] ==> status == WaitingForTouch) &&
      (draggingSignals != [] ==> draggingSignals[|draggingSignals| - 1] == (status != WaitingForTouch)) &&
      numSamples <= maxSamples
    }

    constructor (damp: (real, Point, Point) -> Point, maxDeviation: real, maxSamples: nat, minSamplesNeeded: nat)
      ensures Valid() && fresh(activeTouches) && activeTouches.entries == []
      ensures status == WaitingForTouch && touchId == -1 && !timerRunning && timerInterval == 60
      ensures config == Config(Rightwards, maxDeviation, 0.0, 0.0, 0.0, 0.0, 200, 60)
      ensures silenceTime == 0 && numSamplesOnLastSpeedCheck == 0 && numSamples == 0
      ensures this.damp == damp
      ensures this.maxSamples == maxSamples && this.minSamplesNeeded == minSamplesNeeded
      ensures statusSignals == [] && draggingSignals == [] && configSignals == []
    {
      config := Config(Rightwards, maxDeviation, 0.0, 0.0, 0.0, 0.0, 200, 60);
      status, touchId := WaitingForTouch, -1;
      startPos, startScenePos := Point(0.0, 0.0), Point(0.0, 0.0);
      previousPos, previousScenePos := Point(0.0, 0.0), Point(0.0, 0.0);
      previousDampedScenePos, dampedScenePos := Point(0.0, 0.0), Point(0.0, 0.0);
      silenceTime, numSamplesOnLastSpeedCheck := 0, 0;
      this.damp := damp;
      numSamples, this.maxSamples, this.minSamplesNeeded := 0, maxSamples, minSamplesNeeded;
      timerRunning, timerInterval := false, 60;
      activeTouches := new ActiveTouchesInfo();
      statusSignals, draggingSignals, configSignals := [], [], [];
    }

    // ---------------------------------------------------------------- read-outs

    /** Signed distance of the last local position from the start, along the
        axis. Its sign follows the screen axis, not the direction: it is the
        progress for Rightwards and Downwards and minus the progress for
        Leftwards and Upwards. */
    function Distance(): (r: real)
      reads this
      ensures r == if config.direction == Rightwards || config.direction == Downwards
                   then Along(config.direction, startPos, previousPos)
                   else -Along(config.direction, startPos, previousPos)
    {
      AxisDisplacement(config.direction, startPos, previousPos)
    }

    /** Signed distance of the last scene position from the start, along the
        axis, signed like `Distance`; its magnitude is what the distance test
        measures. */
    function SceneDistance(): (r: real)
      reads this
      ensures r == if config.direction == Rightwards || config.direction == Downwards
                   then Along(config.direction, startScenePos, previousScenePos)
                   else -Along(config.direction, startScenePos, previousScenePos)
      ensures MovedFarEnough(config.direction, config.distanceThreshold, startScenePos, previousScenePos)
              <==> config.distanceThreshold <= 0.0 || Abs(r) > config.distanceThreshold
    {
      AxisDisplacement(config.direction, startScenePos, previousScenePos)
    }

    /** Occupancy of the velocity window after one more sample (the oldest is
        evicted when the window is full). */
    function SamplesAfterRecord(n: nat): nat
    {
      if n < maxSamples then n + 1 else n
    }

    // ---------------------------------------------------------- configuration
    // Each setter changes one property and notifies only when the value changes.

    method SetDirection(value: Direction)
      modifies this`config, this`configSignals
      ensures config == old(config).(direction := value)
      ensures configSignals == old(configSignals) +
                (if old(config).direction != value then [DirectionChanged(value)] else [])
    {
      if value != config.direction {
        config := config.(direction := value);
        configSignals := configSignals + [DirectionChanged(value)];
      }
    }

    method SetMaxDeviation(value: real)
      modifies this`config, this`configSignals
      ensures config == old(config).(maxDeviation := value)
      ensures configSignals == old(configSignals) +
                (if old(config).maxDeviation != value then [MaxDeviationChanged(value)] else [])
    {
      if config.maxDeviation != value {
        config := config.(maxDeviation := value);
        configSignals := configSignals + [MaxDeviationChanged(value)];
      }
    }

    /** `factor` is the tangent of `angle` (given in degrees); it is taken only
        together with a new angle. */
    method SetWideningAngle(angle: real, factor: real)
      modifies this`config, this`configSignals
      ensures config == if old(config).wideningAngle == angle then old(config)
                        else old(config).(wideningAngle := angle, wideningFactor := factor)
      ensures configSignals == old(configSignals) +
                (if old(config).wideningAngle != angle then [WideningAngleChanged(angle)] else [])
    {
      if angle == config.wideningAngle {
        return;
      }
      config := config.(wideningAngle := angle, wideningFactor := factor);
      configSignals := configSignals + [WideningAngleChanged(angle)];
    }

    method SetDistanceThreshold(value: real)
      modifies this`config, this`configSignals
      ensures config == old(config).(distanceThreshold := value)
      ensures configSignals == old(configSignals) +
                (if old(config).distanceThreshold != value then [DistanceThresholdChanged(value)] else [])
    {
      if config.distanceThreshold != value {
        config := config.(distanceThreshold := value);
        configSignals := configSignals + [DistanceThresholdChanged(value)];
      }
    }

    method SetMinSpeed(value: real)
      modifies this`config, this`configSignals
      ensures config == old(config).(minSpeed := value)
      ensures configSignals == old(configSignals) +
                (if old(config).minSpeed != value then [MinSpeedChanged(value)] else [])
    {
      if config.minSpeed != value {
        config := config.(minSpeed := value);
        configSignals := configSignals + [MinSpeedChanged(value)];
      }
    }

    method SetMaxSilenceTime(value: int)
      modifies this`config, this`configSignals
      ensures config == old(config).(maxSilenceTime := value)
      ensures configSignals == old(configSignals) +
                (if old(config).maxSilenceTime != value then [MaxSilenceTimeChanged(value)] else [])
    {
      if config.maxSilenceTime != value {
        config := config.(maxSilenceTime := value);
        configSignals := configSignals + [MaxSilenceTimeChanged(value)];
      }
    }

    method SetCompositionTime(value: int)
      modifies this`config, this`configSignals
      ensures config == old(config).(compositionTime := value)
      ensures configSignals == old(configSignals) +
                (if old(config).compositionTime != value then [CompositionTimeChanged(value)] else [])
    {
      if config.compositionTime != value {
        config := config.(compositionTime := value);
        configSignals := configSignals + [CompositionTimeChanged(value)];
      }
    }

    // ------------------------------------------------ what a step may change

    twostate predicate ConfigUnchanged()
      reads this
    {
      config == old(config) && configSignals == old(configSignals)
    }

    twostate predicate CandidateUnchanged()
      reads this
    {
      touchId == old(touchId) && startPos == old(startPos) && startScenePos == old(startScenePos)
    }

    twostate predicate ReadOutsUnchanged()
      reads this
    {
      previousPos == old(previousPos) && previousScenePos == old(previousScenePos)
    }

    twostate predicate TrackingUnchanged()
      reads this
    {
      dampedScenePos == old(dampedScenePos) && previousDampedScenePos == old(previousDampedScenePos) &&
      numSamples == old(numSamples) && numSamplesOnLastSpeedCheck == old(numSamplesOnLastSpeedCheck) &&
      silenceTime == old(silenceTime)
    }

    /** The notifications an operation sends: one status notification and the
        matching dragging notification when the status ends up different, none
        when it ends up the same. */
    twostate predicate SignalsFollowStatus()
      reads this
    {
      statusSignals == old(statusSignals) + (if status != old(status) then [status] else []) &&
      draggingSignals == old(draggingSignals) +
        (if status != old(status) then DraggingSignal(old(status), status) else [])
    }

    /** Effect of a batch while waiting for a touch. `within` is the composition
        window test as the registry stood before the batch. */
    twostate predicate AbsentStep(batch: seq<TouchPoint>, within: bool)
      reads this
    {
      if !HasState(batch, Pressed) || within then
        status == old(status) && CandidateUnchanged() && ReadOutsUnchanged() && TrackingUnchanged()
      else
        var tp := batch[IndexOfState(batch, Pressed).value];
        if CountState(batch, Pressed) >= 2 then
          // rejected, but the scan had already taken the first press's identifier
          status == old(status) && touchId == tp.id &&
          startPos == old(startPos) && startScenePos == old(startScenePos) &&
          ReadOutsUnchanged() && TrackingUnchanged()
        else
          AdoptStep(tp)
    }

    /** `tp` has become the candidate of an undecided gesture. */
    twostate predicate AdoptStep(tp: TouchPoint)
      reads this
    {
      status == Undecided && touchId == tp.id &&
      startPos == tp.pos && startScenePos == tp.scenePos &&
      previousPos == tp.pos && previousScenePos == tp.scenePos &&
      dampedScenePos == tp.scenePos && previousDampedScenePos == old(previousDampedScenePos) &&
      numSamples == 0 && numSamplesOnLastSpeedCheck == 0 && silenceTime == 0
    }

    /** Effect of a batch while the candidate is undecided. */
    twostate predicate UndecidedStep(batch: seq<TouchPoint>, within: bool)
      reads this
    {
      var k := IndexOfId(batch, old(touchId));
      if k.None? || batch[k.value].state == Released || (HasState(batch, Pressed) && within) then
        status == WaitingForTouch && CandidateUnchanged() && ReadOutsUnchanged() && TrackingUnchanged()
      else
        TrackStep(batch[k.value], within)
    }

    /** Effect of the candidate's new sample `tp` on an undecided gesture that
        was not rejected outright. */
    twostate predicate TrackStep(tp: TouchPoint, within: bool)
      reads this
    {
      CandidateUnchanged() &&
      var damped := damp(config.maxDeviation, old(dampedScenePos), tp.scenePos);
      dampedScenePos == damped && previousDampedScenePos == old(dampedScenePos) &&
      numSamples == SamplesAfterRecord(old(numSamples)) &&
      numSamplesOnLastSpeedCheck == old(numSamplesOnLastSpeedCheck) && silenceTime == old(silenceTime) &&
      if !PointInsideAllowedArea(config.direction, config.wideningFactor, startScenePos, damped)
         || !MovingInRightDirection(config.direction, old(dampedScenePos), damped) then
        status == WaitingForTouch && ReadOutsUnchanged()
      else
        previousPos == tp.pos && previousScenePos == tp.scenePos &&
        status == if !within && MovedFarEnough(config.direction, config.distanceThreshold, startScenePos, tp.scenePos)
                  then Recognized else Undecided
    }

    /** An undecided gesture is recognized only when its candidate is present
        and not released, no new press arrives inside the composition window,
        the window has closed, the damped position passes the cone and direction
        tests and the candidate has moved far enough from its start. */
    twostate lemma RecognitionNeedsEveryTest(batch: seq<TouchPoint>, within: bool)
      requires UndecidedStep(batch, within) && status == Recognized
      ensures var k := IndexOfId(batch, old(touchId));
              k.Some? && batch[k.value].state != Released && !within
              && PointInsideAllowedArea(config.direction, config.wideningFactor, startScenePos, dampedScenePos)
              && MovingInRightDirection(config.direction, previousDampedScenePos, dampedScenePos)
              && MovedFarEnough(config.direction, config.distanceThreshold, startScenePos, previousScenePos)
    {
    }

    /** Effect of a batch once the drag is recognized. */
    twostate predicate RecognizedStep(batch: seq<TouchPoint>)
      reads this
    {
      CandidateUnchanged() && TrackingUnchanged() &&
      var k := IndexOfId(batch, touchId);
      if k.None? then
        status == WaitingForTouch && ReadOutsUnchanged()
      else
        var tp := batch[k.value];
        previousPos == tp.pos && previousScenePos == tp.scenePos &&
        status == if tp.state == Released then WaitingForTouch else Recognized
    }

    // ---------------------------------------------------------------- queries

    /** Is some touch still within its composition window at time `now`? */
    method IsWithinTouchCompositionWindow(now: int) returns (r: bool)
      ensures r <==> activeTouches.entries != []
                     && now <= activeTouches.entries[|activeTouches.entries| - 1].startTime + config.compositionTime
    {
      r := !activeTouches.IsEmpty();
      if r {
        var mostRecent := activeTouches.MostRecentStartTime();
        r := now <= mostRecent + config.compositionTime;
      }
    }

    /** The position in the batch of the candidate touch's sample, if present. */
    method FetchTargetTouchPoint(batch: seq<TouchPoint>) returns (r: Option<nat>)
      ensures r.Some? ==> r.value < |batch| && batch[r.value].id == touchId
                          && forall j :: 0 <= j < r.value ==> batch[j].id != touchId
      ensures r.None? ==> forall j :: 0 <= j < |batch| ==> batch[j].id != touchId
    {
      r := None;
      var i := 0;
      while i < |batch|
        invariant 0 <= i <= |batch|
        invariant forall j :: 0 <= j < i ==> batch[j].id != touchId
      {
        if batch[i].id == touchId {
          r := Some(i);
          break;
        }
        i := i + 1;
      }
    }

    // ---------------------------------------------------------------- transitions

    /** The dragging notification sent on a change from `oldStatus` to
        `newStatus`: dragging ends on WaitingForTouch and starts on Undecided, or
        on Recognized when reached straight from WaitingForTouch. */
    static function DraggingSignal(oldStatus: Status, newStatus: Status): seq<bool>
    {
      match newStatus
      case WaitingForTouch => [false]
      case Undecided => [true]
      case Recognized => if oldStatus == WaitingForTouch then [true] else []
    }

    /** The single place where the status changes; it also starts the timer on
        entering Undecided and stops it on leaving Undecided. */
    method SetStatus(newStatus: Status)
      requires Valid()
      modifies this`status, this`timerRunning, this`statusSignals, this`draggingSignals
      ensures Valid() && status == newStatus
      ensures old(status) == newStatus ==>
                timerRunning == old(timerRunning) && statusSignals == old(statusSignals) &&
                draggingSignals == old(draggingSignals)
      ensures old(status) != newStatus ==>
                timerRunning == (if newStatus == Undecided then true
                                 else if old(status) == Undecided then false
                                 else old(timerRunning)) &&
                statusSignals == old(statusSignals) + [newStatus] &&
                draggingSignals == old(draggingSignals) + DraggingSignal(old(status), newStatus)
      ensures SignalsFollowStatus()
    {
      if newStatus == status {
        return;
      }
      var oldStatus := status;
      if oldStatus == Undecided {
        timerRunning := false;
      }
      status := newStatus;
      statusSignals := statusSignals + [newStatus];
      match newStatus
      case WaitingForTouch =>
        draggingSignals := draggingSignals + [false];
      case Undecided =>
        timerRunning := true;
        draggingSignals := draggingSignals + [true];
      case Recognized =>
        if oldStatus == WaitingForTouch {
          draggingSignals := draggingSignals + [true];
        }
    }

    /** Feeds one scene position to the velocity calculator (the coordinate along
        the direction's axis; only the occupancy of its window is modelled). */
    method UpdateVelocityCalculator(point: Point)
      requires numSamples <= maxSamples
      modifies this`numSamples
      ensures numSamples == SamplesAfterRecord(old(numSamples)) && numSamples <= maxSamples
    {
      if numSamples < maxSamples {
        numSamples := numSamples + 1;
      }
    }

    /** Dispatches a batch on the current status, then records the batch's
        presses and releases in the registry. */
    method TouchEvent(batch: seq<TouchPoint>, now: int)
      requires Valid()
      requires ReleasesRegistered(activeTouches.entries, batch, now)
      modifies this, activeTouches
      ensures Valid() && ConfigUnchanged()
      ensures activeTouches.entries == Fold(old(activeTouches.entries), batch, now)
      ensures var within := WithinCompositionWindow(old(activeTouches.entries), now, config.compositionTime);
              match old(status)
              case WaitingForTouch => AbsentStep(batch, within)
              case Undecided => UndecidedStep(batch, within)
              case Recognized => RecognizedStep(batch)
      ensures SignalsFollowStatus()
    {
      match status {
        case WaitingForTouch =>
          TouchEventAbsent(batch, now);
        case Undecided =>
          TouchEventUndecided(batch, now);
        case Recognized =>
          TouchEventRecognized(batch);
      }
      activeTouches.Update(batch, now);
    }

    method TouchEventAbsent(batch: seq<TouchPoint>, now: int)
      requires Valid() && status == WaitingForTouch
      modifies this`touchId, this`startPos, this`startScenePos, this`previousPos, this`previousScenePos,
               this`dampedScenePos, this`numSamples, this`numSamplesOnLastSpeedCheck, this`silenceTime,
               this`status, this`timerRunning, this`statusSignals, this`draggingSignals
      ensures Valid()
      ensures AbsentStep(batch, WithinCompositionWindow(activeTouches.entries, now, config.compositionTime))
      ensures status == Undecided <==>
                HasState(batch, Pressed) && CountState(batch, Pressed) == 1
                && !WithinCompositionWindow(activeTouches.entries, now, config.compositionTime)
      ensures SignalsFollowStatus()
    {
      if !HasState(batch, Pressed) {
        // the batch has no Pressed point
        return;
      }
      var within := IsWithinTouchCompositionWindow(now);
      if within {
        // the composition window of an earlier press is still open
        return;
      }
      var newTouchPoint := ScanPressedPoints(batch);
      if newTouchPoint.None? {
        // the scan met a second Pressed point
        CountStatePositive(batch, Pressed);
        return;
      }
      AdoptCandidate(batch[newTouchPoint.value]);
    }

    /** The scan of a batch's Pressed points. It takes each one's identifier as
        the candidate in turn and gives up at the second one, so a rejected batch
        leaves the first press's identifier behind. */
    method ScanPressedPoints(batch: seq<TouchPoint>) returns (newTouchPoint: Option<nat>)
      requires HasState(batch, Pressed)
      modifies this`touchId
      ensures var first := IndexOfState(batch, Pressed).value;
              touchId == batch[first].id &&
              (newTouchPoint.Some? <==> CountState(batch, Pressed) == 1) &&
              (newTouchPoint.Some? ==> newTouchPoint.value == first)
    {
      newTouchPoint := None;
      var i := 0;
      while i < |batch|
        invariant 0 <= i <= |batch|
        invariant CountState(batch[..i], Pressed) == if newTouchPoint.None? then 0 else 1
        invariant newTouchPoint.None? ==> touchId == old(touchId)
                                          && forall j :: 0 <= j < i ==> batch[j].state != Pressed
        invariant newTouchPoint.Some? ==> newTouchPoint == IndexOfState(batch, Pressed)
                                          && newTouchPoint.value < i
                                          && touchId == batch[newTouchPoint.value].id
      {
        assert batch[..i + 1][..i] == batch[..i];
        var touchPoint := batch[i];
        if touchPoint.state == Pressed {
          if newTouchPoint.Some? {
            CountStatePrefix(batch, Pressed, i + 1);
            newTouchPoint := None;
            return;
          } else {
            touchId := touchPoint.id;
            newTouchPoint := Some(i);
          }
        }
        i := i + 1;
      }
      assert batch[..i] == batch;
      CountStatePositive(batch, Pressed);
    }

    /** Makes `tp` the candidate: its position becomes the start, the damped
        filter restarts there, the velocity window and the silence counters are
        emptied and the gesture becomes undecided. */
    method AdoptCandidate(tp: TouchPoint)
      requires Valid() && status == WaitingForTouch
      modifies this`touchId, this`startPos, this`startScenePos, this`previousPos, this`previousScenePos,
               this`dampedScenePos, this`numSamples, this`numSamplesOnLastSpeedCheck, this`silenceTime,
               this`status, this`timerRunning, this`statusSignals, this`draggingSignals
      ensures Valid() && AdoptStep(tp)
      ensures SignalsFollowStatus()
    {
      StartTracking(tp);
      SetStatus(Undecided);
    }

    /** Everything the adoption of `tp` resets besides the status. */
    method StartTracking(tp: TouchPoint)
      requires numSamples <= maxSamples
      modifies this`touchId, this`startPos, this`startScenePos, this`previousPos, this`previousScenePos,
               this`dampedScenePos, this`numSamples, this`numSamplesOnLastSpeedCheck, this`silenceTime
      ensures touchId == tp.id && startPos == tp.pos && startScenePos == tp.scenePos
      ensures previousPos == tp.pos && previousScenePos == tp.scenePos && dampedScenePos == tp.scenePos
      ensures numSamples == 0 && numSamplesOnLastSpeedCheck == 0 && silenceTime == 0
    {
      startPos, startScenePos, touchId := tp.pos, tp.scenePos, tp.id;
      dampedScenePos := startScenePos;
      UpdateVelocityCalculator(startScenePos);
      // the calculator is reset right after receiving the start position
      numSamples := 0;
      numSamplesOnLastSpeedCheck, silenceTime := 0, 0;
      previousPos, previousScenePos := startPos, startScenePos;
    }

    method TouchEventUndecided(batch: seq<TouchPoint>, now: int)
      requires Valid() && status == Undecided
      modifies this`previousDampedScenePos, this`dampedScenePos, this`numSamples,
               this`previousPos, this`previousScenePos,
               this`status, this`timerRunning, this`statusSignals, this`draggingSignals
      ensures Valid()
      ensures UndecidedStep(batch, WithinCompositionWindow(activeTouches.entries, now, config.compositionTime))
      ensures SignalsFollowStatus()
    {
      var reject, k := CandidateRejected(batch, now);
      if reject {
        SetStatus(WaitingForTouch);
        return;
      }
      var touchPoint := batch[k.value];
      TrackCandidate(touchPoint, now);
    }

    /** The checks that end an undecided gesture before its new sample is
        looked at: the candidate is missing from the batch (treated as a
        release), it was released, or another finger was pressed while the
        composition window is still open. */
    method CandidateRejected(batch: seq<TouchPoint>, now: int) returns (reject: bool, k: Option<nat>)
      ensures k == IndexOfId(batch, touchId)
      ensures reject <==> k.None? || batch[k.value].state == Released
                          || (HasState(batch, Pressed)
                              && WithinCompositionWindow(activeTouches.entries, now, config.compositionTime))
    {
      k := FetchTargetTouchPoint(batch);
      reject := k.None? || batch[k.value].state == Released;
      if !reject && HasState(batch, Pressed) {
        // a Pressed point while the composition window is open
        reject := IsWithinTouchCompositionWindow(now);
      }
    }

    /** Feeds the candidate's new sample to the damped filter and the velocity
        calculator, then applies the cone, direction, composition window and
        distance tests in that order. */
    method TrackCandidate(touchPoint: TouchPoint, now: int)
      requires Valid() && status == Undecided
      modifies this`previousDampedScenePos, this`dampedScenePos, this`numSamples,
               this`previousPos, this`previousScenePos,
               this`status, this`timerRunning, this`statusSignals, this`draggingSignals
      ensures Valid()
      ensures TrackStep(touchPoint, WithinCompositionWindow(activeTouches.entries, now, config.compositionTime))
      ensures status == Recognized ==>
                PointInsideAllowedArea(config.direction, config.wideningFactor, startScenePos, dampedScenePos)
                && (config.distanceThreshold > 0.0 ==> Abs(SceneDistance()) > config.distanceThreshold)
      ensures SignalsFollowStatus()
    {
      RecordSample(touchPoint.scenePos);
      ClassifySample(touchPoint, now);
    }

    /** Moves the damped filter towards `touchScenePos` and feeds the sample to
        the velocity calculator. */
    method RecordSample(touchScenePos: Point)
      requires numSamples <= maxSamples
      modifies this`previousDampedScenePos, this`dampedScenePos, this`numSamples
      ensures previousDampedScenePos == old(dampedScenePos)
      ensures dampedScenePos == damp(config.maxDeviation, old(dampedScenePos), touchScenePos)
      ensures numSamples == SamplesAfterRecord(old(numSamples)) && numSamples <= maxSamples
    {
      previousDampedScenePos := dampedScenePos;
      dampedScenePos := damp(config.maxDeviation, dampedScenePos, touchScenePos);
      UpdateVelocityCalculator(touchScenePos);
    }

    /** The cone, direction, composition window and distance tests on the sample
        just recorded. */
    method ClassifySample(touchPoint: TouchPoint, now: int)
      requires Valid() && status == Undecided
      modifies this`previousPos, this`previousScenePos,
               this`status, this`timerRunning, this`statusSignals, this`draggingSignals
      ensures Valid()
      ensures if !PointInsideAllowedArea(config.direction, config.wideningFactor, startScenePos, dampedScenePos)
                 || !MovingInRightDirection(config.direction, previousDampedScenePos, dampedScenePos) then
                status == WaitingForTouch && ReadOutsUnchanged()
              else
                previousPos == touchPoint.pos && previousScenePos == touchPoint.scenePos &&
                status == if !WithinCompositionWindow(activeTouches.entries, now, config.compositionTime)
                             && MovedFarEnough(config.direction, config.distanceThreshold, startScenePos, touchPoint.scenePos)
                          then Recognized else Undecided
      ensures SignalsFollowStatus()
    {
      if !PointInsideAllowedArea(config.direction, config.wideningFactor, startScenePos, dampedScenePos) {
        SetStatus(WaitingForTouch);
        return;
      }
      if !MovingInRightDirection(config.direction, previousDampedScenePos, dampedScenePos) {
        SetStatus(WaitingForTouch);
        return;
      }
      previousPos, previousScenePos := touchPoint.pos, touchPoint.scenePos;
      var within := IsWithinTouchCompositionWindow(now);
      if within {
        // the window is open: decide on a later batch
        return;
      }
      if MovedFarEnough(config.direction, config.distanceThreshold, startScenePos, touchPoint.scenePos) {
        SetStatus(Recognized);
      }
    }

    method TouchEventRecognized(batch: seq<TouchPoint>)
      requires Valid() && status == Recognized
      modifies this`previousPos, this`previousScenePos,
               this`status, this`timerRunning, this`statusSignals, this`draggingSignals
      ensures Valid()
      ensures RecognizedStep(batch)
      ensures SignalsFollowStatus()
    {
      var k := FetchTargetTouchPoint(batch);
      if k.None? {
        // a candidate missing from the batch counts as a release
        SetStatus(WaitingForTouch);
      } else {
        var touchPoint := batch[k.value];
        previousPos, previousScenePos := touchPoint.pos, touchPoint.scenePos;
        if touchPoint.state == Released {
          SetStatus(WaitingForTouch);
        }
      }
    }

    /** The recognition timer's tick. `speed` is what the velocity calculator
        computes from its window; it is consulted only when the window holds at
        least `minSamplesNeeded` samples. */
    method CheckSpeed(speed: real)
      requires Valid()
      modifies this`status, this`timerRunning, this`statusSignals, this`draggingSignals,
               this`silenceTime, this`numSamplesOnLastSpeedCheck
      ensures Valid()
      ensures numSamplesOnLastSpeedCheck == numSamples
      ensures var silent := numSamples == old(numSamplesOnLastSpeedCheck);
              silenceTime == (if silent then old(silenceTime) + timerInterval else 0) &&
              status == if (numSamples >= minSamplesNeeded && Abs(speed) < config.minSpeed / 1000.0)
                           || (silent && silenceTime > config.maxSilenceTime)
                        then WaitingForTouch else old(status)
      ensures SignalsFollowStatus()
    {
      if numSamples >= minSamplesNeeded {
        var absSpeed := Abs(speed);
        var minSpeedMsecs := config.minSpeed / 1000.0;
        if absSpeed < minSpeedMsecs {
          SetStatus(WaitingForTouch);
        }
      }
      if numSamples == numSamplesOnLastSpeedCheck {
        silenceTime := silenceTime + timerInterval;
        if silenceTime > config.maxSilenceTime {
          SetStatus(WaitingForTouch);
        }
      } else {
        silenceTime := 0;
      }
      numSamplesOnLastSpeedCheck := numSamples;
    }
  }
}
