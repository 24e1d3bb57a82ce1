/**
  Concrete runs of the drag area, each ending in the status sequence observed
  after every input. The damped filter is taken without lag (it jumps to the
  target), so each scenario's geometry is that of the raw touch positions.
*/
module Scenarios {
  import opened Geometry
  import opened Touch
  import opened ActiveTouches
  import opened DragArea

  /** A damped filter that reaches its target at once. */
  function NoLag(maxDeviation: real, current: Point, target: Point): Point
  {
    target
  }

  function Sample(id: int, x: real, y: real, state: TouchPointState): TouchPoint
  {
    TouchPoint(id, Point(x, y), Point(x, y), state)
  }

  /** An area with the default configuration, after one finger landed at the
      origin at time 0. */
  method TouchDown(minSamplesNeeded: nat) returns (area: DirectionalDragArea)
    ensures fresh(area) && fresh(area.activeTouches) && area.Valid()
    ensures area.config == Config(Rightwards, 5.0, 0.0, 0.0, 0.0, 0.0, 200, 60)
    ensures area.damp == NoLag && area.maxSamples == 10 && area.minSamplesNeeded == minSamplesNeeded
    ensures area.status == Undecided && area.touchId == 0 && area.timerInterval == 60
    ensures area.startScenePos == Point(0.0, 0.0) && area.dampedScenePos == Point(0.0, 0.0)
    ensures area.numSamples == 0 && area.numSamplesOnLastSpeedCheck == 0 && area.silenceTime == 0
    ensures area.activeTouches.entries == [ActiveTouchInfo(0, 0)]
  {
    area := new DirectionalDragArea(NoLag, 5.0, 10, minSamplesNeeded);
    area.TouchEvent([Sample(0, 0.0, 0.0, Pressed)], 0);
  }

  /** A rightward area with a 20 ms composition window and a distance
      threshold of 10, after one finger landed at the origin at time 0. */
  method BeginSwipe() returns (area: DirectionalDragArea)
    ensures fresh(area) && fresh(area.activeTouches) && area.Valid()
    ensures area.config.direction == Rightwards && area.config.wideningFactor == 0.0
    ensures area.config.compositionTime == 20 && area.config.distanceThreshold == 10.0
    ensures area.damp == NoLag && area.status == Undecided && area.touchId == 0
    ensures area.startScenePos == Point(0.0, 0.0) && area.dampedScenePos == Point(0.0, 0.0)
    ensures area.activeTouches.entries == [ActiveTouchInfo(0, 0)]
  {
    area := new DirectionalDragArea(NoLag, 5.0, 10, 3);
    area.SetCompositionTime(20);
    area.SetDistanceThreshold(10.0);
    area.TouchEvent([Sample(0, 0.0, 0.0, Pressed)], 0);
  }

  /** A rightward swipe short of the distance threshold stays undecided. */
  method ShortSwipe() returns (statuses: seq<Status>)
    ensures statuses == [Undecided, Undecided]
  {
    var area := BeginSwipe();
    statuses := [area.status];
    area.TouchEvent([Sample(0, 5.0, 0.0, Moved)], 30);
    statuses := statuses + [area.status];
  }

  /** A rightward swipe beyond the distance threshold, after the composition
      window, is recognized; its release ends it. */
  method RightwardSwipe() returns (statuses: seq<Status>)
    ensures statuses == [Undecided, Recognized, WaitingForTouch]
  {
    var area := BeginSwipe();
    statuses := [area.status];
    area.TouchEvent([Sample(0, 15.0, 0.0, Moved)], 40);
    statuses := statuses + [area.status];
    var release := [Sample(0, 15.0, 0.0, Released)];
    assert release[..|release| - 1] == [];
    assert HasEntry(area.activeTouches.entries, 0) by {
      assert area.activeTouches.entries[0].id == 0;
    }
    area.TouchEvent(release, 50);
    statuses := statuses + [area.status];
  }

  /** A touch that leaves the cone (zero widening) is dropped. */
  method SidewaysDrift() returns (statuses: seq<Status>)
    ensures statuses == [Undecided, WaitingForTouch]
  {
    var area := new DirectionalDragArea(NoLag, 5.0, 10, 3);
    area.TouchEvent([Sample(0, 0.0, 0.0, Pressed)], 0);
    statuses := [area.status];
    area.TouchEvent([Sample(0, 5.0, 20.0, Moved)], 100);
    statuses := statuses + [area.status];
  }

  /** A step back against the direction, still inside the cone, fails the
      direction test and is dropped. */
  method Backwards() returns (statuses: seq<Status>)
    ensures statuses == [Undecided, Undecided, WaitingForTouch]
  {
    var area := TouchDown(3);
    statuses := [area.status];
    area.TouchEvent([Sample(0, 10.0, 0.0, Moved)], 10);
    assert area.status == Undecided && area.dampedScenePos == Point(10.0, 0.0);
    statuses := statuses + [area.status];
    area.TouchEvent([Sample(0, 5.0, 0.0, Moved)], 20);
    statuses := statuses + [area.status];
  }

  /** Two fingers landing in one batch never start a gesture, and both are
      registered as active. */
  method TwoFingersAtOnce() returns (statuses: seq<Status>, active: nat)
    ensures statuses == [WaitingForTouch] && active == 2
  {
    var area := new DirectionalDragArea(NoLag, 5.0, 10, 3);
    var batch := [Sample(0, 0.0, 0.0, Pressed), Sample(1, 30.0, 0.0, Pressed)];
    assert batch[..1][..0] == [] && batch[..|batch| - 1] == batch[..1];
    assert Fold([], batch[..1], 0) == [ActiveTouchInfo(0, 0)];
    assert Fold([], batch, 0) == [ActiveTouchInfo(0, 0), ActiveTouchInfo(1, 0)];
    area.TouchEvent(batch, 0);
    statuses := [area.status];
    active := |area.activeTouches.entries|;
  }

  /** A second finger pressed within the composition window of the first ends
      the undecided gesture. */
  method SecondFingerSoon() returns (statuses: seq<Status>)
    ensures statuses == [Undecided, WaitingForTouch]
  {
    var area := new DirectionalDragArea(NoLag, 5.0, 10, 3);
    area.TouchEvent([Sample(0, 0.0, 0.0, Pressed)], 0);
    statuses := [area.status];
    area.TouchEvent([Sample(0, 2.0, 0.0, Moved), Sample(1, 40.0, 0.0, Pressed)], 30);
    statuses := statuses + [area.status];
  }

  /** A default area with a minimum speed of 100 after a press at the origin
      and one short move inside the composition window; a single sample
      suffices for a speed check. */
  method SlowStart() returns (area: DirectionalDragArea)
    ensures fresh(area) && fresh(area.activeTouches) && area.Valid()
    ensures area.status == Undecided && area.config.minSpeed == 100.0
    ensures area.numSamples == 1 && area.minSamplesNeeded == 1
  {
    area := TouchDown(1);
    area.SetMinSpeed(100.0);
    area.TouchEvent([Sample(0, 1.0, 0.0, Moved)], 30);
  }

  /** A drag slower than the minimum speed is dropped at the timer's tick. */
  method TooSlow() returns (statuses: seq<Status>)
    ensures statuses == [Undecided, WaitingForTouch]
  {
    var area := SlowStart();
    statuses := [area.status];
    area.CheckSpeed(0.05);
    statuses := statuses + [area.status];
  }

  /** A candidate that sends no samples is dropped once its silence exceeds the
      maximum: four ticks of 60 ms pass 200 ms. */
  method Silence() returns (statuses: seq<Status>)
    ensures statuses == [Undecided, Undecided, Undecided, Undecided, WaitingForTouch]
  {
    var area := TouchDown(3);
    statuses := [area.status];
    area.CheckSpeed(0.0);
    assert area.status == Undecided && area.silenceTime == 60;
    statuses := statuses + [area.status];
    area.CheckSpeed(0.0);
    assert area.status == Undecided && area.silenceTime == 120;
    statuses := statuses + [area.status];
    area.CheckSpeed(0.0);
    assert area.status == Undecided && area.silenceTime == 180;
    statuses := statuses + [area.status];
    area.CheckSpeed(0.0);
    statuses := statuses + [area.status];
  }
}
