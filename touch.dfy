/**
  Touch input: one sample per touch point and the batch the host delivers per
  input frame. The batch's phase summary ("which phases occur in this batch")
  is derived from the samples themselves.
*/
module Touch {
  import opened Optional
  import opened Geometry

  datatype TouchPointState = Pressed | Moved | Stationary | Released

  datatype TouchPoint = TouchPoint(id: int, pos: Point, scenePos: Point, state: TouchPointState)

  /** The batch's phase flags contain `st`. */
  predicate HasState(batch: seq<TouchPoint>, st: TouchPointState)
  {
    exists i :: 0 <= i < |batch| && batch[i].state == st
  }

  /** Number of samples of the batch in phase `st` (counted from the back, so
      that growing a prefix by one sample adds one term). */
  function CountState(batch: seq<TouchPoint>, st: TouchPointState): nat
  {
    if batch == [] then 0
    else CountState(batch[..|batch| - 1], st) + (if batch[|batch| - 1].state == st then 1 else 0)
  }

  /** Index of the first sample with identifier `id`, if any. */
  function IndexOfId(batch: seq<TouchPoint>, id: int): (r: Option<nat>)
    ensures r.Some? ==> r.value < |batch| && batch[r.value].id == id
                        && forall j :: 0 <= j < r.value ==> batch[j].id != id
    ensures r.None? ==> forall j :: 0 <= j < |batch| ==> batch[j].id != id
  {
    if batch == [] then None
    else if batch[0].id == id then Some(0)
    else match IndexOfId(batch[1..], id)
      case None => None
      case Some(k) => Some(k + 1)
  }

  /** Index of the first sample in phase `st`, if any. */
  function IndexOfState(batch: seq<TouchPoint>, st: TouchPointState): (r: Option<nat>)
    ensures r.Some? ==> r.value < |batch| && batch[r.value].state == st
                        && forall j :: 0 <= j < r.value ==> batch[j].state != st
    ensures r.None? <==> !HasState(batch, st)
  {
    if batch == [] then None
    else if batch[0].state == st then Some(0)
    else match IndexOfState(batch[1..], st)
      case None => None
      case Some(k) => Some(k + 1)
  }

  /** A phase occurs in the batch exactly when it is counted at least once. */
  lemma {:induction false} CountStatePositive(batch: seq<TouchPoint>, st: TouchPointState)
    ensures CountState(batch, st) > 0 <==> HasState(batch, st)
  {
    if batch != [] {
      var init := batch[..|batch| - 1];
      CountStatePositive(init, st);
      if HasState(init, st) {
        var i :| 0 <= i < |init| && init[i].state == st;
        assert batch[i].state == st;
      }
      if HasState(batch, st) && batch[|batch| - 1].state != st {
        var i :| 0 <= i < |batch| && batch[i].state == st;
        assert init[i].state == st;
      }
    }
  }

  /** Counting a prefix never gives more than counting the whole batch. */
  lemma {:induction false} CountStatePrefix(batch: seq<TouchPoint>, st: TouchPointState, i: nat)
    requires i <= |batch|
    ensures CountState(batch[..i], st) <= CountState(batch, st)
    decreases |batch| - i
  {
    if i < |batch| {
      CountStatePrefix(batch, st, i + 1);
      assert batch[..i + 1][..i] == batch[..i];
    } else {
      assert batch[..i] == batch;
    }
  }
}
