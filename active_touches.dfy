/**
  The registry of every touch currently down on the surface, with the time it
  was pressed. It is a list of (id, startTime) entries: presses append to it,
  releases remove the first entry with the released identifier. The drag area
  consults its most recent start time for the touch composition window.
*/
module ActiveTouches {
  import opened Optional
  import opened Touch

  datatype ActiveTouchInfo = ActiveTouchInfo(id: int, startTime: int)

  predicate HasEntry(entries: seq<ActiveTouchInfo>, id: int)
  {
    exists i :: 0 <= i < |entries| && entries[i].id == id
  }

  /** Index of the first entry with identifier `id`, if any. */
  function IndexOfEntry(entries: seq<ActiveTouchInfo>, id: int): (r: Option<nat>)
    ensures r.Some? ==> r.value < |entries| && entries[r.value].id == id
                        && forall j :: 0 <= j < r.value ==> entries[j].id != id
    ensures r.None? <==> !HasEntry(entries, id)
  {
    if entries == [] then None
    else if entries[0].id == id then Some(0)
    else match IndexOfEntry(entries[1..], id)
      case None => None
      case Some(k) => Some(k + 1)
  }

  /** The list with its first entry for `id` taken out (unchanged when there is none). */
  function RemoveFirst(entries: seq<ActiveTouchInfo>, id: int): (r: seq<ActiveTouchInfo>)
    ensures HasEntry(entries, id) ==> |r| == |entries| - 1
    ensures !HasEntry(entries, id) ==> r == entries
  {
    match IndexOfEntry(entries, id)
    case None => entries
    case Some(k) => entries[..k] + entries[k + 1..]
  }

  /** Effect of one touch point of a batch on the registry. */
  function Step(entries: seq<ActiveTouchInfo>, tp: TouchPoint, now: int): seq<ActiveTouchInfo>
  {
    if tp.state == Pressed then entries + [ActiveTouchInfo(tp.id, now)]
    else if tp.state == Released then RemoveFirst(entries, tp.id)
    else entries
  }

  /** Effect of a whole batch, point by point in batch order. */
  function Fold(entries: seq<ActiveTouchInfo>, batch: seq<TouchPoint>, now: int): seq<ActiveTouchInfo>
  {
    if batch == [] then entries
    else Step(Fold(entries, batch[..|batch| - 1], now), batch[|batch| - 1], now)
  }

  /** Every Released point of the batch finds an entry for its identifier at the
      moment it is processed (the host's press/release contract). */
  predicate ReleasesRegistered(entries: seq<ActiveTouchInfo>, batch: seq<TouchPoint>, now: int)
  {
    batch == [] ||
    (ReleasesRegistered(entries, batch[..|batch| - 1], now) &&
     (batch[|batch| - 1].state == Released ==>
        HasEntry(Fold(entries, batch[..|batch| - 1], now), batch[|batch| - 1].id)))
  }

  /** Start times never decrease along the list. */
  predicate Ordered(entries: seq<ActiveTouchInfo>)
  {
    forall i, j :: 0 <= i < j < |entries| ==> entries[i].startTime <= entries[j].startTime
  }

  /** Every entry was pressed no later than `now`. */
  predicate StartedBy(entries: seq<ActiveTouchInfo>, now: int)
  {
    forall i :: 0 <= i < |entries| ==> entries[i].startTime <= now
  }

  /** "Some touch is still within its composition window": the registry is not
      empty and `now` is at most the last entry's start time plus the window. */
  predicate WithinCompositionWindow(entries: seq<ActiveTouchInfo>, now: int, compositionTime: int)
  {
    entries != [] && now <= entries[|entries| - 1].startTime + compositionTime
  }

  class ActiveTouchesInfo {
    var entries: seq<ActiveTouchInfo>

    constructor ()
      ensures entries == []
    {
      entries := [];
    }

    predicate IsEmpty()
      reads this
    {
      entries == []
    }

    /** Applies a batch: each Pressed point appends (id, now), each Released point
        removes the first entry with its identifier. */
    method Update(batch: seq<TouchPoint>, now: int)
      requires ReleasesRegistered(entries, batch, now)
      modifies this
      ensures entries == Fold(old(entries), batch, now)
    {
      if !(HasState(batch, Pressed) || HasState(batch, Released)) {
        // the batch neither starts nor ends a touch
        FoldIgnoresOtherPhases(entries, batch, now);
        return;
      }
      var i := 0;
      while i < |batch|
        invariant 0 <= i <= |batch|
        invariant entries == Fold(old(entries), batch[..i], now)
      {
        var tp := batch[i];
        assert batch[..i + 1][..i] == batch[..i];
        if tp.state == Pressed {
          AddTouchPoint(tp, now);
        } else if tp.state == Released {
          ReleasesRegisteredPrefix(old(entries), batch, now, i + 1);
          RemoveTouchPoint(tp);
        }
        i := i + 1;
      }
      assert batch[..i] == batch;
    }

    method AddTouchPoint(tp: TouchPoint, now: int)
      modifies this
      ensures entries == old(entries) + [ActiveTouchInfo(tp.id, now)]
    {
      entries := entries + [ActiveTouchInfo(tp.id, now)];
    }

    /** Removing an identifier that is not registered is an internal consistency
        violation, hence the precondition. */
    method RemoveTouchPoint(tp: TouchPoint)
      requires HasEntry(entries, tp.id)
      modifies this
      ensures entries == RemoveFirst(old(entries), tp.id)
      ensures |entries| == |old(entries)| - 1
    {
      var i := 0;
      while i < |entries|
        invariant 0 <= i <= |entries|
        invariant forall j :: 0 <= j < i ==> entries[j].id != tp.id
      {
        if tp.id == entries[i].id {
          entries := entries[..i] + entries[i + 1..];
          return;
        }
        i := i + 1;
      }
      assert false;
    }

    /** The start time of the LAST entry; it is the latest one only because
        entries are appended in clock order (see LastIsLatest). */
    method MostRecentStartTime() returns (highestStartTime: int)
      requires entries != []
      ensures highestStartTime == entries[|entries| - 1].startTime
    {
      var i := 0;
      highestStartTime := entries[i].startTime;
      i := i + 1;
      while i < |entries|
        invariant 1 <= i <= |entries|
        invariant highestStartTime == entries[i - 1].startTime
      {
        highestStartTime := entries[i].startTime;
        i := i + 1;
      }
    }
  }

  /** A batch with neither Pressed nor Released points leaves the list untouched. */
  lemma {:induction false} FoldIgnoresOtherPhases(entries: seq<ActiveTouchInfo>, batch: seq<TouchPoint>, now: int)
    requires !HasState(batch, Pressed) && !HasState(batch, Released)
    ensures Fold(entries, batch, now) == entries
  {
    if batch != [] {
      var init := batch[..|batch| - 1];
      assert !HasState(init, Pressed) && !HasState(init, Released) by {
        forall i | 0 <= i < |init| ensures init[i] == batch[i] { }
      }
      assert batch[|batch| - 1].state != Pressed && batch[|batch| - 1].state != Released;
      FoldIgnoresOtherPhases(entries, init, now);
    }
  }

  lemma {:induction false} ReleasesRegisteredPrefix(entries: seq<ActiveTouchInfo>, batch: seq<TouchPoint>, now: int, i: nat)
    requires i <= |batch|
    requires ReleasesRegistered(entries, batch, now)
    ensures ReleasesRegistered(entries, batch[..i], now)
    decreases |batch| - i
  {
    if i == |batch| {
      assert batch[..i] == batch;
    } else {
      ReleasesRegisteredPrefix(entries, batch, now, i + 1);
      assert batch[..i + 1][..i] == batch[..i];
    }
  }

  /** Removal keeps the other entries in their relative order: position j of the
      result is position j or j + 1 of the input. */
  lemma {:induction false} RemoveFirstKeepsOrder(entries: seq<ActiveTouchInfo>, id: int)
    requires HasEntry(entries, id)
    ensures var k := IndexOfEntry(entries, id).value;
            var r := RemoveFirst(entries, id);
            |r| == |entries| - 1 &&
            (forall j :: 0 <= j < k ==> r[j] == entries[j]) &&
            (forall j :: k <= j < |r| ==> r[j] == entries[j + 1])
  {
    var k := IndexOfEntry(entries, id).value;
    var r := RemoveFirst(entries, id);
    assert r == entries[..k] + entries[k + 1..];
    forall j | 0 <= j < k ensures r[j] == entries[j] {
      assert r[j] == entries[..k][j];
    }
    forall j | k <= j < |r| ensures r[j] == entries[j + 1] {
      assert r[j] == entries[k + 1..][j - k];
    }
  }

  /** Removing an entry preserves order of start times and their bound. */
  lemma {:induction false} RemoveFirstPreservesOrdered(entries: seq<ActiveTouchInfo>, id: int, now: int)
    requires Ordered(entries) && StartedBy(entries, now)
    ensures Ordered(RemoveFirst(entries, id)) && StartedBy(RemoveFirst(entries, id), now)
  {
    if HasEntry(entries, id) {
      RemoveFirstKeepsOrder(entries, id);
      var k := IndexOfEntry(entries, id).value;
      var r := RemoveFirst(entries, id);
      forall i, j | 0 <= i < j < |r| ensures r[i].startTime <= r[j].startTime {
        var i' := if i < k then i else i + 1;
        var j' := if j < k then j else j + 1;
        assert r[i] == entries[i'] && r[j] == entries[j'];
      }
      forall i | 0 <= i < |r| ensures r[i].startTime <= now {
        var i' := if i < k then i else i + 1;
        assert r[i] == entries[i'];
      }
    }
  }

  /** Every press of a batch adds one entry and every release takes one away. */
  lemma {:induction false} FoldSize(entries: seq<ActiveTouchInfo>, batch: seq<TouchPoint>, now: int)
    requires ReleasesRegistered(entries, batch, now)
    ensures |Fold(entries, batch, now)| == |entries| + CountState(batch, Pressed) - CountState(batch, Released)
  {
    if batch != [] {
      var init := batch[..|batch| - 1];
      FoldSize(entries, init, now);
      var tp := batch[|batch| - 1];
      if tp.state == Released {
        RemoveFirstKeepsOrder(Fold(entries, init, now), tp.id);
      }
    }
  }

  /** Entries registered with a clock that never runs backwards stay ordered by start time. */
  lemma {:induction false} FoldPreservesOrdered(entries: seq<ActiveTouchInfo>, batch: seq<TouchPoint>, now: int)
    requires Ordered(entries) && StartedBy(entries, now)
    ensures Ordered(Fold(entries, batch, now)) && StartedBy(Fold(entries, batch, now), now)
  {
    if batch != [] {
      var init := batch[..|batch| - 1];
      FoldPreservesOrdered(entries, init, now);
      var before := Fold(entries, init, now);
      var tp := batch[|batch| - 1];
      if tp.state == Released {
        RemoveFirstPreservesOrdered(before, tp.id, now);
      }
    }
  }

  /** The last entry of an ordered list carries the highest start time. */
  lemma LastIsLatest(entries: seq<ActiveTouchInfo>)
    requires Ordered(entries) && entries != []
    ensures forall i :: 0 <= i < |entries| ==> entries[i].startTime <= entries[|entries| - 1].startTime
  {
  }

  /** Batches applied in order from `entries`, batch k at clock reading times[k]. */
  function Replay(entries: seq<ActiveTouchInfo>, batches: seq<seq<TouchPoint>>, times: seq<int>): seq<ActiveTouchInfo>
    requires |batches| == |times|
  {
    if batches == [] then entries
    else Fold(Replay(entries, batches[..|batches| - 1], times[..|times| - 1]),
              batches[|batches| - 1], times[|times| - 1])
  }

  predicate NonDecreasing(times: seq<int>)
  {
    forall i, j :: 0 <= i < j < |times| ==> times[i] <= times[j]
  }

  /** Starting from an empty registry, under a non-decreasing clock the list stays
      ordered by start time, so its last entry's start time is the greatest. */
  lemma {:induction false} ReplayKeepsLastLatest(batches: seq<seq<TouchPoint>>, times: seq<int>)
    requires |batches| == |times| && NonDecreasing(times)
    ensures var r := Replay([], batches, times);
            Ordered(r) && (times != [] ==> StartedBy(r, times[|times| - 1]))
            && (r != [] ==> forall i :: 0 <= i < |r| ==> r[i].startTime <= r[|r| - 1].startTime)
  {
    if batches != [] {
      var bs, ts := batches[..|batches| - 1], times[..|times| - 1];
      assert NonDecreasing(ts);
      ReplayKeepsLastLatest(bs, ts);
      var before := Replay([], bs, ts);
      var now := times[|times| - 1];
      assert StartedBy(before, now) by {
        if ts != [] {
          assert ts[|ts| - 1] <= now;
        }
      }
      FoldPreservesOrdered(before, batches[|batches| - 1], now);
    }
    var r := Replay([], batches, times);
    if r != [] {
      LastIsLatest(r);
    }
  }

  /** For an ordered registry the window test sees whether ANY registered touch is
      still within its own composition window. */
  lemma WindowIsAnyRecentTouch(entries: seq<ActiveTouchInfo>, now: int, compositionTime: int)
    requires Ordered(entries)
    ensures WithinCompositionWindow(entries, now, compositionTime)
        <==> exists i :: 0 <= i < |entries| && now <= entries[i].startTime + compositionTime
  {
    if exists i :: 0 <= i < |entries| && now <= entries[i].startTime + compositionTime {
      var i :| 0 <= i < |entries| && now <= entries[i].startTime + compositionTime;
      assert entries[i].startTime <= entries[|entries| - 1].startTime;
    }
  }
}
