// The capture buffer that stands in front of the bridge until the runtime is
// loaded (hermes/registration.py, _BootstrapCaptureBuffer).  Every step runs
// under the capture lock.
module Bootstrap {
  import opened Prelude
  import opened Values
  import opened CaptureItems
  import B = Bridge

  // _BootstrapHealth, as far as capture and handoff write it.
  datatype Health = Health(complete: bool, dropped: nat, pending: int, ranges: nat, late: nat, failures: nat)

  datatype State = State(
    next: nat,
    capacity: nat,
    queue: seq<Item>,
    head: Option<Item>,
    overflow: seq<Item>,
    retained: Option<Item>,
    handedOffDropped: nat,
    exhausted: bool,
    health: Health)

  function Initial(capacity: nat): State {
    State(1, capacity, [], None, [], None, 0, false, Health(true, 0, 0, 0, 0, 0))
  }

  function Stored(s: State): seq<Item> {
    OneOrNone(s.head) + s.queue
  }

  // Everything reserved and not yet handed off, in handoff order.
  function Line(s: State): seq<Item> {
    OneOrNone(s.retained) + Merge(Stored(s), s.overflow)
  }

  /* ---------------- gaps ---------------- */

  // _pending_gap_metrics_locked
  function PendingRanges(s: State): nat {
    GapRanges(OneOrNone(s.retained) + Stored(s) + s.overflow)
  }

  function PendingDropped(s: State): nat {
    Missing(OneOrNone(s.retained) + Stored(s) + s.overflow)
  }

  function Books(h: Health, dropped: nat, ranges: nat): Health {
    h.(complete := h.complete && dropped == 0 && h.failures == 0, dropped := dropped, ranges := ranges)
  }

  // _reconcile_gap_health_locked
  function Reconcile(s: State): State {
    s.(health := Books(s.health, s.handedOffDropped + PendingDropped(s), PendingRanges(s)))
  }

  datatype Found = Replaced | AlreadyGap | Absent

  function Place(existing: Item, n: nat): Found {
    if !Holds(existing, n) then Absent else if existing.IsGap() then AlreadyGap else Replaced
  }

  // The first stored item that holds the number decides.
  function ReplaceIn(items: seq<Item>, gap: Item): (r: (seq<Item>, Found))
    ensures |r.0| == |items|
  {
    if items == [] then ([], Absent)
    else
      match Place(items[0], gap.first)
      case Replaced => ([gap] + items[1..], Replaced)
      case AlreadyGap => (items, AlreadyGap)
      case Absent =>
        var rest := ReplaceIn(items[1..], gap);
        ([items[0]] + rest.0, rest.1)
  }

  function PlaceOf(x: Option<Item>, n: nat): Found {
    if x.None? then Absent else Place(x.value, n)
  }

  // _replace_pending_with_gap_locked: retained, head, queue, then overflow.
  function ReplacePending(s: State, gap: Item): (State, Found) {
    match PlaceOf(s.retained, gap.first)
    case Replaced => (s.(retained := Some(gap)), Replaced)
    case AlreadyGap => (s, AlreadyGap)
    case Absent =>
      match PlaceOf(s.head, gap.first)
      case Replaced => (s.(head := Some(gap)), Replaced)
      case AlreadyGap => (s, AlreadyGap)
      case Absent =>
        var inQueue := ReplaceIn(s.queue, gap);
        if !inQueue.1.Absent? then (s.(queue := inQueue.0), inQueue.1)
        else (s, ReplaceIn(s.overflow, gap).1)
  }

  predicate Adjacent(overflow: seq<Item>, x: Item) {
    overflow != [] && overflow[|overflow| - 1].IsGap() && x.IsGap() && overflow[|overflow| - 1].last + 1 == x.first
  }

  // _retain_new_gap_locked: the queue, or else the overflow ranges.
  function RetainNewGap(s: State, gap: Item): State {
    if |s.queue| < s.capacity then s.(queue := s.queue + [gap])
    else if Adjacent(s.overflow, gap) then
      s.(overflow := s.overflow[..|s.overflow| - 1] + [Extended(s.overflow[|s.overflow| - 1], gap)])
    else s.(overflow := s.overflow + [gap])
  }

  // _record_gap_locked
  function RecordGap(s: State, n: nat, cause: Cause): State {
    var gap := GapOf(n, cause);
    var (t, found) := ReplacePending(s, gap);
    Reconcile(if found.Absent? then RetainNewGap(t, gap) else t)
  }

  /* ---------------- capture ---------------- */

  function Reserve(s: State): State {
    s.(next := s.next + 1, health := s.health.(pending := s.health.pending + 1))
  }

  // capture
  function Capture(s: State, shaped: B.Shaped): State {
    if s.next > B.MAX_CAPTURE_SEQUENCE then s.(exhausted := true)
    else
      var r := Reserve(s);
      match shaped
      case BadSchema => RecordGap(r, s.next, InvalidSourceSchema)
      case Unshaped => RecordGap(r, s.next, CallbackInternal)
      case Shaped(content) =>
        if |r.queue| < r.capacity then r.(queue := r.queue + [Observation(s.next, content)])
        else RecordGap(r, s.next, QueueFull)
  }

  // A callback that fails after its capture, still holding the lock: its
  // reservation becomes a gap.
  function DispatchFailed(s: State): State {
    if s.next <= 1 then s else RecordGap(s, s.next - 1, CallbackInternal)
  }

  /* ---------------- handoff ---------------- */

  function WithHead(s: State): State {
    var (head, queue) := TakeHead(s.head, s.queue);
    s.(head := head, queue := queue)
  }

  // next_for_worker
  function NextForWorker(s: State): State {
    if s.retained.Some? then s
    else
      var t := WithHead(s);
      if t.overflow != [] && (t.head.None? || t.overflow[0].first < t.head.value.first) then
        t.(retained := Some(t.overflow[0]), overflow := t.overflow[1..])
      else if t.head.Some? then t.(retained := t.head, head := None)
      else t
  }

  // mark_handed_off
  function HandOff(s: State): State
    requires s.retained.Some?
  {
    var x := s.retained.value;
    var handed := s.handedOffDropped + (if x.IsGap() then Length(x) else 0);
    var t := s.(retained := None, handedOffDropped := handed);
    t.(health := Books(s.health, handed + PendingDropped(t), PendingRanges(t)).(
         pending := s.health.pending - Length(x)))
  }

  // mark_late_after_close
  function MarkLate(s: State): State
    requires s.retained.Some?
  {
    var x := s.retained.value;
    var handed := s.handedOffDropped + Length(x);
    var t := s.(retained := None, handedOffDropped := handed);
    t.(health := s.health.(complete := false, dropped := handed + PendingDropped(t), ranges := PendingRanges(t),
                           pending := s.health.pending - Length(x), late := s.health.late + Length(x)))
  }

  /* ---------------- the class ---------------- */

  class BootstrapCaptureBuffer {
    var nextCaptureSeq: nat
    const queueCapacity: nat
    var queue: seq<Item>
    var queueHead: Option<Item>
    var overflow: seq<Item>
    var workerRetained: Option<Item>
    var handedOffDroppedEvents: nat
    var captureExhausted: bool
    var health: Health

    function View(): State
      reads this
    {
      State(nextCaptureSeq, queueCapacity, queue, queueHead, overflow, workerRetained, handedOffDroppedEvents,
            captureExhausted, health)
    }

    constructor (capacity: nat)
      requires capacity >= 1
      ensures View() == Initial(capacity)
    {
      nextCaptureSeq, queueCapacity, queue, queueHead, overflow, workerRetained := 1, capacity, [], None, [], None;
      handedOffDroppedEvents, captureExhausted, health := 0, false, Health(true, 0, 0, 0, 0, 0);
    }

    // The walk over one store.
    static method FindIn(items: seq<Item>, gap: Item) returns (found: Found, at: nat)
      ensures ReplaceIn(items, gap).1 == found
      ensures found.Replaced? ==> at < |items| && ReplaceIn(items, gap).0 == items[at := gap]
      ensures !found.Replaced? ==> ReplaceIn(items, gap).0 == items
    {
      at := 0;
      while at < |items|
        invariant at <= |items|
        invariant ReplaceIn(items, gap).1 == ReplaceIn(items[at..], gap).1
        invariant ReplaceIn(items, gap).0 == items[..at] + ReplaceIn(items[at..], gap).0
      {
        found := Place(items[at], gap.first);
        assert items[at..][1..] == items[at + 1..];
        if !found.Absent? {
          assert items == items[..at] + items[at..];
          return;
        }
        at := at + 1;
      }
      found := Absent;
    }

    method ReplacePendingWithGap(gap: Item) returns (found: Found)
      modifies this
      ensures (View(), found) == ReplacePending(old(View()), gap)
    {
      hide ReplaceIn, Place;
      found := PlaceOf(workerRetained, gap.first);
      if found.Replaced? {
        workerRetained := Some(gap);
      }
      if !found.Absent? {
        return;
      }
      found := PlaceOf(queueHead, gap.first);
      if found.Replaced? {
        queueHead := Some(gap);
      }
      if !found.Absent? {
        return;
      }
      var at;
      found, at := FindIn(queue, gap);
      if found.Replaced? {
        queue := queue[at := gap];
      }
      if !found.Absent? {
        return;
      }
      found, at := FindIn(overflow, gap);
    }

    method RetainGap(gap: Item)
      requires gap.IsGap()
      modifies this
      ensures View() == RetainNewGap(old(View()), gap)
    {
      hide Extended;
      if |queue| < queueCapacity {
        queue := queue + [gap];
      } else if Adjacent(overflow, gap) {
        var previous := overflow[|overflow| - 1];
        assert overflow[|overflow| - 1 := Extended(previous, gap)] ==
               overflow[..|overflow| - 1] + [Extended(previous, gap)];
        overflow := overflow[|overflow| - 1 := Extended(previous, gap)];
      } else {
        overflow := overflow + [gap];
      }
    }

    method RecordGapLocked(n: nat, cause: Cause)
      modifies this
      ensures View() == RecordGap(old(View()), n, cause)
    {
      hide ReplacePending, RetainNewGap, PendingDropped, PendingRanges;
      var gap := GapOf(n, cause);
      var found := ReplacePendingWithGap(gap);
      if found.Absent? {
        RetainGap(gap);
      }
      health := Books(health, handedOffDroppedEvents + PendingDropped(View()), PendingRanges(View()));
    }

    // capture
    method OnCallback(shaped: B.Shaped)
      modifies this
      ensures View() == Capture(old(View()), shaped)
    {
      hide RecordGap;
      if nextCaptureSeq > B.MAX_CAPTURE_SEQUENCE {
        captureExhausted := true;
        return;
      }
      var captureSeq := nextCaptureSeq;
      nextCaptureSeq := captureSeq + 1;
      health := health.(pending := health.pending + 1);
      match shaped {
        case BadSchema => RecordGapLocked(captureSeq, InvalidSourceSchema);
        case Unshaped => RecordGapLocked(captureSeq, CallbackInternal);
        case Shaped(content) =>
          if |queue| < queueCapacity {
            queue := queue + [Observation(captureSeq, content)];
          } else {
            RecordGapLocked(captureSeq, QueueFull);
          }
      }
    }

    method OnDispatchFailure()
      modifies this
      ensures View() == DispatchFailed(old(View()))
    {
      hide RecordGap;
      if nextCaptureSeq > 1 {
        RecordGapLocked(nextCaptureSeq - 1, CallbackInternal);
      }
    }

    method Next() returns (capture: Option<Item>)
      modifies this
      ensures View() == NextForWorker(old(View())) && capture == workerRetained
    {
      if workerRetained.Some? {
        return workerRetained;
      }
      if queueHead.None? && queue != [] {
        queueHead := Some(queue[0]);
        queue := queue[1..];
      }
      if overflow != [] && (queueHead.None? || overflow[0].first < queueHead.value.first) {
        workerRetained := Some(overflow[0]);
        overflow := overflow[1..];
      } else if queueHead.Some? {
        workerRetained := queueHead;
        queueHead := None;
      }
      return workerRetained;
    }

    // Drops what the worker holds and recomputes what is still pending.
    method MarkHandedOff()
      requires workerRetained.Some?
      modifies this
      ensures View() == HandOff(old(View()))
    {
      hide PendingDropped, PendingRanges;
      var x := workerRetained.value;
      if x.IsGap() {
        handedOffDroppedEvents := handedOffDroppedEvents + Length(x);
      }
      workerRetained := None;
      health := Books(health, handedOffDroppedEvents + PendingDropped(View()), PendingRanges(View())).(
        pending := health.pending - Length(x));
    }

    method MarkLateAfterClose()
      requires workerRetained.Some?
      modifies this
      ensures View() == MarkLate(old(View()))
    {
      hide PendingDropped, PendingRanges;
      var x := workerRetained.value;
      handedOffDroppedEvents := handedOffDroppedEvents + Length(x);
      workerRetained := None;
      health := health.(complete := false, dropped := handedOffDroppedEvents + PendingDropped(View()),
                        ranges := PendingRanges(View()), pending := health.pending - Length(x),
                        late := health.late + Length(x));
    }
  }
}
