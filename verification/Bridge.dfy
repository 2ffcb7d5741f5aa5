// The capture side and the sending side of one bridge stream
// (hermes/bridge.py, HookBridge).
//
// Every step is given twice: as a function on the state, about which the
// theorems speak, and as a method of the class, which works in place.
module Bridge {
  import opened Prelude
  import opened Values
  import opened CaptureItems

  const MAX_CAPTURE_SEQUENCE: nat := 0x7FFF_FFFF_FFFF_FFFE

  // What a callback's arguments turn into.
  datatype Shaped = BadSchema | Unshaped | Shaped(content: Content)

  // _BootstrapReservationReceipt
  datatype Receipt = Receipt(item: Item, late: bool)

  // BridgeHealth, as far as capture and commit write it.
  datatype Health = Health(dropped: nat, ranges: nat, lastCapture: nat, complete: bool, late: nat) {
    function Lose(count: nat): Health {
      this.(complete := false, dropped := dropped + count)
    }

    // A capture after the close seal is counted, not reserved.
    function LoseLate(count: nat): Health {
      Lose(count).(late := late + count)
    }
  }

  datatype State = State(
    next: nat,
    capacity: nat,
    queue: seq<Item>,
    head: Option<Item>,
    gaps: seq<Item>,
    retained: Option<Item>,
    attempted: bool,
    exactRetry: bool,
    health: Health,
    closeRequested: bool,
    sealed: bool,
    finalSeq: Option<nat>,
    everCaptured: bool,
    reservation: Option<Receipt>)

  function Initial(capacity: nat): State {
    State(1, capacity, [], None, [], None, false, false, Health(0, 0, 0, true, 0), false, false, None, false, None)
  }

  // Everything reserved and not yet acknowledged, in the order in which the
  // worker takes it.
  function Waiting(s: State): seq<Item> {
    Merge(OneOrNone(s.head) + s.queue, s.gaps)
  }

  function Line(s: State): seq<Item> {
    OneOrNone(s.retained) + Waiting(s)
  }

  /* ---------------- capture ---------------- */

  predicate Adjacent(gaps: seq<Item>, x: Item) {
    gaps != [] && gaps[|gaps| - 1].IsGap() && x.IsGap() && gaps[|gaps| - 1].last + 1 == x.first
  }

  function WithGap(gaps: seq<Item>, x: Item): seq<Item> {
    if Adjacent(gaps, x) then gaps[..|gaps| - 1] + [Extended(gaps[|gaps| - 1], x)] else gaps + [x]
  }

  function Claimed(s: State): nat {
    if s.retained.Some? && s.retained.value.IsGap() then 1 else 0
  }

  // _prepare_gap_publication_locked and _publish_gap_locked
  function PublishGap(s: State, x: Item): State {
    s.(gaps := WithGap(s.gaps, x),
       health := s.health.Lose(Length(x)).(
         ranges := |s.gaps| + Claimed(s) + (if Adjacent(s.gaps, x) then 0 else 1),
         lastCapture := x.last))
  }

  // _publish_observation_or_gap_locked
  function PublishObservation(s: State, x: Item): State {
    if |s.queue| < s.capacity then s.(queue := s.queue + [x], health := s.health.(lastCapture := x.last))
    else PublishGap(s, GapOf(x.first, QueueFull))
  }

  function Published(s: State, n: nat, shaped: Shaped): State {
    match shaped
    case BadSchema => PublishGap(s, GapOf(n, InvalidSourceSchema))
    case Unshaped => PublishGap(s, GapOf(n, CallbackInternal))
    case Shaped(content) => PublishObservation(s, Observation(n, content))
  }

  // _capture_atomic
  function Capture(s: State, shaped: Shaped): State {
    if s.sealed then s.(health := s.health.LoseLate(1))
    else if s.next > MAX_CAPTURE_SEQUENCE then s.(health := s.health.(complete := false))
    else Published(s, s.next, shaped).(next := s.next + 1, everCaptured := true)
  }

  // capture_reserved: what the bootstrap buffer hands over, without
  // renumbering.  `shapes` says whether the observation could be shaped.
  function CaptureReserved(s: State, x: Item, shapes: bool): Option<(State, bool)> {
    if !ValidItem(x) || x.last > MAX_CAPTURE_SEQUENCE then None
    else if x.first != s.next then
      if s.reservation.Some? && s.reservation.value.item == x && s.next == x.last + 1
      then Some((s, s.reservation.value.late)) else None
    else if s.sealed then
      Some((s.(health := s.health.LoseLate(Length(x)), next := x.last + 1, reservation := Some(Receipt(x, true))), true))
    else
      var t := if x.IsGap() then PublishGap(s, x)
               else if shapes then PublishObservation(s, x) else PublishGap(s, GapOf(x.first, CallbackInternal));
      Some((t.(next := x.last + 1, everCaptured := true, reservation := Some(Receipt(x, false))), false))
  }

  /* ---------------- sending ---------------- */

  function WithHead(s: State): State {
    var (head, queue) := TakeHead(s.head, s.queue);
    s.(head := head, queue := queue)
  }

  // _select_next_record takes the head of the queue before it takes the capture
  // lock...
  function TakeFirst(s: State): State {
    if s.retained.Some? then s else WithHead(s)
  }

  // ... under which it claims the first gap, or else the head.
  function Claim(s: State): State {
    if s.retained.Some? then s
    else if s.gaps != [] && (s.head.None? || s.gaps[0].first < s.head.value.first) then
      s.(retained := Some(s.gaps[0]), gaps := s.gaps[1..])
    else if s.head.Some? then s.(retained := s.head, head := None)
    else s
  }

  // Both in one step, with no capture in between.
  function Select(s: State): State {
    Claim(TakeFirst(s))
  }

  // The cursor rules of _connect; None when the cursor is refused.
  function Attach(s: State, cursor: nat): Option<State> {
    if cursor > s.health.lastCapture + 1 then None
    else if s.retained.Some? then
      if cursor == s.retained.value.first then Some(s.(attempted := false, exactRetry := false))
      else if s.attempted && cursor == s.retained.value.last + 1 then Some(s.(exactRetry := true))
      else None
    else if cursor != s.health.lastCapture + 1 then None
    else Some(s.(exactRetry := false))
  }

  function Attempt(s: State): State {
    s.(attempted := true)
  }

  // The end of _commit_retained, on a matching acknowledgement.
  function Acknowledge(s: State): State
    requires s.retained.Some?
  {
    s.(retained := None, attempted := false, exactRetry := false,
       health := if s.retained.value.IsGap() then s.health.(ranges := |s.gaps|) else s.health)
  }

  function Disconnect(s: State): State {
    s.(exactRetry := false)
  }

  function RequestClose(s: State): State {
    s.(closeRequested := true)
  }

  predicate Drained(s: State) {
    s.gaps == [] && s.retained.None? && s.head.None? && s.queue == []
  }

  // _seal_close_if_ready
  function Seal(s: State): State {
    if s.sealed || !Drained(s) || s.next == 0 then s else s.(sealed := true, finalSeq := Some(s.next - 1))
  }

  /* ---------------- the class ---------------- */

  class HookBridge {
    var nextCaptureSeq: nat
    const queueCapacity: nat
    var queue: seq<Item>
    var queueHead: Option<Item>
    var gapSpans: seq<Item>
    var retained: Option<Item>
    var retainedAttempted: bool
    var exactRetryPending: bool
    var health: Health
    var closeRequested: bool
    var closeSealed: bool
    var closeFinalCaptureSeq: Option<nat>
    var everHadCapture: bool
    var lastBootstrapReservation: Option<Receipt>

    function View(): State
      reads this
    {
      State(nextCaptureSeq, queueCapacity, queue, queueHead, gapSpans, retained, retainedAttempted, exactRetryPending,
            health, closeRequested, closeSealed, closeFinalCaptureSeq, everHadCapture, lastBootstrapReservation)
    }

    constructor (capacity: nat)
      requires capacity >= 1
      ensures View() == Initial(capacity)
    {
      nextCaptureSeq, queueCapacity, queue, queueHead, gapSpans, retained := 1, capacity, [], None, [], None;
      retainedAttempted, exactRetryPending, health := false, false, Health(0, 0, 0, true, 0);
      closeRequested, closeSealed := false, false;
      closeFinalCaptureSeq, everHadCapture, lastBootstrapReservation := None, false, None;
    }

    method PublishGapLocked(x: Item)
      requires x.first <= x.last && x.IsGap()
      modifies this
      ensures View() == PublishGap(old(View()), x)
    {
      var claimed := if retained.Some? && retained.value.IsGap() then 1 else 0;
      var replaceLast := Adjacent(gapSpans, x);
      health := health.Lose(Length(x)).(
        ranges := |gapSpans| + claimed + (if replaceLast then 0 else 1),
        lastCapture := x.last);
      gapSpans := MergedSpans(gapSpans, x);
    }

    static method MergedSpans(spans: seq<Item>, x: Item) returns (r: seq<Item>)
      requires x.IsGap()
      ensures r == WithGap(spans, x)
    {
      if Adjacent(spans, x) {
        r := spans[|spans| - 1 := Extended(spans[|spans| - 1], x)];
        assert r == spans[..|spans| - 1] + [Extended(spans[|spans| - 1], x)];
      } else {
        r := spans + [x];
      }
    }

    method PublishObservationLocked(x: Item)
      requires x.first == x.last
      modifies this
      ensures View() == PublishObservation(old(View()), x)
      ensures |old(queue)| < queueCapacity ==>
                queue == old(queue) + [x] && gapSpans == old(gapSpans) && health == old(health).(lastCapture := x.last)
      ensures |old(queue)| >= queueCapacity ==>
                queue == old(queue) && health.dropped == old(health).dropped + 1 && !health.complete
    {
      hide WithGap, Adjacent;
      if |queue| < queueCapacity {
        queue := queue + [x];
        health := health.(lastCapture := x.last);
      } else {
        PublishGapLocked(GapOf(x.first, QueueFull));
        assert View().queue == queue && View().health == health;
      }
    }

    // capture
    method OnCallback(shaped: Shaped)
      modifies this
      ensures View() == Capture(old(View()), shaped)
    {
      hide PublishGap, PublishObservation;
      if closeSealed {
        health := health.LoseLate(1);
        return;
      }
      if nextCaptureSeq > MAX_CAPTURE_SEQUENCE {
        health := health.(complete := false);
        return;
      }
      var captureSeq := nextCaptureSeq;
      match shaped {
        case BadSchema => PublishGapLocked(GapOf(captureSeq, InvalidSourceSchema));
        case Unshaped => PublishGapLocked(GapOf(captureSeq, CallbackInternal));
        case Shaped(content) => PublishObservationLocked(Observation(captureSeq, content));
      }
      nextCaptureSeq := captureSeq + 1;
      everHadCapture := true;
    }

    method OnReservation(x: Item, shapes: bool) returns (disposition: Option<bool>)
      modifies this
      ensures var r := CaptureReserved(old(View()), x, shapes);
              if r.None? then disposition.None? && View() == old(View())
              else disposition == Some(r.value.1) && View() == r.value.0
    {
      hide PublishGap, PublishObservation;
      if !ValidItem(x) || x.last > MAX_CAPTURE_SEQUENCE {
        return None;
      }
      if x.first != nextCaptureSeq {
        if lastBootstrapReservation.Some? && lastBootstrapReservation.value.item == x && nextCaptureSeq == x.last + 1 {
          return Some(lastBootstrapReservation.value.late);
        }
        return None;
      }
      if closeSealed {
        health := health.LoseLate(Length(x));
        nextCaptureSeq := x.last + 1;
        lastBootstrapReservation := Some(Receipt(x, true));
        return Some(true);
      }
      if x.IsGap() {
        PublishGapLocked(x);
      } else if shapes {
        PublishObservationLocked(x);
      } else {
        PublishGapLocked(GapOf(x.first, CallbackInternal));
      }
      nextCaptureSeq := x.last + 1;
      everHadCapture := true;
      lastBootstrapReservation := Some(Receipt(x, false));
      return Some(false);
    }

    method TakeQueueHead()
      modifies this
      ensures View() == TakeFirst(old(View()))
    {
      if retained.None? && queueHead.None? && queue != [] {
        queueHead := Some(queue[0]);
        queue := queue[1..];
      }
    }

    method ClaimOldest()
      modifies this
      ensures View() == Claim(old(View()))
    {
      if retained.Some? {
        return;
      }
      if gapSpans != [] && (queueHead.None? || gapSpans[0].first < queueHead.value.first) {
        retained := Some(gapSpans[0]);
        gapSpans := gapSpans[1..];
      } else if queueHead.Some? {
        retained := queueHead;
        queueHead := None;
      }
    }

    method SelectNextRecord() returns (record: Option<Item>)
      modifies this
      ensures View() == Select(old(View())) && record == retained
    {
      TakeQueueHead();
      ClaimOldest();
      return retained;
    }

    method CheckAttachCursor(cursor: nat) returns (accepted: bool)
      modifies this
      ensures accepted == Attach(old(View()), cursor).Some?
      ensures View() == if accepted then Attach(old(View()), cursor).value else old(View())
    {
      if cursor > health.lastCapture + 1 {
        return false;
      }
      var exactRetry := false;
      if retained.Some? {
        if cursor == retained.value.first {
          retainedAttempted := false;
        } else if retainedAttempted && cursor == retained.value.last + 1 {
          exactRetry := true;
        } else {
          return false;
        }
      } else if cursor != health.lastCapture + 1 {
        return false;
      }
      exactRetryPending := exactRetry;
      return true;
    }

    method BeginCommit()
      modifies this
      ensures View() == Attempt(old(View()))
    {
      retainedAttempted := true;
    }

    method FinishCommit()
      requires retained.Some?
      modifies this
      ensures View() == Acknowledge(old(View()))
    {
      if retained.value.IsGap() {
        health := health.(ranges := |gapSpans|);
      }
      retained := None;
      retainedAttempted := false;
      exactRetryPending := false;
    }

    method SealCloseIfReady() returns (ready: bool)
      requires nextCaptureSeq >= 1
      modifies this
      ensures View() == Seal(old(View())) && ready == closeSealed
    {
      if closeSealed {
        return true;
      }
      if gapSpans != [] || retained.Some? || queueHead.Some? || queue != [] {
        return false;
      }
      closeFinalCaptureSeq := Some(nextCaptureSeq - 1);
      closeSealed := true;
      return true;
    }
  }
}
