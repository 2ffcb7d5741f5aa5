// The bootstrap buffer paired with one bridge: the worker may fail at any
// point of a handoff and try again (hermes/registration.py, the handoff loop,
// and HookBridge.capture_reserved).  The bridge is not rotated and captures
// only what the buffer hands it.
module Handoff {
  import opened Prelude
  import opened Values
  import opened CaptureItems
  import B = Bridge
  import D = Delivery
  import Q = Bootstrap
  import opened BootstrapBooks

  // Both ends, with what each has let go of.
  datatype Pair = Pair(buffer: Q.State, handed: seq<Handed>, bridge: B.State, acked: seq<Item>)

  // Where the worker of the buffer stops within one handoff.
  datatype Progress = BeforeReservation | AfterReservation | Completed

  datatype Step =
    | CaptureStep(shaped: B.Shaped)
    | FailedCaptureStep(shaped: B.Shaped)
    | HandoffStep(shapes: bool, progress: Progress)
    | SelectStep
    | AttachStep(cursor: nat)
    | AttemptStep
    | AcknowledgeStep
    | RequestCloseStep
    | SealStep

  // Reserve the held item in the bridge and note the disposition.
  function Proceed(p: Pair, shapes: bool, progress: Progress): Pair
    requires p.buffer.retained.Some?
  {
    var x := p.buffer.retained.value;
    var reserved := B.CaptureReserved(p.bridge, x, shapes);
    if progress.BeforeReservation? || reserved.None? then p
    else
      var (bridge, late) := reserved.value;
      if progress.AfterReservation? then p.(bridge := bridge)
      else p.(buffer := if late then Q.MarkLate(p.buffer) else Q.HandOff(p.buffer),
              handed := p.handed + [Handed(x, late)], bridge := bridge)
  }

  // One turn of the handoff loop: take the next item, and proceed with it.
  function TryHandoff(p: Pair, shapes: bool, progress: Progress): Pair {
    var q := p.(buffer := Q.NextForWorker(p.buffer));
    if q.buffer.retained.None? then q else Proceed(q, shapes, progress)
  }

  function Do(p: Pair, step: Step): Pair {
    match step
    case CaptureStep(shaped) => p.(buffer := Q.Capture(p.buffer, shaped))
    case FailedCaptureStep(shaped) => p.(buffer := CallbackFailed(p.buffer, shaped))
    case HandoffStep(shapes, progress) => TryHandoff(p, shapes, progress)
    case SelectStep => p.(bridge := B.Select(p.bridge))
    case AttachStep(cursor) =>
      var b := B.Attach(p.bridge, cursor);
      if b.None? then p else p.(bridge := b.value)
    case AttemptStep => if p.bridge.retained.Some? then p.(bridge := B.Attempt(p.bridge)) else p
    case AcknowledgeStep =>
      if p.bridge.retained.Some? then
        p.(bridge := B.Acknowledge(p.bridge), acked := p.acked + [p.bridge.retained.value]) else p
    case RequestCloseStep => p.(bridge := B.RequestClose(p.bridge))
    case SealStep => p.(bridge := B.Seal(p.bridge))
  }

  function Run(p: Pair, steps: seq<Step>): Pair
    decreases |steps|
  {
    if steps == [] then p else Run(Do(p, steps[0]), steps[1..])
  }

  function Start(bufferCapacity: nat, bridgeCapacity: nat): Pair {
    Pair(Q.Initial(bufferCapacity), [], B.Initial(bridgeCapacity), [])
  }

  /* ---------------- the handoff invariant ---------------- */

  // Where the handed-off numbers end.
  function HandedEnd(p: Pair): nat {
    EndOf(ItemsOf(p.handed), 1)
  }

  // The cursor of the bridge is the first number of the oldest item that has
  // not been handed off, or one past it with a receipt for exactly that item.
  ghost predicate Lined(p: Pair) {
    p.bridge.next == HandedEnd(p) ||
    (p.buffer.retained.Some? && p.bridge.reservation.Some? &&
     p.bridge.reservation.value.item == p.buffer.retained.value &&
     p.buffer.retained.value.first == HandedEnd(p) &&
     p.bridge.next == p.buffer.retained.value.last + 1)
  }

  ghost predicate Paired(p: Pair) {
    && Sound(p.buffer, p.handed)
    && D.Conserved(p.bridge, p.acked)
    && Lined(p)
    && HandedEnd(p) <= B.MAX_CAPTURE_SEQUENCE + 1 && p.buffer.next <= B.MAX_CAPTURE_SEQUENCE + 1
  }

  /* ---------------- what the buffer's steps leave alone ---------------- */

  lemma RecordGapFrame(s: Q.State, n: nat, cause: Cause)
    ensures Q.RecordGap(s, n, cause).next == s.next
    ensures s.retained.None? || !Holds(s.retained.value, n) ==> Q.RecordGap(s, n, cause).retained == s.retained
  {
    hide Extended, Q.ReplaceIn, Q.PendingDropped, Q.PendingRanges;
  }

  lemma CaptureFrame(s: Q.State, handed: seq<Handed>, shaped: B.Shaped)
    requires Sound(s, handed)
    ensures Q.Capture(s, shaped).retained == s.retained
    ensures Q.Capture(s, shaped).next == if s.next > B.MAX_CAPTURE_SEQUENCE then s.next else s.next + 1
  {
    HeldIsOlder(s, handed);
    RecordGapFrame(Q.Reserve(s), s.next, InvalidSourceSchema);
    RecordGapFrame(Q.Reserve(s), s.next, CallbackInternal);
    RecordGapFrame(Q.Reserve(s), s.next, QueueFull);
    hide Sound, Q.RecordGap, Holds;
  }

  lemma HeldIsOlder(s: Q.State, handed: seq<Handed>)
    requires Sound(s, handed)
    ensures s.retained.Some? ==> !Holds(s.retained.value, s.next) && s.retained.value.last < s.next
    ensures 1 <= s.next
  {
    LineBefore(s, handed);
    if s.retained.Some? {
      assert Q.Line(s)[0] == s.retained.value;
      assert s.retained.value in Q.Line(s);
    }
    hide Kept, Balanced;
  }

  lemma FailedFrame(s: Q.State, handed: seq<Handed>, shaped: B.Shaped)
    requires Sound(s, handed)
    ensures CallbackFailed(s, shaped).retained == s.retained
    ensures CallbackFailed(s, shaped).next == if s.next > B.MAX_CAPTURE_SEQUENCE then s.next else s.next + 1
  {
    hide *;
    CaptureFrame(s, handed, shaped);
    HeldIsOlder(s, handed);
    RecordGapFrame(Q.Capture(s, shaped), s.next, CallbackInternal);
    FailedIs(s, shaped);
  }

  lemma FailedIs(s: Q.State, shaped: B.Shaped)
    requires 1 <= s.next && Q.Capture(s, shaped).next == if s.next > B.MAX_CAPTURE_SEQUENCE then s.next else s.next + 1
    ensures CallbackFailed(s, shaped) ==
            if s.next > B.MAX_CAPTURE_SEQUENCE then Q.Capture(s, shaped)
            else Q.RecordGap(Q.Capture(s, shaped), s.next, CallbackInternal)
  {
    hide Q.Capture, Q.RecordGap;
  }

  // The item the worker holds is the oldest of the line.
  lemma OldestFirst(s: Q.State, handed: seq<Handed>)
    requires Sound(s, handed) && s.retained.Some?
    ensures s.retained.value.first == EndOf(ItemsOf(handed), 1)
    ensures ValidItem(s.retained.value) && s.retained.value.last < s.next
  {
    LineBefore(s, handed);
    SplitTiles(ItemsOf(handed), Q.Line(s), 1, s.next);
    assert Q.Line(s)[0] == s.retained.value;
    assert s.retained.value in Q.Line(s);
    hide Kept, Balanced;
  }

  lemma {:induction false} EndAppend(items: seq<Item>, lo: nat, x: Item)
    ensures EndOf(items + [x], lo) == x.last + 1
    decreases |items|
  {
    if items == [] {
      assert items + [x] == [x];
    } else {
      assert (items + [x])[1..] == items[1..] + [x];
      EndAppend(items[1..], items[0].last + 1, x);
    }
  }

  lemma HandedEndAppend(p: Pair, x: Handed)
    ensures EndOf(ItemsOf(p.handed + [x]), 1) == x.item.last + 1
  {
    ItemsAppend(p.handed, x);
    EndAppend(ItemsOf(p.handed), 1, x.item);
    hide EndOf, ItemsOf;
  }

  /* ---------------- every step keeps the pair in line ---------------- */

  lemma BufferStep(p: Pair, buffer: Q.State)
    requires Paired(p) && Sound(buffer, p.handed)
    requires buffer.next <= B.MAX_CAPTURE_SEQUENCE + 1
    requires p.buffer.retained.Some? ==> buffer.retained == p.buffer.retained
    ensures Paired(p.(buffer := buffer))
  {
    hide Sound, D.Conserved, EndOf, ItemsOf;
  }

  // A step of the bridge other than a reservation.
  lemma BridgeStep(p: Pair, bridge: B.State, acked: seq<Item>)
    requires Paired(p) && D.Conserved(bridge, acked)
    requires bridge.next == p.bridge.next && bridge.reservation == p.bridge.reservation
    ensures Paired(p.(bridge := bridge, acked := acked))
  {
    hide Sound, D.Conserved, EndOf, ItemsOf;
  }

  // A retry finds either a reservation still to be made or the receipt of the
  // one already made: the bridge never refuses.
  lemma ReservationAccepted(p: Pair, shapes: bool)
    requires Paired(p) && p.buffer.retained.Some?
    ensures B.CaptureReserved(p.bridge, p.buffer.retained.value, shapes).Some?
    ensures var (bridge, late) := B.CaptureReserved(p.bridge, p.buffer.retained.value, shapes).value;
            && bridge.next == p.buffer.retained.value.last + 1
            && bridge.reservation == Some(B.Receipt(p.buffer.retained.value, late))
            && (p.bridge.next != p.buffer.retained.value.first ==> bridge == p.bridge)
  {
    OldestFirst(p.buffer, p.handed);
    hide Sound, D.Conserved, EndOf, ItemsOf, ValidItem, B.PublishGap, B.PublishObservation;
  }

  lemma MovedLine(p: Pair, bridge: B.State, buffer: Q.State, x: Handed)
    requires Paired(p) && D.Conserved(bridge, p.acked) && Sound(buffer, p.handed + [x])
    requires bridge.next == x.item.last + 1 && x.item.last <= B.MAX_CAPTURE_SEQUENCE
    requires buffer.next <= B.MAX_CAPTURE_SEQUENCE + 1
    ensures Paired(Pair(buffer, p.handed + [x], bridge, p.acked))
  {
    HandedEndAppend(p, x);
    hide Sound, D.Conserved, EndOf, ItemsOf;
  }

  lemma ReservedPaired(p: Pair, bridge: B.State)
    requires Paired(p) && D.Conserved(bridge, p.acked) && p.buffer.retained.Some?
    requires bridge.next == p.buffer.retained.value.last + 1
    requires bridge.reservation.Some? && bridge.reservation.value.item == p.buffer.retained.value
    ensures Paired(p.(bridge := bridge))
  {
    OldestFirst(p.buffer, p.handed);
    hide Sound, D.Conserved, EndOf, ItemsOf, ValidItem;
  }

  lemma DoneFrame(s: Q.State)
    requires s.retained.Some?
    ensures Q.HandOff(s).next == s.next && Q.MarkLate(s).next == s.next
  {
    hide Q.PendingDropped, Q.PendingRanges;
  }

  lemma PairedParts(p: Pair)
    requires Paired(p)
    ensures Sound(p.buffer, p.handed) && D.Conserved(p.bridge, p.acked)
    ensures p.buffer.next <= B.MAX_CAPTURE_SEQUENCE + 1
  {
    hide Sound, D.Conserved, Lined;
  }

  lemma ProceedCases(p: Pair, shapes: bool, progress: Progress, bridge: B.State, late: bool)
    requires p.buffer.retained.Some?
    requires B.CaptureReserved(p.bridge, p.buffer.retained.value, shapes) == Some((bridge, late))
    ensures Proceed(p, shapes, progress) ==
            match progress
            case BeforeReservation => p
            case AfterReservation => p.(bridge := bridge)
            case Completed => Pair(if late then Q.MarkLate(p.buffer) else Q.HandOff(p.buffer),
                                   p.handed + [Handed(p.buffer.retained.value, late)], bridge, p.acked)
  {
    hide B.CaptureReserved, Q.MarkLate, Q.HandOff;
  }

  lemma CompletedPaired(p: Pair, bridge: B.State, late: bool)
    requires Paired(p) && p.buffer.retained.Some? && D.Conserved(bridge, p.acked)
    requires bridge.next == p.buffer.retained.value.last + 1
    ensures Paired(Pair(if late then Q.MarkLate(p.buffer) else Q.HandOff(p.buffer),
                        p.handed + [Handed(p.buffer.retained.value, late)], bridge, p.acked))
  {
    hide *;
    PairedParts(p);
    OldestFirst(p.buffer, p.handed);
    HandOffSound(p.buffer, p.handed);
    MarkLateSound(p.buffer, p.handed);
    DoneFrame(p.buffer);
    MovedLine(p, bridge, if late then Q.MarkLate(p.buffer) else Q.HandOff(p.buffer),
              Handed(p.buffer.retained.value, late));
  }

  lemma ProceedPaired(p: Pair, shapes: bool, progress: Progress)
    requires Paired(p) && p.buffer.retained.Some?
    ensures Paired(Proceed(p, shapes, progress))
  {
    hide *;
    PairedParts(p);
    ReservationAccepted(p, shapes);
    var (bridge, late) := B.CaptureReserved(p.bridge, p.buffer.retained.value, shapes).value;
    D.ReservedConserved(p.bridge, p.acked, p.buffer.retained.value, shapes);
    ReservedPaired(p, bridge);
    CompletedPaired(p, bridge, late);
    ProceedCases(p, shapes, progress, bridge, late);
  }

  lemma HandoffPaired(p: Pair, shapes: bool, progress: Progress)
    requires Paired(p)
    ensures Paired(TryHandoff(p, shapes, progress))
  {
    PairedParts(p);
    NextSound(p.buffer, p.handed);
    NextFrame(p.buffer);
    hide Paired, Sound, Q.NextForWorker, Proceed, StorageOk;
    var q := p.(buffer := Q.NextForWorker(p.buffer));
    BufferStep(p, q.buffer);
    if q.buffer.retained.Some? {
      ProceedPaired(q, shapes, progress);
    }
  }

  lemma BridgeFrames(b: B.State)
    ensures B.Select(b).next == b.next && B.Select(b).reservation == b.reservation
    ensures B.Seal(b).next == b.next && B.Seal(b).reservation == b.reservation
    ensures B.RequestClose(b).next == b.next && B.RequestClose(b).reservation == b.reservation
    ensures b.retained.Some? ==> B.Acknowledge(b).next == b.next && B.Acknowledge(b).reservation == b.reservation
    ensures b.retained.Some? ==> B.Attempt(b).next == b.next && B.Attempt(b).reservation == b.reservation
  {
    D.HeadFrame(b);
    hide B.WithHead;
  }

  lemma AttachFrame(b: B.State, cursor: nat)
    requires B.Attach(b, cursor).Some?
    ensures B.Attach(b, cursor).value.next == b.next && B.Attach(b, cursor).value.reservation == b.reservation
  {
  }

  lemma BridgeStepPaired(p: Pair, step: Step)
    requires Paired(p)
    requires step.SelectStep? || step.AttachStep? || step.AttemptStep? || step.AcknowledgeStep? ||
             step.RequestCloseStep? || step.SealStep?
    ensures Paired(Do(p, step))
  {
    PairedParts(p);
    BridgeFrames(p.bridge);
    hide Paired, Sound, D.Conserved, B.Select, B.Seal, B.RequestClose, B.Acknowledge, B.Attempt, B.Attach;
    match step
    case SelectStep =>
      D.SelectConserved(p.bridge, p.acked);
      BridgeStep(p, B.Select(p.bridge), p.acked);
    case AttachStep(cursor) =>
      if B.Attach(p.bridge, cursor).Some? {
        D.AttachConserved(p.bridge, p.acked, cursor);
        AttachFrame(p.bridge, cursor);
        BridgeStep(p, B.Attach(p.bridge, cursor).value, p.acked);
      }
    case AttemptStep =>
      if p.bridge.retained.Some? {
        D.AttemptConserved(p.bridge, p.acked);
        BridgeStep(p, B.Attempt(p.bridge), p.acked);
      }
    case AcknowledgeStep =>
      if p.bridge.retained.Some? {
        D.AcknowledgeConserved(p.bridge, p.acked);
        BridgeStep(p, B.Acknowledge(p.bridge), p.acked + [p.bridge.retained.value]);
      }
    case RequestCloseStep =>
      D.DisconnectConserved(p.bridge, p.acked);
      BridgeStep(p, B.RequestClose(p.bridge), p.acked);
    case SealStep =>
      D.SealConserved(p.bridge, p.acked);
      BridgeStep(p, B.Seal(p.bridge), p.acked);
    case _ =>
  }

  lemma StepPaired(p: Pair, step: Step)
    requires Paired(p)
    ensures Paired(Do(p, step))
  {
    PairedParts(p);
    hide Paired, Sound, D.Conserved, Q.Capture, CallbackFailed, TryHandoff, B.Select, B.Seal, B.RequestClose, B.Attach,
         B.Attempt, B.Acknowledge;
    match step
    case CaptureStep(shaped) =>
      CaptureSound(p.buffer, p.handed, shaped);
      CaptureFrame(p.buffer, p.handed, shaped);
      BufferStep(p, Q.Capture(p.buffer, shaped));
    case FailedCaptureStep(shaped) =>
      CallbackFailedSound(p.buffer, p.handed, shaped);
      FailedFrame(p.buffer, p.handed, shaped);
      BufferStep(p, CallbackFailed(p.buffer, shaped));
    case HandoffStep(shapes, progress) => HandoffPaired(p, shapes, progress);
    case _ => BridgeStepPaired(p, step);
  }

  lemma StartPaired(bufferCapacity: nat, bridgeCapacity: nat)
    ensures Paired(Start(bufferCapacity, bridgeCapacity))
  {
    InitialKept(bufferCapacity);
    D.InitialConserved(bridgeCapacity);
    hide Kept, Balanced, D.Conserved;
  }

  // Whatever happens, and wherever the worker fails and retries, the two ends
  // stay in line.
  lemma {:induction false} RunPaired(p: Pair, steps: seq<Step>)
    requires Paired(p)
    ensures Paired(Run(p, steps))
    decreases |steps|
  {
    hide Paired, Do;
    if steps != [] {
      StepPaired(p, steps[0]);
      RunPaired(Do(p, steps[0]), steps[1..]);
    }
  }

  /* ---------------- failing and retrying ---------------- */

  // A reservation made and not noted is found again: failing in between and
  // retrying is the same as not failing.
  lemma RetryIsIdempotent(p: Pair, shapes: bool, again: bool)
    requires Paired(p) && p.buffer.retained.Some?
    ensures Proceed(Proceed(p, shapes, AfterReservation), again, Completed) == Proceed(p, shapes, Completed)
    ensures Proceed(Proceed(p, shapes, AfterReservation), again, AfterReservation) == Proceed(p, shapes, AfterReservation)
  {
    var x := p.buffer.retained.value;
    ReservationAccepted(p, shapes);
    var (bridge, late) := B.CaptureReserved(p.bridge, x, shapes).value;
    PairedParts(p);
    OldestFirst(p.buffer, p.handed);
    ReplayedReservation(bridge, x, late, again);
    ProceedCases(p, shapes, AfterReservation, bridge, late);
    ProceedCases(p, shapes, Completed, bridge, late);
    ProceedCases(p.(bridge := bridge), again, Completed, bridge, late);
    ProceedCases(p.(bridge := bridge), again, AfterReservation, bridge, late);
    BelowMax(p);
    hide Paired, Proceed, B.CaptureReserved, ValidItem, Q.MarkLate, Q.HandOff;
  }

  lemma BelowMax(p: Pair)
    requires Paired(p) && p.buffer.retained.Some?
    ensures p.buffer.retained.value.last <= B.MAX_CAPTURE_SEQUENCE
  {
    PairedParts(p);
    OldestFirst(p.buffer, p.handed);
    hide Sound, D.Conserved, Lined, EndOf;
  }

  lemma ReplayedReservation(b: B.State, x: Item, late: bool, shapes: bool)
    requires ValidItem(x) && b.next == x.last + 1 && b.reservation == Some(B.Receipt(x, late))
    ensures x.last <= B.MAX_CAPTURE_SEQUENCE ==> B.CaptureReserved(b, x, shapes) == Some((b, late))
  {
  }

  /* ---------------- nothing is altered on the way ---------------- */

  // Everything the bridge has ever held.
  function BridgeItems(p: Pair): seq<Item> {
    p.acked + B.Line(p.bridge)
  }

  // An observation in the bridge is one that was handed to it, with the same
  // number and content.
  ghost predicate Faithful(p: Pair) {
    forall x :: x in BridgeItems(p) && !x.IsGap() ==>
      x in ItemsOf(p.handed) || (p.buffer.retained == Some(x) && p.bridge.next == x.last + 1)
  }

  lemma GapAddsNone(b: B.State, acked: seq<Item>, gap: Item, y: Item)
    requires D.Conserved(b, acked) && !b.sealed && gap.first == b.next && gap.IsGap()
    requires y in B.Line(B.PublishGap(b, gap)) && !y.IsGap()
    ensures y in B.Line(b)
  {
    if B.Adjacent(b.gaps, gap) {
      D.ExtendedLine(b, acked, gap);
    } else {
      D.NewGapLine(b, acked, gap);
    }
    hide D.Conserved, B.Line, B.PublishGap;
  }

  lemma ReservedItems(b: B.State, acked: seq<Item>, x: Item, shapes: bool, y: Item)
    requires D.Conserved(b, acked) && B.CaptureReserved(b, x, shapes).Some?
    requires y in B.Line(B.CaptureReserved(b, x, shapes).value.0) && !y.IsGap()
    ensures y in B.Line(b) || y == x
  {
    var r := B.CaptureReserved(b, x, shapes).value.0;
    if x.first == b.next && !b.sealed {
      var t := if x.IsGap() then B.PublishGap(b, x)
               else if shapes then B.PublishObservation(b, x) else B.PublishGap(b, GapOf(x.first, CallbackInternal));
      D.LineFields(t, r);
      if x.IsGap() {
        GapAddsNone(b, acked, x, y);
      } else if shapes && |b.queue| < b.capacity {
        D.LineWithObservation(b, acked, x);
      } else if shapes {
        GapAddsNone(b, acked, GapOf(x.first, QueueFull), y);
      } else {
        GapAddsNone(b, acked, GapOf(x.first, CallbackInternal), y);
      }
    } else {
      D.LineFields(b, r);
    }
    hide D.Conserved, B.Line, B.PublishGap;
  }

  lemma FaithfulMoves(p: Pair, q: Pair)
    requires Faithful(p)
    requires forall x :: x in BridgeItems(q) && !x.IsGap() ==>
               x in BridgeItems(p) || (q.buffer.retained == Some(x) && q.bridge.next == x.last + 1) ||
               x in ItemsOf(q.handed)
    requires forall x :: x in ItemsOf(p.handed) ==> x in ItemsOf(q.handed)
    requires p.buffer.retained.Some? && p.bridge.next == p.buffer.retained.value.last + 1 ==>
               (q.buffer.retained == p.buffer.retained && q.bridge.next == p.bridge.next) ||
               p.buffer.retained.value in ItemsOf(q.handed)
    ensures Faithful(q)
  {
    hide ItemsOf, BridgeItems;
  }

  lemma ProceedFaithful(p: Pair, shapes: bool, progress: Progress)
    requires Paired(p) && Faithful(p) && p.buffer.retained.Some?
    ensures Faithful(Proceed(p, shapes, progress))
  {
    var x := p.buffer.retained.value;
    ReservationAccepted(p, shapes);
    var (bridge, late) := B.CaptureReserved(p.bridge, x, shapes).value;
    PairedParts(p);
    ProceedCases(p, shapes, progress, bridge, late);
    var q := Proceed(p, shapes, progress);
    ItemsAppend(p.handed, Handed(x, late));
    hide Paired, Sound, D.Conserved, Proceed, B.CaptureReserved, Q.MarkLate, Q.HandOff, Faithful, ItemsOf, B.Line;
    if !progress.BeforeReservation? {
      forall y | y in BridgeItems(q) && !y.IsGap() ensures y in BridgeItems(p) || y == x {
        if y in B.Line(bridge) {
          ReservedItems(p.bridge, p.acked, x, shapes, y);
        }
      }
      assert x in ItemsOf(p.handed) + [x];
      FaithfulMoves(p, q);
    }
  }

  lemma SameItems(p: Pair, q: Pair)
    requires Faithful(p) && BridgeItems(q) == BridgeItems(p) && q.handed == p.handed && q.bridge.next == p.bridge.next
    requires p.buffer.retained.Some? ==> q.buffer.retained == p.buffer.retained
    ensures Faithful(q)
  {
    hide ItemsOf, BridgeItems;
  }

  lemma HandoffFaithful(p: Pair, shapes: bool, progress: Progress)
    requires Paired(p) && Faithful(p)
    ensures Faithful(TryHandoff(p, shapes, progress))
  {
    NextFrame(p.buffer);
    PairedNext(p);
    var q := p.(buffer := Q.NextForWorker(p.buffer));
    hide Paired, Q.NextForWorker, StorageOk, Proceed, Faithful, B.Line;
    SameItems(p, q);
    if q.buffer.retained.Some? {
      ProceedFaithful(q, shapes, progress);
    }
  }

  // Steps inside the bridge move its items about without changing them.
  lemma BridgeStepItems(p: Pair, step: Step)
    requires Paired(p)
    requires step.SelectStep? || step.AttachStep? || step.AttemptStep? || step.AcknowledgeStep? ||
             step.RequestCloseStep? || step.SealStep?
    ensures BridgeItems(Do(p, step)) == BridgeItems(p) && Do(p, step).bridge.next == p.bridge.next
    ensures Do(p, step).buffer == p.buffer && Do(p, step).handed == p.handed
  {
    BridgeFrames(p.bridge);
    hide Paired, B.Select, B.Seal, B.RequestClose, B.Line;
    match step
    case SelectStep => D.SelectLine(p.bridge);
    case AttachStep(cursor) =>
      if B.Attach(p.bridge, cursor).Some? {
        D.AttachLine(p.bridge, cursor);
      }
    case AttemptStep => D.LineFields(p.bridge, B.Attempt(p.bridge));
    case AcknowledgeStep =>
      if p.bridge.retained.Some? {
        D.AckMoves(p.acked, p.bridge);
      }
    case RequestCloseStep => RequestLine(p.bridge);
    case SealStep => SealLine(p.bridge);
    case _ =>
  }

  lemma StepFaithful(p: Pair, step: Step)
    requires Paired(p) && Faithful(p)
    ensures Faithful(Do(p, step))
  {
    PairedParts(p);
    hide Paired, Sound, D.Conserved, Q.Capture, CallbackFailed, TryHandoff, Faithful, ItemsOf, BridgeItems,
         B.Select, B.Seal, B.RequestClose, B.Attach, B.Attempt, B.Acknowledge;
    match step
    case CaptureStep(shaped) =>
      CaptureFrame(p.buffer, p.handed, shaped);
      SameBridge(p, Q.Capture(p.buffer, shaped));
      SameItems(p, Do(p, step));
    case FailedCaptureStep(shaped) =>
      FailedFrame(p.buffer, p.handed, shaped);
      SameBridge(p, CallbackFailed(p.buffer, shaped));
      SameItems(p, Do(p, step));
    case HandoffStep(shapes, progress) => HandoffFaithful(p, shapes, progress);
    case _ =>
      BridgeStepItems(p, step);
      SameItems(p, Do(p, step));
  }

  lemma SameBridge(p: Pair, buffer: Q.State)
    ensures BridgeItems(p.(buffer := buffer)) == BridgeItems(p)
  {
  }

  lemma PairedNext(p: Pair)
    requires Paired(p)
    ensures Paired(p.(buffer := Q.NextForWorker(p.buffer)))
  {
    hide *;
    PairedParts(p);
    NextSound(p.buffer, p.handed);
    NextFrame(p.buffer);
    BufferStep(p, Q.NextForWorker(p.buffer));
  }

  lemma RequestLine(b: B.State)
    ensures B.Line(B.RequestClose(b)) == B.Line(b)
  {
    D.LineFields(b, B.RequestClose(b));
    hide B.Line;
  }

  lemma SealLine(b: B.State)
    ensures B.Line(B.Seal(b)) == B.Line(b)
  {
    D.LineFields(b, B.Seal(b));
    hide B.Line;
  }

  lemma {:induction false} RunFaithful(p: Pair, steps: seq<Step>)
    requires Paired(p) && Faithful(p)
    ensures Faithful(Run(p, steps))
    decreases |steps|
  {
    hide Paired, Do, Faithful;
    if steps != [] {
      StepPaired(p, steps[0]);
      StepFaithful(p, steps[0]);
      RunFaithful(Do(p, steps[0]), steps[1..]);
    }
  }

  // The handoff theorem: after every run, handed-off and pending items
  // together hold every reserved number once; what the bridge holds starts at
  // one and runs on without a hole up to its own cursor; and no observation
  // was renumbered or changed on the way.
  lemma HandoffIsExact(bufferCapacity: nat, bridgeCapacity: nat, steps: seq<Step>)
    ensures var p := Run(Start(bufferCapacity, bridgeCapacity), steps);
            && Tiles(ItemsOf(p.handed) + Q.Line(p.buffer), 1, p.buffer.next)
            && (!p.bridge.sealed ==> Tiles(BridgeItems(p), 1, p.bridge.next))
            && Lined(p) && Faithful(p)
            && (p.buffer.health.complete ==> p.buffer.health.dropped == 0)
            && p.buffer.health.pending == Numbers(Q.Line(p.buffer))
  {
    hide Run;
    StartPaired(bufferCapacity, bridgeCapacity);
    StartFaithful(bufferCapacity, bridgeCapacity);
    RunPaired(Start(bufferCapacity, bridgeCapacity), steps);
    RunFaithful(Start(bufferCapacity, bridgeCapacity), steps);
    var p := Run(Start(bufferCapacity, bridgeCapacity), steps);
    PairedTiles(p);
  }

  lemma StartFaithful(bufferCapacity: nat, bridgeCapacity: nat)
    ensures Faithful(Start(bufferCapacity, bridgeCapacity))
  {
    assert B.Line(B.Initial(bridgeCapacity)) == [];
  }

  lemma PairedTiles(p: Pair)
    requires Paired(p)
    ensures Tiles(ItemsOf(p.handed) + Q.Line(p.buffer), 1, p.buffer.next)
    ensures !p.bridge.sealed ==> Tiles(BridgeItems(p), 1, p.bridge.next)
    ensures Lined(p) && (p.buffer.health.complete ==> p.buffer.health.dropped == 0)
    ensures p.buffer.health.pending == Numbers(Q.Line(p.buffer))
  {
    hide Q.Line, B.Line, ItemsOf, Tiles, Missing, GapRanges, Numbers, LostOf, LateOf, D.StorageOk, StorageOk, AllValid, Lined;
  }
}
