// The whole capture pipeline: callbacks fill the bootstrap buffer, its worker
// hands items to the bridge, and the bridge sends them to the server. Every
// end may fail and retry on its own; what arrives is exact.
module EndToEnd {
  import opened Prelude
  import opened CaptureItems
  import B = Bridge
  import D = Delivery
  import H = Handoff
  import Q = Bootstrap
  import opened BootstrapBooks

  // `supplied` is the history of the callbacks that were given a number, by
  // number: what each turned its arguments into.
  datatype Pipeline = Pipeline(buffer: Q.State, handed: seq<Handed>, system: D.System, supplied: seq<B.Shaped>)

  datatype Step =
    | CaptureStep(shaped: B.Shaped)
    | FailedCaptureStep(shaped: B.Shaped)
    | HandoffStep(shapes: bool, progress: H.Progress)
    // a step of the bridge or the server; callbacks reach the bridge only
    // through the buffer
    | SendStep(step: D.Step)

  function Ends(w: Pipeline): H.Pair {
    H.Pair(w.buffer, w.handed, w.system.bridge, w.system.acked)
  }

  function Do(w: Pipeline, step: Step): Pipeline {
    match step
    case CaptureStep(shaped) => w.(buffer := Q.Capture(w.buffer, shaped), supplied := Supplied(w, shaped))
    case FailedCaptureStep(shaped) => w.(buffer := CallbackFailed(w.buffer, shaped), supplied := Supplied(w, shaped))
    case HandoffStep(shapes, progress) =>
      var p := H.TryHandoff(Ends(w), shapes, progress);
      Pipeline(p.buffer, p.handed, w.system.(bridge := p.bridge), w.supplied)
    case SendStep(s) => if Captures(s) then w else w.(system := D.Do(w.system, s))
  }

  // No number is given out once the numbers are used up.
  function Supplied(w: Pipeline, shaped: B.Shaped): seq<B.Shaped> {
    if w.buffer.next > B.MAX_CAPTURE_SEQUENCE then w.supplied else w.supplied + [shaped]
  }

  predicate Captures(s: D.Step) {
    s.CallbackStep? || s.ReservationStep?
  }

  function Run(w: Pipeline, steps: seq<Step>): Pipeline
    decreases |steps|
  {
    if steps == [] then w else Run(Do(w, steps[0]), steps[1..])
  }

  function Start(bufferCapacity: nat, bridgeCapacity: nat): Pipeline {
    Pipeline(Q.Initial(bufferCapacity), [], D.Start(bridgeCapacity), [])
  }

  ghost predicate Good(w: Pipeline) {
    H.Paired(Ends(w)) && H.Faithful(Ends(w)) && D.Safe(w.system)
  }

  /* ---------------- every step ---------------- */

  // What a handoff does to the bridge: nothing, or one accepted reservation.
  lemma HandoffReserves(p: H.Pair, shapes: bool, progress: H.Progress)
    requires H.Paired(p)
    ensures var q := H.TryHandoff(p, shapes, progress);
            && q.acked == p.acked
            && (q.bridge == p.bridge ||
                exists x :: B.CaptureReserved(p.bridge, x, shapes).Some? &&
                            q.bridge == B.CaptureReserved(p.bridge, x, shapes).value.0)
  {
    H.PairedNext(p);
    var q := p.(buffer := Q.NextForWorker(p.buffer));
    hide H.Paired, Q.NextForWorker, H.Proceed, B.CaptureReserved;
    if q.buffer.retained.Some? {
      var x := q.buffer.retained.value;
      H.ReservationAccepted(q, shapes);
      var (bridge, late) := B.CaptureReserved(q.bridge, x, shapes).value;
      H.ProceedCases(q, shapes, progress, bridge, late);
      assert B.CaptureReserved(p.bridge, x, shapes).Some?;
    }
  }

  lemma HandoffSafe(w: Pipeline, shapes: bool, progress: H.Progress)
    requires Good(w)
    ensures D.Safe(Do(w, HandoffStep(shapes, progress)).system)
  {
    HandoffReserves(Ends(w), shapes, progress);
    hide H.Paired, H.Faithful, D.Safe, H.TryHandoff, B.CaptureReserved;
    var q := H.TryHandoff(Ends(w), shapes, progress);
    if q.bridge != w.system.bridge {
      var x :| B.CaptureReserved(w.system.bridge, x, shapes).Some? &&
               q.bridge == B.CaptureReserved(w.system.bridge, x, shapes).value.0;
      D.StepSafe(w.system, D.ReservationStep(x, shapes));
    } else {
      assert Do(w, HandoffStep(shapes, progress)).system == w.system;
    }
  }

  // A step of the sending side moves items along without changing them and
  // leaves the capture cursor alone.
  lemma SendFrame(y: D.System, s: D.Step)
    requires !Captures(s)
    ensures var z := D.Do(y, s);
            && z.bridge.next == y.bridge.next && z.bridge.reservation == y.bridge.reservation
            && z.acked + B.Line(z.bridge) == y.acked + B.Line(y.bridge)
  {
    H.BridgeFrames(y.bridge);
    hide B.Select, B.Seal, B.RequestClose, B.Line, D.ServerCommit, D.ServerClose;
    match s
    case SelectStep => D.SelectLine(y.bridge);
    case ConnectStep =>
      if B.Attach(y.bridge, y.server.cursor).Some? {
        D.AttachLine(y.bridge, y.server.cursor);
        H.AttachFrame(y.bridge, y.server.cursor);
      }
    case CommitStep(transport, takes) =>
      if y.connected && y.bridge.retained.Some? {
        CommitFrame(y, transport, takes);
        hide D.CommitOnce;
      }
    case DisconnectStep => D.DisconnectLine(y.bridge);
    case RequestCloseStep => H.RequestLine(y.bridge);
    case SealStep => H.SealLine(y.bridge);
    case CloseStep =>
    case _ =>
  }

  lemma CommitFrame(y: D.System, transport: D.Transport, takes: bool)
    requires y.bridge.retained.Some?
    ensures var z := D.CommitOnce(y, transport, takes);
            && z.bridge.next == y.bridge.next && z.bridge.reservation == y.bridge.reservation
            && z.acked + B.Line(z.bridge) == y.acked + B.Line(y.bridge)
  {
    hide *;
    var b := B.Attempt(y.bridge);
    AttemptFrame(y.bridge);
    D.LineFields(y.bridge, b);
    D.DisconnectLine(b);
    D.AckMoves(y.acked, b);
    CommitEnds(y, transport, takes);
  }

  lemma AttemptFrame(b: B.State)
    ensures var c := B.Attempt(b);
            && c.retained == b.retained && c.head == b.head && c.queue == b.queue && c.gaps == b.gaps
            && c.next == b.next && c.reservation == b.reservation
  {
  }

  // A commit ends with the record acknowledged or still in hand.
  lemma CommitEnds(y: D.System, transport: D.Transport, takes: bool)
    requires y.bridge.retained.Some?
    ensures var z, b := D.CommitOnce(y, transport, takes), B.Attempt(y.bridge);
            && (|| (z.bridge == B.Acknowledge(b) && z.acked == y.acked + [b.retained.value])
                || (z.bridge == B.Disconnect(b) && z.acked == y.acked))
            && z.bridge.next == b.next && z.bridge.reservation == b.reservation
  {
    hide D.ServerCommit;
  }

  lemma SendGood(w: Pipeline, s: D.Step)
    requires Good(w) && !Captures(s)
    ensures Good(Do(w, SendStep(s)))
  {
    hide H.Paired, H.Faithful, D.Safe, D.Do, B.Line;
    var z := D.Do(w.system, s);
    D.StepSafe(w.system, s);
    D.SafeParts(z);
    SendFrame(w.system, s);
    H.BridgeStep(Ends(w), z.bridge, z.acked);
    H.SameItems(Ends(w), Ends(Do(w, SendStep(s))));
  }

  lemma StepGood(w: Pipeline, step: Step)
    requires Good(w)
    ensures Good(Do(w, step))
  {
    hide H.Paired, H.Faithful, D.Safe, D.Do, Q.Capture, CallbackFailed, H.TryHandoff;
    match step
    case CaptureStep(shaped) =>
      H.StepPaired(Ends(w), H.CaptureStep(shaped));
      H.StepFaithful(Ends(w), H.CaptureStep(shaped));
    case FailedCaptureStep(shaped) =>
      H.StepPaired(Ends(w), H.FailedCaptureStep(shaped));
      H.StepFaithful(Ends(w), H.FailedCaptureStep(shaped));
    case HandoffStep(shapes, progress) =>
      H.StepPaired(Ends(w), H.HandoffStep(shapes, progress));
      H.StepFaithful(Ends(w), H.HandoffStep(shapes, progress));
      HandoffReserves(Ends(w), shapes, progress);
      HandoffSafe(w, shapes, progress);
    case SendStep(s) =>
      if !Captures(s) {
        SendGood(w, s);
      }
  }

  lemma {:induction false} RunGood(w: Pipeline, steps: seq<Step>)
    requires Good(w)
    ensures Good(Run(w, steps))
    decreases |steps|
  {
    hide Good, Do;
    if steps != [] {
      StepGood(w, steps[0]);
      RunGood(Do(w, steps[0]), steps[1..]);
    }
  }

  lemma StartGood(bufferCapacity: nat, bridgeCapacity: nat)
    ensures Good(Start(bufferCapacity, bridgeCapacity))
  {
    H.StartPaired(bufferCapacity, bridgeCapacity);
    H.StartFaithful(bufferCapacity, bridgeCapacity);
    D.StartSafe(bridgeCapacity);
    hide H.Paired, H.Faithful, D.Safe;
  }

  /* ---------------- what each callback supplied ---------------- */

  // An observation held anywhere in the buffer.
  predicate In(s: Q.State, y: Item) {
    s.retained == Some(y) || s.head == Some(y) || y in s.queue || y in s.overflow
  }

  lemma InLine(s: Q.State, y: Item)
    ensures y in Q.Line(s) <==> In(s, y)
  {
    LineElements(s);
    hide Q.Line;
  }

  lemma {:induction false} ReplacedElements(items: seq<Item>, gap: Item)
    ensures forall y :: y in Q.ReplaceIn(items, gap).0 ==> y in items || y == gap
  {
    if items != [] {
      ReplacedElements(items[1..], gap);
      assert items == [items[0]] + items[1..];
    }
  }

  lemma ReplaceAddsNone(s: Q.State, gap: Item, y: Item)
    requires In(Q.ReplacePending(s, gap).0, y)
    ensures In(s, y) || y == gap
  {
    ReplacedElements(s.queue, gap);
    hide Q.ReplaceIn, Q.Place;
  }

  lemma RetainAddsNone(s: Q.State, gap: Item, y: Item)
    requires gap.IsGap() && In(Q.RetainNewGap(s, gap), y) && !y.IsGap()
    ensures In(s, y)
  {
    if |s.queue| >= s.capacity && Q.Adjacent(s.overflow, gap) {
      assert forall x :: x in s.overflow[..|s.overflow| - 1] ==> x in s.overflow;
    }
  }

  // Recording a gap brings no observation in.
  lemma GapAddsNone(s: Q.State, n: nat, cause: Cause, y: Item)
    requires In(Q.RecordGap(s, n, cause), y) && !y.IsGap()
    ensures In(s, y)
  {
    var gap := GapOf(n, cause);
    var (t, found) := Q.ReplacePending(s, gap);
    var u := if found.Absent? then Q.RetainNewGap(t, gap) else t;
    ReconcileStores(u, y);
    hide Q.ReplacePending, Q.RetainNewGap, Q.Reconcile;
    if found.Absent? {
      RetainAddsNone(t, gap, y);
    }
    ReplaceAddsNone(s, gap, y);
  }

  lemma ReconcileStores(s: Q.State, y: Item)
    ensures In(Q.Reconcile(s), y) <==> In(s, y)
  {
    hide Q.PendingDropped, Q.PendingRanges;
  }

  // The only observation that a capture brings in is its own.
  lemma CaptureAddsOne(s: Q.State, shaped: B.Shaped, y: Item)
    requires In(Q.Capture(s, shaped), y) && !y.IsGap()
    ensures In(s, y) || (s.next <= B.MAX_CAPTURE_SEQUENCE && shaped.Shaped? && y == Observation(s.next, shaped.content))
  {
    hide Q.RecordGap;
    if s.next <= B.MAX_CAPTURE_SEQUENCE && In(Q.RecordGap(Q.Reserve(s), s.next, CauseOf(shaped)), y) {
      GapAddsNone(Q.Reserve(s), s.next, CauseOf(shaped), y);
    }
  }

  function CauseOf(shaped: B.Shaped): Cause {
    match shaped
    case BadSchema => InvalidSourceSchema
    case Unshaped => CallbackInternal
    case Shaped(_) => QueueFull
  }

  lemma FailedAddsOne(s: Q.State, shaped: B.Shaped, y: Item)
    requires In(CallbackFailed(s, shaped), y) && !y.IsGap()
    ensures In(s, y) || (s.next <= B.MAX_CAPTURE_SEQUENCE && shaped.Shaped? && y == Observation(s.next, shaped.content))
  {
    hide Q.RecordGap, Q.Capture;
    var t := Q.Capture(s, shaped);
    if s.next <= B.MAX_CAPTURE_SEQUENCE && t.next > 1 {
      GapAddsNone(t, t.next - 1, CallbackInternal, y);
    }
    CaptureAddsOne(s, shaped, y);
  }

  // y is an observation with the number and the content of the callback that
  // was given that number.
  predicate Original(supplied: seq<B.Shaped>, y: Item) {
    1 <= y.first == y.last <= |supplied| && !y.IsGap() && supplied[y.first - 1] == B.Shaped(y.body.content)
  }

  // One callback for every number, and every observation that the buffer has
  // or has handed over is that of its callback.
  ghost predicate Recorded(w: Pipeline) {
    && |w.supplied| + 1 == w.buffer.next
    && (forall y :: y in ItemsOf(w.handed) && !y.IsGap() ==> Original(w.supplied, y))
    && (forall y :: In(w.buffer, y) && !y.IsGap() ==> Original(w.supplied, y))
  }

  lemma OriginalLater(supplied: seq<B.Shaped>, shaped: B.Shaped, y: Item)
    ensures Original(supplied, y) ==> Original(supplied + [shaped], y)
  {
  }

  lemma RecordedCapture(w: Pipeline, shaped: B.Shaped, later: Q.State)
    requires Recorded(w) && later.next == if w.buffer.next > B.MAX_CAPTURE_SEQUENCE then w.buffer.next else w.buffer.next + 1
    requires forall y :: In(later, y) && !y.IsGap() ==>
               In(w.buffer, y) ||
               (w.buffer.next <= B.MAX_CAPTURE_SEQUENCE && shaped.Shaped? && y == Observation(w.buffer.next, shaped.content))
    ensures Recorded(w.(buffer := later, supplied := Supplied(w, shaped)))
  {
    hide In, ItemsOf;
    forall y ensures Original(w.supplied, y) ==> Original(Supplied(w, shaped), y) {
      OriginalLater(w.supplied, shaped, y);
    }
  }

  // A handoff brings no observation in and takes none but the one it hands
  // over.
  lemma HandoffRecords(w: Pipeline, shapes: bool, progress: H.Progress)
    requires Recorded(w)
    ensures Recorded(Do(w, HandoffStep(shapes, progress)))
  {
    var q := Q.NextForWorker(w.buffer);
    forall y ensures In(q, y) ==> In(w.buffer, y) {
      TakenIn(w.buffer, y);
    }
    NextFrame(w.buffer);
    var p := H.TryHandoff(Ends(w), shapes, progress);
    HandedIn(Ends(w).(buffer := q), shapes, progress);
    hide In, Original, Q.NextForWorker, H.Proceed;
  }

  lemma TakenIn(s: Q.State, y: Item)
    ensures In(Q.NextForWorker(s), y) ==> In(s, y)
  {
    NextLine(s);
    InLine(s, y);
    InLine(Q.NextForWorker(s), y);
    hide In, Q.NextForWorker, Q.Line;
  }

  lemma HandedIn(p: H.Pair, shapes: bool, progress: H.Progress)
    ensures p.buffer.retained.Some? ==>
              var q := H.Proceed(p, shapes, progress);
              && q.buffer.next == p.buffer.next
              && (forall y :: In(q.buffer, y) ==> In(p.buffer, y))
              && (forall y :: y in ItemsOf(q.handed) ==> y in ItemsOf(p.handed) || In(p.buffer, y))
  {
    if p.buffer.retained.Some? {
      ItemsAppend(p.handed, Handed(p.buffer.retained.value, true));
      ItemsAppend(p.handed, Handed(p.buffer.retained.value, false));
    }
    hide ItemsOf, B.CaptureReserved, Q.PendingDropped, Q.PendingRanges;
  }

  lemma StepRecorded(w: Pipeline, step: Step)
    requires Good(w) && Recorded(w)
    ensures Recorded(Do(w, step))
  {
    match step
    case CaptureStep(shaped) =>
      H.PairedParts(Ends(w));
      H.CaptureFrame(w.buffer, w.handed, shaped);
      hide Q.Capture, In, Recorded, Good;
      forall y | In(Q.Capture(w.buffer, shaped), y) && !y.IsGap()
        ensures In(w.buffer, y) || (w.buffer.next <= B.MAX_CAPTURE_SEQUENCE && shaped.Shaped? &&
                                    y == Observation(w.buffer.next, shaped.content))
      {
        CaptureAddsOne(w.buffer, shaped, y);
      }
      RecordedCapture(w, shaped, Q.Capture(w.buffer, shaped));
    case FailedCaptureStep(shaped) =>
      H.PairedParts(Ends(w));
      H.FailedFrame(w.buffer, w.handed, shaped);
      hide CallbackFailed, In, Recorded, Good;
      forall y | In(CallbackFailed(w.buffer, shaped), y) && !y.IsGap()
        ensures In(w.buffer, y) || (w.buffer.next <= B.MAX_CAPTURE_SEQUENCE && shaped.Shaped? &&
                                    y == Observation(w.buffer.next, shaped.content))
      {
        FailedAddsOne(w.buffer, shaped, y);
      }
      RecordedCapture(w, shaped, CallbackFailed(w.buffer, shaped));
    case HandoffStep(shapes, progress) => HandoffRecords(w, shapes, progress); hide *;
    case SendStep(s) => hide D.Do;
  }

  lemma {:induction false} RunRecorded(w: Pipeline, steps: seq<Step>)
    requires Good(w) && Recorded(w)
    ensures Recorded(Run(w, steps))
    decreases |steps|
  {
    hide Good, Recorded, Do;
    if steps != [] {
      StepGood(w, steps[0]);
      StepRecorded(w, steps[0]);
      RunRecorded(Do(w, steps[0]), steps[1..]);
    }
  }

  /* ---------------- what arrives ---------------- */

  // After every run of captures, failed callbacks, handoffs that fail and
  // retry, lost requests, lost acknowledgements, reconnections and closes:
  // what the server holds accounts for every number below its cursor exactly
  // once and in order, and the observation that it holds under a number is
  // what the callback that was given that number supplied.
  lemma CapturedIsDelivered(bufferCapacity: nat, bridgeCapacity: nat, steps: seq<Step>)
    ensures var w := Run(Start(bufferCapacity, bridgeCapacity), steps);
            && Tiles(w.system.server.log, 1, w.system.server.cursor)
            && AllValid(w.system.server.log)
            && Tiles(ItemsOf(w.handed) + Q.Line(w.buffer), 1, w.buffer.next)
            && |w.supplied| + 1 == w.buffer.next
            && forall x :: x in w.system.server.log && !x.IsGap() ==> Original(w.supplied, x)
  {
    hide *;
    var w0 := Start(bufferCapacity, bridgeCapacity);
    StartGood(bufferCapacity, bridgeCapacity);
    StartRecorded(bufferCapacity, bridgeCapacity);
    RunGood(w0, steps);
    RunRecorded(w0, steps);
    GoodMeans(Run(w0, steps));
    RecordedMeans(Run(w0, steps));
  }

  lemma StartRecorded(bufferCapacity: nat, bridgeCapacity: nat)
    ensures Recorded(Start(bufferCapacity, bridgeCapacity))
  {
  }

  lemma RecordedMeans(w: Pipeline)
    requires Recorded(w)
    ensures |w.supplied| + 1 == w.buffer.next
    ensures forall x :: x in ItemsOf(w.handed) + Q.Line(w.buffer) && !x.IsGap() ==> Original(w.supplied, x)
  {
    forall x | x in Q.Line(w.buffer) ensures In(w.buffer, x) {
      InLine(w.buffer, x);
    }
    hide In, ItemsOf, Q.Line, Original;
  }

  lemma GoodMeans(w: Pipeline)
    requires Good(w)
    ensures Tiles(w.system.server.log, 1, w.system.server.cursor) && AllValid(w.system.server.log)
    ensures Tiles(ItemsOf(w.handed) + Q.Line(w.buffer), 1, w.buffer.next)
    ensures forall x :: x in w.system.server.log && !x.IsGap() ==> x in ItemsOf(w.handed) + Q.Line(w.buffer)
  {
    D.LogIsPrefix(w.system);
    H.PairedTiles(Ends(w));
    LogTiles(w.system);
    hide H.Paired, D.Safe, B.Line, ItemsOf;
    forall x | x in w.system.server.log && !x.IsGap() ensures x in ItemsOf(w.handed) + Q.Line(w.buffer) {
      assert x in H.BridgeItems(Ends(w));
      if x !in ItemsOf(w.handed) {
        HeldInLine(w.buffer);
      }
    }
  }

  lemma LogTiles(y: D.System)
    requires D.Safe(y)
    ensures Tiles(y.server.log, 1, y.server.cursor)
  {
  }

  lemma HeldInLine(s: Q.State)
    requires s.retained.Some?
    ensures s.retained.value in Q.Line(s)
  {
    assert Q.Line(s)[0] == s.retained.value;
  }
}
