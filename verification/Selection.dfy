// Selection as the worker does it: the head of the queue first, the gaps under
// the lock afterwards, with captures landing in between
// (hermes/bridge.py, _select_next_record).
module Selection {
  import opened Prelude
  import opened CaptureItems
  import opened Bridge
  import D = Delivery

  // What other threads do, at any time.
  predicate Outside(s: D.Step) {
    s.CallbackStep? || s.ReservationStep? || s.RequestCloseStep?
  }

  // `taken`: the worker has looked at the queue and not yet at the gaps.
  datatype System = System(link: D.System, taken: bool)

  datatype Step = TakeStep | ClaimStep | OtherStep(step: D.Step)

  function Do(w: System, step: Step): System {
    match step
    case TakeStep => if w.taken then w else System(Took(w.link), true)
    case ClaimStep => if w.taken then System(Claimed(w.link), false) else w
    case OtherStep(s) => if s.SelectStep? || (w.taken && !Outside(s)) then w else w.(link := D.Do(w.link, s))
  }

  function Took(y: D.System): D.System {
    y.(bridge := TakeFirst(y.bridge))
  }

  function Claimed(y: D.System): D.System {
    y.(bridge := Claim(y.bridge))
  }

  function Run(w: System, steps: seq<Step>): System
    decreases |steps|
  {
    if steps == [] then w else Run(Do(w, steps[0]), steps[1..])
  }

  /* ---------------- the two halves ---------------- */

  // The queue was found empty, and by the time of the claim an observation is
  // in it with a later gap recorded behind.
  predicate Overtaken(b: State) {
    b.retained.None? && b.head.None? && b.queue != [] && b.gaps != [] && b.queue[0].first <= b.gaps[0].first
  }

  lemma TakeLine(b: State)
    ensures Line(TakeFirst(b)) == Line(b)
    ensures TakeFirst(b) == b.(head := TakeFirst(b).head, queue := TakeFirst(b).queue)
    ensures D.StorageOk(b) ==> D.StorageOk(TakeFirst(b))
  {
    D.HeadLine(b);
    D.HeadFrame(b);
    hide Merge, WithHead;
  }

  lemma TookSafe(y: D.System)
    requires D.Safe(y)
    ensures D.Safe(Took(y))
  {
    var b := y.bridge;
    D.SafeParts(y);
    D.Parts(b, y.acked);
    TakeLine(b);
    hide D.Safe, D.Conserved, D.StorageOk, Line, TakeFirst;
    D.SameConserved(b, TakeFirst(b), y.acked);
    D.BridgeStepSafe(y, TakeFirst(b));
  }

  predicate TakesGap(b: State) {
    b.gaps != [] && (b.head.None? || b.gaps[0].first < b.head.value.first)
  }

  // A claim that overtakes nothing takes the first of the line, if anything.
  lemma ClaimLine(b: State)
    requires b.retained.None? && !Overtaken(b)
    ensures Line(Claim(b)) == Line(b)
    ensures Claim(b).retained.Some? ==> Line(b) != [] && Claim(b).retained.value == Line(b)[0]
  {
    hide *;
    ClaimCases(b);
    LineCases(b);
  }

  lemma ClaimCases(b: State)
    requires b.retained.None?
    ensures var t, q := Claim(b), OneOrNone(b.head) + b.queue;
            if TakesGap(b) then t.retained == Some(b.gaps[0]) && Line(t) == [b.gaps[0]] + Merge(q, b.gaps[1..])
            else if b.head.Some? then t.retained == b.head && Line(t) == [b.head.value] + Merge(b.queue, b.gaps)
            else t == b
  {
    hide Merge;
    assert OneOrNone(None) + b.queue == b.queue;
  }

  lemma LineCases(b: State)
    requires b.retained.None? && !Overtaken(b)
    ensures var q := OneOrNone(b.head) + b.queue;
            if TakesGap(b) then Line(b) == [b.gaps[0]] + Merge(q, b.gaps[1..])
            else b.head.Some? ==> Line(b) == [b.head.value] + Merge(b.queue, b.gaps)
  {
    var q := OneOrNone(b.head) + b.queue;
    assert Line(b) == Merge(q, b.gaps);
    assert b.head.Some? ==> q[0] == b.head.value && q[1..] == b.queue;
    assert b.head.None? ==> q == b.queue;
    if TakesGap(b) {
      MergeTakesGap(q, b.gaps);
    } else if b.head.Some? {
      MergeTakesHead(q, b.gaps);
    }
    hide Merge;
  }

  lemma ClaimFrame(b: State)
    ensures var t := Claim(b);
            && t.next == b.next && t.sealed == b.sealed && t.finalSeq == b.finalSeq && t.health == b.health
            && t.attempted == b.attempted && (b.retained.Some? ==> t == b)
    ensures D.StorageOk(b) ==> D.StorageOk(Claim(b))
  {
    if D.StorageOk(b) {
      ClaimStorage(b);
    }
    hide D.StorageOk;
  }

  lemma ClaimStorage(b: State)
    requires D.StorageOk(b)
    ensures D.StorageOk(Claim(b))
  {
    var t := Claim(b);
    assert t.queue == b.queue && t.capacity == b.capacity && (t.head.Some? ==> t.head == b.head);
    if t.gaps != b.gaps {
      assert forall i :: 0 <= i < |t.gaps| ==> t.gaps[i] == b.gaps[i + 1];
    }
    hide Claim;
  }

  lemma ClaimedSafe(y: D.System)
    requires D.Safe(y) && !Overtaken(y.bridge)
    ensures D.Safe(Claimed(y))
  {
    var b := y.bridge;
    D.SafeParts(y);
    D.Parts(b, y.acked);
    ClaimFrame(b);
    if b.retained.Some? {
      assert Claimed(y) == y;
    } else {
      ClaimLine(b);
      hide D.Safe, D.Conserved, D.StorageOk, Line, Claim, Overtaken;
      D.SameConserved(b, Claim(b), y.acked);
      D.BridgeStepSafe(y, Claim(b));
    }
  }

  /* ---------------- a gap in hand that is not next ---------------- */

  // The bridge holds a record from beyond the server's cursor.
  ghost predicate Wedged(y: D.System) {
    && y.bridge.retained.Some? && !y.bridge.sealed
    && y.server.cursor < y.bridge.retained.value.first <= y.bridge.retained.value.last
    && Tiles(y.server.log, 1, y.server.cursor) && y.server.log == y.acked && AllValid(y.server.log)
  }

  lemma ClaimedWedged(y: D.System)
    requires D.Safe(y) && Overtaken(y.bridge)
    ensures Wedged(Claimed(y))
  {
    var b := y.bridge;
    D.SafeParts(y);
    D.LogIsPrefix(y);
    FirstIsNext(y);
    ClaimFrame(b);
    hide D.Safe, D.Conserved, Line, Tiles, AllValid;
  }

  // Before an overtaking claim the queue begins at the server's cursor.
  lemma FirstIsNext(y: D.System)
    requires D.Safe(y) && Overtaken(y.bridge)
    ensures !y.bridge.sealed && y.server.log == y.acked && Tiles(y.server.log, 1, y.server.cursor)
    ensures y.server.cursor < y.bridge.gaps[0].first <= y.bridge.gaps[0].last
  {
    var b := y.bridge;
    D.SafeParts(y);
    var k := GapInLine(b);
    LineAtCursor(y);
    hide D.Safe, Line, Overtaken, Tiles;
    TilesBounds(Line(b), y.server.cursor, b.next);
  }

  lemma GapInLine(b: State) returns (k: nat)
    requires Overtaken(b)
    ensures 0 < k < |Line(b)| && Line(b)[0] == b.queue[0] && Line(b)[k] == b.gaps[0]
  {
    var q := OneOrNone(b.head) + b.queue;
    assert q == b.queue;
    MergeTakesHead(q, b.gaps);
    MergeElements(q[1..], b.gaps);
    hide Merge;
    var rest := Merge(q[1..], b.gaps);
    assert Line(b) == [b.queue[0]] + rest;
    k := D.Position(rest, b.gaps[0]);
    k := k + 1;
  }

  lemma LineAtCursor(y: D.System)
    requires D.Safe(y) && Line(y.bridge) != [] && y.server.log == y.acked
    ensures !y.bridge.sealed && Tiles(y.server.log, 1, y.server.cursor)
    ensures Tiles(Line(y.bridge), y.server.cursor, y.bridge.next)
  {
    var b := y.bridge;
    hide Line, D.StorageOk, Missing, GapRanges, AllValid, D.InStep;
    SplitTiles(y.acked, Line(b), 1, b.next);
    D.TilesEnd(y.acked, 1, EndOf(y.acked, 1), y.server.cursor);
  }

  lemma WedgedUnsafe(y: D.System)
    requires Wedged(y)
    ensures !D.Safe(y)
  {
    if D.Safe(y) {
      D.LineStart(y);
    }
  }

  // So the claim keeps the system safe exactly when it overtakes nothing.
  lemma ClaimExact(y: D.System)
    requires D.Safe(y)
    ensures D.Safe(Claimed(y)) <==> !Overtaken(y.bridge)
    ensures Overtaken(y.bridge) ==> Wedged(Claimed(y))
  {
    hide *;
    if Overtaken(y.bridge) {
      ClaimedWedged(y);
      WedgedUnsafe(Claimed(y));
    } else {
      ClaimedSafe(y);
    }
  }

  // The server refuses the record at every attempt, and the bridge refuses the
  // server's cursor at every connection.
  lemma WedgedCommit(y: D.System, transport: D.Transport, takes: bool)
    requires Wedged(y)
    ensures var z := D.CommitOnce(y, transport, takes); Wedged(z) && z.server == y.server && z.acked == y.acked
  {
    TilesBounds(y.server.log, 1, y.server.cursor);
    hide Tiles;
  }

  lemma WedgedStep(y: D.System, s: D.Step)
    requires Wedged(y)
    ensures Wedged(D.Do(y, s)) && D.Do(y, s).server == y.server && D.Do(y, s).acked == y.acked
  {
    hide Capture, CaptureReserved, D.CommitOnce;
    match s
    case CallbackStep(shaped) => OpenCapture(y.bridge, shaped);
    case ReservationStep(item, shapes) =>
      if CaptureReserved(y.bridge, item, shapes).Some? {
        OpenReserved(y.bridge, item, shapes);
      }
    case CommitStep(transport, takes) => WedgedCommit(y, transport, takes);
    case _ =>
  }

  lemma OpenCapture(b: State, shaped: Shaped)
    ensures var c := Capture(b, shaped);
            c.retained == b.retained && c.head == b.head && c.sealed == b.sealed && c.capacity == b.capacity
  {
    hide Extended, WithGap, Adjacent;
  }

  lemma OpenReserved(b: State, x: Item, shapes: bool)
    requires CaptureReserved(b, x, shapes).Some?
    ensures var c := CaptureReserved(b, x, shapes).value.0;
            c.retained == b.retained && c.head == b.head && c.sealed == b.sealed && c.capacity == b.capacity
  {
    hide Extended, ValidItem, WithGap, Adjacent;
  }

  lemma DoWedged(w: System, step: Step)
    requires Wedged(w.link)
    ensures Wedged(Do(w, step).link) && Do(w, step).link.server == w.link.server
    ensures Do(w, step).link.acked == w.link.acked
  {
    match step
    case TakeStep =>
    case ClaimStep => ClaimFrame(w.link.bridge);
    case OtherStep(s) => WedgedStep(w.link, s);
    hide D.Do;
  }

  // Whatever happens then, nothing is ever delivered again.
  lemma {:induction false} WedgedForever(w: System, steps: seq<Step>)
    requires Wedged(w.link)
    ensures var z := Run(w, steps).link; Wedged(z) && z.server == w.link.server && z.acked == w.link.acked
    decreases |steps|
  {
    hide Wedged, Do;
    if steps != [] {
      DoWedged(w, steps[0]);
      WedgedForever(Do(w, steps[0]), steps[1..]);
    }
  }

  /* ---------------- every run ---------------- */

  lemma DoSound(w: System, step: Step)
    requires D.Safe(w.link)
    ensures D.Safe(Do(w, step).link) || Wedged(Do(w, step).link)
    ensures !D.Safe(Do(w, step).link) ==> step.ClaimStep? && w.taken && Overtaken(w.link.bridge)
  {
    match step
    case TakeStep =>
      TookSafe(w.link);
      hide D.Safe, Wedged, Took;
    case ClaimStep =>
      ClaimExact(w.link);
      hide D.Safe, Wedged, Claimed, Overtaken;
    case OtherStep(s) =>
      D.StepSafe(w.link, s);
      hide D.Safe, Wedged, D.Do;
  }

  // Every run with selection in two halves, from a safe system, ends safe or
  // wedged; it ends safe if and only if no claim in it overtook anything.
  lemma {:induction false} RunSound(w: System, steps: seq<Step>)
    requires D.Safe(w.link)
    ensures D.Safe(Run(w, steps).link) <==> Careful(w, steps)
    ensures D.Safe(Run(w, steps).link) || Wedged(Run(w, steps).link)
    decreases |steps|
  {
    hide *;
    RunIs(w, steps);
    CarefulIs(w, steps);
    if steps != [] {
      var z := Do(w, steps[0]);
      DoSound(w, steps[0]);
      if D.Safe(z.link) {
        if Overtaking(w, steps[0]) {
          OvertakingUnsafe(w, steps[0]);
        }
        RunSound(z, steps[1..]);
      } else {
        UnsafeOvertakes(w, steps[0]);
        WedgedForever(z, steps[1..]);
        WedgedUnsafe(Run(z, steps[1..]).link);
      }
    }
  }

  // Nothing is stored twice, out of order or altered, even so.
  lemma StillExactlyOnce(capacity: nat, steps: seq<Step>)
    ensures var y := Run(System(D.Start(capacity), false), steps).link;
            && Tiles(y.server.log, 1, y.server.cursor) && AllValid(y.server.log)
            && y.acked <= y.server.log <= y.acked + Line(y.bridge)
  {
    var w := System(D.Start(capacity), false);
    D.StartSafe(capacity);
    RunSound(w, steps);
    hide Run, Line;
    if D.Safe(Run(w, steps).link) {
      D.LogIsPrefix(Run(w, steps).link);
    }
    hide AllValid, Tiles, D.Conserved;
  }

  predicate Overtaking(w: System, step: Step) {
    step.ClaimStep? && w.taken && Overtaken(w.link.bridge)
  }

  // No claim of the run overtakes.
  predicate Careful(w: System, steps: seq<Step>)
    decreases |steps|
  {
    steps == [] || (!Overtaking(w, steps[0]) && Careful(Do(w, steps[0]), steps[1..]))
  }

  lemma CarefulIs(w: System, steps: seq<Step>)
    ensures Careful(w, steps) <==> steps == [] || (!Overtaking(w, steps[0]) && Careful(Do(w, steps[0]), steps[1..]))
  {
    hide Overtaking, Do;
  }

  lemma RunIs(w: System, steps: seq<Step>)
    ensures Run(w, steps) == if steps == [] then w else Run(Do(w, steps[0]), steps[1..])
  {
    hide Do;
  }

  lemma OvertakingUnsafe(w: System, step: Step)
    requires D.Safe(w.link) && Overtaking(w, step)
    ensures !D.Safe(Do(w, step).link)
  {
    ClaimExact(w.link);
    hide D.Safe, Claimed, Overtaken;
  }

  lemma UnsafeOvertakes(w: System, step: Step)
    requires D.Safe(w.link) && !D.Safe(Do(w, step).link)
    ensures Overtaking(w, step) && Wedged(Do(w, step).link)
  {
    DoSound(w, step);
    hide D.Safe, Wedged, Do, Overtaken;
  }

  /* ---------------- when a claim overtakes ---------------- */

  // A head in hand, or a gap older than what is queued: no claim overtakes.
  predicate Ahead(b: State) {
    b.retained.Some? || b.head.Some? || (b.gaps != [] && (b.queue == [] || b.gaps[0].first < b.queue[0].first))
  }

  lemma AheadAfterTake(b: State)
    requires Line(b) != []
    ensures Ahead(TakeFirst(b))
  {
    if b.retained.None? && TakeFirst(b).head.None? {
      D.HeadLine(b);
      assert OneOrNone(b.head) + b.queue == [];
    }
  }

  lemma IdleAfterTake(b: State)
    requires Line(b) == []
    ensures TakeFirst(b) == b && b.retained.None? && b.head.None? && b.queue == [] && b.gaps == []
  {
    assert |Line(b)| == |OneOrNone(b.retained)| + |OneOrNone(b.head) + b.queue| + |b.gaps|;
  }

  // A new number goes behind.
  lemma AheadPublished(b: State, x: Item)
    requires Ahead(b) && AllBefore(b.gaps, x.first)
    ensures x.IsGap() ==> Ahead(PublishGap(b, x))
    ensures Ahead(PublishObservation(b, x))
  {
    if x.IsGap() {
      AheadGap(b, x);
    }
    if |b.queue| < b.capacity {
      assert b.gaps != [] ==> b.gaps[0].first < x.first;
      assert (b.queue + [x])[0] == if b.queue == [] then x else b.queue[0];
      hide AllBefore;
    } else {
      AheadGap(b, GapOf(x.first, QueueFull));
      hide Ahead, PublishGap, AllBefore;
    }
  }

  lemma AheadGap(b: State, x: Item)
    requires Ahead(b) && x.IsGap()
    ensures Ahead(PublishGap(b, x))
  {
    var gaps := WithGap(b.gaps, x);
    assert b.gaps != [] ==> gaps != [] && gaps[0].first == b.gaps[0].first;
    hide WithGap;
  }

  lemma AheadCapture(b: State, acked: seq<Item>, shaped: Shaped)
    requires Ahead(b) && D.Conserved(b, acked)
    ensures Ahead(Capture(b, shaped))
  {
    if !b.sealed {
      D.LineBefore(b, acked);
      hide D.Conserved, AllBefore, PublishGap, PublishObservation;
      AheadPublished(b, GapOf(b.next, InvalidSourceSchema));
      AheadPublished(b, GapOf(b.next, CallbackInternal));
      if shaped.Shaped? {
        AheadPublished(b, Observation(b.next, shaped.content));
      }
    }
  }

  lemma AheadReserved(b: State, acked: seq<Item>, x: Item, shapes: bool)
    requires Ahead(b) && D.Conserved(b, acked) && CaptureReserved(b, x, shapes).Some?
    ensures Ahead(CaptureReserved(b, x, shapes).value.0)
  {
    if !b.sealed {
      D.LineBefore(b, acked);
      hide D.Conserved, AllBefore, PublishGap, PublishObservation, ValidItem;
      if x.first == b.next {
        AheadPublished(b, x);
        AheadPublished(b, GapOf(x.first, CallbackInternal));
      }
    }
  }

  lemma OutsideStep(y: D.System, s: D.Step)
    requires D.Safe(y) && Outside(s)
    ensures D.Safe(D.Do(y, s)) && D.Do(y, s).bridge.retained == y.bridge.retained
    ensures D.Do(y, s).bridge.head == y.bridge.head
    ensures Ahead(y.bridge) ==> Ahead(D.Do(y, s).bridge)
  {
    D.StepSafe(y, s);
    D.SafeParts(y);
    hide D.Safe, D.Conserved, Ahead, Capture, CaptureReserved;
    match s
    case CallbackStep(shaped) =>
      OpenCapture(y.bridge, shaped);
      if Ahead(y.bridge) {
        AheadCapture(y.bridge, y.acked, shaped);
      }
    case ReservationStep(item, shapes) =>
      if CaptureReserved(y.bridge, item, shapes).Some? {
        OpenReserved(y.bridge, item, shapes);
        if Ahead(y.bridge) {
          AheadReserved(y.bridge, y.acked, item, shapes);
        }
      }
    case RequestCloseStep => AheadFields(y.bridge, RequestClose(y.bridge));
  }

  lemma AheadFields(b: State, c: State)
    requires c.retained == b.retained && c.head == b.head && c.queue == b.queue && c.gaps == b.gaps
    ensures Ahead(c) <==> Ahead(b)
  {
  }

  predicate AllOutside(steps: seq<D.Step>) {
    forall i :: 0 <= i < |steps| ==> Outside(steps[i])
  }

  lemma {:induction false} OutsideRun(y: D.System, steps: seq<D.Step>)
    requires D.Safe(y) && AllOutside(steps)
    ensures var z := D.Run(y, steps);
            && D.Safe(z) && z.bridge.retained == y.bridge.retained && z.bridge.head == y.bridge.head
            && (Ahead(y.bridge) ==> Ahead(z.bridge))
    decreases |steps|
  {
    hide D.Safe, Ahead, D.Do, Outside;
    if steps != [] {
      OutsideStep(y, steps[0]);
      assert forall i :: 0 <= i < |steps[1..]| ==> steps[1..][i] == steps[i + 1];
      OutsideRun(D.Do(y, steps[0]), steps[1..]);
    }
  }

  // An observation is first in line and a gap waits behind it.
  predicate GapBehind(b: State) {
    Line(b) != [] && !Line(b)[0].IsGap() && b.gaps != []
  }

  lemma OvertakenIs(b: State)
    requires D.StorageOk(b) && b.retained.None? && b.head.None?
    ensures Overtaken(b) <==> GapBehind(b)
  {
    var q := OneOrNone(b.head) + b.queue;
    assert q == b.queue && Line(b) == Merge(q, b.gaps);
    if b.gaps != [] && (q == [] || b.gaps[0].first < q[0].first) {
      MergeTakesGap(q, b.gaps);
    } else if q != [] {
      MergeTakesHead(q, b.gaps);
    }
    hide Merge;
  }

  // One selection with anything captured between its halves: the system stays
  // safe unless nothing was waiting at the first half and, by the second, an
  // observation is first in line with a gap behind it.  Then it is wedged.
  lemma SelectionExact(y: D.System, steps: seq<D.Step>)
    requires D.Safe(y) && AllOutside(steps)
    ensures var c := D.Run(Took(y), steps);
            && (D.Safe(Claimed(c)) <==> !(Line(y.bridge) == [] && GapBehind(c.bridge)))
            && (!D.Safe(Claimed(c)) ==> Wedged(Claimed(c)))
  {
    hide *;
    var c := D.Run(Took(y), steps);
    TookSafe(y);
    TookIs(y);
    OutsideRun(Took(y), steps);
    ClaimExact(c);
    if Line(y.bridge) == [] {
      IdleAfterTake(y.bridge);
      D.SafeParts(c);
      D.Parts(c.bridge, c.acked);
      OvertakenIs(c.bridge);
    } else {
      AheadAfterTake(y.bridge);
      AheadIsClear(c.bridge);
    }
  }

  lemma TookIs(y: D.System)
    ensures Took(y).bridge == TakeFirst(y.bridge)
  {
    hide TakeFirst;
  }

  lemma AheadIsClear(b: State)
    requires Ahead(b)
    ensures !Overtaken(b)
  {
  }

  /* ---------------- it happens ---------------- */

  // Two captures between the halves of a first selection: one that is queued,
  // and one that cannot be, because it has no shape or the queue is full.
  lemma TwoCapturesWedge(capacity: nat, x: Content, second: Shaped, steps: seq<Step>)
    requires capacity >= 1 && (!second.Shaped? || capacity == 1)
    ensures var w := Run(System(D.Start(capacity), false),
                         [TakeStep, OtherStep(D.CallbackStep(Shaped(x))), OtherStep(D.CallbackStep(second)), ClaimStep]);
            Wedged(w.link) && Run(w, steps).link.server.log == []
  {
    var y := D.Start(capacity);
    var one, two := OtherStep(D.CallbackStep(Shaped(x))), OtherStep(D.CallbackStep(second));
    var w4 := Run(System(y, false), [TakeStep, one, two, ClaimStep]);
    FourSteps(System(y, false), TakeStep, one, two, ClaimStep);
    assert w4.link.bridge.retained == Some(GapOf(2, if second.BadSchema? then InvalidSourceSchema
                                                    else if second.Unshaped? then CallbackInternal else QueueFull));
    assert w4.link.server == y.server && w4.link.acked == [];
    hide *;
    WedgedForever(w4, steps);
  }

  lemma FourSteps(w: System, a: Step, b: Step, c: Step, d: Step)
    ensures Run(w, [a, b, c, d]) == Do(Do(Do(Do(w, a), b), c), d)
  {
    hide Do;
    RunCons(w, a, [b, c, d]);
    RunCons(Do(w, a), b, [c, d]);
    RunCons(Do(Do(w, a), b), c, [d]);
    RunCons(Do(Do(Do(w, a), b), c), d, []);
    assert [a] + [b, c, d] == [a, b, c, d] && [b] + [c, d] == [b, c, d] && [c] + [d] == [c, d] && [d] + [] == [d];
  }

  lemma RunCons(w: System, a: Step, rest: seq<Step>)
    ensures Run(w, [a] + rest) == Run(Do(w, a), rest)
  {
    hide Do;
    assert ([a] + rest)[1..] == rest;
  }
}
