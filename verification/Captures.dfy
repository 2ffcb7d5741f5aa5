// What a capture becomes: an observation whenever the queue has a free place,
// and otherwise a part of a gap with its cause (hermes/bridge.py,
// _publish_observation_or_gap_locked and _publish_gap_locked).
module Captures {
  import opened Prelude
  import opened CaptureItems
  import opened Bridge
  import D = Delivery
  import E = EndToEnd
  import S = Selection

  /* ---------------- one capture ---------------- */

  // What a callback is worth to a bridge: its content if it was shaped and
  // meets a free place, and else the reason why it is lost.
  function Worth(s: State, shaped: Shaped): Body {
    match shaped
    case BadSchema => Lost(multiset{InvalidSourceSchema})
    case Unshaped => Lost(multiset{CallbackInternal})
    case Shaped(content) => if |s.queue| < s.capacity then Seen(content) else Lost(multiset{QueueFull})
  }

  // What a reservation of the bootstrap buffer is worth.
  function ReservedWorth(s: State, x: Item, shapes: bool): Body {
    if x.IsGap() then x.body
    else if !shapes then Lost(multiset{CallbackInternal})
    else if |s.queue| < s.capacity then x.body
    else Lost(multiset{QueueFull})
  }

  // The line with one more item: at its end, or, if both are gaps that are not
  // in hand, as part of the last one.
  ghost predicate Joined(line: seq<Item>, more: seq<Item>, x: Item) {
    more == line + [x] ||
    (x.IsGap() && line != [] && line[|line| - 1].IsGap() && line[|line| - 1].last + 1 == x.first &&
     more == line[..|line| - 1] + [Item(line[|line| - 1].first, x.last,
                                        Lost(line[|line| - 1].body.causes + x.body.causes))])
  }

  // The counters of the health record, after an item.
  predicate Counted(before: Health, after: Health, x: Item) {
    if x.IsGap() then after.dropped == before.dropped + Length(x) && !after.complete && after.late == before.late
    else after == before.(lastCapture := x.last)
  }

  lemma GapJoins(s: State, acked: seq<Item>, x: Item)
    requires D.Conserved(s, acked) && !s.sealed && x.first == s.next && x.IsGap()
    ensures Joined(Line(s), Line(PublishGap(s, x)), x) && Counted(s.health, PublishGap(s, x).health, x)
  {
    assert Counted(s.health, PublishGap(s, x).health, x);
    if Adjacent(s.gaps, x) {
      D.ExtendedLine(s, acked, x);
      assert Line(s)[|Line(s)| - 1].IsGap();
    } else {
      D.NewGapLine(s, acked, x);
    }
    hide D.Conserved, Line, PublishGap, Counted;
  }

  lemma ObservationJoins(s: State, acked: seq<Item>, x: Item)
    requires D.Conserved(s, acked) && !s.sealed && x.first == s.next && x.first == x.last && !x.IsGap()
    ensures var y := if |s.queue| < s.capacity then x else GapOf(x.first, QueueFull);
            Joined(Line(s), Line(PublishObservation(s, x)), y) && Counted(s.health, PublishObservation(s, x).health, y)
  {
    if |s.queue| < s.capacity {
      D.LineWithObservation(s, acked, x);
    } else {
      GapJoins(s, acked, GapOf(x.first, QueueFull));
    }
    hide D.Conserved, Line, PublishGap, Joined;
  }

  // A callback on an open bridge adds its worth, under its own number.
  lemma CaptureAdds(s: State, acked: seq<Item>, shaped: Shaped)
    requires D.Conserved(s, acked) && !s.sealed && s.next <= MAX_CAPTURE_SEQUENCE
    ensures var t, x := Capture(s, shaped), Item(s.next, s.next, Worth(s, shaped));
            Joined(Line(s), Line(t), x) && Counted(s.health, t.health, x) && t.next == s.next + 1
  {
    var t := Published(s, s.next, shaped);
    D.LineFields(t, Capture(s, shaped));
    match shaped
    case BadSchema => GapJoins(s, acked, GapOf(s.next, InvalidSourceSchema));
    case Unshaped => GapJoins(s, acked, GapOf(s.next, CallbackInternal));
    case Shaped(content) => ObservationJoins(s, acked, Observation(s.next, content));
    hide D.Conserved, Line, PublishGap, PublishObservation, Joined, Counted;
  }

  // So does a reservation that is taken up, without being renumbered.
  lemma ReservationAdds(s: State, acked: seq<Item>, x: Item, shapes: bool)
    requires D.Conserved(s, acked) && !s.sealed && x.first == s.next && CaptureReserved(s, x, shapes).Some?
    ensures var t, y := CaptureReserved(s, x, shapes).value.0, Item(x.first, x.last, ReservedWorth(s, x, shapes));
            Joined(Line(s), Line(t), y) && Counted(s.health, t.health, y) && t.next == x.last + 1
  {
    var t := if x.IsGap() then PublishGap(s, x)
             else if shapes then PublishObservation(s, x) else PublishGap(s, GapOf(x.first, CallbackInternal));
    D.LineFields(t, CaptureReserved(s, x, shapes).value.0);
    D.LaterIsLater(x);
    if x.IsGap() {
      GapJoins(s, acked, x);
    } else if shapes {
      ObservationJoins(s, acked, x);
    } else {
      GapJoins(s, acked, GapOf(x.first, CallbackInternal));
    }
    hide D.Conserved, Line, PublishGap, PublishObservation, Joined, Counted;
  }

  /* ---------------- whole runs ---------------- */

  // The observations among some items, and the causes of all their gaps.
  function Observations(items: seq<Item>): seq<Item> {
    if items == [] then [] else (if items[0].IsGap() then [] else [items[0]]) + Observations(items[1..])
  }

  function CausesOf(items: seq<Item>): multiset<Cause> {
    if items == [] then multiset{}
    else (if items[0].IsGap() then items[0].body.causes else multiset{}) + CausesOf(items[1..])
  }

  lemma {:induction false} SplitBooks(a: seq<Item>, b: seq<Item>)
    ensures Observations(a + b) == Observations(a) + Observations(b)
    ensures CausesOf(a + b) == CausesOf(a) + CausesOf(b)
  {
    if a == [] {
      assert a + b == b;
    } else {
      assert (a + b)[1..] == a[1..] + b;
      SplitBooks(a[1..], b);
    }
  }

  lemma OneBook(x: Item)
    ensures Observations([x]) == (if x.IsGap() then [] else [x])
    ensures CausesOf([x]) == if x.IsGap() then x.body.causes else multiset{}
  {
    assert [x][1..] == [];
  }

  lemma JoinedBooks(acked: seq<Item>, line: seq<Item>, more: seq<Item>, x: Item)
    requires Joined(line, more, x)
    ensures Observations(acked + more) == Observations(acked + line) + Observations([x])
    ensures CausesOf(acked + more) == CausesOf(acked + line) + CausesOf([x])
  {
    SplitBooks(acked, line);
    SplitBooks(acked, more);
    if more == line + [x] {
      SplitBooks(line, [x]);
    } else {
      MergedBooks(line, x);
    }
    hide Observations, CausesOf;
  }

  lemma MergedBooks(line: seq<Item>, x: Item)
    requires x.IsGap() && line != [] && line[|line| - 1].IsGap()
    ensures var last := line[|line| - 1];
            var more := line[..|line| - 1] + [Item(last.first, x.last, Lost(last.body.causes + x.body.causes))];
            && Observations(more) == Observations(line) + Observations([x])
            && CausesOf(more) == CausesOf(line) + CausesOf([x])
  {
    var last := line[|line| - 1];
    var longer := Item(last.first, x.last, Lost(last.body.causes + x.body.causes));
    var front := line[..|line| - 1];
    assert line == front + [last];
    SplitBooks(front, [last]);
    SplitBooks(front, [longer]);
    OneBook(last);
    OneBook(longer);
    OneBook(x);
    hide Observations, CausesOf;
  }

  // What a step captures: the worth of a callback or of a reservation that is
  // taken up, while the bridge is open.
  function Captured(s: State, step: D.Step): seq<Item> {
    if s.sealed then []
    else
      match step
      case CallbackStep(shaped) =>
        if s.next > MAX_CAPTURE_SEQUENCE then [] else [Item(s.next, s.next, Worth(s, shaped))]
      case ReservationStep(x, shapes) =>
        if x.first != s.next || !ValidItem(x) || x.last > MAX_CAPTURE_SEQUENCE then []
        else [Item(x.first, x.last, ReservedWorth(s, x, shapes))]
      case _ => []
  }

  function History(y: D.System, steps: seq<D.Step>): seq<Item>
    decreases |steps|
  {
    if steps == [] then [] else Captured(y.bridge, steps[0]) + History(D.Do(y, steps[0]), steps[1..])
  }

  // Everything that the bridge has acknowledged or still holds.
  function Kept(y: D.System): seq<Item> {
    y.acked + Line(y.bridge)
  }

  lemma CallbackBooks(y: D.System, shaped: Shaped)
    requires D.Safe(y)
    ensures var z, c := D.Do(y, D.CallbackStep(shaped)), Captured(y.bridge, D.CallbackStep(shaped));
            && Observations(Kept(z)) == Observations(Kept(y)) + Observations(c)
            && CausesOf(Kept(z)) == CausesOf(Kept(y)) + CausesOf(c)
  {
    var s := y.bridge;
    D.SafeParts(y);
    if s.sealed || s.next > MAX_CAPTURE_SEQUENCE {
      D.LineFields(s, Capture(s, shaped));
      hide D.Safe, D.Conserved, Line;
    } else {
      CaptureAdds(s, y.acked, shaped);
      JoinedBooks(y.acked, Line(s), Line(Capture(s, shaped)), Item(s.next, s.next, Worth(s, shaped)));
      hide D.Safe, D.Conserved, Line, Capture, Worth, Joined, Counted;
    }
  }

  lemma ReservationBooks(y: D.System, x: Item, shapes: bool)
    requires D.Safe(y)
    ensures var z, c := D.Do(y, D.ReservationStep(x, shapes)), Captured(y.bridge, D.ReservationStep(x, shapes));
            && Observations(Kept(z)) == Observations(Kept(y)) + Observations(c)
            && CausesOf(Kept(z)) == CausesOf(Kept(y)) + CausesOf(c)
  {
    var s := y.bridge;
    D.SafeParts(y);
    var r := CaptureReserved(s, x, shapes);
    if r.Some? && !s.sealed && x.first == s.next {
      hide D.Safe, D.Conserved, Line, CaptureReserved, ReservedWorth, Joined, Counted, ValidItem;
      ReservationAdds(s, y.acked, x, shapes);
      JoinedBooks(y.acked, Line(s), Line(r.value.0), Item(x.first, x.last, ReservedWorth(s, x, shapes)));
      ReservedTaken(s, x, shapes);
    } else {
      if r.Some? {
        D.LineFields(s, r.value.0);
      }
      hide D.Safe, D.Conserved, Line, ReservedWorth, ValidItem;
    }
  }

  lemma ReservedTaken(s: State, x: Item, shapes: bool)
    requires CaptureReserved(s, x, shapes).Some?
    ensures ValidItem(x) && x.last <= MAX_CAPTURE_SEQUENCE
  {
    hide ValidItem;
  }

  lemma StepBooks(y: D.System, step: D.Step)
    requires D.Safe(y)
    ensures var z, c := D.Do(y, step), Captured(y.bridge, step);
            && Observations(Kept(z)) == Observations(Kept(y)) + Observations(c)
            && CausesOf(Kept(z)) == CausesOf(Kept(y)) + CausesOf(c)
  {
    hide D.Safe, D.Do, Observations, CausesOf, Kept, Worth, ReservedWorth;
    match step
    case CallbackStep(shaped) => CallbackBooks(y, shaped);
    case ReservationStep(x, shapes) => ReservationBooks(y, x, shapes);
    case _ =>
      E.SendFrame(y, step);
      SameKept(y, D.Do(y, step));
  }

  lemma SameKept(y: D.System, z: D.System)
    requires z.acked + Line(z.bridge) == y.acked + Line(y.bridge)
    ensures Kept(z) == Kept(y) && Observations([]) == [] && CausesOf([]) == multiset{}
  {
  }

  // Over every run, the observations acknowledged or still held are those
  // before and, in order, those shaped captures that met a free place; and the
  // causes recorded are those of all the other captures.
  lemma {:induction false} RunBooks(y: D.System, steps: seq<D.Step>)
    requires D.Safe(y)
    ensures var z, h := D.Run(y, steps), History(y, steps);
            && Observations(Kept(z)) == Observations(Kept(y)) + Observations(h)
            && CausesOf(Kept(z)) == CausesOf(Kept(y)) + CausesOf(h)
    decreases |steps|
  {
    hide D.Safe, D.Do, Kept, Captured;
    if steps != [] {
      var z := D.Do(y, steps[0]);
      StepBooks(y, steps[0]);
      D.StepSafe(y, steps[0]);
      RunBooks(z, steps[1..]);
      SplitBooks(Captured(y.bridge, steps[0]), History(z, steps[1..]));
      hide Observations, CausesOf;
    }
  }

  // From a new bridge: the server's observations are a first part of the shaped
  // captures that met a free place.
  lemma DeliveredAreCaptured(capacity: nat, steps: seq<D.Step>)
    ensures var y, h := D.Run(D.Start(capacity), steps), History(D.Start(capacity), steps);
            && Observations(y.server.log) <= Observations(h)
            && Observations(Kept(y)) == Observations(h) && CausesOf(Kept(y)) == CausesOf(h)
  {
    hide *;
    var y0 := D.Start(capacity);
    D.StartSafe(capacity);
    RunBooks(y0, steps);
    StartKept(capacity);
    LogKept(capacity, steps);
    var y := D.Run(y0, steps);
    PrefixBooks(y.server.log, Kept(y));
  }

  lemma LogKept(capacity: nat, steps: seq<D.Step>)
    ensures var y := D.Run(D.Start(capacity), steps); y.server.log <= Kept(y)
  {
    hide D.Run, Line;
    D.ExactlyOnce(capacity, steps);
  }

  lemma StartKept(capacity: nat)
    ensures Observations(Kept(D.Start(capacity))) == [] && CausesOf(Kept(D.Start(capacity))) == multiset{}
  {
    assert Line(Initial(capacity)) == [];
  }

  lemma PrefixBooks(a: seq<Item>, b: seq<Item>)
    requires a <= b
    ensures Observations(a) <= Observations(b)
  {
    SplitBooks(a, b[|a|..]);
    assert b == a + b[|a|..];
    hide Observations;
  }

  /* ---------------- how many gaps ---------------- */

  // No two of the gap ranges touch.
  predicate Apart(gaps: seq<Item>) {
    forall i :: 0 <= i < |gaps| - 1 ==> gaps[i].last + 1 < gaps[i + 1].first
  }

  lemma PublishedApart(s: State, x: Item)
    requires Apart(s.gaps) && AllLastBefore(s.gaps, x.first)
    ensures x.IsGap() ==> Apart(PublishGap(s, x).gaps)
    ensures Apart(PublishObservation(s, x).gaps)
  {
    if x.IsGap() {
      GapApart(s.gaps, x);
    }
    GapApart(s.gaps, GapOf(x.first, QueueFull));
    hide WithGap, Apart;
  }

  predicate AllLastBefore(items: seq<Item>, n: nat) {
    forall i :: 0 <= i < |items| ==> items[i].last < n && items[i].IsGap()
  }

  // A new gap that touches the newest one becomes part of it.
  lemma GapApart(gaps: seq<Item>, x: Item)
    requires Apart(gaps) && AllLastBefore(gaps, x.first) && x.IsGap()
    ensures Apart(WithGap(gaps, x))
  {
    var r := WithGap(gaps, x);
    if Adjacent(gaps, x) {
      forall i | 0 <= i < |r| - 1 ensures r[i].last + 1 < r[i + 1].first {
        assert r[i] == gaps[i] && r[i + 1].first == gaps[i + 1].first;
      }
    }
  }

  lemma GapsBefore(s: State, acked: seq<Item>)
    requires D.Conserved(s, acked) && !s.sealed
    ensures AllLastBefore(s.gaps, s.next)
  {
    var all := acked + Line(s);
    TilesBounds(all, 1, s.next);
    MergeElements(OneOrNone(s.head) + s.queue, s.gaps);
    forall i | 0 <= i < |s.gaps| ensures s.gaps[i].last < s.next && s.gaps[i].IsGap() {
      assert s.gaps[i] in Waiting(s);
      assert s.gaps[i] in all;
    }
    hide Merge, Tiles, Missing, GapRanges, ValidItem;
  }

  lemma CaptureApart(s: State, acked: seq<Item>, shaped: Shaped)
    requires D.Conserved(s, acked) && Apart(s.gaps)
    ensures Apart(Capture(s, shaped).gaps)
  {
    if !s.sealed {
      GapsBefore(s, acked);
      PublishedApart(s, GapOf(s.next, InvalidSourceSchema));
      PublishedApart(s, GapOf(s.next, CallbackInternal));
      if shaped.Shaped? {
        PublishedApart(s, Observation(s.next, shaped.content));
      }
    }
    hide D.Conserved, Apart, PublishGap, PublishObservation, AllLastBefore;
  }

  lemma ReservedApart(s: State, acked: seq<Item>, x: Item, shapes: bool)
    requires D.Conserved(s, acked) && Apart(s.gaps) && CaptureReserved(s, x, shapes).Some?
    ensures Apart(CaptureReserved(s, x, shapes).value.0.gaps)
  {
    if !s.sealed && x.first == s.next {
      GapsBefore(s, acked);
      PublishedApart(s, x);
      PublishedApart(s, GapOf(x.first, CallbackInternal));
    }
    hide D.Conserved, Apart, PublishGap, PublishObservation, AllLastBefore, ValidItem;
  }

  lemma FewerApart(gaps: seq<Item>)
    requires Apart(gaps) && gaps != []
    ensures Apart(gaps[1..])
  {
    var r := gaps[1..];
    assert forall i :: 0 <= i < |r| ==> r[i] == gaps[i + 1];
  }

  lemma SentApart(y: D.System, step: D.Step)
    requires Apart(y.bridge.gaps) && !step.CallbackStep? && !step.ReservationStep?
    ensures Apart(D.Do(y, step).bridge.gaps)
  {
    if y.bridge.gaps != [] {
      FewerApart(y.bridge.gaps);
    }
    hide *;
    SentLeaves(y, step);
  }

  lemma SelectLeaves(s: State)
    ensures var t := Select(s);
            t.capacity == s.capacity && (t.gaps == s.gaps || (s.gaps != [] && t.gaps == s.gaps[1..]))
  {
    D.HeadFrame(s);
    hide WithHead;
  }

  lemma CommitLeaves(y: D.System, transport: D.Transport, takes: bool)
    requires y.bridge.retained.Some?
    ensures var t := D.CommitOnce(y, transport, takes).bridge;
            t.capacity == y.bridge.capacity && t.gaps == y.bridge.gaps
  {
    hide D.ServerCommit;
  }

  // A step that captures nothing loses at most the first gap, to the worker.
  lemma SentLeaves(y: D.System, step: D.Step)
    requires !step.CallbackStep? && !step.ReservationStep?
    ensures var s, t := y.bridge, D.Do(y, step).bridge;
            t.capacity == s.capacity && (t.gaps == s.gaps || (s.gaps != [] && t.gaps == s.gaps[1..]))
  {
    SelectLeaves(y.bridge);
    hide Capture, CaptureReserved, Select, D.CommitOnce, D.ServerClose, Drained;
    if step.CommitStep? && y.bridge.retained.Some? {
      CommitLeaves(y, step.transport, step.takes);
    }
  }

  lemma StepApart(y: D.System, step: D.Step)
    requires D.Safe(y) && Apart(y.bridge.gaps)
    ensures Apart(D.Do(y, step).bridge.gaps)
  {
    D.SafeParts(y);
    hide D.Safe, D.Conserved, Apart, Capture, CaptureReserved;
    match step
    case CallbackStep(shaped) => CaptureApart(y.bridge, y.acked, shaped);
    case ReservationStep(x, shapes) =>
      if CaptureReserved(y.bridge, x, shapes).Some? {
        ReservedApart(y.bridge, y.acked, x, shapes);
      }
    case _ => SentApart(y, step);
  }

  lemma {:induction false} RunApart(y: D.System, steps: seq<D.Step>)
    requires D.Safe(y) && Apart(y.bridge.gaps)
    ensures Apart(D.Run(y, steps).bridge.gaps)
    decreases |steps|
  {
    hide D.Safe, D.Do, Apart;
    if steps != [] {
      StepApart(y, steps[0]);
      D.StepSafe(y, steps[0]);
      RunApart(D.Do(y, steps[0]), steps[1..]);
    }
  }

  // Between two gaps of a contiguous line there is something else.
  lemma {:induction false} GapsBetween(queue: seq<Item>, gaps: seq<Item>, lo: nat, hi: nat)
    requires Tiles(Merge(queue, gaps), lo, hi) && Apart(gaps)
    ensures |gaps| <= |queue| + 1
    decreases |queue| + |gaps|
  {
    var line := Merge(queue, gaps);
    if gaps != [] && (queue == [] || gaps[0].first < queue[0].first) {
      MergeTakesGap(queue, gaps);
      FewerApart(gaps);
      var rest := Merge(queue, gaps[1..]);
      assert line[1..] == rest;
      if |gaps| > 1 {
        assert rest[0].first == gaps[0].last + 1 && gaps[0].last + 1 < gaps[1].first;
        assert queue != [] && rest[0] == queue[0];
        MergeTakesHead(queue, gaps[1..]);
        assert rest[1..] == Merge(queue[1..], gaps[1..]);
        GapsBetween(queue[1..], gaps[1..], rest[0].last + 1, hi);
      }
    } else if queue != [] {
      MergeTakesHead(queue, gaps);
      assert line[1..] == Merge(queue[1..], gaps);
      GapsBetween(queue[1..], gaps, line[0].last + 1, hi);
    }
  }

  // However many captures are lost, they take no more ranges than there are
  // waiting observations and one: at most the capacity and two.
  lemma GapsAreFew(capacity: nat, steps: seq<D.Step>)
    ensures var b := D.Run(D.Start(capacity), steps).bridge;
            |b.gaps| <= |OneOrNone(b.head) + b.queue| + 1 <= capacity + 2
  {
    var y0 := D.Start(capacity);
    D.StartSafe(capacity);
    D.RunSafe(y0, steps);
    RunApart(y0, steps);
    RunCapacity(y0, steps);
    FewGaps(D.Run(y0, steps));
    hide D.Run, D.Safe, Apart;
  }

  lemma FewGaps(y: D.System)
    requires D.Safe(y) && Apart(y.bridge.gaps)
    ensures var b := y.bridge; |b.gaps| <= |OneOrNone(b.head) + b.queue| + 1 <= b.capacity + 2
  {
    var b := y.bridge;
    D.SafeParts(y);
    D.Parts(b, y.acked);
    var front := y.acked + OneOrNone(b.retained);
    if b.sealed {
      assert |Line(b)| == |OneOrNone(b.retained)| + |OneOrNone(b.head) + b.queue| + |b.gaps|;
    } else {
      assert y.acked + Line(b) == front + Waiting(b);
      WaitingTiles(b, y.acked);
      GapsBetween(OneOrNone(b.head) + b.queue, b.gaps, EndOf(front, 1), b.next);
    }
    hide Apart, Merge;
  }

  lemma WaitingTiles(b: State, acked: seq<Item>)
    requires D.Conserved(b, acked) && !b.sealed
    ensures Tiles(Waiting(b), EndOf(acked + OneOrNone(b.retained), 1), b.next)
  {
    var front := acked + OneOrNone(b.retained);
    assert acked + Line(b) == front + Waiting(b);
    hide Waiting, D.StorageOk, Missing, GapRanges, AllValid;
    SplitTiles(front, Waiting(b), 1, b.next);
  }

  lemma {:induction false} RunCapacity(y: D.System, steps: seq<D.Step>)
    ensures D.Run(y, steps).bridge.capacity == y.bridge.capacity
    decreases |steps|
  {
    if steps != [] {
      StepCapacity(y, steps[0]);
      hide D.Do;
      RunCapacity(D.Do(y, steps[0]), steps[1..]);
    }
  }

  lemma StepCapacity(y: D.System, step: D.Step)
    ensures D.Do(y, step).bridge.capacity == y.bridge.capacity
  {
    match step
    case CallbackStep(shaped) =>
      hide Capture;
      S.OpenCapture(y.bridge, shaped);
    case ReservationStep(x, shapes) =>
      hide CaptureReserved;
      if CaptureReserved(y.bridge, x, shapes).Some? {
        S.OpenReserved(y.bridge, x, shapes);
      }
    case _ =>
      hide *;
      SentLeaves(y, step);
  }
}
