// One bridge stream and the server that keeps its records: conservation of
// captures, and exactly-once, in-order delivery over every run.
//
// The server follows the store (runtime/store.py): it accepts a record that
// starts at its cursor, answers the exact repeat of a stored record with the
// stored acknowledgement, and refuses anything else.  A request that reaches
// the server is processed before the stream can be attached again.
module Delivery {
  import opened Prelude
  import opened Values
  import opened CaptureItems
  import opened Bridge

  /* ---------------- conservation in the bridge ---------------- */

  predicate StorageOk(s: State) {
    && |s.queue| <= s.capacity
    && (s.head.Some? ==> !s.head.value.IsGap())
    && (forall i :: 0 <= i < |s.queue| ==> !s.queue[i].IsGap())
    && (forall i :: 0 <= i < |s.gaps| ==> s.gaps[i].IsGap())
  }

  // `acked` are the records whose acknowledgement arrived.
  ghost predicate Conserved(s: State, acked: seq<Item>) {
    && StorageOk(s)
    && AllValid(acked + Line(s))
    && (if s.sealed then
          Line(s) == [] && s.finalSeq.Some? && Tiles(acked, 1, s.finalSeq.value + 1) &&
          s.finalSeq.value < s.next && s.health.lastCapture == s.finalSeq.value
        else
          Tiles(acked + Line(s), 1, s.next) && s.health.lastCapture + 1 == s.next && s.health.late == 0 && s.finalSeq.None?)
    && s.health.dropped == Missing(acked + Line(s)) + s.health.late
    && s.health.ranges == GapRanges(Line(s))
    && (s.health.complete ==> s.health.dropped == 0)
    && (s.attempted ==> s.retained.Some?)
  }

  lemma InitialConserved(capacity: nat)
    ensures Conserved(Initial(capacity), [])
  {
    assert Line(Initial(capacity)) == [];
  }

  lemma LineBefore(s: State, acked: seq<Item>)
    requires Conserved(s, acked) && !s.sealed
    ensures AllBefore(OneOrNone(s.head) + s.queue, s.next) && AllBefore(s.gaps, s.next)
    ensures forall x :: x in Waiting(s) ==> x.last < s.next
  {
    var all := acked + Line(s);
    TilesBounds(all, 1, s.next);
    var q := OneOrNone(s.head) + s.queue;
    MergeElements(q, s.gaps);
    forall x | x in Waiting(s) ensures x.first <= x.last < s.next {
      assert x in all;
    }
    forall i | 0 <= i < |q| ensures q[i].first < s.next {
      assert q[i] in Waiting(s);
    }
    forall i | 0 <= i < |s.gaps| ensures s.gaps[i].first < s.next {
      assert s.gaps[i] in Waiting(s);
    }
  }

  // A new observation joins the end of the line.
  lemma LineWithObservation(s: State, acked: seq<Item>, x: Item)
    requires Conserved(s, acked) && !s.sealed && x.first == s.next
    ensures Line(s.(queue := s.queue + [x], health := s.health.(lastCapture := x.last))) == Line(s) + [x]
  {
    LineBefore(s, acked);
    var q := OneOrNone(s.head) + s.queue;
    assert OneOrNone(s.head) + (s.queue + [x]) == q + [x];
    MergeAppendQueue(q, s.gaps, x);
  }

  lemma ExtendedLine(s: State, acked: seq<Item>, x: Item)
    requires Conserved(s, acked) && !s.sealed && x.first == s.next && Adjacent(s.gaps, x)
    ensures Line(s) != [] && Line(s)[|Line(s)| - 1] == s.gaps[|s.gaps| - 1]
    ensures Line(PublishGap(s, x)) == Line(s)[..|Line(s)| - 1] + [Extended(s.gaps[|s.gaps| - 1], x)]
  {
    var longer := Extended(s.gaps[|s.gaps| - 1], x);
    AdjacentIsLast(s, acked, x);
    hide Conserved, Merge;
    MergeExtendGap(OneOrNone(s.head) + s.queue, s.gaps, longer);
    ExtendedParts(s, x);
    hide PublishGap, Line, Waiting, Adjacent;
    JoinLast(OneOrNone(s.retained), Waiting(s), longer);
  }

  lemma ExtendedParts(s: State, x: Item)
    requires Adjacent(s.gaps, x)
    ensures var longer := Extended(s.gaps[|s.gaps| - 1], x);
            Waiting(PublishGap(s, x)) == Merge(OneOrNone(s.head) + s.queue, s.gaps[..|s.gaps| - 1] + [longer])
    ensures Line(PublishGap(s, x)) == OneOrNone(s.retained) + Waiting(PublishGap(s, x))
    ensures Line(s) == OneOrNone(s.retained) + Waiting(s) && Waiting(s) == Merge(OneOrNone(s.head) + s.queue, s.gaps)
  {
    hide Merge, Extended;
  }

  lemma NewGapLine(s: State, acked: seq<Item>, x: Item)
    requires Conserved(s, acked) && !s.sealed && x.first == s.next && !Adjacent(s.gaps, x)
    ensures Line(PublishGap(s, x)) == Line(s) + [x]
  {
    LineBefore(s, acked);
    hide Conserved, Merge;
    MergeAppendGap(OneOrNone(s.head) + s.queue, s.gaps, x);
    assert OneOrNone(s.retained) + (Waiting(s) + [x]) == Line(s) + [x];
  }

  // A gap that ends just before the next number is the last item of the line.
  lemma AdjacentIsLast(s: State, acked: seq<Item>, x: Item)
    requires Conserved(s, acked) && !s.sealed && x.first == s.next && Adjacent(s.gaps, x)
    ensures AllBefore(OneOrNone(s.head) + s.queue, s.gaps[|s.gaps| - 1].first)
  {
    var last := s.gaps[|s.gaps| - 1];
    var q := OneOrNone(s.head) + s.queue;
    var all := acked + Line(s);
    MergeElements(q, s.gaps);
    TilesBounds(all, 1, s.next);
    assert last in Waiting(s);
    var j := Position(all, last);
    forall i | 0 <= i < |q| ensures q[i].first < last.first {
      assert q[i] in Waiting(s);
      var k := Position(all, q[i]);
      QueueIsObserved(s, i);
      if k < j {
        assert all[k].last < all[j].first;
      }
    }
  }

  lemma QueueIsObserved(s: State, i: nat)
    requires StorageOk(s) && i < |OneOrNone(s.head) + s.queue|
    ensures !(OneOrNone(s.head) + s.queue)[i].IsGap()
  {
    var h := OneOrNone(s.head);
    assert i < |h| ==> (h + s.queue)[i] == s.head.value;
    assert i >= |h| ==> (h + s.queue)[i] == s.queue[i - |h|];
  }

  lemma Position(items: seq<Item>, x: Item) returns (i: nat)
    requires x in items
    ensures i < |items| && items[i] == x
  {
    i :| 0 <= i < |items| && items[i] == x;
  }

  /* ---------------- every step conserves ---------------- */

  // The claimed gap and the stored ones are all the gaps of the line.
  lemma RangesAreGaps(s: State)
    requires StorageOk(s)
    ensures GapRanges(Line(s)) == |s.gaps| + Claimed(s)
  {
    var q := OneOrNone(s.head) + s.queue;
    forall i | 0 <= i < |q| ensures !q[i].IsGap() {
      QueueIsObserved(s, i);
    }
    MergeRanges(q, s.gaps);
    SumsJoin(OneOrNone(s.retained), Waiting(s));
    if s.retained.Some? {
      assert OneOrNone(s.retained) == [] + [s.retained.value];
      AppendSums([], s.retained.value);
    }
  }

  // What matters about a state after one more number is in the line.
  lemma GrownConserved(s: State, t: State, acked: seq<Item>, x: Item)
    requires Conserved(s, acked) && !s.sealed && ValidItem(x) && x.first == s.next
    requires Line(t) == Line(s) + [x] && StorageOk(t) && t.next == x.last + 1 && !t.sealed && t.finalSeq.None?
    requires t.retained == s.retained && t.attempted == s.attempted
    requires t.health.lastCapture == x.last && t.health.late == 0
    requires t.health.dropped == s.health.dropped + (if x.IsGap() then Length(x) else 0)
    requires t.health.ranges == GapRanges(Line(t))
    requires t.health.complete ==> s.health.complete && !x.IsGap()
    ensures Conserved(t, acked)
  {
    var all := acked + Line(s);
    assert acked + Line(t) == all + [x];
    TilesAppend(all, 1, s.next, x);
    AppendSums(all, x);
    hide Line, StorageOk, Missing, GapRanges, Tiles, ValidItem;
    forall i | 0 <= i < |all + [x]| ensures ValidItem((all + [x])[i]) {
      if i < |all| {
        assert ValidItem(all[i]);
      }
    }
  }

  lemma ExtendedConserved(s: State, t: State, acked: seq<Item>, x: Item)
    requires Conserved(s, acked) && !s.sealed && ValidItem(x) && x.first == s.next && x.IsGap()
    requires Line(s) != [] && Line(s)[|Line(s)| - 1].IsGap()
    requires Line(t) == Line(s)[..|Line(s)| - 1] + [Extended(Line(s)[|Line(s)| - 1], x)]
    requires StorageOk(t) && t.next == x.last + 1 && !t.sealed && t.finalSeq.None?
    requires t.retained == s.retained && t.attempted == s.attempted
    requires t.health.lastCapture == x.last && t.health.late == 0
    requires t.health.dropped == s.health.dropped + Length(x)
    requires t.health.ranges == GapRanges(Line(t)) && !t.health.complete
    ensures Conserved(t, acked)
  {
    var all := acked + Line(s);
    var last := Line(s)[|Line(s)| - 1];
    var front := acked + Line(s)[..|Line(s)| - 1];
    JoinLast(acked, Line(s), Extended(last, x));
    hide Line, StorageOk, Missing, GapRanges, ValidItem;
    assert all == front + [last];
    assert acked + Line(t) == front + [Extended(last, x)];
    ExtendedTiles(front, last, x, s.next);
    AppendSums(front, last);
    AppendSums(front, Extended(last, x));
    hide Tiles, AllValid;
  }

  // Extending the last item of a tiling by what comes next.
  lemma ExtendedTiles(front: seq<Item>, last: Item, x: Item, next: nat)
    requires Tiles(front + [last], 1, next) && AllValid(front + [last])
    requires ValidItem(x) && last.IsGap() && x.IsGap() && x.first == next
    ensures last.last + 1 == next && Length(Extended(last, x)) == Length(last) + Length(x)
    ensures Tiles(front + [Extended(last, x)], 1, x.last + 1) && AllValid(front + [Extended(last, x)])
  {
    var all := front + [last];
    assert all[|all| - 1] == last && all[..|all| - 1] == front;
    TilesFront(all, 1, next);
    assert ValidItem(last);
    ExtendedValid(last, x);
    TilesExtend(all, 1, next, Extended(last, x));
    hide Tiles, ValidItem;
    var longer := front + [Extended(last, x)];
    forall i | 0 <= i < |longer| ensures ValidItem(longer[i]) {
      if i < |front| {
        assert all[i] == front[i] && ValidItem(all[i]);
      }
    }
  }

  lemma GapStorage(s: State, x: Item)
    requires StorageOk(s) && x.IsGap()
    ensures StorageOk(PublishGap(s, x))
    ensures |PublishGap(s, x).gaps| == |s.gaps| + (if Adjacent(s.gaps, x) then 0 else 1)
  {
  }

  lemma GapConserved(s: State, acked: seq<Item>, x: Item)
    requires Conserved(s, acked) && !s.sealed && ValidItem(x) && x.first == s.next && x.IsGap()
    ensures Conserved(PublishGap(s, x).(next := x.last + 1), acked)
  {
    var t := PublishGap(s, x).(next := x.last + 1);
    GapStorage(s, x);
    assert StorageOk(t);
    RangesAreGaps(t);
    if Adjacent(s.gaps, x) {
      ExtendedLine(s, acked, x);
      ExtendedConserved(s, t, acked, x);
    } else {
      NewGapLine(s, acked, x);
      GrownConserved(s, t, acked, x);
    }
  }

  lemma ObservationConserved(s: State, acked: seq<Item>, x: Item)
    requires Conserved(s, acked) && !s.sealed && ValidItem(x) && x.first == s.next && !x.IsGap()
    ensures Conserved(PublishObservation(s, x).(next := x.last + 1), acked)
  {
    if |s.queue| < s.capacity {
      var t := PublishObservation(s, x).(next := x.last + 1);
      LineWithObservation(s, acked, x);
      assert Line(t) == Line(s) + [x];
      assert StorageOk(t);
      AppendSums(Line(s), x);
      GrownConserved(s, t, acked, x);
    } else {
      GapConserved(s, acked, GapOf(x.first, QueueFull));
    }
  }

  lemma FlagsConserved(s: State, acked: seq<Item>, ever: bool, receipt: Option<Receipt>, close: bool, retry: bool)
    requires Conserved(s, acked)
    ensures Conserved(s.(everCaptured := ever, reservation := receipt, closeRequested := close, exactRetry := retry), acked)
  {
    assert Line(s.(everCaptured := ever, reservation := receipt, closeRequested := close, exactRetry := retry)) == Line(s);
  }

  // Steps that leave the line, the numbering and the books alone.
  lemma SameConserved(s: State, t: State, acked: seq<Item>)
    requires Conserved(s, acked) && Line(t) == Line(s) && StorageOk(t)
    requires t.next == s.next && t.sealed == s.sealed && t.finalSeq == s.finalSeq && t.health == s.health
    requires t.attempted ==> t.retained.Some?
    ensures Conserved(t, acked)
  {
    hide Line, StorageOk, Missing, GapRanges, Tiles, AllValid;
  }

  lemma LateConserved(s: State, t: State, acked: seq<Item>, count: nat)
    requires Conserved(s, acked) && s.sealed && Line(t) == Line(s) && StorageOk(t)
    requires t.next >= s.next && t.sealed && t.finalSeq == s.finalSeq && t.health == s.health.LoseLate(count)
    requires t.attempted == s.attempted && t.retained == s.retained
    ensures Conserved(t, acked)
  {
    hide Line, StorageOk, Missing, GapRanges, Tiles, AllValid;
  }

  lemma LineFields(s: State, t: State)
    requires t.retained == s.retained && t.head == s.head && t.queue == s.queue && t.gaps == s.gaps
    ensures Line(t) == Line(s) && (t.capacity == s.capacity ==> (StorageOk(t) <==> StorageOk(s)))
  {
    hide Merge;
  }

  lemma Parts(s: State, acked: seq<Item>)
    requires Conserved(s, acked)
    ensures StorageOk(s) && (s.attempted ==> s.retained.Some?) && (!s.sealed ==> 1 <= s.next)
  {
    if !s.sealed {
      TilesBounds(acked + Line(s), 1, s.next);
    }
    hide Line, StorageOk, Missing, GapRanges, Tiles, AllValid;
  }

  lemma CaptureConserved(s: State, acked: seq<Item>, shaped: Shaped)
    requires Conserved(s, acked)
    ensures Conserved(Capture(s, shaped), acked)
  {
    Parts(s, acked);
    var c := Capture(s, shaped);
    if s.sealed {
      LineFields(s, c);
      LateConserved(s, c, acked, 1);
      hide Conserved, Line, StorageOk, Published;
    } else if s.next > MAX_CAPTURE_SEQUENCE {
      UncountedConserved(s, acked);
      hide Conserved, Line, StorageOk, Published;
    } else {
      hide Conserved, PublishGap, PublishObservation, Line, StorageOk;
      var t := Published(s, s.next, shaped).(next := s.next + 1);
      PublishedConserved(s, acked, shaped);
      FlagsConserved(t, acked, true, t.reservation, t.closeRequested, t.exactRetry);
    }
  }

  lemma UncountedConserved(s: State, acked: seq<Item>)
    requires Conserved(s, acked)
    ensures Conserved(s.(health := s.health.(complete := false)), acked)
  {
    LineFields(s, s.(health := s.health.(complete := false)));
    hide Line, StorageOk, Missing, GapRanges, Tiles, AllValid;
  }

  lemma PublishedConserved(s: State, acked: seq<Item>, shaped: Shaped)
    requires Conserved(s, acked) && !s.sealed && 1 <= s.next
    ensures Conserved(Published(s, s.next, shaped).(next := s.next + 1), acked)
  {
    hide Conserved, PublishGap, PublishObservation;
    match shaped
    case BadSchema => GapConserved(s, acked, GapOf(s.next, InvalidSourceSchema));
    case Unshaped => GapConserved(s, acked, GapOf(s.next, CallbackInternal));
    case Shaped(content) => ObservationConserved(s, acked, Observation(s.next, content));
  }

  lemma ReservedConserved(s: State, acked: seq<Item>, x: Item, shapes: bool)
    requires Conserved(s, acked) && CaptureReserved(s, x, shapes).Some?
    ensures Conserved(CaptureReserved(s, x, shapes).value.0, acked)
  {
    Parts(s, acked);
    hide Conserved, PublishGap, PublishObservation, Line, StorageOk, ValidItem;
    if x.first == s.next {
      var r := CaptureReserved(s, x, shapes).value.0;
      if s.sealed {
        LateReservedConserved(s, acked, x);
      } else {
        AcceptedConserved(s, acked, x, shapes);
        var t := if x.IsGap() then PublishGap(s, x)
                 else if shapes then PublishObservation(s, x) else PublishGap(s, GapOf(x.first, CallbackInternal));
        var u := t.(next := x.last + 1);
        FlagsConserved(u, acked, true, Some(Receipt(x, false)), u.closeRequested, u.exactRetry);
      }
    }
  }

  lemma LateReservedConserved(s: State, acked: seq<Item>, x: Item)
    requires Conserved(s, acked) && s.sealed && ValidItem(x) && x.first == s.next
    ensures Conserved(s.(health := s.health.LoseLate(Length(x)), next := x.last + 1, reservation := Some(Receipt(x, true))),
                      acked)
  {
    var r := s.(health := s.health.LoseLate(Length(x)), next := x.last + 1, reservation := Some(Receipt(x, true)));
    Parts(s, acked);
    hide Conserved, Line, StorageOk, ValidItem;
    LineFields(s, r);
    LaterIsLater(x);
    LateConserved(s, r, acked, Length(x));
  }

  lemma LaterIsLater(x: Item)
    requires ValidItem(x)
    ensures x.first <= x.last && (x.body.Seen? ==> x.first == x.last)
  {
  }

  lemma AcceptedConserved(s: State, acked: seq<Item>, x: Item, shapes: bool)
    requires Conserved(s, acked) && !s.sealed && ValidItem(x) && x.first == s.next
    ensures var t := if x.IsGap() then PublishGap(s, x)
                     else if shapes then PublishObservation(s, x) else PublishGap(s, GapOf(x.first, CallbackInternal));
            Conserved(t.(next := x.last + 1), acked)
  {
    LaterIsLater(x);
    hide Conserved, PublishGap, PublishObservation;
    if x.IsGap() {
      GapConserved(s, acked, x);
    } else if shapes {
      ObservationConserved(s, acked, x);
    } else {
      GapConserved(s, acked, GapOf(x.first, CallbackInternal));
    }
  }

  lemma HeadLine(s: State)
    ensures var t := WithHead(s); OneOrNone(t.head) + t.queue == OneOrNone(s.head) + s.queue
    ensures WithHead(s).head.Some? <==> OneOrNone(s.head) + s.queue != []
  {
  }

  // Selection moves the first of the line into hand and changes the line not
  // at all.
  lemma SelectLine(s: State)
    ensures Line(Select(s)) == Line(s)
    ensures Select(s).retained.None? <==> Line(s) == []
  {
    if s.retained.None? {
      SelectCases(s);
      TakenWaiting(s);
      hide Merge, WithHead, Select, Waiting;
    }
  }

  lemma TakenWaiting(s: State)
    requires s.retained.None?
    ensures var t := WithHead(s);
            Waiting(s) ==
            if t.gaps != [] && (t.head.None? || t.gaps[0].first < t.head.value.first) then
              [t.gaps[0]] + Merge(OneOrNone(t.head) + t.queue, t.gaps[1..])
            else if t.head.Some? then [t.head.value] + Merge(t.queue, t.gaps)
            else []
    ensures WithHead(s).head.None? ==> WithHead(s).queue == []
  {
    HeadLine(s);
    HeadKeepsGaps(s);
    FirstTaken(WithHead(s).head, WithHead(s).queue, WithHead(s).gaps);
    hide Merge, WithHead;
  }

  lemma SelectCases(s: State)
    requires s.retained.None?
    ensures var t, r := WithHead(s), Select(s);
            && (t.head.None? ==> t.queue == [])
            && (if t.gaps != [] && (t.head.None? || t.gaps[0].first < t.head.value.first) then
                  r.retained == Some(t.gaps[0]) && Waiting(r) == Merge(OneOrNone(t.head) + t.queue, t.gaps[1..])
                else r.retained == t.head && Waiting(r) == Merge(t.queue, t.gaps))
  {
    hide Merge;
    assert OneOrNone(None) + WithHead(s).queue == WithHead(s).queue;
  }

  lemma HeadKeepsGaps(s: State)
    ensures WithHead(s).gaps == s.gaps && WithHead(s).retained == s.retained
  {
  }

  lemma HeadFrame(s: State)
    ensures var t := WithHead(s); t == s.(head := t.head, queue := t.queue)
    ensures StorageOk(s) ==> StorageOk(WithHead(s))
  {
    if StorageOk(s) && s.queue != [] {
      assert !s.queue[0].IsGap();
    }
  }

  lemma SelectStorage(s: State)
    requires StorageOk(s)
    ensures StorageOk(Select(s))
  {
    HeadFrame(s);
    hide WithHead;
    var t := WithHead(s);
    assert forall i :: 0 <= i < |t.gaps| ==> t.gaps[i].IsGap();
    if t.gaps != [] {
      assert forall i :: 0 <= i < |t.gaps[1..]| ==> t.gaps[1..][i] == t.gaps[i + 1];
    }
  }

  lemma SelectFrame(s: State)
    ensures var t := Select(s);
            && t.next == s.next && t.sealed == s.sealed && t.finalSeq == s.finalSeq && t.health == s.health
            && t.attempted == s.attempted && (s.retained.Some? ==> t.retained == s.retained)
  {
    HeadFrame(s);
    hide WithHead;
  }

  lemma SelectConserved(s: State, acked: seq<Item>)
    requires Conserved(s, acked)
    ensures Conserved(Select(s), acked)
  {
    hide *;
    Parts(s, acked);
    SelectLine(s);
    SelectStorage(s);
    SelectFrame(s);
    SameConserved(s, Select(s), acked);
  }

  lemma AckMoves(acked: seq<Item>, s: State)
    requires s.retained.Some?
    ensures acked + Line(s) == (acked + [s.retained.value]) + Line(Acknowledge(s))
    ensures Line(Acknowledge(s)) == Waiting(s)
    ensures GapRanges(Line(s)) == GapRanges(Waiting(s)) + Claimed(s)
  {
    var t := Acknowledge(s);
    assert OneOrNone(t.retained) + Waiting(t) == Waiting(s);
    SumsJoin([s.retained.value], Waiting(s));
    AppendSums([], s.retained.value);
    assert [] + [s.retained.value] == [s.retained.value];
  }

  // An acknowledgement moves exactly the retained record out of the line.
  lemma AcknowledgeConserved(s: State, acked: seq<Item>)
    requires Conserved(s, acked) && s.retained.Some?
    ensures Conserved(Acknowledge(s), acked + [s.retained.value])
  {
    AckMoves(acked, s);
    RangesAreGaps(s);
    assert StorageOk(Acknowledge(s));
    hide Line, Missing, GapRanges, Tiles, ValidItem, Waiting, StorageOk;
  }

  lemma AttachConserved(s: State, acked: seq<Item>, cursor: nat)
    requires Conserved(s, acked) && Attach(s, cursor).Some?
    ensures Conserved(Attach(s, cursor).value, acked)
  {
    Parts(s, acked);
    var t := Attach(s, cursor).value;
    LineFields(s, t);
    hide Conserved, Line, StorageOk;
    SameConserved(s, t, acked);
  }

  lemma AttemptConserved(s: State, acked: seq<Item>)
    requires Conserved(s, acked) && s.retained.Some?
    ensures Conserved(Attempt(s), acked)
  {
    Parts(s, acked);
    LineFields(s, Attempt(s));
    hide Conserved, Line, StorageOk;
    SameConserved(s, Attempt(s), acked);
  }

  lemma SealConserved(s: State, acked: seq<Item>)
    requires Conserved(s, acked)
    ensures Conserved(Seal(s), acked)
  {
    LineFields(s, Seal(s));
    if !s.sealed {
      TilesBounds(acked + Line(s), 1, s.next);
      if Drained(s) {
        assert Line(s) == [];
        assert acked + Line(s) == acked;
      }
    }
  }

  /* ---------------- the server ---------------- */

  datatype Server = Server(cursor: nat, log: seq<Item>, closed: Option<nat>)

  datatype Reply = Acked(record: Item) | Refused

  // The stored record that starts at n.
  function StoredAt(log: seq<Item>, n: nat): (r: Option<Item>)
    ensures r.Some? <==> exists i :: 0 <= i < |log| && log[i].first == n
    ensures r.Some? ==> r.value in log && r.value.first == n
  {
    if log == [] then None
    else if log[0].first == n then Some(log[0])
    else
      var rest := StoredAt(log[1..], n);
      assert forall i :: 0 < i < |log| ==> log[i] == log[1..][i - 1];
      rest
  }

  // `takes` is what the store makes of a record that is new and starts at the
  // cursor: it may refuse it.
  function ServerCommit(s: Server, x: Item, takes: bool): (Server, Reply) {
    var stored := StoredAt(s.log, x.first);
    if s.closed.Some? then (s, Refused)
    else if stored.Some? then (s, if stored.value == x then Acked(x) else Refused)
    else if x.first != s.cursor || !takes then (s, Refused)
    else (s.(cursor := x.last + 1, log := s.log + [x]), Acked(x))
  }

  function ServerClose(s: Server, final: nat): Server {
    if s.closed.None? && final + 1 == s.cursor then s.(closed := Some(final)) else s
  }

  /* ---------------- runs ---------------- */

  datatype System = System(bridge: State, server: Server, acked: seq<Item>, connected: bool)

  // What becomes of one commit request.
  datatype Transport = Answered | AnswerLost | RequestLost

  datatype Step =
    | CallbackStep(shaped: Shaped)
    | ReservationStep(item: Item, shapes: bool)
    | SelectStep
    | ConnectStep
    | CommitStep(transport: Transport, takes: bool)
    | DisconnectStep
    | RequestCloseStep
    | SealStep
    | CloseStep

  function Start(capacity: nat): System {
    System(Initial(capacity), Server(1, [], None), [], false)
  }

  function CommitOnce(y: System, transport: Transport, takes: bool): System
    requires y.bridge.retained.Some?
  {
    var r := y.bridge.retained.value;
    var b := Attempt(y.bridge);
    var (server, reply) := ServerCommit(y.server, r, takes);
    match transport
    case RequestLost => y.(bridge := Disconnect(b), connected := false)
    case AnswerLost => y.(bridge := Disconnect(b), server := server, connected := false)
    case Answered =>
      if reply == Acked(r) then y.(bridge := Acknowledge(b), server := server, acked := y.acked + [r])
      else y.(bridge := Disconnect(b), server := server, connected := false)
  }

  function Do(y: System, step: Step): System {
    match step
    case CallbackStep(shaped) => y.(bridge := Capture(y.bridge, shaped))
    case ReservationStep(item, shapes) =>
      var r := CaptureReserved(y.bridge, item, shapes);
      if r.None? then y else y.(bridge := r.value.0)
    case SelectStep => y.(bridge := Select(y.bridge))
    case ConnectStep =>
      var b := Attach(y.bridge, y.server.cursor);
      if y.connected || y.server.closed.Some? || b.None? then y else y.(bridge := b.value, connected := true)
    case CommitStep(transport, takes) =>
      if y.connected && y.bridge.retained.Some? then CommitOnce(y, transport, takes) else y
    case DisconnectStep => y.(bridge := Disconnect(y.bridge), connected := false)
    case RequestCloseStep => y.(bridge := RequestClose(y.bridge))
    case SealStep => if y.bridge.closeRequested then y.(bridge := Seal(y.bridge)) else y
    case CloseStep =>
      if y.connected && y.bridge.sealed && y.bridge.finalSeq.Some? then
        y.(server := ServerClose(y.server, y.bridge.finalSeq.value)) else y
  }

  function Run(y: System, steps: seq<Step>): System
    decreases |steps|
  {
    if steps == [] then y else Run(Do(y, steps[0]), steps[1..])
  }

  // The server has what was acknowledged, or that and the retained record,
  // whose acknowledgement was lost.
  ghost predicate InStep(y: System) {
    y.server.log == y.acked ||
    (y.bridge.retained.Some? && y.bridge.attempted && y.server.log == y.acked + [y.bridge.retained.value])
  }

  ghost predicate Safe(y: System) {
    && Conserved(y.bridge, y.acked)
    && Tiles(y.server.log, 1, y.server.cursor)
    && InStep(y)
    && (y.server.closed.Some? ==> y.bridge.sealed && y.bridge.finalSeq == y.server.closed &&
                                  y.server.cursor == y.server.closed.value + 1)
  }

  lemma {:induction false} TilesEnd(items: seq<Item>, lo: nat, a: nat, b: nat)
    requires Tiles(items, lo, a) && Tiles(items, lo, b)
    ensures a == b
  {
    if items != [] {
      TilesEnd(items[1..], items[0].last + 1, a, b);
    }
  }

  // Where the line begins: with the retained record, right after what was
  // acknowledged.
  lemma LineStart(y: System)
    requires Safe(y) && y.bridge.retained.Some?
    ensures var r := y.bridge.retained.value;
            && Tiles(y.acked, 1, r.first) && r.first <= r.last && ValidItem(r) && !y.bridge.sealed
            && (y.server.log == y.acked ==> y.server.cursor == r.first)
            && (y.server.log == y.acked + [r] ==> y.server.cursor == r.last + 1)
            && r.last <= y.bridge.health.lastCapture && y.server.closed.None?
  {
    var b := y.bridge;
    var r := b.retained.value;
    var rest := Waiting(b);
    hide Waiting, StorageOk, Missing, GapRanges, ValidItem;
    assert Line(b) == [r] + rest;
    assert y.acked + Line(b) == (y.acked + [r]) + rest;
    SplitTiles(y.acked, [r] + rest, 1, b.next);
    var mid := EndOf(y.acked, 1);
    assert ([r] + rest)[1..] == rest;
    TilesBounds([r] + rest, mid, b.next);
    assert ([r] + rest)[0] == r;
    assert (y.acked + Line(b))[|y.acked|] == r;
    if y.server.log == y.acked {
      TilesEnd(y.acked, 1, mid, y.server.cursor);
    }
    if y.server.log == y.acked + [r] {
      TilesAppend(y.acked, 1, mid, r);
      TilesEnd(y.acked + [r], 1, r.last + 1, y.server.cursor);
    }
  }

  // The cursor of the server never falls outside what the bridge can bind:
  // with a record retained, _connect always accepts it.
  lemma AttachAccepts(y: System)
    requires Safe(y) && y.bridge.retained.Some?
    ensures Attach(y.bridge, y.server.cursor).Some?
  {
    LineStart(y);
    hide Conserved, Tiles, ValidItem;
  }

  // With none retained it is accepted exactly when nothing is waiting.
  lemma AttachWhenIdle(y: System)
    requires Safe(y) && y.bridge.retained.None?
    ensures Attach(y.bridge, y.server.cursor).Some? <==> Line(y.bridge) == []
  {
    var b := y.bridge;
    hide Line, StorageOk, Missing, GapRanges, AllValid;
    if b.sealed {
      TilesEnd(y.acked, 1, b.finalSeq.value + 1, y.server.cursor);
    } else {
      SplitTiles(y.acked, Line(b), 1, b.next);
      TilesEnd(y.acked, 1, EndOf(y.acked, 1), y.server.cursor);
      TilesBounds(Line(b), y.server.cursor, b.next);
      if Line(b) != [] {
        assert Line(b)[0].first == y.server.cursor;
      }
    }
  }

  // Whether the retained record is in the server's log already.
  predicate AlreadyStored(y: System)
    requires y.bridge.retained.Some?
  {
    y.server.log == y.acked + [y.bridge.retained.value]
  }

  // In a safe system the server acknowledges a commit exactly when it has the
  // record or takes it; then it holds what was acknowledged and the record,
  // and otherwise what it held.
  lemma CommitDecided(y: System, takes: bool)
    requires Safe(y) && y.bridge.retained.Some?
    ensures var r := y.bridge.retained.value;
            var (server, reply) := ServerCommit(y.server, r, takes);
            if AlreadyStored(y) || takes then
              reply == Acked(r) && server.log == y.acked + [r] && server.cursor == r.last + 1 &&
              Tiles(server.log, 1, server.cursor) && server.closed == y.server.closed
            else reply == Refused && server == y.server && y.server.log == y.acked
  {
    var r := y.bridge.retained.value;
    LineStart(y);
    TilesBounds(y.acked, 1, r.first);
    hide Conserved, ValidItem;
    TilesAppend(y.acked, 1, r.first, r);
    if y.server.log == y.acked {
      assert |y.acked| != |y.acked + [r]|;
      assert forall i :: 0 <= i < |y.acked| ==> y.acked[i].first != r.first;
    } else {
      var log := y.server.log;
      assert log[|y.acked|] == r;
      OnlyAtEnd(y.acked, r);
    }
  }

  lemma OnlyAtEnd(acked: seq<Item>, r: Item)
    requires forall i :: 0 <= i < |acked| ==> acked[i].first != r.first
    ensures StoredAt(acked + [r], r.first) == Some(r)
  {
    var log := acked + [r];
    assert log[|acked|] == r;
    var x := StoredAt(log, r.first).value;
    var i :| 0 <= i < |log| && log[i] == x;
    assert i < |acked| ==> log[i] == acked[i];
  }

  // What capture never touches.
  ghost predicate SendingSame(b: State, c: State) {
    && c.retained == b.retained && c.attempted == b.attempted
    && (b.sealed ==> c.sealed && c.finalSeq == b.finalSeq)
  }

  lemma CaptureSending(b: State, shaped: Shaped)
    ensures SendingSame(b, Capture(b, shaped))
  {
  }

  lemma ReservedSending(b: State, x: Item, shapes: bool)
    requires CaptureReserved(b, x, shapes).Some?
    ensures SendingSame(b, CaptureReserved(b, x, shapes).value.0)
  {
  }

  lemma BridgeStepSafe(y: System, c: State)
    requires Safe(y) && Conserved(c, y.acked)
    requires c.retained == y.bridge.retained || y.bridge.retained.None?
    requires c.attempted == y.bridge.attempted || y.server.log == y.acked
    requires y.bridge.sealed ==> c.sealed && c.finalSeq == y.bridge.finalSeq
    ensures Safe(y.(bridge := c))
  {
    PartsNone(y.bridge, y.acked);
    hide Conserved, Tiles;
  }

  lemma PartsNone(b: State, acked: seq<Item>)
    requires Conserved(b, acked)
    ensures b.retained.None? ==> !b.attempted
  {
    hide Line, StorageOk, Missing, GapRanges, Tiles, AllValid;
  }

  lemma SafeParts(y: System)
    requires Safe(y)
    ensures Conserved(y.bridge, y.acked)
    ensures y.bridge.retained.None? ==> y.server.log == y.acked
  {
    PartsNone(y.bridge, y.acked);
    hide Conserved, Tiles;
  }

  lemma ConnectSafe(y: System)
    requires Safe(y) && Attach(y.bridge, y.server.cursor).Some?
    ensures Safe(y.(bridge := Attach(y.bridge, y.server.cursor).value))
  {
    SafeParts(y);
    var c := Attach(y.bridge, y.server.cursor).value;
    AttachConserved(y.bridge, y.acked, y.server.cursor);
    if y.bridge.retained.Some? {
      LineStart(y);
    }
    hide Conserved, Tiles, ValidItem;
    BridgeStepSafe(y, c);
  }

  lemma SelectSafe(y: System)
    requires Safe(y)
    ensures Safe(y.(bridge := Select(y.bridge)))
  {
    SafeParts(y);
    SelectConserved(y.bridge, y.acked);
    SelectFrame(y.bridge);
    hide Conserved, Tiles, Select, Safe;
    BridgeStepSafe(y, Select(y.bridge));
  }

  lemma SealSafe(y: System)
    requires Safe(y)
    ensures Safe(y.(bridge := Seal(y.bridge)))
  {
    SafeParts(y);
    SealConserved(y.bridge, y.acked);
    hide Conserved, Tiles, Safe, Drained;
    BridgeStepSafe(y, Seal(y.bridge));
  }

  lemma DisconnectConserved(b: State, acked: seq<Item>)
    requires Conserved(b, acked)
    ensures Conserved(Disconnect(b), acked) && Conserved(RequestClose(b), acked)
  {
    Parts(b, acked);
    LineFields(b, Disconnect(b));
    LineFields(b, RequestClose(b));
    hide Conserved, Line, StorageOk;
    SameConserved(b, Disconnect(b), acked);
    SameConserved(b, RequestClose(b), acked);
  }

  // After a commit the retained record is in the log once, acknowledged or
  // still in hand.
  lemma CommitSafe(y: System, transport: Transport, takes: bool)
    requires Safe(y) && y.bridge.retained.Some?
    ensures Safe(CommitOnce(y, transport, takes))
  {
    var r := y.bridge.retained.value;
    CommitDecided(y, takes);
    LineStart(y);
    SafeParts(y);
    var b := Attempt(y.bridge);
    AttemptConserved(y.bridge, y.acked);
    DisconnectConserved(b, y.acked);
    AcknowledgeConserved(b, y.acked);
    AcknowledgeFrame(b);
    hide Conserved, Tiles, ValidItem, ServerCommit, Acknowledge;
  }

  lemma AcknowledgeFrame(b: State)
    requires b.retained.Some?
    ensures Acknowledge(b).sealed == b.sealed && Acknowledge(b).finalSeq == b.finalSeq
  {
  }

  lemma CloseSafe(y: System)
    requires Safe(y) && y.bridge.sealed && y.bridge.finalSeq.Some?
    ensures Safe(y.(server := ServerClose(y.server, y.bridge.finalSeq.value)))
    ensures ServerClose(y.server, y.bridge.finalSeq.value).closed == y.bridge.finalSeq
  {
    SafeParts(y);
    SealedEnd(y.bridge, y.acked);
    hide Conserved;
    TilesEnd(y.acked, 1, y.bridge.finalSeq.value + 1, y.server.cursor);
    hide Tiles;
  }

  lemma SealedEnd(b: State, acked: seq<Item>)
    requires Conserved(b, acked) && b.sealed
    ensures b.finalSeq.Some? && Tiles(acked, 1, b.finalSeq.value + 1) && b.retained.None? && Line(b) == []
  {
    hide Waiting, StorageOk, Missing, GapRanges, AllValid, Tiles;
  }

  // Every step keeps the system safe...
  lemma StepSafe(y: System, step: Step)
    requires Safe(y)
    ensures Safe(Do(y, step))
  {
    SafeParts(y);
    hide Safe, Conserved, Capture, CaptureReserved, Select, Attach, CommitOnce, Seal, ServerClose, Disconnect, RequestClose;
    match step
    case CallbackStep(shaped) =>
      CaptureConserved(y.bridge, y.acked, shaped);
      CaptureSending(y.bridge, shaped);
      BridgeStepSafe(y, Capture(y.bridge, shaped));
    case ReservationStep(item, shapes) =>
      if CaptureReserved(y.bridge, item, shapes).Some? {
        ReservedConserved(y.bridge, y.acked, item, shapes);
        ReservedSending(y.bridge, item, shapes);
        BridgeStepSafe(y, CaptureReserved(y.bridge, item, shapes).value.0);
      }
    case SelectStep => SelectSafe(y);
    case ConnectStep =>
      if Attach(y.bridge, y.server.cursor).Some? {
        ConnectSafe(y);
        ConnectionIsNothing(y.(bridge := Attach(y.bridge, y.server.cursor).value), true);
      }
    case CommitStep(transport, takes) =>
      if y.bridge.retained.Some? {
        CommitSafe(y, transport, takes);
      }
    case DisconnectStep =>
      FlagSteps(y);
      ConnectionIsNothing(y.(bridge := Disconnect(y.bridge)), false);
    case RequestCloseStep => FlagSteps(y);
    case SealStep => SealSafe(y);
    case CloseStep =>
      if y.bridge.sealed && y.bridge.finalSeq.Some? {
        CloseSafe(y);
      }
  }

  lemma ConnectionIsNothing(y: System, connected: bool)
    requires Safe(y)
    ensures Safe(y.(connected := connected))
  {
    hide Conserved, Tiles;
  }

  lemma FlagSteps(y: System)
    requires Safe(y)
    ensures Safe(y.(bridge := Disconnect(y.bridge))) && Safe(y.(bridge := RequestClose(y.bridge)))
  {
    SafeParts(y);
    DisconnectConserved(y.bridge, y.acked);
    hide Conserved, Tiles, Safe;
    BridgeStepSafe(y, Disconnect(y.bridge));
    BridgeStepSafe(y, RequestClose(y.bridge));
  }

  lemma StartSafe(capacity: nat)
    ensures Safe(Start(capacity))
  {
    InitialConserved(capacity);
    hide Conserved;
  }

  // ... so it is safe after every run of captures, selections, commits, lost
  // requests, lost acknowledgements, reconnections, seals and closes.
  lemma {:induction false} RunSafe(y: System, steps: seq<Step>)
    requires Safe(y)
    ensures Safe(Run(y, steps))
    decreases |steps|
  {
    hide Safe, Do;
    if steps != [] {
      StepSafe(y, steps[0]);
      RunSafe(Do(y, steps[0]), steps[1..]);
    }
  }

  // Exactly once and in order: the log tiles the numbers below the cursor,
  // and it is a prefix of everything captured, in capture order.
  lemma ExactlyOnce(capacity: nat, steps: seq<Step>)
    ensures var y := Run(Start(capacity), steps);
            && Tiles(y.server.log, 1, y.server.cursor)
            && y.server.log <= y.acked + Line(y.bridge)
            && (!y.bridge.sealed ==> Tiles(y.acked + Line(y.bridge), 1, y.bridge.next))
            && AllValid(y.server.log)
  {
    hide Run;
    StartSafe(capacity);
    RunSafe(Start(capacity), steps);
    var y := Run(Start(capacity), steps);
    LogIsPrefix(y);
  }

  lemma LogIsPrefix(y: System)
    requires Safe(y)
    ensures y.server.log <= y.acked + Line(y.bridge) && AllValid(y.server.log)
  {
    var all := y.acked + Line(y.bridge);
    hide Waiting, StorageOk, Missing, GapRanges, Tiles, ValidItem;
    if y.server.log != y.acked {
      assert Line(y.bridge)[0] == y.bridge.retained.value;
      assert all[..|y.acked| + 1] == y.server.log;
    }
    forall i | 0 <= i < |y.server.log| ensures ValidItem(y.server.log[i]) {
      assert y.server.log[i] == all[i];
    }
  }

  // What the server holds it keeps, and a retained record leaves the bridge
  // only by its own acknowledgement, when the server has it.
  lemma StepKeeps(y: System, step: Step)
    requires Safe(y)
    ensures var z := Do(y, step);
            && y.server.log <= z.server.log && y.acked <= z.acked
            && (y.bridge.retained.Some? && z.bridge.retained != y.bridge.retained ==>
                  z.bridge.retained.None? && z.acked == y.acked + [y.bridge.retained.value] &&
                  y.bridge.retained.value in z.server.log)
  {
    hide Conserved, Tiles, Capture, CaptureReserved, ServerCommit, Safe;
    match step
    case CallbackStep(shaped) => CaptureSending(y.bridge, shaped);
    case ReservationStep(item, shapes) =>
      if CaptureReserved(y.bridge, item, shapes).Some? {
        ReservedSending(y.bridge, item, shapes);
      }
    case CommitStep(transport, takes) =>
      if y.bridge.retained.Some? {
        CommitKeeps(y, transport, takes);
      }
    case SelectStep => SelectFrame(y.bridge);
    case _ =>
  }

  lemma CommitKeeps(y: System, transport: Transport, takes: bool)
    requires Safe(y) && y.bridge.retained.Some?
    ensures var z := CommitOnce(y, transport, takes);
            && y.server.log <= z.server.log && y.acked <= z.acked
            && (z.bridge.retained != y.bridge.retained ==>
                  z.bridge.retained.None? && z.acked == y.acked + [y.bridge.retained.value] &&
                  y.bridge.retained.value in z.server.log)
  {
    CommitDecided(y, takes);
    var r := y.bridge.retained.value;
    assert (y.acked + [r])[|y.acked|] == r;
    hide Conserved, Tiles, ValidItem, ServerCommit;
  }

  // Whether the first of the line is in the server's log already.
  predicate HeadStored(y: System)
    requires Line(y.bridge) != []
  {
    y.server.log == y.acked + [Line(y.bridge)[0]]
  }

  // From every safe system with an open server and something waiting, the
  // worker's next connected round delivers the first of the line if and only
  // if the server has it already or the store takes it. Refused, it stays
  // first and nothing moves.
  lemma NextRoundDelivers(y: System, takes: bool)
    requires Safe(y) && y.server.closed.None? && Line(y.bridge) != []
    ensures var z := Run(y, [DisconnectStep, SelectStep, ConnectStep, CommitStep(Answered, takes)]);
            if HeadStored(y) || takes then
              z.acked == y.acked + [Line(y.bridge)[0]] && z.server.log == z.acked &&
              Line(z.bridge) == Line(y.bridge)[1..]
            else z.acked == y.acked && z.server == y.server && Line(z.bridge) == Line(y.bridge)
  {
    RoundReady(y);
    RoundRuns(y, takes);
    hide Safe, CommitOnce, Line, Ready, Run, Waiting;
    Answer(Ready(y), takes);
  }

  lemma RoundRuns(y: System, takes: bool)
    requires Ready(y).connected && Ready(y).bridge.retained.Some?
    ensures Run(y, [DisconnectStep, SelectStep, ConnectStep, CommitStep(Answered, takes)]) ==
            CommitOnce(Ready(y), Answered, takes)
  {
    RunFour(y, DisconnectStep, SelectStep, ConnectStep, CommitStep(Answered, takes));
    hide Run, CommitOnce, Select, Attach, Disconnect;
  }

  // The round up to its commit: connected, with the first of the line in hand.
  function Ready(y: System): System {
    Do(Do(Do(y, DisconnectStep), SelectStep), ConnectStep)
  }

  lemma RoundReady(y: System)
    requires Safe(y) && y.server.closed.None? && Line(y.bridge) != []
    ensures var c := Ready(y);
            && Safe(c) && c.connected && c.bridge.retained == Some(Line(y.bridge)[0]) && Line(c.bridge) == Line(y.bridge)
            && c.acked == y.acked && c.server == y.server
  {
    hide Safe, Conserved, Select, Attach, CommitOnce, Line, Disconnect;
    var a := Do(y, DisconnectStep);
    StepSafe(y, DisconnectStep);
    DisconnectLine(y.bridge);
    var b := Do(a, SelectStep);
    StepSafe(a, SelectStep);
    SelectLine(a.bridge);
    AttachAccepts(b);
    StepSafe(b, ConnectStep);
    AttachLine(b.bridge, b.server.cursor);
    RetainedIsFirst(Do(b, ConnectStep).bridge);
  }

  lemma RetainedIsFirst(b: State)
    ensures b.retained.Some? ==> Line(b) != [] && Line(b)[0] == b.retained.value
  {
    hide Waiting;
  }

  lemma RunFour(y: System, a: Step, b: Step, c: Step, d: Step)
    ensures Run(y, [a, b, c, d]) == Do(Do(Do(Do(y, a), b), c), d)
  {
    hide Do;
    RunCons(y, a, [b, c, d]);
    RunCons(Do(y, a), b, [c, d]);
    RunCons(Do(Do(y, a), b), c, [d]);
    RunCons(Do(Do(Do(y, a), b), c), d, []);
    assert [a] + [b, c, d] == [a, b, c, d] && [b] + [c, d] == [b, c, d] && [c] + [d] == [c, d] && [d] + [] == [d];
  }

  lemma RunCons(y: System, a: Step, rest: seq<Step>)
    ensures Run(y, [a] + rest) == Run(Do(y, a), rest)
  {
    hide Do;
    assert ([a] + rest)[1..] == rest;
  }

  lemma DisconnectLine(b: State)
    ensures Line(Disconnect(b)) == Line(b)
  {
    LineFields(b, Disconnect(b));
    hide Line;
  }

  lemma AttachLine(b: State, cursor: nat)
    requires Attach(b, cursor).Some?
    ensures Line(Attach(b, cursor).value) == Line(b) && Attach(b, cursor).value.retained == b.retained
  {
    LineFields(b, Attach(b, cursor).value);
    hide Line;
  }

  lemma Answer(y: System, takes: bool)
    requires Safe(y) && y.bridge.retained.Some?
    ensures var z := CommitOnce(y, Answered, takes);
            if AlreadyStored(y) || takes then
              z.acked == y.acked + [y.bridge.retained.value] && z.server.log == z.acked &&
              Line(y.bridge) != [] && Line(z.bridge) == Line(y.bridge)[1..]
            else z.acked == y.acked && z.server == y.server && Line(z.bridge) == Line(y.bridge)
  {
    CommitDecided(y, takes);
    var b := Attempt(y.bridge);
    AckMoves(y.acked, b);
    var r := y.bridge.retained.value;
    LineFields(y.bridge, b);
    DisconnectLine(b);
    assert Line(y.bridge) == [r] + Waiting(y.bridge);
    assert Waiting(b) == Waiting(y.bridge);
    hide Conserved, Tiles, ValidItem, ServerCommit, Waiting, Line;
  }

  // A sealed, connected bridge can always close, and what the server then
  // holds is everything captured before the seal.
  lemma CloseSucceeds(y: System)
    requires Safe(y) && y.bridge.sealed && y.connected && y.server.closed.None?
    ensures var z := Do(y, CloseStep);
            z.server.closed == y.bridge.finalSeq && z.server.closed.Some? && z.server.log == z.acked &&
            Tiles(z.server.log, 1, z.server.closed.value + 1)
  {
    SafeParts(y);
    SealedEnd(y.bridge, y.acked);
    CloseSafe(y);
    hide Conserved, Tiles, Safe;
  }
}
