// Conservation in the bootstrap buffer: every reserved number is kept once,
// and the health counters say exactly what is kept and what was lost.
module BootstrapBooks {
  import opened Prelude
  import opened Values
  import opened CaptureItems
  import opened Bootstrap
  import B = Bridge

  // What left the buffer, and whether the bridge took it before its close
  // seal.
  datatype Handed = Handed(item: Item, late: bool)

  function ItemsOf(handed: seq<Handed>): (r: seq<Item>)
    ensures |r| == |handed| && forall i :: 0 <= i < |r| ==> r[i] == handed[i].item
  {
    seq(|handed|, i requires 0 <= i < |handed| => handed[i].item)
  }

  // Numbers lost with what was handed off: gaps, and everything that came too
  // late.
  function LostOf(handed: seq<Handed>): nat {
    if handed == [] then 0
    else
      var x := handed[|handed| - 1];
      LostOf(handed[..|handed| - 1]) + (if x.late || x.item.IsGap() then Length(x.item) else 0)
  }

  function LateOf(handed: seq<Handed>): nat {
    if handed == [] then 0
    else LateOf(handed[..|handed| - 1]) +
         (if handed[|handed| - 1].late then Length(handed[|handed| - 1].item) else 0)
  }

  predicate StorageOk(s: State) {
    |s.queue| <= s.capacity && forall i :: 0 <= i < |s.overflow| ==> s.overflow[i].IsGap()
  }

  ghost predicate Kept(s: State, handed: seq<Handed>) {
    && StorageOk(s)
    && AllValid(ItemsOf(handed) + Line(s))
    && Tiles(ItemsOf(handed) + Line(s), 1, s.next)
  }

  // The counters of the health record.
  ghost predicate Balanced(s: State, handed: seq<Handed>) {
    && s.health.pending == Numbers(Line(s))
    && s.handedOffDropped == LostOf(handed)
    && s.health.late == LateOf(handed)
    && s.health.dropped == s.handedOffDropped + Missing(Line(s))
    && s.health.ranges == GapRanges(Line(s))
    && (s.health.complete ==> s.health.dropped == 0)
  }

  lemma InitialKept(capacity: nat)
    ensures Kept(Initial(capacity), []) && Balanced(Initial(capacity), [])
  {
    assert Line(Initial(capacity)) == [] && ItemsOf([]) == [];
  }

  // The walk over the separate stores counts what the line holds.
  lemma MetricsOfLine(s: State)
    ensures PendingDropped(s) == Missing(Line(s)) && PendingRanges(s) == GapRanges(Line(s))
  {
    MergeSums(Stored(s), s.overflow);
    SumsJoin(OneOrNone(s.retained), Merge(Stored(s), s.overflow));
    SumsJoin(OneOrNone(s.retained), Stored(s));
    SumsJoin(OneOrNone(s.retained) + Stored(s), s.overflow);
  }

  lemma LineBefore(s: State, handed: seq<Handed>)
    requires Kept(s, handed)
    ensures AllBefore(Stored(s), s.next) && AllBefore(s.overflow, s.next)
    ensures forall x :: x in Line(s) ==> ValidItem(x) && x.last < s.next
    ensures 1 <= s.next && Singular(Line(s)) && Singular(Stored(s)) && Singular(s.overflow)
  {
    var all := ItemsOf(handed) + Line(s);
    TilesBounds(all, 1, s.next);
    MergeElements(Stored(s), s.overflow);
    forall x | x in Line(s) ensures ValidItem(x) && x.last < s.next {
      assert x in all;
      var i :| 0 <= i < |all| && all[i] == x;
      assert ValidItem(all[i]);
    }
    forall i | 0 <= i < |Line(s)| ensures !Line(s)[i].IsGap() ==> Line(s)[i].first == Line(s)[i].last {
      assert Line(s)[i] in Line(s);
    }
    forall i | 0 <= i < |Stored(s)|
      ensures Stored(s)[i].first < s.next && (!Stored(s)[i].IsGap() ==> Stored(s)[i].first == Stored(s)[i].last)
    {
      assert Stored(s)[i] in Line(s);
    }
    forall i | 0 <= i < |s.overflow|
      ensures s.overflow[i].first < s.next && (!s.overflow[i].IsGap() ==> s.overflow[i].first == s.overflow[i].last)
    {
      assert s.overflow[i] in Line(s);
    }
  }

  /* ---------------- a new item at the end ---------------- */

  lemma KeptGrows(s: State, t: State, handed: seq<Handed>, x: Item)
    requires Kept(s, handed) && ValidItem(x) && x.first == s.next && t.next == x.last + 1
    requires Line(t) == Line(s) + [x] && StorageOk(t)
    ensures Kept(t, handed)
  {
    var all := ItemsOf(handed) + Line(s);
    assert ItemsOf(handed) + Line(t) == all + [x];
    TilesAppend(all, 1, s.next, x);
    hide Line, StorageOk, Tiles, ValidItem;
    forall i | 0 <= i < |all + [x]| ensures ValidItem((all + [x])[i]) {
      if i < |all| {
        assert ValidItem(all[i]);
      }
    }
  }

  lemma QueuedLine(s: State, handed: seq<Handed>, x: Item)
    requires Kept(s, handed) && x.first == s.next
    ensures Line(s.(queue := s.queue + [x])) == Line(s) + [x]
  {
    LineBefore(s, handed);
    assert OneOrNone(s.head) + (s.queue + [x]) == Stored(s) + [x];
    MergeAppendQueue(Stored(s), s.overflow, x);
  }

  lemma OverflowedLine(s: State, handed: seq<Handed>, x: Item)
    requires Kept(s, handed) && x.first == s.next
    ensures Line(s.(overflow := s.overflow + [x])) == Line(s) + [x]
  {
    LineBefore(s, handed);
    MergeAppendGap(Stored(s), s.overflow, x);
  }

  lemma StoresTile(s: State, handed: seq<Handed>)
    requires Kept(s, handed)
    ensures exists lo: nat :: Tiles(Merge(Stored(s), s.overflow), lo, s.next)
  {
    var front := ItemsOf(handed) + OneOrNone(s.retained);
    var line := Merge(Stored(s), s.overflow);
    assert ItemsOf(handed) + Line(s) == front + line;
    SplitTiles(front, line, 1, s.next);
  }

  lemma ExtendedLine(s: State, handed: seq<Handed>, x: Item)
    requires Kept(s, handed) && x.first == s.next && Adjacent(s.overflow, x)
    ensures Line(s) != [] && Line(s)[|Line(s)| - 1] == s.overflow[|s.overflow| - 1]
    ensures var longer := Extended(s.overflow[|s.overflow| - 1], x);
            Line(s.(overflow := s.overflow[..|s.overflow| - 1] + [longer])) == Line(s)[..|Line(s)| - 1] + [longer]
  {
    AdjacentIsLast(s, handed, x);
    hide Kept;
    ExtendedParts(s, Extended(s.overflow[|s.overflow| - 1], x));
  }

  // A gap that ends just before the next number is the last item of the line.
  lemma AdjacentIsLast(s: State, handed: seq<Handed>, x: Item)
    requires Kept(s, handed) && x.first == s.next && Adjacent(s.overflow, x)
    ensures AllBefore(Stored(s), s.overflow[|s.overflow| - 1].first)
  {
    StoresTile(s, handed);
    hide Kept, Stored, Tiles, Merge, AllBefore;
    var lo: nat :| Tiles(Merge(Stored(s), s.overflow), lo, s.next);
    NewestGapIsLast(Stored(s), s.overflow, lo, s.next);
  }

  // A longer gap in place of the last one changes the last item of the line.
  lemma ExtendedParts(s: State, longer: Item)
    requires s.overflow != [] && longer.first == s.overflow[|s.overflow| - 1].first
    requires AllBefore(Stored(s), s.overflow[|s.overflow| - 1].first)
    ensures Line(s) != [] && Line(s)[|Line(s)| - 1] == s.overflow[|s.overflow| - 1]
    ensures Line(s.(overflow := s.overflow[..|s.overflow| - 1] + [longer])) == Line(s)[..|Line(s)| - 1] + [longer]
  {
    var shorter := s.overflow[..|s.overflow| - 1];
    LineParts(s, s.overflow);
    LineParts(s, shorter + [longer]);
    hide *;
    MergeExtendGap(Stored(s), s.overflow, longer);
    JoinLast(OneOrNone(s.retained), Merge(Stored(s), s.overflow), longer);
  }

  lemma LineParts(s: State, overflow: seq<Item>)
    ensures Line(s.(overflow := overflow)) == OneOrNone(s.retained) + Merge(Stored(s), overflow)
  {
    hide Merge;
  }

  lemma KeptExtends(s: State, t: State, handed: seq<Handed>, x: Item)
    requires Kept(s, handed) && ValidItem(x) && x.first == s.next && t.next == x.last + 1 && x.IsGap()
    requires Line(s) != [] && Line(s)[|Line(s)| - 1].IsGap() && StorageOk(t)
    requires Line(t) == Line(s)[..|Line(s)| - 1] + [Extended(Line(s)[|Line(s)| - 1], x)]
    ensures Kept(t, handed)
    ensures Missing(Line(t)) == Missing(Line(s)) + Length(x) && Numbers(Line(t)) == Numbers(Line(s)) + Length(x)
    ensures GapRanges(Line(t)) == GapRanges(Line(s))
  {
    var items := ItemsOf(handed);
    var all := items + Line(s);
    var last := Line(s)[|Line(s)| - 1];
    var body := Line(s)[..|Line(s)| - 1];
    JoinLast(items, Line(s), Extended(last, x));
    assert Line(s) == body + [last] && items + Line(t) == (items + body) + [Extended(last, x)];
    assert all[|all| - 1] == last && all[..|all| - 1] == items + body;
    TilesFront(all, 1, s.next);
    assert ValidItem(last) by { assert ValidItem(all[|all| - 1]); }
    ExtendedValid(last, x);
    TilesExtend(all, 1, s.next, Extended(last, x));
    AppendSums(body, last);
    AppendSums(body, Extended(last, x));
    hide Line, StorageOk, Missing, GapRanges, Numbers, Tiles, ValidItem;
    var longer := (items + body) + [Extended(last, x)];
    forall i | 0 <= i < |longer| ensures ValidItem(longer[i]) {
      if i < |items + body| {
        assert all[i] == longer[i] && ValidItem(all[i]);
      }
    }
  }

  // A gap that stands for the newest number: kept, and counted once.
  lemma RetainKept(s: State, handed: seq<Handed>, gap: Item)
    requires Kept(s, handed) && ValidItem(gap) && gap.IsGap() && gap.first == s.next
    ensures var t := RetainNewGap(s, gap).(next := gap.last + 1);
            && Kept(t, handed)
            && Missing(Line(t)) == Missing(Line(s)) + Length(gap) && Numbers(Line(t)) == Numbers(Line(s)) + Length(gap)
  {
    var t := RetainNewGap(s, gap).(next := gap.last + 1);
    assert StorageOk(t);
    AppendSums(Line(s), gap);
    if |s.queue| < s.capacity {
      QueuedLine(s, handed, gap);
      assert Line(t) == Line(s) + [gap];
      KeptGrows(s, t, handed, gap);
    } else if Adjacent(s.overflow, gap) {
      ExtendedLine(s, handed, gap);
      KeptExtends(s, t, handed, gap);
    } else {
      OverflowedLine(s, handed, gap);
      assert Line(t) == Line(s) + [gap];
      KeptGrows(s, t, handed, gap);
    }
  }

  /* ---------------- turning a pending observation into a gap ---------------- */

  lemma {:induction false} AbsentSwap(items: seq<Item>, gap: Item)
    ensures ReplaceIn(items, gap).1.Absent? <==> forall i :: 0 <= i < |items| ==> !Holds(items[i], gap.first)
    ensures ReplaceIn(items, gap).1.Absent? ==> Swap(items, gap) == items && ReplaceIn(items, gap).0 == items
  {
    hide Holds;
    if items != [] {
      var rest := items[1..];
      AbsentSwap(rest, gap);
      assert items == [items[0]] + rest;
      if ReplaceIn(items, gap).1.Absent? {
        Unheld(items[0], rest, gap);
      } else {
        assert ReplaceIn(rest, gap).1.Absent? ==> Holds(items[0], gap.first);
        assert forall i :: 0 <= i < |rest| ==> rest[i] == items[i + 1];
      }
    }
    hide Swap;
  }

  lemma Unheld(x: Item, rest: seq<Item>, gap: Item)
    requires !Holds(x, gap.first) && Swap(rest, gap) == rest
    requires forall i :: 0 <= i < |rest| ==> !Holds(rest[i], gap.first)
    ensures Swap([x] + rest, gap) == [x] + rest
    ensures forall i :: 0 <= i < |[x] + rest| ==> !Holds(([x] + rest)[i], gap.first)
  {
    hide Holds;
  }

  ghost predicate OneHolder(items: seq<Item>, n: nat) {
    forall i, j :: 0 <= i < j < |items| ==> !(Holds(items[i], n) && Holds(items[j], n))
  }

  lemma OneHolderTail(items: seq<Item>, gap: Item)
    requires items != [] && OneHolder(items, gap.first)
    ensures OneHolder(items[1..], gap.first)
    ensures Holds(items[0], gap.first) ==> ReplaceIn(items[1..], gap).1.Absent?
  {
    var rest := items[1..];
    AbsentSwap(rest, gap);
    assert forall i :: 0 <= i < |rest| ==> rest[i] == items[i + 1];
  }

  // With at most one holder, the first hit is the only one.
  lemma {:induction false} FoundSwap(items: seq<Item>, gap: Item)
    requires OneHolder(items, gap.first)
    ensures ReplaceIn(items, gap).0 == Swap(items, gap)
  {
    hide OneHolder;
    if items == [] {
      assert Swap(items, gap) == [];
    } else {
      var rest := items[1..];
      OneHolderTail(items, gap);
      AbsentSwap(rest, gap);
      FoundSwap(rest, gap);
      assert Swap(items, gap) == [Turned(items[0], gap)] + Swap(rest, gap);
      assert items == [items[0]] + rest;
    }
  }

  function SwapHeld(x: Option<Item>, gap: Item): Option<Item> {
    if x.None? then None else Some(Turned(x.value, gap))
  }

  function SwapState(s: State, gap: Item): State {
    s.(retained := SwapHeld(s.retained, gap), head := SwapHeld(s.head, gap), queue := Swap(s.queue, gap))
  }

  lemma JoinSwap(a: seq<Item>, b: seq<Item>, gap: Item)
    ensures Swap(a + b, gap) == Swap(a, gap) + Swap(b, gap)
  {
  }

  lemma GapsStay(items: seq<Item>, gap: Item)
    requires forall i :: 0 <= i < |items| ==> items[i].IsGap()
    ensures Swap(items, gap) == items
  {
  }

  lemma HeldSwap(x: Option<Item>, gap: Item)
    ensures OneOrNone(SwapHeld(x, gap)) == Swap(OneOrNone(x), gap)
  {
  }

  // Turning in every store is turning in the line.
  lemma SwapLine(s: State, handed: seq<Handed>, gap: Item)
    requires Kept(s, handed) && gap.first == gap.last
    ensures Line(SwapState(s, gap)) == Swap(Line(s), gap)
  {
    LineBefore(s, handed);
    GapsStay(s.overflow, gap);
    hide Kept, Swap;
    HeldSwap(s.retained, gap);
    HeldSwap(s.head, gap);
    JoinSwap(OneOrNone(s.head), s.queue, gap);
    MergeSwap(Stored(s), s.overflow, gap);
    JoinSwap(OneOrNone(s.retained), Merge(Stored(s), s.overflow), gap);
    hide Merge;
  }

  lemma LinePosition(queue: seq<Item>, gaps: seq<Item>, i: nat) returns (k: nat)
    requires i < |queue|
    ensures k < |Merge(queue, gaps)| && Merge(queue, gaps)[k] == queue[i]
  {
    MergeElements(queue, gaps);
    hide Merge;
    assert queue[i] in Merge(queue, gaps);
    k :| 0 <= k < |Merge(queue, gaps)| && Merge(queue, gaps)[k] == queue[i];
  }

  lemma PairApart(front: seq<Item>, queue: seq<Item>, gaps: seq<Item>, lo: nat, hi: nat, n: nat, i: nat, j: nat)
    requires Tiles(front + Merge(queue, gaps), lo, hi) && Increasing(queue) && i < j < |queue|
    ensures !(Holds(queue[i], n) && Holds(queue[j], n))
  {
    var all := front + Merge(queue, gaps);
    TilesExactlyOnce(all, lo, hi, n);
    var k := LinePosition(queue, gaps, i);
    var l := LinePosition(queue, gaps, j);
    assert all[|front| + k] == queue[i] && all[|front| + l] == queue[j];
    hide Tiles, Merge;
  }

  lemma FrontApart(front: seq<Item>, queue: seq<Item>, gaps: seq<Item>, lo: nat, hi: nat, n: nat, f: nat, i: nat)
    requires Tiles(front + Merge(queue, gaps), lo, hi) && f < |front| && i < |queue|
    ensures !(Holds(front[f], n) && Holds(queue[i], n))
  {
    var all := front + Merge(queue, gaps);
    TilesExactlyOnce(all, lo, hi, n);
    var k := LinePosition(queue, gaps, i);
    assert all[|front| + k] == queue[i] && all[f] == front[f];
    hide Tiles, Merge;
  }

  lemma StoredInOrder(s: State, handed: seq<Handed>)
    requires Kept(s, handed)
    ensures Tiles((ItemsOf(handed) + OneOrNone(s.retained)) + Merge(Stored(s), s.overflow), 1, s.next)
    ensures Increasing(Stored(s))
  {
    var front := ItemsOf(handed) + OneOrNone(s.retained);
    var line := Merge(Stored(s), s.overflow);
    var all := front + line;
    assert all == ItemsOf(handed) + Line(s);
    TilesBounds(all, 1, s.next);
    assert forall k :: 0 <= k < |line| ==> line[k] == all[|front| + k];
    assert Increasing(line);
    StoreInOrder(Stored(s), s.overflow);
    hide Merge, Stored;
  }

  // No number is held twice.
  lemma HoldersApart(s: State, handed: seq<Handed>, n: nat)
    requires Kept(s, handed)
    ensures OneHolder(Stored(s), n)
    ensures s.retained.Some? && Holds(s.retained.value, n) ==> forall i :: 0 <= i < |Stored(s)| ==> !Holds(Stored(s)[i], n)
  {
    StoredInOrder(s, handed);
    var front := ItemsOf(handed) + OneOrNone(s.retained);
    hide Kept, Merge, Tiles, Holds, Increasing;
    forall i, j | 0 <= i < j < |Stored(s)| ensures !(Holds(Stored(s)[i], n) && Holds(Stored(s)[j], n)) {
      PairApart(front, Stored(s), s.overflow, 1, s.next, n, i, j);
    }
    if s.retained.Some? && Holds(s.retained.value, n) {
      assert front[|front| - 1] == s.retained.value;
      forall i | 0 <= i < |Stored(s)| ensures !Holds(Stored(s)[i], n) {
        FrontApart(front, Stored(s), s.overflow, 1, s.next, n, |front| - 1, i);
      }
    }
  }

  lemma StoredParts(s: State, n: nat)
    requires OneHolder(Stored(s), n)
    ensures OneHolder(s.queue, n)
    ensures s.head.Some? && Holds(s.head.value, n) ==> forall i :: 0 <= i < |s.queue| ==> !Holds(s.queue[i], n)
  {
    var h := OneOrNone(s.head);
    assert forall i :: 0 <= i < |s.queue| ==> Stored(s)[|h| + i] == s.queue[i];
    if s.head.Some? {
      assert Stored(s)[0] == s.head.value;
    }
  }

  lemma NoneHeld(s: State, n: nat)
    requires forall i :: 0 <= i < |Stored(s)| ==> !Holds(Stored(s)[i], n)
    ensures PlaceOf(s.head, n).Absent? && forall i :: 0 <= i < |s.queue| ==> !Holds(s.queue[i], n)
  {
    var h := OneOrNone(s.head);
    assert forall i :: 0 <= i < |s.queue| ==> Stored(s)[|h| + i] == s.queue[i];
    if s.head.Some? {
      assert Stored(s)[0] == s.head.value;
    }
  }

  lemma UnheldSwap(items: seq<Item>, gap: Item)
    requires forall i :: 0 <= i < |items| ==> !Holds(items[i], gap.first)
    ensures Swap(items, gap) == items
  {
  }

  // Whoever holds the number, the search turns it into a gap and touches
  // nothing else.
  lemma ReplacedState(s: State, handed: seq<Handed>, gap: Item)
    requires Kept(s, handed)
    ensures ReplacePending(s, gap).0 == SwapState(s, gap)
  {
    HoldersApart(s, handed, gap.first);
    StoredParts(s, gap.first);
    FoundSwap(s.queue, gap);
    AbsentSwap(s.queue, gap);
    hide Kept, OneHolder, Swap, Stored, ReplaceIn;
    if s.retained.Some? && Holds(s.retained.value, gap.first) {
      NoneHeld(s, gap.first);
      UnheldSwap(s.queue, gap);
    } else if s.head.Some? && Holds(s.head.value, gap.first) {
      UnheldSwap(s.queue, gap);
    }
  }

  // Nothing is found exactly when the number is not pending.
  lemma AbsentExact(s: State, handed: seq<Handed>, gap: Item)
    requires Kept(s, handed)
    ensures ReplacePending(s, gap).1.Absent? <==> forall i :: 0 <= i < |Line(s)| ==> !Holds(Line(s)[i], gap.first)
  {
    AbsentSwap(s.queue, gap);
    AbsentSwap(s.overflow, gap);
    MergeElements(Stored(s), s.overflow);
    LineElements(s);
    hide Kept, Merge, Swap, ReplaceIn;
    if ReplacePending(s, gap).1.Absent? {
      forall i | 0 <= i < |Line(s)| ensures !Holds(Line(s)[i], gap.first) {
        assert Line(s)[i] in Line(s);
      }
    } else {
      var x := FoundItem(s, gap);
      var i :| 0 <= i < |Line(s)| && Line(s)[i] == x;
    }
  }

  lemma LineElements(s: State)
    ensures forall x :: x in Line(s) <==>
              (s.retained == Some(x) || s.head == Some(x) || x in s.queue || x in s.overflow)
  {
    MergeElements(Stored(s), s.overflow);
    hide Merge;
  }

  lemma FoundItem(s: State, gap: Item) returns (x: Item)
    requires !ReplacePending(s, gap).1.Absent?
    ensures x in Line(s) && Holds(x, gap.first)
  {
    LineElements(s);
    AbsentSwap(s.queue, gap);
    AbsentSwap(s.overflow, gap);
    hide Line, Swap, ReplaceIn;
    if s.retained.Some? && Holds(s.retained.value, gap.first) {
      x := s.retained.value;
    } else if s.head.Some? && Holds(s.head.value, gap.first) {
      x := s.head.value;
    } else if i :| 0 <= i < |s.queue| && Holds(s.queue[i], gap.first) {
      x := s.queue[i];
    } else {
      var i :| 0 <= i < |s.overflow| && Holds(s.overflow[i], gap.first);
      x := s.overflow[i];
    }
  }

  /* ---------------- every step keeps the books ---------------- */

  ghost predicate Sound(s: State, handed: seq<Handed>) {
    Kept(s, handed) && Balanced(s, handed)
  }

  lemma SameStores(s: State, t: State)
    requires t.retained == s.retained && t.head == s.head && t.queue == s.queue && t.overflow == s.overflow
    ensures Line(t) == Line(s) && Stored(t) == Stored(s)
  {
    hide Merge;
  }

  // Recomputing the counters from the stores balances them.
  lemma ReconcileBalances(s: State, t: State, handed: seq<Handed>)
    requires Balanced(s, handed) && t.health == s.health.(pending := t.health.pending)
    requires t.handedOffDropped == s.handedOffDropped && t.health.pending == Numbers(Line(t))
    requires Missing(Line(t)) >= Missing(Line(s))
    ensures Balanced(Reconcile(t), handed) && Line(Reconcile(t)) == Line(t)
  {
    SameStores(t, Reconcile(t));
    MetricsOfLine(t);
    hide Line, Missing, Numbers, GapRanges, PendingDropped, PendingRanges, LostOf, LateOf;
  }

  lemma ReconcileKept(t: State, handed: seq<Handed>)
    requires Kept(t, handed)
    ensures Kept(Reconcile(t), handed)
  {
    SameStores(t, Reconcile(t));
    hide Line, Tiles, ValidItem, PendingDropped, PendingRanges;
  }

  lemma NewestIsAbsent(s: State, handed: seq<Handed>, gap: Item)
    requires Kept(s, handed) && gap.first == s.next
    ensures ReplacePending(s, gap) == (s, Absent)
  {
    AbsentExact(s, handed, gap);
    ReplacedState(s, handed, gap);
    LineBefore(s, handed);
    forall i | 0 <= i < |Line(s)| ensures !Holds(Line(s)[i], gap.first) {
      assert Line(s)[i] in Line(s);
    }
    AbsentUnchanged(s, gap);
    hide Kept, Line, Swap;
  }

  lemma AbsentUnchanged(s: State, gap: Item)
    requires ReplacePending(s, gap).1.Absent?
    ensures ReplacePending(s, gap).0 == s
  {
    hide ReplaceIn;
  }

  // The search looks at the stores only.
  lemma SearchIgnoresBooks(s: State, r: State, gap: Item)
    requires r == s.(next := r.next, health := r.health)
    ensures ReplacePending(r, gap).0 == ReplacePending(s, gap).0.(next := r.next, health := r.health)
    ensures ReplacePending(r, gap).1 == ReplacePending(s, gap).1
    ensures RetainNewGap(r, gap) == RetainNewGap(s, gap).(next := r.next, health := r.health)
  {
    hide ReplaceIn, Place, Extended;
  }

  lemma RetainFrame(s: State, gap: Item)
    ensures var t := RetainNewGap(s, gap); t == s.(queue := t.queue, overflow := t.overflow)
  {
    hide Extended;
  }

  // A number that could not be captured as an observation becomes a gap.
  lemma NewGapSound(s: State, handed: seq<Handed>, cause: Cause)
    requires Sound(s, handed)
    ensures Sound(RecordGap(Reserve(s), s.next, cause), handed)
  {
    var gap := GapOf(s.next, cause);
    var r := Reserve(s);
    LineBefore(s, handed);
    NewestIsAbsent(s, handed, gap);
    SearchIgnoresBooks(s, r, gap);
    RetainKept(s, handed, gap);
    RetainFrame(s, gap);
    var u := RetainNewGap(s, gap).(next := gap.last + 1);
    var t := RetainNewGap(r, gap);
    SameStores(u, t);
    hide Kept, Line, Tiles, Missing, Numbers, GapRanges, ReplacePending, RetainNewGap, Reconcile;
    assert t == u.(health := r.health);
    assert Kept(t, handed) by { BooksAside(u, t, handed); }
    ReconcileKept(t, handed);
    ReconcileBalances(s, t, handed);
    assert RecordGap(r, s.next, cause) == Reconcile(t);
  }

  lemma BooksAside(s: State, t: State, handed: seq<Handed>)
    requires Kept(s, handed) && t == s.(health := t.health)
    ensures Kept(t, handed)
  {
    SameStores(s, t);
    hide Line, Tiles, ValidItem;
  }

  lemma QueuedSound(s: State, handed: seq<Handed>, content: Content)
    requires Sound(s, handed) && |s.queue| < s.capacity
    ensures var r := Reserve(s); Sound(r.(queue := r.queue + [Observation(s.next, content)]), handed)
  {
    var x := Observation(s.next, content);
    var r := Reserve(s);
    var t := r.(queue := r.queue + [x]);
    LineBefore(s, handed);
    QueuedLine(s, handed, x);
    SameStores(s.(queue := s.queue + [x]), t);
    KeptGrows(s, t, handed, x);
    AppendSums(Line(s), x);
    hide Kept, Line, Missing, Numbers, GapRanges, LostOf, LateOf;
  }

  lemma CaptureSound(s: State, handed: seq<Handed>, shaped: B.Shaped)
    requires Sound(s, handed)
    ensures Sound(Capture(s, shaped), handed)
  {
    hide RecordGap, Kept, Balanced;
    if s.next > B.MAX_CAPTURE_SEQUENCE {
      ExhaustedSound(s, handed);
    } else {
      match shaped
      case BadSchema => NewGapSound(s, handed, InvalidSourceSchema);
      case Unshaped => NewGapSound(s, handed, CallbackInternal);
      case Shaped(content) =>
        if |s.queue| < s.capacity {
          QueuedSound(s, handed, content);
        } else {
          NewGapSound(s, handed, QueueFull);
        }
    }
  }

  lemma ExhaustedSound(s: State, handed: seq<Handed>)
    requires Sound(s, handed)
    ensures Sound(s.(exhausted := true), handed)
  {
    SameStores(s, s.(exhausted := true));
    hide Line, Tiles, ValidItem, Missing, Numbers, GapRanges, LostOf, LateOf;
  }

  // Turning any pending number into a gap keeps it in its place and counts
  // it exactly once as lost.
  lemma TurnSound(s: State, handed: seq<Handed>, n: nat, cause: Cause, i: nat)
    requires Sound(s, handed) && i < |Line(s)| && Holds(Line(s)[i], n)
    ensures Sound(RecordGap(s, n, cause), handed)
    ensures Line(RecordGap(s, n, cause)) == Swap(Line(s), GapOf(n, cause))
  {
    var gap := GapOf(n, cause);
    var t := SwapState(s, gap);
    AbsentExact(s, handed, gap);
    ReplacedState(s, handed, gap);
    SwapLine(s, handed, gap);
    TurnKept(s, handed, gap, i);
    hide Kept, Line, Missing, Numbers, GapRanges, ReplacePending, RetainNewGap, Reconcile, Swap;
    ReconcileKept(t, handed);
    ReconcileBalances(s, t, handed);
    assert RecordGap(s, n, cause) == Reconcile(t);
  }

  lemma TurnTiles(items: seq<Item>, line: seq<Item>, hi: nat, gap: Item, i: nat)
    requires Tiles(items + line, 1, hi) && Singular(line) && i < |line| && Holds(line[i], gap.first)
    requires gap.first == gap.last && gap.IsGap()
    ensures var r := Swap(line, gap);
            Tiles(items + r, 1, hi) && Numbers(r) == Numbers(line) && Missing(r) >= Missing(line)
  {
    hide Swap;
    SplitTiles(items, line, 1, hi);
    var lo := EndOf(items, 1);
    TilesSwap(line, lo, hi, gap);
    SwapSums(line, lo, hi, gap, i);
    TilesJoin(items, Swap(line, gap), 1, lo, hi);
  }

  lemma JoinValid(items: seq<Item>, a: seq<Item>, b: seq<Item>)
    requires AllValid(items + a) && AllValid(b)
    ensures AllValid(items + b)
  {
    var all := items + b;
    hide ValidItem;
    forall k | 0 <= k < |all| ensures ValidItem(all[k]) {
      if k < |items| {
        assert all[k] == (items + a)[k];
      } else {
        assert all[k] == b[k - |items|];
      }
    }
  }

  lemma TurnKept(s: State, handed: seq<Handed>, gap: Item, i: nat)
    requires Kept(s, handed) && i < |Line(s)| && Holds(Line(s)[i], gap.first)
    requires gap.first == gap.last && gap.IsGap() && |gap.body.causes| == 1
    ensures var t := SwapState(s, gap);
            && Kept(t, handed) && Numbers(Line(t)) == Numbers(Line(s)) && Missing(Line(t)) >= Missing(Line(s))
  {
    var t := SwapState(s, gap);
    SwapLine(s, handed, gap);
    LineBefore(s, handed);
    TurnTiles(ItemsOf(handed), Line(s), s.next, gap, i);
    assert StorageOk(t);
    SwapValid(Line(s), gap);
    hide Line, Tiles, Missing, Numbers, GapRanges, Swap, StorageOk, ValidItem, Stored, Singular, AllBefore;
    assert AllValid(Line(t));
    JoinValid(ItemsOf(handed), Line(s), Line(t));
  }

  lemma SwapValid(items: seq<Item>, gap: Item)
    requires forall x :: x in items ==> ValidItem(x)
    requires gap.first == gap.last && gap.IsGap() && |gap.body.causes| == 1
    ensures forall i :: 0 <= i < |items| ==> ValidItem(Swap(items, gap)[i])
  {
    forall i | 0 <= i < |items| ensures ValidItem(Swap(items, gap)[i]) {
      assert items[i] in items;
    }
  }

  // A callback that captures and then fails: its number, observed or not, is
  // a gap in the end.
  function CallbackFailed(s: State, shaped: B.Shaped): State {
    if s.next > B.MAX_CAPTURE_SEQUENCE then Capture(s, shaped) else DispatchFailed(Capture(s, shaped))
  }

  lemma NewestIsPending(s: State, handed: seq<Handed>)
    requires Kept(s, handed) && EndOf(ItemsOf(handed), 1) < s.next
    ensures Line(s) != [] && Holds(Line(s)[|Line(s)| - 1], s.next - 1)
  {
    SplitTiles(ItemsOf(handed), Line(s), 1, s.next);
    var lo := EndOf(ItemsOf(handed), 1);
    TilesBounds(Line(s), lo, s.next);
    if Line(s) != [] {
      TilesFront(Line(s), lo, s.next);
    }
  }

  lemma HandedBefore(s: State, handed: seq<Handed>)
    requires Kept(s, handed)
    ensures EndOf(ItemsOf(handed), 1) <= s.next
  {
    SplitTiles(ItemsOf(handed), Line(s), 1, s.next);
    TilesBounds(Line(s), EndOf(ItemsOf(handed), 1), s.next);
  }

  lemma CaptureNext(s: State, shaped: B.Shaped)
    requires s.next <= B.MAX_CAPTURE_SEQUENCE
    ensures Capture(s, shaped).next == s.next + 1
  {
    hide Extended, ReplaceIn, PendingDropped, PendingRanges;
  }

  lemma FailSound(t: State, handed: seq<Handed>)
    requires Sound(t, handed) && EndOf(ItemsOf(handed), 1) < t.next && t.next > 1
    ensures Sound(DispatchFailed(t), handed)
  {
    hide Kept, Balanced, Line, Tiles, ItemsOf, EndOf, RecordGap, Swap, Holds;
    NewestIsPending(t, handed);
    TurnSound(t, handed, t.next - 1, CallbackInternal, |Line(t)| - 1);
  }

  lemma CallbackFailedSound(s: State, handed: seq<Handed>, shaped: B.Shaped)
    requires Sound(s, handed)
    ensures Sound(CallbackFailed(s, shaped), handed)
  {
    CaptureSound(s, handed, shaped);
    HandedBefore(s, handed);
    LineBefore(s, handed);
    hide Kept, Balanced, Capture, Line, DispatchFailed, Stored, AllBefore, Singular;
    if s.next <= B.MAX_CAPTURE_SEQUENCE {
      CaptureNext(s, shaped);
      FailSound(Capture(s, shaped), handed);
    }
  }

  /* ---------------- handing over ---------------- */

  lemma HeadStored(s: State)
    ensures Stored(WithHead(s)) == Stored(s)
    ensures WithHead(s) == s.(head := WithHead(s).head, queue := WithHead(s).queue)
    ensures WithHead(s).head.None? ==> Stored(s) == []
    ensures StorageOk(s) ==> StorageOk(WithHead(s))
  {
  }

  lemma NextLine(s: State)
    ensures Line(NextForWorker(s)) == Line(s)
    ensures NextForWorker(s).retained.None? <==> Line(s) == []
    ensures NextForWorker(s).retained.Some? ==> NextForWorker(s).retained.value == Line(s)[0]
  {
    if s.retained.None? {
      var t := WithHead(s);
      HeadStored(s);
      hide Merge, WithHead;
      if t.overflow != [] && (t.head.None? || t.overflow[0].first < t.head.value.first) {
        assert t.head.Some? ==> Stored(t)[0] == t.head.value;
        MergeTakesGap(Stored(t), t.overflow);
      } else if t.head.Some? {
        assert Stored(t)[0] == t.head.value && Stored(t)[1..] == t.queue && OneOrNone(None) + t.queue == t.queue;
        MergeTakesHead(Stored(t), t.overflow);
      } else {
        assert |Merge(Stored(t), t.overflow)| == 0;
      }
    }
  }

  lemma NextFrame(s: State)
    ensures var t := NextForWorker(s);
            && t.next == s.next && t.health == s.health && t.handedOffDropped == s.handedOffDropped
            && (s.retained.Some? ==> t == s)
    ensures StorageOk(s) ==> StorageOk(NextForWorker(s))
  {
    HeadStored(s);
    hide WithHead;
    var t := WithHead(s);
    if t.overflow != [] {
      assert forall i :: 0 <= i < |t.overflow[1..]| ==> t.overflow[1..][i] == t.overflow[i + 1];
    }
  }

  lemma NextSound(s: State, handed: seq<Handed>)
    requires Sound(s, handed)
    ensures Sound(NextForWorker(s), handed)
  {
    NextLine(s);
    NextFrame(s);
    hide Line, NextForWorker, Tiles, ValidItem, Missing, Numbers, GapRanges, LostOf, LateOf, StorageOk;
  }

  lemma FirstMoves(items: seq<Item>, x: Item, rest: seq<Item>)
    ensures items + ([x] + rest) == (items + [x]) + rest
    ensures Missing([x] + rest) == Missing(rest) + (if x.IsGap() then Length(x) else 0)
    ensures Numbers([x] + rest) == Numbers(rest) + Length(x)
  {
    SumsJoin([x], rest);
    AppendSums([], x);
    assert [] + [x] == [x];
  }

  lemma ItemsAppend(handed: seq<Handed>, x: Handed)
    ensures ItemsOf(handed + [x]) == ItemsOf(handed) + [x.item]
  {
  }

  lemma HandedLine(s: State, handed: seq<Handed>, late: bool)
    requires s.retained.Some?
    ensures var t := s.(retained := None);
            && Line(s) == [s.retained.value] + Line(t)
            && ItemsOf(handed) + Line(s) == ItemsOf(handed + [Handed(s.retained.value, late)]) + Line(t)
            && Missing(Line(s)) == Missing(Line(t)) + (if s.retained.value.IsGap() then Length(s.retained.value) else 0)
            && Numbers(Line(s)) == Numbers(Line(t)) + Length(s.retained.value)
  {
    hide Missing, Numbers, Merge, ItemsOf;
    var x := s.retained.value;
    assert Line(s.(retained := None)) == Merge(Stored(s), s.overflow);
    ItemsAppend(handed, Handed(x, late));
    FirstMoves(ItemsOf(handed), x, Merge(Stored(s), s.overflow));
  }

  lemma HandedSums(handed: seq<Handed>, x: Handed)
    ensures LostOf(handed + [x]) == LostOf(handed) + (if x.late || x.item.IsGap() then Length(x.item) else 0)
    ensures LateOf(handed + [x]) == LateOf(handed) + (if x.late then Length(x.item) else 0)
  {
    assert (handed + [x])[..|handed|] == handed;
  }

  // Handing over moves exactly the held item; what is counted as lost stays
  // counted.
  lemma HandOffSound(s: State, handed: seq<Handed>)
    requires Sound(s, handed) && s.retained.Some?
    ensures Sound(HandOff(s), handed + [Handed(s.retained.value, false)])
  {
    var x := s.retained.value;
    var t := s.(retained := None);
    var r := HandOff(s);
    HandedLine(s, handed, false);
    HandedSums(handed, Handed(x, false));
    SameStores(t, r);
    MetricsOfLine(t);
    SameStores(t, t.(handedOffDropped := r.handedOffDropped));
    MetricsOfLine(t.(handedOffDropped := r.handedOffDropped));
    assert StorageOk(r);
    hide Line, Tiles, ValidItem, Missing, Numbers, GapRanges, LostOf, LateOf, StorageOk, PendingDropped, PendingRanges, ItemsOf;
  }

  lemma MarkLateSound(s: State, handed: seq<Handed>)
    requires Sound(s, handed) && s.retained.Some?
    ensures Sound(MarkLate(s), handed + [Handed(s.retained.value, true)])
  {
    var x := s.retained.value;
    var t := s.(retained := None);
    var r := MarkLate(s);
    HandedLine(s, handed, true);
    HandedSums(handed, Handed(x, true));
    SameStores(t, r);
    SameStores(t, t.(handedOffDropped := r.handedOffDropped));
    MetricsOfLine(t.(handedOffDropped := r.handedOffDropped));
    assert StorageOk(r);
    hide Line, Tiles, ValidItem, Missing, Numbers, GapRanges, LostOf, LateOf, StorageOk, PendingDropped, PendingRanges, ItemsOf;
  }
}
