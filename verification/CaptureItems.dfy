// Captured records and the gaps that stand in for what did not fit, shared by
// the bootstrap buffer and the bridge.
module CaptureItems {
  import opened Prelude
  import opened Values

  // The causes that the capture side records (GAP_CAUSES).
  datatype Cause = InvalidSourceSchema | CallbackInternal | QueueFull | OtherCause(name: Text)

  // What an observation says, apart from its stream and its number.  Content
  // digests stand for the values.
  datatype Content = Content(
    hook: Hook,
    context: Context,
    toolName: Text,
    args: Text,
    result: Text,
    payload: Text,
    status: Text,
    errorType: Json)

  // An observation, or a gap with the causes of what it stands for.  A table
  // of positive counts is a multiset.
  datatype Body = Seen(content: Content) | Lost(causes: multiset<Cause>)

  datatype Item = Item(first: nat, last: nat, body: Body) {
    predicate IsGap() {
      body.Lost?
    }
  }

  function Length(x: Item): nat {
    if x.first <= x.last then x.last - x.first + 1 else 0
  }

  // An observation has one number; the causes of a gap account for its whole
  // interval.
  predicate ValidItem(x: Item) {
    && 1 <= x.first <= x.last
    && (x.body.Seen? ==> x.first == x.last)
    && (x.body.Lost? ==> |x.body.causes| == Length(x))
  }

  function Observation(n: nat, content: Content): (x: Item)
    ensures n >= 1 ==> ValidItem(x)
  {
    Item(n, n, Seen(content))
  }

  function GapOf(n: nat, cause: Cause): (x: Item)
    ensures n >= 1 ==> ValidItem(x)
  {
    Item(n, n, Lost(multiset{cause}))
  }

  // A gap extended by an adjacent one.
  function Extended(a: Item, b: Item): (x: Item)
    requires a.IsGap() && b.IsGap()
  {
    Item(a.first, b.last, Lost(a.body.causes + b.body.causes))
  }

  lemma ExtendedValid(a: Item, b: Item)
    requires ValidItem(a) && ValidItem(b) && a.IsGap() && b.IsGap() && a.last + 1 == b.first
    ensures ValidItem(Extended(a, b)) && Length(Extended(a, b)) == Length(a) + Length(b)
  {
  }

  /* ---------------- tilings ---------------- */

  // The items cover lo, ..., hi - 1, each number once and in order.
  predicate Tiles(items: seq<Item>, lo: nat, hi: nat) {
    if items == [] then lo == hi
    else items[0].first == lo && lo <= items[0].last && Tiles(items[1..], items[0].last + 1, hi)
  }

  predicate AllValid(items: seq<Item>) {
    forall i :: 0 <= i < |items| ==> ValidItem(items[i])
  }

  lemma {:induction false} TilesAppend(items: seq<Item>, lo: nat, hi: nat, x: Item)
    requires Tiles(items, lo, hi) && x.first == hi <= x.last
    ensures Tiles(items + [x], lo, x.last + 1)
  {
    if items == [] {
      assert items + [x] == [x];
    } else {
      assert (items + [x])[1..] == items[1..] + [x];
      TilesAppend(items[1..], items[0].last + 1, hi, x);
    }
  }

  // Replacing the last item by a longer one with the same start.
  lemma {:induction false} TilesExtend(items: seq<Item>, lo: nat, hi: nat, x: Item)
    requires Tiles(items, lo, hi) && items != [] && x.first == items[|items| - 1].first <= x.last
    ensures Tiles(items[..|items| - 1] + [x], lo, x.last + 1)
  {
    TilesFront(items, lo, hi);
    TilesAppend(items[..|items| - 1], lo, items[|items| - 1].first, x);
  }

  lemma {:induction false} TilesFront(items: seq<Item>, lo: nat, hi: nat)
    requires Tiles(items, lo, hi) && items != []
    ensures Tiles(items[..|items| - 1], lo, items[|items| - 1].first) && items[|items| - 1].last + 1 == hi
  {
    if |items| > 1 {
      var rest := items[1..];
      TilesFront(rest, items[0].last + 1, hi);
      assert items[..|items| - 1] == [items[0]] + rest[..|rest| - 1];
      assert (items[..|items| - 1])[1..] == rest[..|rest| - 1];
    }
  }

  lemma {:induction false} TilesJoin(a: seq<Item>, b: seq<Item>, lo: nat, mid: nat, hi: nat)
    requires Tiles(a, lo, mid)
    ensures Tiles(a + b, lo, hi) <==> Tiles(b, mid, hi)
  {
    if a == [] {
      assert a + b == b;
    } else {
      assert (a + b)[1..] == a[1..] + b;
      TilesJoin(a[1..], b, a[0].last + 1, mid, hi);
    }
  }

  lemma {:induction false} TilesBounds(items: seq<Item>, lo: nat, hi: nat)
    requires Tiles(items, lo, hi)
    ensures lo <= hi
    ensures forall i :: 0 <= i < |items| ==> lo <= items[i].first <= items[i].last < hi
    ensures forall i, j :: 0 <= i < j < |items| ==> items[i].last < items[j].first
  {
    if items != [] {
      TilesBounds(items[1..], items[0].last + 1, hi);
      forall j | 0 < j < |items| ensures items[0].last < items[j].first && items[j].last < hi {
        assert items[j] == items[1..][j - 1];
      }
      forall i, j | 0 < i < j < |items| ensures items[i].last < items[j].first {
        assert items[i] == items[1..][i - 1] && items[j] == items[1..][j - 1];
      }
    }
  }

  predicate Holds(x: Item, n: nat) {
    x.first <= n <= x.last
  }

  // In a tiling every number lies in exactly one item.
  lemma {:induction false} TilesExactlyOnce(items: seq<Item>, lo: nat, hi: nat, n: nat)
    requires Tiles(items, lo, hi)
    ensures lo <= n < hi <==> exists i :: 0 <= i < |items| && Holds(items[i], n)
    ensures forall i, j :: 0 <= i < |items| && 0 <= j < |items| && Holds(items[i], n) && Holds(items[j], n) ==> i == j
  {
    TilesBounds(items, lo, hi);
    if items != [] {
      if items[0].last < n {
        TilesExactlyOnce(items[1..], items[0].last + 1, hi, n);
        if lo <= n < hi {
          var i :| 0 <= i < |items[1..]| && Holds(items[1..][i], n);
          assert items[i + 1] == items[1..][i];
        }
      } else if lo <= n {
        assert Holds(items[0], n);
        TilesBounds(items[1..], items[0].last + 1, hi);
      }
    }
  }

  /* ---------------- what is lost ---------------- */

  // How many numbers the gaps stand for.
  function Missing(items: seq<Item>): (n: nat) {
    if items == [] then 0
    else Missing(items[..|items| - 1]) + (if items[|items| - 1].IsGap() then Length(items[|items| - 1]) else 0)
  }

  function GapRanges(items: seq<Item>): (n: nat) {
    if items == [] then 0
    else GapRanges(items[..|items| - 1]) + (if items[|items| - 1].IsGap() then 1 else 0)
  }

  function Numbers(items: seq<Item>): (n: nat) {
    if items == [] then 0 else Numbers(items[..|items| - 1]) + Length(items[|items| - 1])
  }

  lemma {:induction false} SumsJoin(a: seq<Item>, b: seq<Item>)
    ensures Missing(a + b) == Missing(a) + Missing(b)
    ensures GapRanges(a + b) == GapRanges(a) + GapRanges(b)
    ensures Numbers(a + b) == Numbers(a) + Numbers(b)
  {
    if b == [] {
      assert a + b == a;
    } else {
      assert (a + b)[..|a + b| - 1] == a + b[..|b| - 1];
      SumsJoin(a, b[..|b| - 1]);
    }
  }

  lemma {:induction false} NumbersTile(items: seq<Item>, lo: nat, hi: nat)
    requires Tiles(items, lo, hi)
    ensures Numbers(items) == hi - lo
  {
    if items != [] {
      TilesBounds(items, lo, hi);
      TilesFront(items, lo, hi);
      NumbersTile(items[..|items| - 1], lo, items[|items| - 1].first);
    }
  }

  /* ---------------- queue and gap storage as one line ---------------- */

  // The order in which a worker takes from a queue and a list of gaps: a gap
  // goes first when it starts before the head of the queue.
  function Merge(queue: seq<Item>, gaps: seq<Item>): (r: seq<Item>)
    ensures |r| == |queue| + |gaps|
    decreases |queue| + |gaps|
  {
    if gaps != [] && (queue == [] || gaps[0].first < queue[0].first) then [gaps[0]] + Merge(queue, gaps[1..])
    else if queue != [] then [queue[0]] + Merge(queue[1..], gaps)
    else []
  }

  lemma MergeTakesGap(queue: seq<Item>, gaps: seq<Item>)
    requires gaps != [] && (queue == [] || gaps[0].first < queue[0].first)
    ensures Merge(queue, gaps) == [gaps[0]] + Merge(queue, gaps[1..])
  {
  }

  lemma MergeTakesHead(queue: seq<Item>, gaps: seq<Item>)
    requires queue != [] && !(gaps != [] && gaps[0].first < queue[0].first)
    ensures Merge(queue, gaps) == [queue[0]] + Merge(queue[1..], gaps)
  {
  }

  lemma {:induction false} MergeElements(queue: seq<Item>, gaps: seq<Item>)
    ensures forall x :: x in Merge(queue, gaps) <==> x in queue || x in gaps
    decreases |queue| + |gaps|
  {
    if gaps != [] && (queue == [] || gaps[0].first < queue[0].first) {
      MergeElements(queue, gaps[1..]);
      assert gaps == [gaps[0]] + gaps[1..];
    } else if queue != [] {
      MergeElements(queue[1..], gaps);
      assert queue == [queue[0]] + queue[1..];
    }
  }

  predicate AllBefore(items: seq<Item>, n: nat) {
    forall i :: 0 <= i < |items| ==> items[i].first < n
  }

  // A newest observation goes to the end of the line, wherever the gaps are.
  lemma {:induction false} MergeAppendQueue(queue: seq<Item>, gaps: seq<Item>, x: Item)
    requires AllBefore(gaps, x.first)
    ensures Merge(queue + [x], gaps) == Merge(queue, gaps) + [x]
    decreases |queue| + |gaps|
  {
    if gaps != [] && (queue == [] || gaps[0].first < queue[0].first) {
      MergeAppendQueue(queue, gaps[1..], x);
    } else if queue != [] {
      assert (queue + [x])[1..] == queue[1..] + [x];
      MergeAppendQueue(queue[1..], gaps, x);
    } else {
      assert queue + [x] == [x];
      assert [x][1..] == [];
    }
  }

  lemma {:induction false} MergeAppendGap(queue: seq<Item>, gaps: seq<Item>, x: Item)
    requires AllBefore(queue, x.first)
    ensures Merge(queue, gaps + [x]) == Merge(queue, gaps) + [x]
    decreases |queue| + |gaps|
  {
    if gaps != [] && (queue == [] || gaps[0].first < queue[0].first) {
      assert (gaps + [x])[1..] == gaps[1..] + [x];
      MergeAppendGap(queue, gaps[1..], x);
    } else if queue != [] {
      MergeAppendGap(queue[1..], gaps, x);
      if gaps == [] {
        assert gaps + [x] == [x];
      }
    } else {
      assert gaps + [x] == [x];
      assert [x][1..] == [];
    }
  }

  // Extending the newest gap extends the end of the line.
  lemma MergeExtendGap(queue: seq<Item>, gaps: seq<Item>, x: Item)
    requires gaps != [] && x.first == gaps[|gaps| - 1].first && AllBefore(queue, x.first)
    ensures var line := Merge(queue, gaps);
            && line != [] && line[|line| - 1] == gaps[|gaps| - 1]
            && Merge(queue, gaps[..|gaps| - 1] + [x]) == line[..|line| - 1] + [x]
  {
    var front := gaps[..|gaps| - 1];
    var last := gaps[|gaps| - 1];
    assert gaps == front + [last];
    MergeAppendGap(queue, front, last);
    MergeAppendGap(queue, front, x);
  }

  function OneOrNone(x: Option<Item>): seq<Item> {
    if x.None? then [] else [x.value]
  }

  // The first of the queue moves to the place in front of it.
  function TakeHead(head: Option<Item>, queue: seq<Item>): (Option<Item>, seq<Item>) {
    if head.Some? || queue == [] then (head, queue) else (Some(queue[0]), queue[1..])
  }

  // Taking from the merged line: the first gap, or the item in front of the
  // queue, whichever is older.
  lemma FirstTaken(head: Option<Item>, queue: seq<Item>, gaps: seq<Item>)
    requires head.None? ==> queue == []
    ensures var line := Merge(OneOrNone(head) + queue, gaps);
            if gaps != [] && (head.None? || gaps[0].first < head.value.first) then
              line == [gaps[0]] + Merge(OneOrNone(head) + queue, gaps[1..])
            else if head.Some? then line == [head.value] + Merge(queue, gaps)
            else line == []
  {
    var q := OneOrNone(head) + queue;
    if gaps != [] && (head.None? || gaps[0].first < head.value.first) {
      MergeTakesGap(q, gaps);
    } else if head.Some? {
      assert q[0] == head.value && q[1..] == queue;
      MergeTakesHead(q, gaps);
    }
  }

  lemma {:induction false} MergeRanges(queue: seq<Item>, gaps: seq<Item>)
    requires forall i :: 0 <= i < |queue| ==> !queue[i].IsGap()
    requires forall i :: 0 <= i < |gaps| ==> gaps[i].IsGap()
    ensures GapRanges(Merge(queue, gaps)) == |gaps|
    decreases |queue| + |gaps|
  {
    if gaps != [] && (queue == [] || gaps[0].first < queue[0].first) {
      MergeRanges(queue, gaps[1..]);
      SumsJoin([gaps[0]], Merge(queue, gaps[1..]));
      assert [gaps[0]][..0] == [];
    } else if queue != [] {
      MergeRanges(queue[1..], gaps);
      SumsJoin([queue[0]], Merge(queue[1..], gaps));
      assert [queue[0]][..0] == [];
    }
  }

  lemma AppendSums(items: seq<Item>, x: Item)
    ensures Missing(items + [x]) == Missing(items) + (if x.IsGap() then Length(x) else 0)
    ensures GapRanges(items + [x]) == GapRanges(items) + (if x.IsGap() then 1 else 0)
    ensures Numbers(items + [x]) == Numbers(items) + Length(x)
  {
    assert (items + [x])[..|items|] == items;
  }

  // Merging two stores loses nothing and counts nothing twice.
  lemma {:induction false} MergeSums(queue: seq<Item>, gaps: seq<Item>)
    ensures Missing(Merge(queue, gaps)) == Missing(queue) + Missing(gaps)
    ensures GapRanges(Merge(queue, gaps)) == GapRanges(queue) + GapRanges(gaps)
    ensures Numbers(Merge(queue, gaps)) == Numbers(queue) + Numbers(gaps)
    decreases |queue| + |gaps|
  {
    if gaps != [] && (queue == [] || gaps[0].first < queue[0].first) {
      MergeSums(queue, gaps[1..]);
      SumsJoin([gaps[0]], Merge(queue, gaps[1..]));
      SumsJoin([gaps[0]], gaps[1..]);
      assert gaps == [gaps[0]] + gaps[1..];
    } else if queue != [] {
      MergeSums(queue[1..], gaps);
      SumsJoin([queue[0]], Merge(queue[1..], gaps));
      SumsJoin([queue[0]], queue[1..]);
      assert queue == [queue[0]] + queue[1..];
    }
  }

  /* ---------------- turning an observation into a gap ---------------- */

  function Turned(x: Item, gap: Item): Item {
    if Holds(x, gap.first) && !x.IsGap() then gap else x
  }

  function Swap(items: seq<Item>, gap: Item): (r: seq<Item>)
    ensures |r| == |items| && forall i :: 0 <= i < |items| ==> r[i] == Turned(items[i], gap)
  {
    seq(|items|, i requires 0 <= i < |items| => Turned(items[i], gap))
  }

  // The observations of a store start and end at the same number.
  predicate Singular(items: seq<Item>) {
    forall i :: 0 <= i < |items| && !items[i].IsGap() ==> items[i].first == items[i].last
  }

  // Turning keeps every item's place in the line.
  lemma {:induction false} MergeSwap(queue: seq<Item>, gaps: seq<Item>, gap: Item)
    requires Singular(queue) && Singular(gaps) && gap.first == gap.last
    ensures Merge(Swap(queue, gap), Swap(gaps, gap)) == Swap(Merge(queue, gaps), gap)
    decreases |queue| + |gaps|
  {
    var sq, sg := Swap(queue, gap), Swap(gaps, gap);
    assert forall i :: 0 <= i < |queue| ==> sq[i].first == queue[i].first;
    assert forall i :: 0 <= i < |gaps| ==> sg[i].first == gaps[i].first;
    if gaps != [] && (queue == [] || gaps[0].first < queue[0].first) {
      MergeSwap(queue, gaps[1..], gap);
      assert sg[1..] == Swap(gaps[1..], gap);
      assert Swap([gaps[0]] + Merge(queue, gaps[1..]), gap) == [sg[0]] + Swap(Merge(queue, gaps[1..]), gap);
    } else if queue != [] {
      MergeSwap(queue[1..], gaps, gap);
      assert sq[1..] == Swap(queue[1..], gap);
      assert Swap([queue[0]] + Merge(queue[1..], gaps), gap) == [sq[0]] + Swap(Merge(queue[1..], gaps), gap);
    }
  }

  lemma {:induction false} TilesSwap(items: seq<Item>, lo: nat, hi: nat, gap: Item)
    requires Tiles(items, lo, hi) && Singular(items) && gap.first == gap.last
    ensures Tiles(Swap(items, gap), lo, hi)
  {
    if items != [] {
      assert Swap(items, gap)[1..] == Swap(items[1..], gap);
      TilesSwap(items[1..], items[0].last + 1, hi, gap);
    }
  }

  // The numbers stay; one observation more is missing when one was turned.
  lemma {:induction false} SwapSums(items: seq<Item>, lo: nat, hi: nat, gap: Item, i: nat)
    requires Tiles(items, lo, hi) && Singular(items) && i < |items| && Holds(items[i], gap.first)
    requires gap.first == gap.last && gap.IsGap()
    ensures var r := Swap(items, gap);
            var turned := if items[i].IsGap() then 0 else 1;
            && Numbers(r) == Numbers(items) && Missing(r) == Missing(items) + turned
            && GapRanges(r) == GapRanges(items) + turned
            && (items[i].IsGap() ==> r == items)
  {
    TilesExactlyOnce(items, lo, hi, gap.first);
    var r := Swap(items, gap);
    assert r == items[..i] + [r[i]] + items[i + 1..];
    assert items == items[..i] + [items[i]] + items[i + 1..];
    SumsJoin(items[..i] + [r[i]], items[i + 1..]);
    SumsJoin(items[..i] + [items[i]], items[i + 1..]);
    AppendSums(items[..i], r[i]);
    AppendSums(items[..i], items[i]);
  }

  /* ---------------- a line in order ---------------- */

  predicate Increasing(items: seq<Item>) {
    forall i, j :: 0 <= i < j < |items| ==> items[i].first < items[j].first
  }

  lemma IncreasingTail(items: seq<Item>, x: Item)
    requires items != [] && Increasing(items) && x in items[1..]
    ensures items[0].first < x.first && Increasing(items[1..])
  {
    var k :| 0 <= k < |items[1..]| && items[1..][k] == x;
    assert items[k + 1] == x;
  }

  // When the line is in order, no stored item starts where the newest gap
  // does.
  lemma {:induction false} StoresDiffer(queue: seq<Item>, gaps: seq<Item>, i: nat)
    requires gaps != [] && i < |queue| && Increasing(Merge(queue, gaps))
    ensures queue[i].first != gaps[|gaps| - 1].first
    decreases |queue| + |gaps|
  {
    var line := Merge(queue, gaps);
    if gaps[0].first < queue[0].first {
      var rest := Merge(queue, gaps[1..]);
      MergeElements(queue, gaps[1..]);
      assert line[1..] == rest && queue[i] in rest;
      IncreasingTail(line, queue[i]);
      if |gaps| > 1 {
        StoresDiffer(queue, gaps[1..], i);
      }
    } else {
      var rest := Merge(queue[1..], gaps);
      MergeElements(queue[1..], gaps);
      assert line[1..] == rest && gaps[|gaps| - 1] in rest;
      IncreasingTail(line, gaps[|gaps| - 1]);
      if i > 0 {
        StoresDiffer(queue[1..], gaps, i - 1);
      }
    }
  }

  // If the newest gap ends where everything ends, everything stored starts
  // before it.
  lemma NewestGapIsLast(queue: seq<Item>, gaps: seq<Item>, lo: nat, hi: nat)
    requires gaps != [] && Tiles(Merge(queue, gaps), lo, hi) && gaps[|gaps| - 1].last + 1 == hi
    ensures AllBefore(queue, gaps[|gaps| - 1].first)
  {
    var line := Merge(queue, gaps);
    var last := gaps[|gaps| - 1];
    TilesBounds(line, lo, hi);
    MergeElements(queue, gaps);
    assert last in line;
    hide Merge, Tiles;
    forall i | 0 <= i < |queue| ensures queue[i].first < last.first {
      StoresDiffer(queue, gaps, i);
      assert queue[i] in line;
      EarlierInLine(line, queue[i], last);
    }
  }

  lemma EarlierInLine(line: seq<Item>, x: Item, last: Item)
    requires Increasing(line) && x in line && last in line && x != last
    requires forall y :: y in line ==> y.last <= last.last && y.first <= y.last
    requires forall i, j :: 0 <= i < j < |line| ==> line[i].last < line[j].first
    ensures x.first < last.first
  {
    var j :| 0 <= j < |line| && line[j] == last;
    var k :| 0 <= k < |line| && line[k] == x;
    assert line[k].last <= last.last && line[k].first <= line[k].last;
    assert k < j;
    assert line[k].first < line[j].first;
  }

  lemma JoinLast(a: seq<Item>, w: seq<Item>, y: Item)
    requires w != []
    ensures (a + w)[|a + w| - 1] == w[|w| - 1]
    ensures (a + w)[..|a + w| - 1] + [y] == a + (w[..|w| - 1] + [y])
  {
  }

  // Where a contiguous sequence that starts at lo ends.
  function EndOf(items: seq<Item>, lo: nat): nat {
    if items == [] then lo else EndOf(items[1..], items[0].last + 1)
  }

  lemma {:induction false} SplitTiles(a: seq<Item>, b: seq<Item>, lo: nat, hi: nat)
    requires Tiles(a + b, lo, hi)
    ensures Tiles(a, lo, EndOf(a, lo)) && Tiles(b, EndOf(a, lo), hi)
  {
    if a == [] {
      assert a + b == b;
    } else {
      assert (a + b)[1..] == a[1..] + b;
      SplitTiles(a[1..], b, a[0].last + 1, hi);
    }
  }

  // A store keeps its own order in the line.
  lemma {:induction false} StoreInOrder(queue: seq<Item>, gaps: seq<Item>)
    requires Increasing(Merge(queue, gaps))
    ensures Increasing(queue)
    decreases |queue| + |gaps|
  {
    var line := Merge(queue, gaps);
    if queue != [] {
      if gaps != [] && gaps[0].first < queue[0].first {
        assert line[1..] == Merge(queue, gaps[1..]);
        assert Increasing(line[1..]);
        StoreInOrder(queue, gaps[1..]);
      } else {
        assert line[1..] == Merge(queue[1..], gaps);
        assert Increasing(line[1..]);
        StoreInOrder(queue[1..], gaps);
        MergeElements(queue[1..], gaps);
        forall j | 0 < j < |queue| ensures queue[0].first < queue[j].first {
          assert queue[1..][j - 1] == queue[j] && queue[j] in line[1..];
          IncreasingTail(line, queue[j]);
        }
        forall i, j | 0 < i < j < |queue| ensures queue[i].first < queue[j].first {
          assert queue[1..][i - 1] == queue[i] && queue[1..][j - 1] == queue[j];
        }
      }
    }
  }
}
