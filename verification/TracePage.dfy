// Trace pages: build_trace_page, the page's own rules, and reading a ledger
// page by page.
module TracePage {
  import opened Prelude
  import opened Trees
  import opened Responses

  const TRACE_MAX_PAGE_SIZE: nat := 1000

  type Id = nat

  datatype Event = Event(brain: Id, sequence: Option<nat>, content: Tree)

  datatype Flags = Flags(bytes: bool, nodes: bool, depth: bool) {
    predicate Any() {
      bytes || nodes || depth
    }
  }

  datatype Page = Page(brain: Id, afterSequence: nat, requestedLimit: nat, returnedCount: nat,
                       nextAfterSequence: nat, hasMore: bool, limited: Flags, blocked: Option<nat>,
                       events: seq<Event>)

  predicate Contiguous(events: seq<Event>, brain: Id, after: nat) {
    forall i :: 0 <= i < |events| ==> events[i].sequence == Some(after + i + 1) && events[i].brain == brain
  }

  // TracePageV1._cursor_truth with its field bounds.
  predicate CursorTruth(p: Page) {
    && 1 <= p.requestedLimit <= TRACE_MAX_PAGE_SIZE
    && p.returnedCount == |p.events| <= p.requestedLimit
    && Contiguous(p.events, p.brain, p.afterSequence)
    && p.nextAfterSequence == p.afterSequence + |p.events|
    && (if p.limited.Any() then p.hasMore && p.blocked == Some(p.nextAfterSequence + 1) else p.blocked.None?)
    && (p.hasMore && !p.limited.Any() ==> p.returnedCount == p.requestedLimit)
  }

  /* ---------------- the encoded page ---------------- */

  function Digits(n: nat): nat {
    if n < 10 then 1 else 1 + Digits(n / 10)
  }

  function Flag(b: bool): Tree {
    Leaf(if b then 4 else 5, Plain)
  }

  function Number(n: nat): Tree {
    Leaf(Digits(n), Integer(n))
  }

  function Contents(events: seq<Event>): (r: seq<Tree>)
    ensures |r| == |events| && forall i :: 0 <= i < |r| ==> r[i] == events[i].content
  {
    seq(|events|, i requires 0 <= i < |events| => events[i].content)
  }

  // The page's keys in sorted order; an identifier is 36 characters in quotes.
  function PageTree(p: Page): Tree {
    Dict([16, 24, 10, 14, 15, 8, 10, 21, 14, 17, 16, 16],
         [Number(p.afterSequence),
          if p.blocked.None? then Leaf(4, Plain) else Number(p.blocked.value),
          Leaf(38, Chars(36)),
          Flag(p.limited.bytes),
          Flag(p.limited.depth),
          List(Contents(p.events)),
          Flag(p.hasMore),
          Number(p.nextAfterSequence),
          Flag(p.limited.nodes),
          Number(p.requestedLimit),
          Number(p.returnedCount),
          Number(1)])
  }

  function Violations(p: Page, budget: Budget): Flags {
    var t := PageTree(p);
    Flags(Bytes(t) > budget.bytes, Nodes(t) > budget.nodes, Depth(t) > budget.depth)
  }

  // _page_limit_violations, with the walk over the encoded page.
  method PageLimitViolations(p: Page, budget: Budget) returns (limited: Flags)
    ensures limited == Violations(p, budget)
  {
    var payload := PageTree(p);
    var nodes, depth := TreeShape(payload);
    limited := Flags(Bytes(payload) > budget.bytes, nodes > budget.nodes, depth > budget.depth);
  }

  lemma ViolationsMeasure(p: Page, budget: Budget)
    ensures Violations(p, budget).Any() <==> !Meets(PageTree(p), budget)
  {
  }

  /* ---------------- longer pages are larger ---------------- */

  lemma {:induction false} MoreDigits(a: nat, b: nat)
    requires a <= b
    ensures Digits(a) <= Digits(b)
  {
    if b >= 10 && a >= 10 {
      MoreDigits(a / 10, b / 10);
    }
  }

  predicate NoLarger(a: Tree, b: Tree) {
    Bytes(a) <= Bytes(b) && Nodes(a) <= Nodes(b) && Depth(a) <= Depth(b)
  }

  lemma {:induction false} LargerValues(a: seq<Tree>, b: seq<Tree>)
    requires |a| == |b| && forall i :: 0 <= i < |a| ==> NoLarger(a[i], b[i])
    ensures SumBytes(a) <= SumBytes(b) && SumNodes(a) <= SumNodes(b) && MaxDepth(a) <= MaxDepth(b)
  {
    if a != [] {
      assert NoLarger(a[0], b[0]);
      LargerValues(a[1..], b[1..]);
    }
  }

  lemma {:induction false} LongerList(a: seq<Tree>, b: seq<Tree>)
    requires a <= b
    ensures SumBytes(a) <= SumBytes(b) && SumNodes(a) <= SumNodes(b) && MaxDepth(a) <= MaxDepth(b)
  {
    if a != [] {
      LongerList(a[1..], b[1..]);
    }
  }

  lemma LargerObject(keys: seq<nat>, a: seq<Tree>, b: seq<Tree>)
    requires |a| == |b| && forall i :: 0 <= i < |a| ==> NoLarger(a[i], b[i])
    ensures NoLarger(Dict(keys, a), Dict(keys, b))
  {
    LargerValues(a, b);
  }

  /* ---------------- building a page ---------------- */

  datatype Request = Request(brain: Id, after: nat, limit: int, budget: Budget)

  datatype Outcome = Built(page: Page) | ResponseTooSmall | Refused

  predicate ArgumentsFit(q: Request, events: seq<Event>) {
    && 1 <= q.limit <= TRACE_MAX_PAGE_SIZE
    && q.budget.bytes >= 1 && q.budget.nodes >= 1 && q.budget.depth >= 1
    && |events| <= q.limit + 1
  }

  function MaximumCount(q: Request, events: seq<Event>): (n: nat)
    requires ArgumentsFit(q, events)
    ensures n <= |events|
  {
    if |events| <= q.limit then |events| else q.limit
  }

  // page_for: the first `count` events, with the reason for stopping there.
  function PageFor(q: Request, events: seq<Event>, count: nat, limited: Flags): Page
    requires ArgumentsFit(q, events)
    requires count <= |events| && (limited.Any() ==> count < |events|)
  {
    var selected := events[..count];
    Page(q.brain, q.after, q.limit, count,
         if selected == [] || selected[count - 1].sequence.None? then q.after else selected[count - 1].sequence.value,
         |events| > q.limit || limited.Any(),
         limited,
         if limited.Any() then events[count].sequence else None,
         selected)
  }

  function WholePage(q: Request, events: seq<Event>): Page
    requires ArgumentsFit(q, events)
  {
    PageFor(q, events, MaximumCount(q, events), Flags(false, false, false))
  }

  // The longest of the pages shorter than n that meets the budget.
  function LongestFit(q: Request, events: seq<Event>, limited: Flags, n: nat): Outcome
    requires ArgumentsFit(q, events) && n <= |events|
  {
    if n == 0 then ResponseTooSmall
    else
      var page := PageFor(q, events, n - 1, limited);
      if Meets(PageTree(page), q.budget) then Built(page) else LongestFit(q, events, limited, n - 1)
  }

  // What build_trace_page is meant to return, by trying every length from the
  // longest down.
  function Build(q: Request, events: seq<Event>): Outcome {
    if !ArgumentsFit(q, events) || !CursorTruth(WholePage(q, events)) then Refused
    else
      var limited := Violations(WholePage(q, events), q.budget);
      if !limited.Any() then Built(WholePage(q, events))
      else LongestFit(q, events, limited, MaximumCount(q, events))
  }

  // The rules refuse the requested page exactly when its events do not follow
  // the cursor; the event looked ahead at is not examined.
  lemma WholePageAccepted(q: Request, events: seq<Event>)
    requires ArgumentsFit(q, events)
    ensures CursorTruth(WholePage(q, events)) <==> Contiguous(events[..MaximumCount(q, events)], q.brain, q.after)
  {
  }

  // Every shorter page built from an acceptable request obeys the rules: its
  // blocked event is the next one.
  lemma ShorterPageAccepted(q: Request, events: seq<Event>, limited: Flags, count: nat)
    requires ArgumentsFit(q, events) && limited.Any() && count < MaximumCount(q, events)
    requires Contiguous(events[..MaximumCount(q, events)], q.brain, q.after)
    ensures CursorTruth(PageFor(q, events, count, limited))
  {
    var whole := events[..MaximumCount(q, events)];
    assert whole[count] == events[count];
    assert events[..count] == whole[..count];
  }

  lemma LongerPageIsLarger(q: Request, events: seq<Event>, limited: Flags, a: nat, b: nat)
    requires ArgumentsFit(q, events) && limited.Any() && a <= b < MaximumCount(q, events)
    requires Contiguous(events[..MaximumCount(q, events)], q.brain, q.after)
    ensures NoLarger(PageTree(PageFor(q, events, a, limited)), PageTree(PageFor(q, events, b, limited)))
  {
    hide Bytes, Nodes, Depth, NoLarger;
    ShorterPageAccepted(q, events, limited, a);
    ShorterPageAccepted(q, events, limited, b);
    var p, r := PageFor(q, events, a, limited), PageFor(q, events, b, limited);
    LongerEvents(events[..a], events[..b]);
    LongerNumber(p.nextAfterSequence, r.nextAfterSequence);
    LongerNumber(p.blocked.value, r.blocked.value);
    LongerNumber(a, b);
    forall t: Tree ensures NoLarger(t, t) {
      SameSize(t);
    }
    LargerObject(PageTree(p).keys, PageTree(p).values, PageTree(r).values);
  }

  lemma SameSize(t: Tree)
    ensures NoLarger(t, t)
  {
  }

  lemma LongerNumber(a: nat, b: nat)
    requires a <= b
    ensures NoLarger(Number(a), Number(b))
  {
    MoreDigits(a, b);
  }

  lemma LongerEvents(a: seq<Event>, b: seq<Event>)
    requires a <= b
    ensures NoLarger(List(Contents(a)), List(Contents(b)))
  {
    assert Contents(a) == Contents(b)[..|a|];
    LongerList(Contents(a), Contents(b));
  }

  // The binary search needs this: a page that fits has only fitting ones below.
  lemma FitsBelow(q: Request, events: seq<Event>, limited: Flags, a: nat, b: nat)
    requires ArgumentsFit(q, events) && limited.Any() && a <= b < MaximumCount(q, events)
    requires Contiguous(events[..MaximumCount(q, events)], q.brain, q.after)
    requires Meets(PageTree(PageFor(q, events, b, limited)), q.budget)
    ensures Meets(PageTree(PageFor(q, events, a, limited)), q.budget)
  {
    hide Bytes, Nodes, Depth, PageTree, PageFor, Contiguous, ArgumentsFit;
    LongerPageIsLarger(q, events, limited, a, b);
  }

  lemma {:induction false} LongestFound(q: Request, events: seq<Event>, limited: Flags, n: nat, found: int)
    requires ArgumentsFit(q, events) && n <= |events| && -1 <= found < n
    requires forall c :: found < c < n ==> !Meets(PageTree(PageFor(q, events, c, limited)), q.budget)
    requires found >= 0 ==> Meets(PageTree(PageFor(q, events, found, limited)), q.budget)
    ensures LongestFit(q, events, limited, n) ==
            if found < 0 then ResponseTooSmall else Built(PageFor(q, events, found, limited))
  {
    hide PageTree, PageFor, Meets, ArgumentsFit;
    if n > 0 && found < n - 1 {
      LongestFound(q, events, limited, n - 1, found);
    }
  }

  // build_trace_page, by binary search.
  method BuildTracePage(events: seq<Event>, q: Request) returns (r: Outcome)
    ensures r == Build(q, events)
  {
    hide PageTree, PageFor, Violations, CursorTruth, Contiguous, LongestFit, Meets;
    if !ArgumentsFit(q, events) {
      return Refused;
    }
    var maximum: int := MaximumCount(q, events);
    var whole := PageFor(q, events, maximum, Flags(false, false, false));
    if !CursorTruth(whole) {
      return Refused;
    }
    WholePageAccepted(q, events);
    var limited := PageLimitViolations(whole, q.budget);
    if !limited.Any() {
      return Built(whole);
    }
    var lower: int := 0;
    var upper: int := maximum - 1;
    var fitted: Option<Page> := None;
    while lower <= upper
      invariant 0 <= lower <= upper + 1 <= maximum
      invariant forall c {:trigger PageFor(q, events, c, limited)} ::
                  upper < c < maximum ==> !Meets(PageTree(PageFor(q, events, c, limited)), q.budget)
      invariant fitted == if lower == 0 then None else Some(PageFor(q, events, lower - 1, limited))
      invariant lower > 0 ==> Meets(PageTree(PageFor(q, events, lower - 1, limited)), q.budget)
    {
      var candidateCount := (lower + upper) / 2;
      var candidate := PageFor(q, events, candidateCount, limited);
      ShorterPageAccepted(q, events, limited, candidateCount);
      if !CursorTruth(candidate) {
        return Refused;
      }
      ViolationsMeasure(candidate, q.budget);
      var excess := PageLimitViolations(candidate, q.budget);
      if !excess.Any() {
        fitted := Some(candidate);
        lower := candidateCount + 1;
      } else {
        forall c {:trigger PageFor(q, events, c, limited)} | candidateCount <= c < maximum
          ensures !Meets(PageTree(PageFor(q, events, c, limited)), q.budget)
        {
          if Meets(PageTree(PageFor(q, events, c, limited)), q.budget) {
            FitsBelow(q, events, limited, candidateCount, c);
          }
        }
        upper := candidateCount - 1;
      }
    }
    LongestFound(q, events, limited, maximum, lower - 1);
    if fitted.None? {
      return ResponseTooSmall;
    }
    return Built(fitted.value);
  }

  /* ---------------- what a built page says ---------------- */

  lemma {:induction false} LongestMeans(q: Request, events: seq<Event>, limited: Flags, n: nat)
    requires ArgumentsFit(q, events) && n <= |events|
    ensures LongestFit(q, events, limited, n).Built? ==>
              exists c: nat :: Chosen(q, events, limited, n, c)
    ensures LongestFit(q, events, limited, n) == ResponseTooSmall <==>
            forall c :: 0 <= c < n ==> !Meets(PageTree(PageFor(q, events, c, limited)), q.budget)
    ensures LongestFit(q, events, limited, n) != Refused
  {
    hide PageTree, PageFor, Meets, ArgumentsFit;
    if n > 0 {
      if Meets(PageTree(PageFor(q, events, n - 1, limited)), q.budget) {
        assert Chosen(q, events, limited, n, n - 1);
      } else {
        LongestMeans(q, events, limited, n - 1);
        if LongestFit(q, events, limited, n).Built? {
          var c: nat :| Chosen(q, events, limited, n - 1, c);
          assert Chosen(q, events, limited, n, c);
        }
      }
    }
  }

  ghost predicate Chosen(q: Request, events: seq<Event>, limited: Flags, n: nat, c: nat)
    requires ArgumentsFit(q, events) && n <= |events|
  {
    && c < n && LongestFit(q, events, limited, n) == Built(PageFor(q, events, c, limited))
    && Meets(PageTree(PageFor(q, events, c, limited)), q.budget)
    && forall d :: c < d < n ==> !Meets(PageTree(PageFor(q, events, d, limited)), q.budget)
  }

  // EventLedger.list_events: at most n events after the cursor.
  function ListEvents(ledger: seq<Event>, after: nat, n: nat): (events: seq<Event>)
    ensures |events| <= n
  {
    var rest := if after <= |ledger| then ledger[after..] else [];
    if |rest| <= n then rest else rest[..n]
  }

  datatype Call = Call(ledger: seq<Event>, limit: int, budget: Budget)

  // The handler of trace.list for a valid limit.
  function TraceList(call: Call, brain: Id, after: nat): Outcome {
    if 1 <= call.limit <= TRACE_MAX_PAGE_SIZE
    then Build(Request(brain, after, call.limit, call.budget), ListEvents(call.ledger, after, call.limit + 1))
    else Refused
  }

  // Everything a page reports about the ledger is true, and nothing longer
  // would have fitted.
  ghost predicate Honest(p: Page, ledger: seq<Event>, after: nat) {
    && CursorTruth(p)
    && p.afterSequence == after && p.nextAfterSequence == after + |p.events|
    && (after <= |ledger| ==>
          p.nextAfterSequence <= |ledger| && p.events == ledger[after..p.nextAfterSequence] &&
          (p.hasMore <==> p.nextAfterSequence < |ledger|))
    && (after > |ledger| ==> p.events == [] && !p.hasMore)
  }

  lemma ListedRequest(call: Call, brain: Id, after: nat)
    requires 1 <= call.limit <= TRACE_MAX_PAGE_SIZE
    requires call.budget.bytes >= 1 && call.budget.nodes >= 1 && call.budget.depth >= 1
    requires Contiguous(call.ledger, brain, 0)
    ensures var q, events := Request(brain, after, call.limit, call.budget),
                             ListEvents(call.ledger, after, call.limit + 1);
            && ArgumentsFit(q, events)
            && Contiguous(events, brain, after)
            && Contiguous(events[..MaximumCount(q, events)], brain, after)
            && CursorTruth(WholePage(q, events))
            && Honest(WholePage(q, events), call.ledger, after)
  {
    var q, events := Request(brain, after, call.limit, call.budget), ListEvents(call.ledger, after, call.limit + 1);
    forall i | 0 <= i < |events| ensures events[i].sequence == Some(after + i + 1) && events[i].brain == brain {
      assert events[i] == call.ledger[after + i];
    }
    WholePageAccepted(q, events);
  }

  lemma ShorterHonest(call: Call, brain: Id, after: nat, limited: Flags, c: nat)
    requires 1 <= call.limit <= TRACE_MAX_PAGE_SIZE
    requires call.budget.bytes >= 1 && call.budget.nodes >= 1 && call.budget.depth >= 1
    requires Contiguous(call.ledger, brain, 0) && limited.Any()
    requires var q, events := Request(brain, after, call.limit, call.budget),
                              ListEvents(call.ledger, after, call.limit + 1);
             ArgumentsFit(q, events) && c < MaximumCount(q, events)
    ensures var q, events := Request(brain, after, call.limit, call.budget),
                             ListEvents(call.ledger, after, call.limit + 1);
            Honest(PageFor(q, events, c, limited), call.ledger, after)
  {
    ListedRequest(call, brain, after);
    var q, events := Request(brain, after, call.limit, call.budget), ListEvents(call.ledger, after, call.limit + 1);
    ShorterPageAccepted(q, events, limited, c);
    assert |events[..c]| == c && after + c < |call.ledger|;
    forall i | 0 <= i < c ensures events[..c][i] == call.ledger[after..after + c][i] {
      assert events[i] == call.ledger[after + i];
    }
    assert events[..c] == call.ledger[after..after + c];
  }

  // A built page meets the budget; either it is the whole requested page, or
  // that one does not fit, this one stops before the event it names, and no
  // page between the two fits.
  ghost predicate BestPage(p: Page, q: Request, events: seq<Event>)
    requires ArgumentsFit(q, events)
  {
    var whole := WholePage(q, events);
    var limited := Violations(whole, q.budget);
    && Meets(PageTree(p), q.budget)
    && p.limited == limited
    && (!limited.Any() ==> p == whole)
    && (limited.Any() ==>
          && !Meets(PageTree(whole), q.budget)
          && |p.events| < MaximumCount(q, events)
          && p == PageFor(q, events, |p.events|, limited)
          && forall d :: |p.events| < d < MaximumCount(q, events) ==>
               !Meets(PageTree(PageFor(q, events, d, limited)), q.budget))
  }

  lemma BuildMeans(q: Request, events: seq<Event>)
    requires ArgumentsFit(q, events)
    ensures Build(q, events).Built? ==> BestPage(Build(q, events).page, q, events)
    ensures Build(q, events) == Refused <==>
            !Contiguous(events[..MaximumCount(q, events)], q.brain, q.after)
  {
    hide PageTree, CursorTruth, Contiguous, Meets;
    WholePageAccepted(q, events);
    if CursorTruth(WholePage(q, events)) {
      ViolationsMeasure(WholePage(q, events), q.budget);
      var limited, n := Violations(WholePage(q, events), q.budget), MaximumCount(q, events);
      if limited.Any() {
        LongestMeans(q, events, limited, n);
        if LongestFit(q, events, limited, n).Built? {
          var c: nat :| Chosen(q, events, limited, n, c);
        }
      }
    }
  }

  lemma TraceListMeans(call: Call, brain: Id, after: nat)
    requires Contiguous(call.ledger, brain, 0)
    ensures TraceList(call, brain, after).Built? ==>
              Honest(TraceList(call, brain, after).page, call.ledger, after)
    ensures TraceList(call, brain, after) == Refused <==>
            !(1 <= call.limit <= TRACE_MAX_PAGE_SIZE && call.budget.bytes >= 1 && call.budget.nodes >= 1 &&
              call.budget.depth >= 1)
  {
    hide PageTree, CursorTruth, Contiguous, Meets, Honest, PageFor, LongestFit;
    if 1 <= call.limit <= TRACE_MAX_PAGE_SIZE && call.budget.bytes >= 1 && call.budget.nodes >= 1 &&
       call.budget.depth >= 1 {
      ListedRequest(call, brain, after);
      var q, events := Request(brain, after, call.limit, call.budget), ListEvents(call.ledger, after, call.limit + 1);
      BuildMeans(q, events);
      if Build(q, events).Built? {
        var p := Build(q, events).page;
        if p.limited.Any() {
          ShorterHonest(call, brain, after, p.limited, |p.events|);
        }
      }
    }
  }

  /* ---------------- reading a growing ledger page by page ---------------- */

  datatype Reading = Reading(after: nat, seen: seq<Event>)

  // A client that asks again from next_after_sequence, with whatever limits,
  // and stays where it is when a call fails.
  function Read(calls: seq<Call>, brain: Id): Reading {
    if calls == [] then Reading(0, [])
    else
      var r := Read(calls[..|calls| - 1], brain);
      match TraceList(calls[|calls| - 1], brain, r.after)
      case Built(p) => Reading(p.nextAfterSequence, r.seen + p.events)
      case _ => r
  }

  ghost predicate Growing(calls: seq<Call>, brain: Id) {
    && (forall i :: 0 <= i < |calls| ==> Contiguous(calls[i].ledger, brain, 0))
    && (forall i, j :: 0 <= i <= j < |calls| ==> calls[i].ledger <= calls[j].ledger)
  }

  // Nothing skipped, nothing repeated, whatever was appended meanwhile and
  // however the pages were cut.
  lemma {:induction false} ReadingIsPrefix(calls: seq<Call>, brain: Id)
    requires calls != [] && Growing(calls, brain)
    ensures var r := Read(calls, brain);
            r.after <= |calls[|calls| - 1].ledger| && r.seen == calls[|calls| - 1].ledger[..r.after]
  {
    hide TraceList, Contiguous;
    var last := calls[|calls| - 1];
    var before := calls[..|calls| - 1];
    var r := Read(before, brain);
    if before != [] {
      ReadingIsPrefix(before, brain);
      assert calls[|before| - 1].ledger <= last.ledger;
    }
    assert r.after <= |last.ledger| && r.seen == last.ledger[..r.after];
    TraceListMeans(last, brain, r.after);
    match TraceList(last, brain, r.after)
    case Built(p) =>
      assert last.ledger[..r.after] + last.ledger[r.after..p.nextAfterSequence] == last.ledger[..p.nextAfterSequence];
    case _ =>
  }

  // A page that says nothing is left has brought the reader to the end.
  lemma ReadToTheEnd(calls: seq<Call>, brain: Id)
    requires calls != [] && Growing(calls, brain)
    requires var last := TraceList(calls[|calls| - 1], brain, Read(calls[..|calls| - 1], brain).after);
             last.Built? && !last.page.hasMore
    ensures Read(calls, brain).seen == calls[|calls| - 1].ledger
  {
    hide TraceList, Contiguous;
    var last := calls[|calls| - 1];
    var before := calls[..|calls| - 1];
    if before != [] {
      ReadingIsPrefix(before, brain);
      assert calls[|before| - 1].ledger <= last.ledger;
    }
    ReadingIsPrefix(calls, brain);
    TraceListMeans(last, brain, Read(before, brain).after);
  }

  /* ---------------- getting to the end ---------------- */

  predicate ValidCall(call: Call) {
    1 <= call.limit <= TRACE_MAX_PAGE_SIZE && call.budget.bytes >= 1 && call.budget.nodes >= 1 && call.budget.depth >= 1
  }

  // The requested page fits, or else the next event fits alone as a cut page
  // of more events.
  predicate NextFits(call: Call, brain: Id, after: nat)
    requires ValidCall(call)
  {
    var q, events := Request(brain, after, call.limit, call.budget), ListEvents(call.ledger, after, call.limit + 1);
    var whole := WholePage(q, events);
    Meets(PageTree(whole), q.budget) ||
    (MaximumCount(q, events) >= 2 && Meets(PageTree(PageFor(q, events, 1, Violations(whole, q.budget))), q.budget))
  }

  // While something is left, a call moves the reader on if and only if that
  // is so; otherwise it leaves the reader where it is.
  lemma ProgressExact(call: Call, brain: Id, after: nat)
    requires ValidCall(call) && Contiguous(call.ledger, brain, 0) && after < |call.ledger|
    ensures NextFits(call, brain, after) <==>
            TraceList(call, brain, after).Built? && TraceList(call, brain, after).page.nextAfterSequence > after
  {
    hide PageTree, PageFor, CursorTruth, Contiguous, Meets, Honest, LongestFit;
    var q, events := Request(brain, after, call.limit, call.budget), ListEvents(call.ledger, after, call.limit + 1);
    ListedRequest(call, brain, after);
    TraceListMeans(call, brain, after);
    var whole, n := WholePage(q, events), MaximumCount(q, events);
    var limited := Violations(whole, q.budget);
    ViolationsMeasure(whole, q.budget);
    HonestMoves(call, brain, after);
    if limited.Any() {
      OneFits(q, events, limited);
    } else {
      WholeCount(q, events);
    }
  }

  lemma WholeCount(q: Request, events: seq<Event>)
    requires ArgumentsFit(q, events)
    ensures |WholePage(q, events).events| == MaximumCount(q, events)
  {
  }

  lemma HonestMoves(call: Call, brain: Id, after: nat)
    requires TraceList(call, brain, after).Built? ==> Honest(TraceList(call, brain, after).page, call.ledger, after)
    ensures TraceList(call, brain, after).Built? ==>
              var p := TraceList(call, brain, after).page;
              p.nextAfterSequence == after + |p.events|
  {
    hide CursorTruth, Build;
  }

  // A cut page has events if and only if the one-event cut page fits.
  lemma OneFits(q: Request, events: seq<Event>, limited: Flags)
    requires ArgumentsFit(q, events) && limited.Any()
    requires Contiguous(events[..MaximumCount(q, events)], q.brain, q.after)
    ensures var n := MaximumCount(q, events);
            var r := LongestFit(q, events, limited, n);
            n >= 2 && Meets(PageTree(PageFor(q, events, 1, limited)), q.budget) <==> r.Built? && r.page.events != []
  {
    hide PageTree, Contiguous, Meets, ArgumentsFit;
    var n := MaximumCount(q, events);
    LongestMeans(q, events, limited, n);
    var r := LongestFit(q, events, limited, n);
    if r.Built? {
      var c: nat :| Chosen(q, events, limited, n, c);
      assert |r.page.events| == c;
      if c >= 1 {
        FitsBelow(q, events, limited, 1, c);
      }
    }
    hide MaximumCount, LongestFit;
  }

  // Every call goes on from where the ones before it left the reader, and the
  // next event fits while one is left.
  ghost predicate Advancing(before: seq<Call>, calls: seq<Call>, brain: Id)
    decreases |calls|
  {
    calls == [] ||
    (var after := Read(before, brain).after;
     && ValidCall(calls[0])
     && (after < |calls[0].ledger| ==> NextFits(calls[0], brain, after))
     && Advancing(before + [calls[0]], calls[1..], brain))
  }

  // Once the ledger has stopped growing, as many such calls as there are
  // events left bring the reader to the end.
  lemma {:induction false} ReachesEnd(before: seq<Call>, calls: seq<Call>, brain: Id, ledger: seq<Event>)
    requires Growing(before + calls, brain) && Advancing(before, calls, brain)
    requires before + calls != [] && (before + calls)[|before + calls| - 1].ledger == ledger
    requires forall i :: 0 <= i < |calls| ==> calls[i].ledger == ledger
    requires |calls| >= |ledger| - Read(before, brain).after
    ensures Read(before + calls, brain).after == |ledger| && Read(before + calls, brain).seen == ledger
    decreases |calls|
  {
    hide Contiguous, TraceList, NextFits, Read, ValidCall;
    var all := before + calls;
    if calls == [] {
      assert all == before;
      ReadingIsPrefix(before, brain);
    } else {
      var more := before + [calls[0]];
      assert more + calls[1..] == all;
      OneMore(before, calls[0], brain, all);
      ReachesEnd(more, calls[1..], brain, ledger);
    }
  }

  lemma OneMore(before: seq<Call>, call: Call, brain: Id, all: seq<Call>)
    requires Growing(all, brain) && before + [call] <= all && ValidCall(call)
    requires Read(before, brain).after < |call.ledger| ==> NextFits(call, brain, Read(before, brain).after)
    ensures Read(before + [call], brain).after >= Read(before, brain).after
    ensures Read(before, brain).after < |call.ledger| ==> Read(before + [call], brain).after > Read(before, brain).after
  {
    hide Contiguous, TraceList, NextFits, ValidCall, Honest;
    var more := before + [call];
    assert more[..|before|] == before && more[|before|] == call && all[|before|] == call;
    var after := Read(before, brain).after;
    TraceListMeans(call, brain, after);
    HonestMoves(call, brain, after);
    if after < |call.ledger| {
      ProgressExact(call, brain, after);
    }
  }

  // An event that does not fit is never skipped: repeating the call that it
  // does not fit moves the reader no further.
  lemma {:induction false} BlockedStays(before: seq<Call>, call: Call, brain: Id, times: nat)
    requires ValidCall(call) && Contiguous(call.ledger, brain, 0)
    requires Read(before, brain).after < |call.ledger| && !NextFits(call, brain, Read(before, brain).after)
    ensures Read(before + seq(times, _ => call), brain) == Read(before, brain)
    decreases times
  {
    hide Contiguous, TraceList, NextFits, ValidCall, Honest;
    var after := Read(before, brain).after;
    if times == 0 {
      assert before + seq(times, _ => call) == before;
    } else {
      var most := before + seq(times - 1, _ => call);
      var all := before + seq(times, _ => call);
      assert all[..|all| - 1] == most && all[|all| - 1] == call;
      BlockedStays(before, call, brain, times - 1);
      ProgressExact(call, brain, after);
      TraceListMeans(call, brain, after);
      HonestMoves(call, brain, after);
    }
  }

  // A page cut to the budget of its connection arrives: the server sends it
  // whole and the client accepts it.
  lemma PageArrives(idBytes: nat, limits: Limits, call: Call, brain: Id, after: nat)
    requires Contiguous(call.ledger, brain, 0) && call.budget == ResultBudget(idBytes, limits)
    requires TraceList(call, brain, after).Built?
    ensures Within(Envelope(idBytes, PageTree(TraceList(call, brain, after).page)), limits)
  {
    hide PageTree, CursorTruth, Contiguous, Meets, Within, PageFor, LongestFit, ResultBudget, Envelope;
    TraceListMeans(call, brain, after);
    ListedRequest(call, brain, after);
    BuildMeans(Request(brain, after, call.limit, call.budget), ListEvents(call.ledger, after, call.limit + 1));
    BudgetExact(idBytes, PageTree(TraceList(call, brain, after).page), limits);
  }

  // A requested page that would arrive whole is not cut.
  lemma NoNeedlessCut(idBytes: nat, limits: Limits, call: Call, brain: Id, after: nat)
    requires Contiguous(call.ledger, brain, 0) && call.budget == ResultBudget(idBytes, limits)
    requires 1 <= call.limit <= TRACE_MAX_PAGE_SIZE
    requires call.budget.bytes >= 1 && call.budget.nodes >= 1 && call.budget.depth >= 1
    requires Within(Envelope(idBytes, PageTree(RequestedPage(call, brain, after))), limits)
    ensures TraceList(call, brain, after) == Built(RequestedPage(call, brain, after))
  {
    hide PageTree, CursorTruth, Contiguous, Meets, Within, PageFor, LongestFit, ResultBudget, Envelope;
    ListedRequest(call, brain, after);
    ViolationsMeasure(RequestedPage(call, brain, after), call.budget);
    BudgetExact(idBytes, PageTree(RequestedPage(call, brain, after)), limits);
  }

  function RequestedPage(call: Call, brain: Id, after: nat): Page
    requires 1 <= call.limit <= TRACE_MAX_PAGE_SIZE
    requires call.budget.bytes >= 1 && call.budget.nodes >= 1 && call.budget.depth >= 1
  {
    WholePage(Request(brain, after, call.limit, call.budget), ListEvents(call.ledger, after, call.limit + 1))
  }
}
