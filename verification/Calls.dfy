// What a commit does to the table of spans, and what becomes of a tool call
// between its two hooks (runtime/store.py, runtime/semantic_ingest.py).
module Calls {
  import opened Prelude
  import opened Values
  import opened Limits
  import opened State
  import opened Reducer
  import opened SemanticIngest
  import opened PlanAcceptance
  import opened SemanticCommit
  import opened StoreCommit
  import opened SpanTable
  import opened Statuses
  import opened Plans
  import Keyed
  import Actions

  /* ---------------- what a plan opens and closes ---------------- */

  predicate Opens(o: Observation) {
    o.hook.PreToolCall? || o.hook.PreApiRequest?
  }

  // The span that an applied hook opens.
  predicate OpenedBy(x: Span, o: Observation, raw: Event) {
    && x.bridgeId == o.bridgeId && x.occurrence == o.captureSeq && x.context == o.context && x.closed.None?
    && (o.hook.PreToolCall? ==>
          x.kind.ToolSpan? && Some(x.externalId) == o.context.toolCallId &&
          x.actionId == Some(ActionIdFor(raw, o.captureSeq)))
    && (o.hook.PreApiRequest? ==>
          x.kind.ApiSpan? && Some(x.externalId) == o.context.apiRequestId && x.actionId.None?)
  }

  // A plan opens a span exactly when it applies a hook that opens one, and
  // closes the matched span exactly when that is open.
  lemma PlanSpans(stream: Stream, record: Record, spans: seq<Span>, raw: Event, used: Option<Text>)
    requires BuildPlan(stream, record, raw, Matched(record, spans).0, used).Ok?
    ensures var plan := BuildPlan(stream, record, raw, Matched(record, spans).0, used).value;
            && (plan.open.Some? <==> record.Observed? && Opens(record.o) && plan.status.Applied?)
            && (plan.open.Some? ==> OpenedBy(plan.open.value, record.o, raw))
            && plan.close == (if Matched(record, spans).0.None? then None else StillOpen(Matched(record, spans).0.value))
  {
    if record.Observed? && CompletionKind(record.o.hook).Some? {
      MatchMeaning(record.o, spans);
    }
    hide Filter, Derived, ReadStatus, TerminalEvents, Registered, Attributed, ActionIdFor;
  }

  // Of the closed spans, the one closed first; of those, the one opened first.
  predicate FirstClosed(spans: seq<Span>, k: nat) {
    && k < |spans| && spans[k].closed.Some?
    && forall i :: 0 <= i < |spans| && spans[i].closed.Some? ==>
         spans[k].closed.value < spans[i].closed.value ||
         (spans[k].closed.value == spans[i].closed.value && spans[k].occurrence <= spans[i].occurrence)
  }

  // A new span goes last; when the table is at its limit, the span closed first
  // makes way for it.
  ghost predicate Added(before: seq<Span>, after: seq<Span>, x: Span) {
    if |before| < MAX_HERMES_SPANS_PER_STREAM then after == before + [x]
    else exists k: nat :: FirstClosed(before, k) && after == before[..k] + before[k + 1..] + [x]
  }

  lemma OneEvicted(spans: seq<Span>)
    requires |spans| == MAX_HERMES_SPANS_PER_STREAM && !Full(spans)
    ensures exists k: nat :: FirstClosed(spans, k) && Evict(spans, Required(spans)) == spans[..k] + spans[k + 1..]
  {
    var shut :| 0 <= shut < |spans| && spans[shut].closed.Some?;
    assert spans[shut] in spans;
    var k := OldestClosed(spans).value;
    forall j | 0 <= j < |spans| && spans[j].closed.Some?
      ensures spans[k].closed.value < spans[j].closed.value ||
              (spans[k].closed.value == spans[j].closed.value && spans[k].occurrence <= spans[j].occurrence)
    {
      assert spans[j] in spans;
    }
    assert FirstClosed(spans, k);
    EvictIs(spans, 1);
    EvictIs(RemoveSpan(spans, k), 0);
    hide Evict, OldestClosed;
  }

  // The table after a commit.
  ghost predicate TableAfter(t: Store, record: Record, raw: Event, applied: bool, after: seq<Span>) {
    var matched := Matched(record, t.spans).0;
    && (record.Observed? && Opens(record.o) && applied ==>
          exists x :: OpenedBy(x, record.o, raw) && Added(t.spans, after, x))
    && (matched.Some? && matched.value.closed.None? ==>
          exists k :: 0 <= k < |t.spans| && t.spans[k] == matched.value &&
            after == t.spans[k := matched.value.(closed := Some(record.o.captureSeq))])
    && (!(record.Observed? && Opens(record.o) && applied) && !(matched.Some? && matched.value.closed.None?) ==>
          after == t.spans)
  }

  // A commit adds the span that it opens, closes the open span that it matches,
  // and leaves the rest of the table alone.
  lemma CommitSpans(t: Store, record: Record, rawId: Text)
    requires Kept(t) && Fresh(t, record, rawId) && Takes(t, record, rawId)
    ensures var plan := Commit(t.stream, t.brain, record, t.spans, rawId).value.plan;
            TableAfter(t, record, RawEvent(t.stream, record, rawId), plan.status.Applied?, Taken(t, record, rawId).spans)
  {
    hide *;
    var raw := RawEvent(t.stream, record, rawId);
    TakenIs(t, record, rawId);
    var plan := Commit(t.stream, t.brain, record, t.spans, rawId).value.plan;
    var used := CommitIs(t.stream, t.brain, record, t.spans, rawId);
    PlanSpans(t.stream, record, t.spans, raw, used);
    KeptBinding(t, record, rawId);
    KeptLimit(t);
    StatusExact(t.stream, t.brain, record, t.spans, rawId);
    if record.Observed? && Opens(record.o) && Applies(t.brain, record.o, t.spans) {
      OpenerNeedsSlot(t.brain, record.o, t.spans);
    }
    AppliedTable(t, record, raw, plan);
  }

  lemma TakenIs(t: Store, record: Record, rawId: Text)
    requires Takes(t, record, rawId)
    ensures AtCursor(t, record) && Commit(t.stream, t.brain, record, t.spans, rawId).Ok?
    ensures Taken(t, record, rawId).spans ==
            SpanTable.Applied(t.spans, Commit(t.stream, t.brain, record, t.spans, rawId).value.plan, Last(record))
    ensures Taken(t, record, rawId).next == Last(record) + 1 && Taken(t, record, rawId).stream == t.stream
    ensures Taken(t, record, rawId).brain == Commit(t.stream, t.brain, record, t.spans, rawId).value.successor
  {
    hide Commit, SpanTable.Applied, AtCursor;
  }

  lemma OpenerNeedsSlot(s: BrainState, o: Observation, spans: seq<Span>)
    requires Opens(o) && Applies(s, o, spans)
    ensures !Full(spans)
  {
    hide Full, MatchSpan, HasRoom;
  }

  lemma AppliedTable(t: Store, record: Record, raw: Event, plan: Plan)
    requires Kept(t) && AtCursor(t, record) && |t.spans| <= MAX_HERMES_SPANS_PER_STREAM
    requires plan.open.Some? <==> record.Observed? && Opens(record.o) && plan.status.Applied?
    requires plan.open.Some? ==> OpenedBy(plan.open.value, record.o, raw) && !Full(t.spans)
    requires plan.close == (if Matched(record, t.spans).0.None? then None else StillOpen(Matched(record, t.spans).0.value))
    ensures TableAfter(t, record, raw, plan.status.Applied?, SpanTable.Applied(t.spans, plan, Last(record)))
  {
    MatchedIn(record, t.spans);
    CursorParts(t, record);
    if plan.open.Some? {
      OpenerMatchesNone(record, t.spans);
      AppliedOpens(t.spans, plan, Last(record));
      OpenedTable(t.spans, plan.open.value);
      hide Kept, AtCursor, OpenedBy, Matched, SpanTable.Applied, Evict, Full, Added;
    } else {
      AppliedShuts(t.spans, plan, Last(record));
      ShutTable(t, record, plan);
      hide Kept, AtCursor, OpenedBy, Matched, SpanTable.Applied, Evict, Full, Added, Close;
    }
  }

  lemma OpenerMatchesNone(record: Record, spans: seq<Span>)
    requires record.Observed? && Opens(record.o)
    ensures Matched(record, spans).0.None?
  {
    hide Filter;
  }

  lemma OpenedTable(spans: seq<Span>, x: Span)
    requires |spans| <= MAX_HERMES_SPANS_PER_STREAM && !Full(spans)
    ensures Added(spans, Evict(spans, Required(spans)) + [x], x)
  {
    if |spans| < MAX_HERMES_SPANS_PER_STREAM {
      EvictIs(spans, 0);
    } else {
      OneEvicted(spans);
    }
    hide Evict, FirstClosed, Full;
  }

  lemma ShutTable(t: Store, record: Record, plan: Plan)
    requires Kept(t) && AtCursor(t, record) && (plan.close.Some? ==> plan.close.value in t.spans && plan.close.value.closed.None?)
    ensures plan.close.Some? ==>
              exists k :: 0 <= k < |t.spans| && t.spans[k] == plan.close.value &&
                Close(t.spans, plan.close.value, Last(record)) ==
                t.spans[k := plan.close.value.(closed := Some(Last(record)))]
  {
    CursorParts(t, record);
    if plan.close.Some? {
      var k :| 0 <= k < |t.spans| && t.spans[k] == plan.close.value;
      KeptPending(t);
      hide Kept, AtCursor, Placed, Close;
      ClosedOne(t.spans, k, t.stream.bridgeId, t.next, Last(record));
    }
  }

  /* ---------------- one call, from its first hook to its last ---------------- */

  // x is the only tool span of its context, and it is open.
  predicate SoleOpen(spans: seq<Span>, x: Span) {
    && x in spans && x.kind.ToolSpan? && x.closed.None?
    && forall i :: 0 <= i < |spans| && spans[i].kind.ToolSpan? && spans[i].context == x.context ==> spans[i] == x
  }

  // The context has no tool span yet.
  predicate Unused(spans: seq<Span>, context: Context) {
    forall i :: 0 <= i < |spans| && spans[i].kind.ToolSpan? ==> spans[i].context != context
  }

  // A record that is neither hook of a tool call with that context.
  predicate OfAnother(record: Record, context: Context) {
    record.Observed? && (record.o.hook.PreToolCall? || record.o.hook.PostToolCall?) ==> record.o.context != context
  }

  lemma AddedSole(before: seq<Span>, after: seq<Span>, x: Span)
    requires Added(before, after, x) && Unused(before, x.context) && x.kind.ToolSpan? && x.closed.None?
    ensures SoleOpen(after, x)
  {
    AddedMembers(before, after, x);
    forall i | 0 <= i < |after| && after[i].kind.ToolSpan? && after[i].context == x.context ensures after[i] == x {
      assert after[i] in after;
    }
  }

  // Adding another span takes no open one away.
  lemma AddedKeeps(before: seq<Span>, after: seq<Span>, x: Span, y: Span)
    requires Added(before, after, y) && SoleOpen(before, x) && (y.kind.ToolSpan? ==> y.context != x.context)
    ensures SoleOpen(after, x)
  {
    AddedMembers(before, after, y);
    forall i | 0 <= i < |after| && after[i].kind.ToolSpan? && after[i].context == x.context ensures after[i] == x {
      assert after[i] in before;
      var j :| 0 <= j < |before| && before[j] == after[i];
    }
  }

  lemma AddedMembers(before: seq<Span>, after: seq<Span>, y: Span)
    requires Added(before, after, y)
    ensures y in after && forall z :: z in after ==> z == y || z in before
    ensures forall z :: z in before && z.closed.None? ==> z in after
  {
    if |before| < MAX_HERMES_SPANS_PER_STREAM {
      assert after == before + [y];
    } else {
      var k: nat :| FirstClosed(before, k) && after == before[..k] + before[k + 1..] + [y];
      assert before == before[..k] + [before[k]] + before[k + 1..];
    }
  }

  // So does closing another one.
  lemma ShutKeeps(before: seq<Span>, k: nat, at: nat, x: Span)
    requires SoleOpen(before, x) && k < |before| && before[k] != x
    requires before[k].kind.ToolSpan? ==> before[k].context != x.context
    ensures SoleOpen(before[k := before[k].(closed := Some(at))], x)
  {
    var after := before[k := before[k].(closed := Some(at))];
    var j :| 0 <= j < |before| && before[j] == x;
    assert after[j] == x;
  }

  // A commit of a record of another call leaves the span as it is.
  lemma CommitKeepsSole(t: Store, record: Record, rawId: Text, x: Span)
    requires Kept(t) && Fresh(t, record, rawId) && Takes(t, record, rawId)
    requires SoleOpen(t.spans, x) && OfAnother(record, x.context)
    ensures SoleOpen(Taken(t, record, rawId).spans, x)
  {
    hide *;
    CommitSpans(t, record, rawId);
    TakenIs(t, record, rawId);
    var raw := RawEvent(t.stream, record, rawId);
    var applied := Commit(t.stream, t.brain, record, t.spans, rawId).value.plan.status.Applied?;
    TableKeepsSole(t, record, raw, applied, Taken(t, record, rawId).spans, x);
  }

  lemma TableKeepsSole(t: Store, record: Record, raw: Event, applied: bool, after: seq<Span>, x: Span)
    requires TableAfter(t, record, raw, applied, after) && SoleOpen(t.spans, x) && OfAnother(record, x.context)
    ensures SoleOpen(after, x)
  {
    var matched := Matched(record, t.spans).0;
    if matched.Some? {
      MatchedElsewhere(record, t.spans, x);
    }
    hide Matched, SoleOpen, Added;
    if record.Observed? && Opens(record.o) && applied {
      var y :| OpenedBy(y, record.o, raw) && Added(t.spans, after, y);
      AddedKeeps(t.spans, after, x, y);
    } else if matched.Some? && matched.value.closed.None? {
      var k :| 0 <= k < |t.spans| && t.spans[k] == matched.value &&
               after == t.spans[k := matched.value.(closed := Some(record.o.captureSeq))];
      ShutKeeps(t.spans, k, record.o.captureSeq, x);
    }
  }

  lemma MatchedElsewhere(record: Record, spans: seq<Span>, x: Span)
    requires SoleOpen(spans, x) && OfAnother(record, x.context) && Matched(record, spans).0.Some?
    ensures var m := Matched(record, spans).0.value; m != x && (m.kind.ToolSpan? ==> m.context != x.context)
  {
    MatchMeaning(record.o, spans);
    hide Filter, MatchSpan;
  }

  // The steps between the two hooks: commits of other calls, other events.
  predicate BetweenHooks(steps: seq<SpanTable.Step>, context: Context) {
    forall i :: 0 <= i < |steps| && steps[i].CommitStep? ==> OfAnother(steps[i].record, context)
  }

  lemma StepKeepsSole(t: Store, step: SpanTable.Step, x: Span)
    requires Kept(t) && SoleOpen(t.spans, x) && (step.CommitStep? ==> OfAnother(step.record, x.context))
    ensures SoleOpen(SpanTable.Do(t, step).spans, x)
  {
    hide SoleOpen, Kept, Fresh, Takes, Taken, OfAnother, ReduceState, Foreign;
    match step
    case CommitStep(record, rawId) =>
      if Fresh(t, record, rawId) && Takes(t, record, rawId) {
        CommitKeepsSole(t, record, rawId, x);
      }
    case OtherStep(e) =>
  }

  lemma {:induction false} RunKeepsSole(t: Store, steps: seq<SpanTable.Step>, x: Span)
    requires Kept(t) && SoleOpen(t.spans, x) && BetweenHooks(steps, x.context)
    ensures Kept(SpanTable.Run(t, steps)) && SoleOpen(SpanTable.Run(t, steps).spans, x)
    decreases |steps|
  {
    hide Kept, SoleOpen, SpanTable.Do, OfAnother;
    if steps != [] {
      StepKept(t, steps[0]);
      StepKeepsSole(t, steps[0], x);
      var rest := steps[1..];
      assert forall i :: 0 <= i < |rest| ==> rest[i] == steps[i + 1];
      RunKeepsSole(SpanTable.Do(t, steps[0]), rest, x);
    }
  }

  // The completion of the call finds its span.
  lemma SoleMatches(t: Store, o: Observation, x: Span)
    requires Kept(t) && AtCursor(t, Observed(o)) && SoleOpen(t.spans, x)
    requires o.hook.PostToolCall? && o.context == x.context && Some(x.externalId) == o.context.toolCallId
    ensures MatchSpan(o, t.spans).0 == Some(x)
  {
    KeptPending(t);
    CursorParts(t, Observed(o));
    var j :| 0 <= j < |t.spans| && t.spans[j] == x;
    hide Kept, AtCursor, Pending;
    assert x.bridgeId == o.bridgeId && x.occurrence < o.captureSeq;
    OnlyOne(o, t.spans, x, j);
    OneOpenMatch(o, t.spans, x, j);
  }

  lemma OnlyOne(o: Observation, spans: seq<Span>, x: Span, j: nat)
    requires j < |spans| && spans[j] == x && SoleOpen(spans, x) && o.hook.PostToolCall? && o.context == x.context
    requires forall i, k :: 0 <= i < k < |spans| ==> spans[i].occurrence < spans[k].occurrence
    requires Some(x.externalId) == o.context.toolCallId && x.bridgeId == o.bridgeId && x.occurrence < o.captureSeq
    ensures forall i :: 0 <= i < |spans| ==> (OpenFor(o, ToolSpan, spans[i]) <==> i == j)
    ensures forall i :: 0 <= i < |spans| ==> !ClosedFor(o, ToolSpan, spans[i])
  {
  }

  lemma {:induction false} FilterOne(p: Span -> bool, spans: seq<Span>, j: nat)
    requires j < |spans| && forall i :: 0 <= i < |spans| ==> (p(spans[i]) <==> i == j)
    ensures Filter(p, spans) == [spans[j]]
  {
    var rest := spans[1..];
    assert forall i :: 0 <= i < |rest| ==> rest[i] == spans[i + 1];
    if j == 0 {
      FilterNone(p, rest);
    } else {
      FilterOne(p, rest, j - 1);
    }
  }

  lemma {:induction false} FilterNone(p: Span -> bool, spans: seq<Span>)
    requires forall i :: 0 <= i < |spans| ==> !p(spans[i])
    ensures Filter(p, spans) == []
  {
    if spans != [] {
      var rest := spans[1..];
      assert forall i :: 0 <= i < |rest| ==> rest[i] == spans[i + 1];
      FilterNone(p, rest);
    }
  }

  lemma OneOpenMatch(o: Observation, spans: seq<Span>, x: Span, j: nat)
    requires j < |spans| && spans[j] == x && o.hook.PostToolCall?
    requires forall i :: 0 <= i < |spans| ==> (OpenFor(o, ToolSpan, spans[i]) <==> i == j)
    requires forall i :: 0 <= i < |spans| ==> !ClosedFor(o, ToolSpan, spans[i])
    ensures MatchSpan(o, spans) == (Some(x), None)
  {
    FilterOne(s => OpenFor(o, ToolSpan, s), spans, j);
    FilterNone(s => ClosedFor(o, ToolSpan, s), spans);
    hide OpenFor, ClosedFor, Filter;
  }

  // A tool call whose first hook was applied, under a context that no other
  // call has used: whatever is committed for other calls and happens to the
  // brain in between, its completion ends the call with the verdict of its
  // status.
  lemma CallEnds(t: Store, pre: Observation, preId: Text, steps: seq<SpanTable.Step>, post: Observation, postId: Text,
                 v: Verdict)
    requires Kept(t) && Fresh(t, Observed(pre), preId) && Takes(t, Observed(pre), preId) && pre.hook.PreToolCall?
    requires Commit(t.stream, t.brain, Observed(pre), t.spans, preId).value.plan.status.Applied?
    requires Unused(t.spans, pre.context) && BetweenHooks(steps, pre.context)
    requires var u := SpanTable.Run(Taken(t, Observed(pre), preId), steps);
             AtCursor(u, Observed(post)) && Fresh(u, Observed(post), postId)
    requires post.hook.PostToolCall? && post.context == pre.context && Means(post.status, post.errorType, v)
    ensures var u := SpanTable.Run(Taken(t, Observed(pre), preId), steps);
            EndsCall(CommitRecord(u, Observed(post), postId),
                     ActionIdFor(RawEvent(t.stream, Observed(pre), preId), pre.captureSeq),
                     match v case Succeeded => Some(Actions.Succeeded) case Failed => Some(Actions.Failed) case _ => None)
  {
    hide *;
    var raw := RawEvent(t.stream, Observed(pre), preId);
    var u0 := Taken(t, Observed(pre), preId);
    CommitSpans(t, Observed(pre), preId);
    TakenKept(t, Observed(pre), preId);
    var x := FirstHookOpens(t, pre, raw, u0.spans);
    RunKeepsSole(u0, steps, x);
    var u := SpanTable.Run(u0, steps);
    SoleMatches(u, post, x);
    ReadIsMeant(post.status, post.errorType);
    ReadingFor(post, v);
    SoleIsOpen(u.spans, x);
    OnTimeIsApplied(u, post, postId, x);
    OutcomeFor(post, v);
  }

  lemma SoleIsOpen(spans: seq<Span>, x: Span)
    requires SoleOpen(spans, x)
    ensures x.closed.None?
  {
  }

  lemma OutcomeFor(o: Observation, v: Verdict)
    requires Means(o.status, o.errorType, v)
    ensures OutcomeRead(None, ReadStatus(o.status, o.errorType)) ==
            match v case Succeeded => Some(Actions.Succeeded) case Failed => Some(Actions.Failed) case _ => None
  {
    ReadIsMeant(o.status, o.errorType);
    hide Means, ReadStatus;
  }

  lemma FirstHookOpens(t: Store, pre: Observation, raw: Event, after: seq<Span>) returns (x: Span)
    requires pre.hook.PreToolCall? && TableAfter(t, Observed(pre), raw, true, after) && Unused(t.spans, pre.context)
    ensures SoleOpen(after, x) && x.context == pre.context && Some(x.externalId) == pre.context.toolCallId
    ensures x.actionId == Some(ActionIdFor(raw, pre.captureSeq))
  {
    hide Matched, SoleOpen, Added, Unused, ActionIdFor;
    x :| OpenedBy(x, pre, raw) && Added(t.spans, after, x);
    AddedSole(t.spans, after, x);
  }
}
