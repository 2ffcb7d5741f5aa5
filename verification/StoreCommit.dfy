// One commit of a bridge record: match, screen, plan, reduce, and fall back to
// a gap when the brain has no room (runtime/store.py, commit_bridge_record).
module StoreCommit {
  import opened Prelude
  import opened Values
  import opened Limits
  import opened State
  import opened Reducer
  import opened ReducerInvariant
  import opened ReducerAcceptance
  import opened SemanticIngest
  import opened PlanAcceptance
  import opened SemanticCommit
  import Keyed
  import Actions
  import Identity
  import H = ActionHistory

  const MAX_HERMES_SPANS_PER_STREAM: nat := 256

  const SPAN_CAPACITY_ALL_OPEN := Word(350)
  const ACTION_UNAVAILABLE := Word(351)
  const LATE_ACTION_UNAVAILABLE := Word(352)
  const LATE_COMPLETION_AFTER_BLOCKED := Word(353)
  const ACTION_STATE_MISMATCH := Word(354)
  const LATE_ACTION_STATE_MISMATCH := Word(355)
  const SEMANTIC_DOMAIN_CAPACITY := Word(356)

  function ClosedCount(spans: seq<Span>): (n: nat)
    ensures n <= |spans|
  {
    if spans == [] then 0 else (if spans[0].closed.Some? then 1 else 0) + ClosedCount(spans[1..])
  }

  // _prepare_semantic_span_capacity_in_transaction: a hook that opens a span
  // needs a free slot after evicting as many closed spans as it takes.
  function CapacityGap(record: Record, spans: seq<Span>): Option<Text> {
    if !record.Observed? || !(record.o.hook.PreToolCall? || record.o.hook.PreApiRequest?) then None
    else
      var required := |spans| - MAX_HERMES_SPANS_PER_STREAM + 1;
      if required <= 0 then None
      else
        var victims := if ClosedCount(spans) < required then ClosedCount(spans) else required;
        if |spans| - victims >= MAX_HERMES_SPANS_PER_STREAM then Some(SPAN_CAPACITY_ALL_OPEN) else None
  }

  // No slot for a span: the table is at its limit and every span is open.
  predicate Full(spans: seq<Span>) {
    |spans| >= MAX_HERMES_SPANS_PER_STREAM && forall i :: 0 <= i < |spans| ==> spans[i].closed.None?
  }

  lemma NoSlot(record: Record, spans: seq<Span>)
    requires |spans| <= MAX_HERMES_SPANS_PER_STREAM
    ensures CapacityGap(record, spans).Some? <==>
            record.Observed? && (record.o.hook.PreToolCall? || record.o.hook.PreApiRequest?) && Full(spans)
  {
    ClosedOrFull(spans);
    hide ClosedCount;
  }

  lemma {:induction false} ClosedOrFull(spans: seq<Span>)
    ensures ClosedCount(spans) == 0 <==> forall i :: 0 <= i < |spans| ==> spans[i].closed.None?
  {
    if spans != [] {
      var rest := spans[1..];
      ClosedOrFull(rest);
      assert forall i :: 0 <= i < |rest| ==> rest[i] == spans[i + 1];
      assert forall i :: 0 < i < |spans| ==> spans[i] == rest[i - 1];
    }
  }

  function Matched(record: Record, spans: seq<Span>): (Option<Span>, Option<Text>) {
    if record.Observed? then MatchSpan(record.o, spans) else (None, None)
  }

  // _semantic_lifecycle_gap
  function LifecycleGap(s: BrainState, record: Record, matched: Option<Span>): Option<Text> {
    if !record.Observed? || !record.o.hook.PostToolCall? || matched.None? then None
    else
      var late := matched.value.closed.Some?;
      var id := matched.value.actionId;
      if id.None? || !Keyed.Has(Actions.Id, s.actions, id.value) then
        Some(if late then LATE_ACTION_UNAVAILABLE else ACTION_UNAVAILABLE)
      else
        var a := Keyed.Find(Actions.Id, s.actions, id.value);
        if Actions.Blocked in a.phaseHistory || a.executionConfirmed == Some(false) then
          Some(LATE_COMPLETION_AFTER_BLOCKED)
        else if !late then (if a.phase == Actions.Prepared then None else Some(ACTION_STATE_MISMATCH))
        else if a.phase != Actions.Receipt && a.phase != Actions.Reconstructed then Some(LATE_ACTION_STATE_MISMATCH)
        else None
  }

  function FirstReason(a: Option<Text>, b: Option<Text>, c: Option<Text>): Option<Text> {
    if a.Some? then a else if b.Some? then b else c
  }

  function Forced(s: BrainState, record: Record, spans: seq<Span>): Option<Text> {
    var (matched, correlation) := Matched(record, spans);
    FirstReason(CapacityGap(record, spans), correlation, LifecycleGap(s, record, matched))
  }

  datatype Committed = Committed(plan: Plan, successor: BrainState)

  function Attempt(stream: Stream, s: BrainState, record: Record, spans: seq<Span>, raw: Event, forced: Option<Text>)
    : Result<Committed>
  {
    var plan :- BuildPlan(stream, record, raw, Matched(record, spans).0, forced);
    var successor :- Sequenced(s, [raw] + plan.events);
    Ok(Committed(plan, successor))
  }

  // The raw event and the plan in one batch; on a capacity refusal of an
  // applied plan, once more with the plan of a forced gap.
  function Commit(stream: Stream, s: BrainState, record: Record, spans: seq<Span>, rawId: Text): Result<Committed> {
    var raw :- BuildRawEvent(stream, record, rawId);
    var plan :- BuildPlan(stream, record, raw, Matched(record, spans).0, Forced(s, record, spans));
    var first := Sequenced(s, [raw] + plan.events);
    if first.Ok? then Ok(Committed(plan, first.value))
    else if first.error.Capacity? && plan.status.Applied? then
      Attempt(stream, s, record, spans, raw, Some(SEMANTIC_DOMAIN_CAPACITY))
    else Err(first.error)
  }

  /* ---------------- plans of uninterpreted events ---------------- */

  ghost predicate AllPlain(events: seq<Event>, brainId: Text) {
    forall i :: 0 <= i < |events| ==> Plain(events[i].kind) && events[i].brainId == brainId
  }

  lemma {:induction false} PlainSequence(s: BrainState, events: seq<Event>)
    requires Sound(s) && AllPlain(events, s.brainId)
    ensures Sequenced(s, events).Ok? && Sound(Sequenced(s, events).value)
    decreases |events|
  {
    hide *;
    if events == [] {
      SequencedNone(s);
    } else {
      var rest := events[1..];
      PlainHead(events, s.brainId);
      PlainNext(s, events[0]);
      SequencedCons(s, events[0], rest);
      assert [events[0]] + rest == events;
      PlainSequence(Next(s, events[0]).value, rest);
    }
  }

  lemma PlainHead(events: seq<Event>, brainId: Text)
    requires AllPlain(events, brainId) && events != []
    ensures Plain(events[0].kind) && events[0].brainId == brainId && AllPlain(events[1..], brainId)
  {
    hide Plain;
  }

  lemma RawIsPlain(stream: Stream, record: Record, rawId: Text)
    ensures var raw := RawEvent(stream, record, rawId);
            Plain(raw.kind) && raw.brainId == stream.brainId && raw.eventId == rawId
  {
  }

  lemma GapIsPlain(stream: Stream, o: Observation, raw: Event, reason: Text, close: Option<Span>)
    ensures AllPlain(GapPlan(stream, o, raw, reason, close).events, stream.brainId)
  {
  }

  lemma AttributedIsPlain(stream: Stream, o: Observation, raw: Event)
    ensures AllPlain([Attributed(stream, o, raw)], stream.brainId)
  {
  }

  /* ---------------- what each plan meets ---------------- */

  // A hook that must open a span but carries no identifier for it.
  predicate Anonymous(record: Record) {
    record.Observed? && (
      (record.o.hook.PreToolCall? && (record.o.context.toolCallId.None? || Empty(record.o.context.toolCallId.value))) ||
      (record.o.hook.PreApiRequest? && (record.o.context.apiRequestId.None? || Empty(record.o.context.apiRequestId.value))))
  }

  ghost predicate Binding(stream: Stream, s: BrainState, record: Record, rawId: Text) {
    && stream.brainId == s.brainId && !stream.brainId.Join? && !Blank(rawId)
    && (forall a :: a in s.actions ==> !Blank(a.actionId))
    && (record.Observed? ==>
          !Keyed.Has(Actions.Id, s.actions, ActionIdFor(RawEvent(stream, record, rawId), record.o.captureSeq)))
  }

  lemma GapAttempt(stream: Stream, s: BrainState, o: Observation, raw: Event, reason: Text, close: Option<Span>)
    requires Sound(s) && stream.brainId == s.brainId && Plain(raw.kind) && raw.brainId == s.brainId
    ensures var x := Sequenced(s, [raw] + GapPlan(stream, o, raw, reason, close).events); x.Ok? && Sound(x.value)
  {
    hide *;
    var events := GapPlan(stream, o, raw, reason, close).events;
    PlainNext(s, raw);
    SequencedCons(s, raw, events);
    GapIsPlain(stream, o, raw, reason, close);
    PlainSequence(Next(s, raw).value, events);
  }

  lemma PlainAttempt(stream: Stream, s: BrainState, raw: Event, events: seq<Event>)
    requires Sound(s) && stream.brainId == s.brainId && Plain(raw.kind) && raw.brainId == s.brainId
    requires AllPlain(events, s.brainId)
    ensures var x := Sequenced(s, [raw] + events); x.Ok? && Sound(x.value)
  {
    hide *;
    PlainNext(s, raw);
    SequencedCons(s, raw, events);
    PlainSequence(Next(s, raw).value, events);
  }

  lemma PreToolAttempt(stream: Stream, s: BrainState, o: Observation, raw: Event)
    requires Sound(s) && Bound(stream, s, raw) && Plain(raw.kind) && raw.brainId == s.brainId
    requires !Keyed.Has(Actions.Id, s.actions, ActionIdFor(raw, o.captureSeq))
    ensures var x := Sequenced(s, [raw] + PreToolEvents(stream, o, raw));
            (x.Ok? && Sound(x.value)) || x == Err(Capacity)
  {
    hide *;
    PlainNext(s, raw);
    SequencedCons(s, raw, PreToolEvents(stream, o, raw));
    var t := Next(s, raw).value;
    SameBrain(stream, s, t, raw);
    PreToolDecided(t, stream, o, raw);
  }

  lemma TerminalAttempt(stream: Stream, s: BrainState, o: Observation, raw: Event, a: Actions.ActionRecord, late: bool)
    requires Sound(s) && stream.brainId == s.brainId && Plain(raw.kind) && raw.brainId == s.brainId
    requires a in s.actions && !Blank(a.actionId)
    requires var r := ReadStatus(o.status, o.errorType); if late then r.Executed? else !r.Unclear?
    requires if late then Actions.Receipt in a.phaseHistory else a.phase == Actions.Prepared
    ensures var x := Sequenced(s, [raw] + TerminalEvents(stream, o, raw, a.actionId,
                                                         ReadStatus(o.status, o.errorType), late));
            x.Ok? && Sound(x.value)
  {
    hide *;
    PlainNext(s, raw);
    var events := TerminalEvents(stream, o, raw, a.actionId, ReadStatus(o.status, o.errorType), late);
    SequencedCons(s, raw, events);
    var t := Next(s, raw).value;
    if late {
      LatePlanDecided(t, stream, o, raw, a);
    } else {
      OnTimePlanDecided(t, stream, o, raw, a);
    }
  }

  lemma SubagentAttempt(stream: Stream, s: BrainState, o: Observation, raw: Event)
    requires Sound(s) && Bound(stream, s, raw) && Plain(raw.kind) && raw.brainId == s.brainId
    ensures var x := Sequenced(s, [raw] + [Registered(stream, o, raw), Attributed(stream, o, raw)]);
            (x.Ok? && Sound(x.value)) || x == Err(Capacity)
  {
    hide *;
    var e1, e2 := Registered(stream, o, raw), Attributed(stream, o, raw);
    PlainNext(s, raw);
    SequencedCons(s, raw, [e1, e2]);
    var t := Next(s, raw).value;
    SameBrain(stream, s, t, raw);
    RegisteredNext(t, stream, o, raw);
    SequencedCons(t, e1, [e2]);
    assert [e1] + [e2] == [e1, e2];
    if Next(t, e1).Ok? {
      AttributedIsPlain(stream, o, raw);
      BoundFields(stream, t, raw);
      PlainSequence(Next(t, e1).value, [e2]);
    }
  }

  lemma RegisteredNext(s: BrainState, stream: Stream, o: Observation, raw: Event)
    requires Sound(s) && Bound(stream, s, raw)
    ensures var x := Next(s, Registered(stream, o, raw));
            if x.Ok? then Sound(x.value) && x.value.brainId == s.brainId else x == Err(Capacity)
  {
    hide *;
    var n := s.lastSequence + 1;
    var e := Registered(stream, o, raw);
    var f := At(e, n);
    RegisteredFields(stream, o, raw);
    BoundFields(stream, s, raw);
    AtFields(e, n);
    OwnAddressed(s, e);
    SoundParts(s);
    InvFits(s);
    ChildRegisters(s, stream, o, raw, n);
    RegistrationDecided(s, f);
    NextIs(s, e);
    if ReduceState(s, f).Ok? {
      SequenceAdvances(s, f);
    }
  }

  lemma RegisteredFields(stream: Stream, o: Observation, raw: Event)
    ensures Registered(stream, o, raw).kind.ActorRegistered? && Registered(stream, o, raw).brainId == stream.brainId
  {
  }

  /* ---------------- every commit ---------------- */

  // Accepted with a sound successor, or refused for capacity only.
  ghost predicate GoesThrough(s: BrainState, raw: Event, plan: Plan) {
    var x := Sequenced(s, [raw] + plan.events);
    (x.Ok? && Sound(x.value)) || (x == Err(Capacity) && plan.status.Applied?)
  }

  // The screened post-tool plan: whatever is left after the lifecycle screen
  // is accepted.
  lemma PostToolFits(stream: Stream, s: BrainState, o: Observation, spans: seq<Span>, raw: Event)
    requires Sound(s) && stream.brainId == s.brainId && Plain(raw.kind) && raw.brainId == s.brainId
    requires forall a :: a in s.actions ==> !Blank(a.actionId)
    requires o.hook.PostToolCall? && LifecycleGap(s, Observed(o), MatchSpan(o, spans).0).None?
    ensures var plan := PostToolPlan(stream, o, raw, MatchSpan(o, spans).0);
            plan.Ok? && GoesThrough(s, raw, plan.value)
  {
    hide Sound, Sequenced, MatchSpan, ReadStatus, GapPlan, TerminalEvents, Plain, Blank;
    MatchMeaning(o, spans);
    var matched := MatchSpan(o, spans).0;
    if matched.None? {
      GapAttempt(stream, s, o, raw, UNMATCHED_POST_TOOL, None);
    } else {
      var span := matched.value;
      var r := ReadStatus(o.status, o.errorType);
      var late := span.closed.Some?;
      var a := Keyed.Find(Actions.Id, s.actions, span.actionId.value);
      ScreenedAction(s, a);
      if r.Unclear? {
        GapAttempt(stream, s, o, raw, r.reason, StillOpen(span));
      } else if late && r.Prevented? {
        GapAttempt(stream, s, o, raw, LATE_BLOCKED_STATUS, StillOpen(span));
      } else {
        TerminalAttempt(stream, s, o, raw, a, late);
      }
    }
  }

  // A retained action in the receipt or reconstructed phase that was never
  // blocked has a receipt.
  lemma ScreenedAction(s: BrainState, a: Actions.ActionRecord)
    requires Sound(s) && a in s.actions
    ensures (a.phase == Actions.Receipt || a.phase == Actions.Reconstructed) && Actions.Blocked !in a.phaseHistory
            ==> Actions.Receipt in a.phaseHistory
  {
    hide *;
    LifecycleIn(s, a);
    UnblockedPlace(a);
  }

  lemma UnblockedPlace(a: Actions.ActionRecord)
    requires H.Lifecycle(a)
    ensures (a.phase == Actions.Receipt || a.phase == Actions.Reconstructed) && Actions.Blocked !in a.phaseHistory
            ==> Actions.Receipt in a.phaseHistory
  {
    hide Actions.ValidAction;
  }

  lemma AttributedFits(stream: Stream, s: BrainState, o: Observation, spans: seq<Span>, raw: Event)
    requires Sound(s) && Bound(stream, s, raw) && Plain(raw.kind) && raw.brainId == s.brainId
    requires !o.hook.PreToolCall? && !o.hook.PostToolCall? && !Anonymous(Observed(o))
    ensures var plan := AttributedPlan(stream, o, raw, MatchSpan(o, spans).0);
            plan.Ok? && GoesThrough(s, raw, plan.value)
  {
    hide Sound, Sequenced, MatchSpan, GapPlan, Plain, Blank, Attributed, Registered;
    assert stream.brainId == s.brainId by { BoundFields(stream, s, raw); }
    if CompletionKind(o.hook).Some? {
      MatchMeaning(o, spans);
    }
    if (o.hook.PostApiRequest? || o.hook.ApiRequestError?) && MatchSpan(o, spans).0.None? {
      GapAttempt(stream, s, o, raw, UNMATCHED_API_COMPLETION, None);
    } else if o.hook.SubagentStart? {
      SubagentAttempt(stream, s, o, raw);
    } else {
      AttributedIsPlain(stream, o, raw);
      PlainAttempt(stream, s, raw, [Attributed(stream, o, raw)]);
    }
  }

  lemma PreToolFits(stream: Stream, s: BrainState, o: Observation, raw: Event)
    requires Sound(s) && Bound(stream, s, raw) && Plain(raw.kind) && raw.brainId == s.brainId
    requires !Keyed.Has(Actions.Id, s.actions, ActionIdFor(raw, o.captureSeq))
    requires o.hook.PreToolCall? && !Anonymous(Observed(o))
    ensures var plan := PreToolPlan(stream, o, raw); plan.Ok? && GoesThrough(s, raw, plan.value)
  {
    PreToolAttempt(stream, s, o, raw);
    hide Sound, Sequenced, Plain, Proposed, Sampled, Requested, Simulated, PreparedEvent;
    assert PreToolPlan(stream, o, raw).value.events == PreToolEvents(stream, o, raw);
  }

  lemma BindingParts(stream: Stream, s: BrainState, record: Record, rawId: Text)
    requires Binding(stream, s, record, rawId)
    ensures var raw := RawEvent(stream, record, rawId);
            && Bound(stream, s, raw) && stream.brainId == s.brainId && Plain(raw.kind) && raw.brainId == s.brainId
            && (forall a :: a in s.actions ==> !Blank(a.actionId))
            && (record.Observed? ==> !Keyed.Has(Actions.Id, s.actions, ActionIdFor(raw, record.o.captureSeq)))
  {
    RawIsPlain(stream, record, rawId);
    hide Blank, Keyed.Has, RawEvent, Plain;
  }

  lemma PlanDecided(stream: Stream, s: BrainState, record: Record, spans: seq<Span>, rawId: Text)
    requires Sound(s) && Binding(stream, s, record, rawId)
    ensures var raw := RawEvent(stream, record, rawId);
            var plan := BuildPlan(stream, record, raw, Matched(record, spans).0, Forced(s, record, spans));
            && (plan.Ok? <==> !(Anonymous(record) && CapacityGap(record, spans).None?))
            && (plan.Ok? ==> GoesThrough(s, raw, plan.value))
            && (plan.Ok? && plan.value.status.Applied? ==> record.Observed?)
  {
    hide Sound, Binding, GoesThrough, RawEvent, PreToolPlan, PostToolPlan, AttributedPlan, Anonymous, GapPlan, MatchSpan,
         CapacityGap, LifecycleGap, Sequenced;
    var raw := RawEvent(stream, record, rawId);
    BindingParts(stream, s, record, rawId);
    hide Bound, Plain, Blank, ActionIdFor, Keyed.Has;
    if record.Gap? {
      GapRecordFits(stream, s, raw);
      NotAnonymous(record);
    } else {
      ObservedDecided(stream, s, record.o, spans, raw);
    }
  }

  lemma NotAnonymous(record: Record)
    requires record.Gap?
    ensures !Anonymous(record)
  {
  }

  lemma GapRecordFits(stream: Stream, s: BrainState, raw: Event)
    requires Sound(s) && stream.brainId == s.brainId && Plain(raw.kind) && raw.brainId == s.brainId
    ensures GoesThrough(s, raw, Plan(GapStatus, [], None, None))
  {
    assert AllPlain([], s.brainId);
    PlainAttempt(stream, s, raw, []);
    hide Sound, Sequenced;
  }

  lemma GapFits(stream: Stream, s: BrainState, o: Observation, raw: Event, reason: Text, close: Option<Span>)
    requires Sound(s) && stream.brainId == s.brainId && Plain(raw.kind) && raw.brainId == s.brainId
    ensures GoesThrough(s, raw, GapPlan(stream, o, raw, reason, close))
  {
    GapAttempt(stream, s, o, raw, reason, close);
    hide Sound, Sequenced, GapPlan;
  }

  lemma AnonymousPlan(stream: Stream, o: Observation, raw: Event, matched: Option<Span>)
    requires Anonymous(Observed(o))
    ensures o.hook.PreToolCall? ==> PreToolPlan(stream, o, raw).Err?
    ensures o.hook.PreApiRequest? ==> AttributedPlan(stream, o, raw, matched).Err?
    ensures o.hook.PreToolCall? || o.hook.PreApiRequest?
  {
  }

  // Only the capacity screen can force a gap on a hook that opens a span.
  lemma OpeningForced(s: BrainState, o: Observation, spans: seq<Span>)
    requires o.hook.PreToolCall? || o.hook.PreApiRequest?
    ensures Forced(s, Observed(o), spans) == CapacityGap(Observed(o), spans)
    ensures Matched(Observed(o), spans).0.None?
  {
  }

  lemma CapacityIsForced(s: BrainState, record: Record, spans: seq<Span>)
    ensures Forced(s, record, spans).None? ==> CapacityGap(record, spans).None?
    ensures Forced(s, record, spans).None? ==> LifecycleGap(s, record, Matched(record, spans).0).None?
  {
    hide CapacityGap, LifecycleGap, MatchSpan;
  }

  lemma ObservedDecided(stream: Stream, s: BrainState, o: Observation, spans: seq<Span>, raw: Event)
    requires Sound(s) && Bound(stream, s, raw) && stream.brainId == s.brainId && Plain(raw.kind) && raw.brainId == s.brainId
    requires forall a :: a in s.actions ==> !Blank(a.actionId)
    requires !Keyed.Has(Actions.Id, s.actions, ActionIdFor(raw, o.captureSeq))
    ensures var record := Observed(o);
            var plan := BuildPlan(stream, record, raw, Matched(record, spans).0, Forced(s, record, spans));
            && (plan.Ok? <==> !(Anonymous(record) && CapacityGap(record, spans).None?))
            && (plan.Ok? ==> GoesThrough(s, raw, plan.value))
  {
    hide Sound, GoesThrough, PreToolPlan, PostToolPlan, AttributedPlan, Anonymous, GapPlan, MatchSpan, CapacityGap,
         LifecycleGap, Bound, Plain, Blank, ActionIdFor, Keyed.Has, Forced;
    var record := Observed(o);
    var matched := Matched(record, spans).0;
    var forced := Forced(s, record, spans);
    CapacityIsForced(s, record, spans);
    if Anonymous(record) {
      AnonymousPlan(stream, o, raw, matched);
      OpeningForced(s, o, spans);
    }
    if forced.Some? {
      GapFits(stream, s, o, raw, forced.value, if matched.None? then None else StillOpen(matched.value));
    } else if !Anonymous(record) {
      if o.hook.PreToolCall? {
        OpeningForced(s, o, spans);
        PreToolFits(stream, s, o, raw);
      } else if o.hook.PostToolCall? {
        PostToolFits(stream, s, o, spans, raw);
      } else {
        AttributedFits(stream, s, o, spans, raw);
      }
    }
  }

  // A record commits exactly when its envelope accepts it and it is not a
  // span-opening hook without an identifier that finds a free span slot.
  // Neither the reducer nor a full brain ever stops a commit: what cannot be
  // applied is recorded as a gap.
  lemma CommitExact(stream: Stream, s: BrainState, record: Record, spans: seq<Span>, rawId: Text)
    requires Sound(s) && Binding(stream, s, record, rawId)
    ensures Commit(stream, s, record, spans, rawId).Ok? <==>
            Enveloped(record) && !(Anonymous(record) && CapacityGap(record, spans).None?)
    ensures Commit(stream, s, record, spans, rawId).Ok? ==> Sound(Commit(stream, s, record, spans, rawId).value.successor)
  {
    hide Sound, Binding, RawEvent, Enveloped, Anonymous, CapacityGap, Forced, BuildPlan, GapPlan, Matched, Plain, Bound, Blank,
         Sequenced;
    var raw := RawEvent(stream, record, rawId);
    PlanDecided(stream, s, record, spans, rawId);
    BindingParts(stream, s, record, rawId);
    var plan := BuildPlan(stream, record, raw, Matched(record, spans).0, Forced(s, record, spans));
    if plan.Ok? && Sequenced(s, [raw] + plan.value.events).Err? {
      FallbackFits(stream, s, record, spans, raw);
    }
  }

  lemma FallbackFits(stream: Stream, s: BrainState, record: Record, spans: seq<Span>, raw: Event)
    requires Sound(s) && stream.brainId == s.brainId && Plain(raw.kind) && raw.brainId == s.brainId && record.Observed?
    ensures var x := Attempt(stream, s, record, spans, raw, Some(SEMANTIC_DOMAIN_CAPACITY));
            x.Ok? && Sound(x.value.successor)
  {
    hide Sound, Sequenced, GapPlan, Matched, Plain;
    var matched := Matched(record, spans).0;
    var close := if matched.None? then None else StillOpen(matched.value);
    assert BuildPlan(stream, record, raw, matched, Some(SEMANTIC_DOMAIN_CAPACITY)) ==
           Ok(GapPlan(stream, record.o, raw, SEMANTIC_DOMAIN_CAPACITY, close));
    GapAttempt(stream, s, record.o, raw, SEMANTIC_DOMAIN_CAPACITY, close);
    hide BuildPlan;
  }

  // What a commit wrote: the plan compiled for the reason that applied, and
  // the state after the raw event and the plan's events.
  lemma CommitIs(stream: Stream, s: BrainState, record: Record, spans: seq<Span>, rawId: Text)
    returns (used: Option<Text>)
    requires Commit(stream, s, record, spans, rawId).Ok?
    ensures used == Forced(s, record, spans) || used.Some?
    ensures Enveloped(record)
    ensures var raw, c := RawEvent(stream, record, rawId), Commit(stream, s, record, spans, rawId).value;
            && BuildPlan(stream, record, raw, Matched(record, spans).0, used) == Ok(c.plan)
            && Sequenced(s, [raw] + c.plan.events) == Ok(c.successor)
  {
    hide BuildPlan, Forced, Matched, Sequenced, RawEvent, Enveloped;
    var raw := RawEvent(stream, record, rawId);
    var first := BuildPlan(stream, record, raw, Matched(record, spans).0, Forced(s, record, spans));
    used := if Sequenced(s, [raw] + first.value.events).Ok? then Forced(s, record, spans)
            else Some(SEMANTIC_DOMAIN_CAPACITY);
  }

  /* ---------------- records that never commit ---------------- */

  // A context with every identifier in order.
  const SOUND_CONTEXT := Context(Some(Word(511)), Some(Word(512)), Some(Word(513)), Some(Word(514)), None, Word(503))

  function Sent(hook: Hook, context: Context): Observation {
    Observation(Word(502), 1, hook, context, Word(504), Word(505), Word(506), Word(507), Word(508), Null)
  }

  // Three legal observations: a tool call that leaves its identifier out, a
  // session that the host finalizes with an empty session id, and a tool call
  // outside an API turn, with an empty API request id.
  const NAMELESS_CALL := Sent(PreToolCall, SOUND_CONTEXT.(toolCallId := None))
  const EMPTY_SESSION := Sent(OnSessionFinalize, Context(Some(Raw("")), None, None, None, None, Word(503)))
  const OUTSIDE_TURN := Sent(PreToolCall, SOUND_CONTEXT.(apiRequestId := Some(Raw(""))))

  // The first cannot be committed while the span table has room, here on a new
  // brain.
  lemma NamelessCallNeverCommits(rawId: Text)
    requires !Blank(rawId)
    ensures Commit(Stream(Word(502), Word(500), Word(509), Word(510)), Genesis(Word(500)), Observed(NAMELESS_CALL), [],
                   rawId).Err?
  {
    hide Sound, Commit, RawEvent, ActionIdFor, Blank;
    var s := Genesis(Word(500));
    var stream := Stream(Word(502), Word(500), Word(509), Word(510));
    assert Sound(s) by {
      assert ReduceMany(s, []) == Ok(s);
      ReachableSound(Word(500), []);
    }
    assert s.actions == [];
    assert Binding(stream, s, Observed(NAMELESS_CALL), rawId);
    CommitExact(stream, s, Observed(NAMELESS_CALL), [], rawId);
  }

  // The other two cannot be committed on any brain, with any table.
  lemma EmptyIdentifierNeverCommits(stream: Stream, s: BrainState, spans: seq<Span>, rawId: Text)
    ensures Commit(stream, s, Observed(EMPTY_SESSION), spans, rawId).Err?
    ensures Commit(stream, s, Observed(OUTSIDE_TURN), spans, rawId).Err?
  {
    assert Blank(Raw(""));
    hide RawEvent, BuildPlan, Sequenced, Matched, Forced;
  }
}
