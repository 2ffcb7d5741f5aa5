// Which committed records are applied and which are recorded as gaps
// (runtime/store.py, commit_bridge_record; runtime/semantic_ingest.py).
module Statuses {
  import opened Prelude
  import opened Values
  import opened Limits
  import opened State
  import opened Reducer
  import opened SemanticIngest
  import opened PlanAcceptance
  import opened SemanticCommit
  import opened StoreCommit
  import opened Plans
  import Keyed
  import Actions
  import Identity
  import RunTotals
  import V = Evictions

  /* ---------------- what decides ---------------- */

  // A slot for an action: a free one, or one whose action may leave.
  predicate HasRoom(actions: seq<Actions.ActionRecord>) {
    |actions| < MAX_ACTION_RECORDS || exists i :: 0 <= i < |actions| && V.MayLeave(actions[i])
  }

  // The action of a span is where a completion of it must find it: prepared,
  // or, when the span is closed, with its receipt; and never prevented.
  ghost predicate Current(s: BrainState, span: Span) {
    span.actionId.Some? && exists a :: a in s.actions && a.actionId == span.actionId.value && Awaits(a, span)
  }

  predicate Awaits(a: Actions.ActionRecord, span: Span) {
    && Actions.Blocked !in a.phaseHistory && a.executionConfirmed != Some(false)
    && (if span.closed.None? then a.phase == Actions.Prepared
        else a.phase == Actions.Receipt || a.phase == Actions.Reconstructed)
  }

  ghost predicate Completes(s: BrainState, o: Observation, span: Span) {
    Current(s, span) && exists v: Verdict :: Means(o.status, o.errorType, v) && !(span.closed.Some? && v.Refused?)
  }

  ghost predicate Applies(s: BrainState, o: Observation, spans: seq<Span>) {
    var matched := MatchSpan(o, spans).0;
    match o.hook
    case PreToolCall => !Full(spans) && HasRoom(s.actions)
    case PreApiRequest => !Full(spans)
    case PostToolCall => matched.Some? && Completes(s, o, matched.value)
    case PostApiRequest => matched.Some?
    case ApiRequestError => matched.Some?
    case SubagentStart => Keyed.Has(Identity.Id, s.identity.actors, ChildActor(o)) || |s.identity.actors| < MAX_IDENTITY_ACTORS
    case _ => true
  }

  /* ---------------- the screens, without their reasons ---------------- */

  lemma RoomIs(actions: seq<Actions.ActionRecord>)
    ensures Room(actions) <==> HasRoom(actions)
  {
    assert forall i :: 0 <= i < |actions| ==> (Terminal(actions[i]) <==> V.MayLeave(actions[i]));
    hide FirstTerminal, Terminal;
    var k := FirstTerminal(actions);
    if k.Some? {
      assert V.MayLeave(actions[k.value]);
    }
  }

  lemma LifecycleIs(s: BrainState, o: Observation, span: Span)
    requires Keyed.Unique(Actions.Id, s.actions) && o.hook.PostToolCall?
    ensures LifecycleGap(s, Observed(o), Some(span)).None? <==> Current(s, span)
  {
    var id := span.actionId;
    if id.Some? && Keyed.Has(Actions.Id, s.actions, id.value) {
      var a := Keyed.Find(Actions.Id, s.actions, id.value);
      assert forall b :: b in s.actions && b.actionId == id.value ==> b == a by {
        forall b | b in s.actions && b.actionId == id.value ensures b == a {
          Keyed.FindUnique(Actions.Id, s.actions, b);
        }
      }
      hide Keyed.Find, Keyed.Has, Keyed.Unique;
    } else if id.Some? {
      forall b | b in s.actions ensures b.actionId != id.value {
        Keyed.HasIn(Actions.Id, s.actions, b);
      }
      hide Keyed.Find, Keyed.Has, Keyed.Unique;
    }
  }

  /* ---------------- the commit's two attempts ---------------- */

  // The first plan stands if the reducer takes it; otherwise a gap is recorded.
  lemma FirstPlanStands(stream: Stream, s: BrainState, record: Record, spans: seq<Span>, rawId: Text)
    requires Commit(stream, s, record, spans, rawId).Ok?
    ensures var raw := RawEvent(stream, record, rawId);
            var first := BuildPlan(stream, record, raw, Matched(record, spans).0, Forced(s, record, spans));
            && first.Ok?
            && (Commit(stream, s, record, spans, rawId).value.plan.status.Applied? <==>
                  first.value.status.Applied? && Sequenced(s, [raw] + first.value.events).Ok?)
  {
    hide Forced, Matched, Sequenced, RawEvent, Enveloped, PreToolPlan, PostToolPlan, AttributedPlan, GapPlan;
    var raw := RawEvent(stream, record, rawId);
    var first := BuildPlan(stream, record, raw, Matched(record, spans).0, Forced(s, record, spans));
    if Sequenced(s, [raw] + first.value.events).Err? {
      FallbackIsGap(stream, record, raw, Matched(record, spans).0);
    }
    hide BuildPlan;
  }

  lemma FallbackIsGap(stream: Stream, record: Record, raw: Event, matched: Option<Span>)
    ensures var plan := BuildPlan(stream, record, raw, matched, Some(SEMANTIC_DOMAIN_CAPACITY));
            plan.Ok? && plan.value.status.GapStatus?
  {
  }

  lemma ForcedIsGap(stream: Stream, o: Observation, raw: Event, matched: Option<Span>, reason: Text)
    ensures var plan := BuildPlan(stream, Observed(o), raw, matched, Some(reason));
            plan.Ok? && plan.value.status.GapStatus?
  {
  }

  // The first plan, and whether the reducer takes it.
  ghost predicate Stands(stream: Stream, s: BrainState, o: Observation, spans: seq<Span>, raw: Event) {
    var first := BuildPlan(stream, Observed(o), raw, Matched(Observed(o), spans).0, Forced(s, Observed(o), spans));
    first.Ok? && first.value.status.Applied? && Sequenced(s, [raw] + first.value.events).Ok?
  }

  // What a state and a record bring along.
  ghost predicate Ready(stream: Stream, s: BrainState, o: Observation, raw: Event) {
    && Sound(s) && Bound(stream, s, raw) && stream.brainId == s.brainId && Plain(raw.kind) && raw.brainId == s.brainId
    && (forall a :: a in s.actions ==> !Blank(a.actionId))
    && !Keyed.Has(Actions.Id, s.actions, ActionIdFor(raw, o.captureSeq))
  }

  lemma PreToolStands(stream: Stream, s: BrainState, o: Observation, spans: seq<Span>, raw: Event)
    requires Ready(stream, s, o, raw) && o.hook.PreToolCall? && |spans| <= MAX_HERMES_SPANS_PER_STREAM
    requires !(Anonymous(Observed(o)) && CapacityGap(Observed(o), spans).None?)
    ensures Stands(stream, s, o, spans, raw) <==> Applies(s, o, spans)
  {
    hide *;
    StandsIs(stream, s, o, spans, raw);
    NoSlot(Observed(o), spans);
    OpeningForced(s, o, spans);
    RoomIs(s.actions);
    PreToolApplies(s, o, spans);
    if CapacityGap(Observed(o), spans).Some? {
      ForcedIsGap(stream, o, raw, None, CapacityGap(Observed(o), spans).value);
    } else {
      PreToolFirst(stream, o, raw);
      PreToolTaken(stream, s, o, raw);
    }
  }

  lemma PreToolApplies(s: BrainState, o: Observation, spans: seq<Span>)
    requires o.hook.PreToolCall?
    ensures Applies(s, o, spans) <==> !Full(spans) && HasRoom(s.actions)
    ensures Observed(o).Observed? && Observed(o).o == o
  {
    hide Full, HasRoom, MatchSpan;
  }

  lemma PreToolFirst(stream: Stream, o: Observation, raw: Event)
    requires o.hook.PreToolCall? && !Anonymous(Observed(o))
    ensures var plan := BuildPlan(stream, Observed(o), raw, None, None);
            plan.Ok? && plan.value.status.Applied? && plan.value.events == PreToolEvents(stream, o, raw)
  {
    hide Proposed, Sampled, Requested, Simulated, PreparedEvent;
  }

  lemma PreToolTaken(stream: Stream, s: BrainState, o: Observation, raw: Event)
    requires Ready(stream, s, o, raw)
    ensures Sequenced(s, [raw] + PreToolEvents(stream, o, raw)).Ok? <==> Room(s.actions)
  {
    hide *;
    ReadyParts(stream, s, o, raw);
    PlainNext(s, raw);
    SequencedCons(s, raw, PreToolEvents(stream, o, raw));
    var t := Next(s, raw).value;
    SameBrain(stream, s, t, raw);
    PreToolDecided(t, stream, o, raw);
  }

  lemma ReadyParts(stream: Stream, s: BrainState, o: Observation, raw: Event)
    requires Ready(stream, s, o, raw)
    ensures Sound(s) && Bound(stream, s, raw) && stream.brainId == s.brainId && Plain(raw.kind) && raw.brainId == s.brainId
    ensures (forall a :: a in s.actions ==> !Blank(a.actionId))
    ensures !Keyed.Has(Actions.Id, s.actions, ActionIdFor(raw, o.captureSeq))
  {
    hide Sound, Bound, Plain, Blank, Keyed.Has, ActionIdFor;
  }

  /* ---------------- completions ---------------- */

  // What a completion is first turned into: its plan for the matched span, or a
  // gap when the screen objects.
  lemma PostToolFirst(stream: Stream, s: BrainState, o: Observation, spans: seq<Span>, raw: Event)
    requires o.hook.PostToolCall?
    ensures var matched, plan := MatchSpan(o, spans).0,
              BuildPlan(stream, Observed(o), raw, Matched(Observed(o), spans).0, Forced(s, Observed(o), spans));
            if matched.Some? && LifecycleGap(s, Observed(o), matched).None? then
              plan == PostToolPlan(stream, o, raw, matched)
            else plan.Ok? && plan.value.status.GapStatus?
  {
    SpanTableMatch(o, spans);
    hide MatchSpan, LifecycleGap, Derived;
    var matched := MatchSpan(o, spans).0;
    if Forced(s, Observed(o), spans).Some? {
      ForcedIsGap(stream, o, raw, matched, Forced(s, Observed(o), spans).value);
    }
  }

  // A match comes without a reason why there is none.
  lemma SpanTableMatch(o: Observation, spans: seq<Span>)
    ensures MatchSpan(o, spans).0.Some? ==> MatchSpan(o, spans).1.None?
  {
    hide Filter;
  }

  lemma PostToolStands(stream: Stream, s: BrainState, o: Observation, spans: seq<Span>, raw: Event)
    requires Ready(stream, s, o, raw) && o.hook.PostToolCall?
    ensures Stands(stream, s, o, spans, raw) <==> Applies(s, o, spans)
  {
    hide *;
    PostToolFirst(stream, s, o, spans, raw);
    ReadyParts(stream, s, o, raw);
    SoundParts(s);
    var matched := MatchSpan(o, spans).0;
    AppliesToCompletion(s, o, spans);
    if matched.Some? {
      LifecycleIs(s, o, matched.value);
      if Current(s, matched.value) {
        CurrentStands(stream, s, o, spans, raw, matched.value);
      } else {
        NotCurrent(s, o, matched.value);
        GapStandsNot(stream, s, o, spans, raw);
      }
    } else {
      GapStandsNot(stream, s, o, spans, raw);
    }
  }

  lemma GapStandsNot(stream: Stream, s: BrainState, o: Observation, spans: seq<Span>, raw: Event)
    ensures var plan := BuildPlan(stream, Observed(o), raw, Matched(Observed(o), spans).0, Forced(s, Observed(o), spans));
            plan.Ok? && plan.value.status.GapStatus? ==> !Stands(stream, s, o, spans, raw)
  {
    hide BuildPlan, Matched, Forced, Sequenced;
  }

  lemma NotCurrent(s: BrainState, o: Observation, span: Span)
    ensures !Current(s, span) ==> !Completes(s, o, span)
  {
    hide Current;
  }

  lemma AppliesToCompletion(s: BrainState, o: Observation, spans: seq<Span>)
    requires o.hook.PostToolCall?
    ensures var matched := MatchSpan(o, spans).0;
            Applies(s, o, spans) <==> matched.Some? && Completes(s, o, matched.value)
  {
    hide MatchSpan, Completes;
  }

  // A matched span with its action in place: the plan stands exactly when the
  // status has a verdict that can be recorded.
  lemma CurrentStands(stream: Stream, s: BrainState, o: Observation, spans: seq<Span>, raw: Event, span: Span)
    requires Ready(stream, s, o, raw) && o.hook.PostToolCall? && MatchSpan(o, spans).0 == Some(span) && Current(s, span)
    requires BuildPlan(stream, Observed(o), raw, Matched(Observed(o), spans).0, Forced(s, Observed(o), spans)) ==
             PostToolPlan(stream, o, raw, Some(span))
    ensures Stands(stream, s, o, spans, raw) <==> Completes(s, o, span)
  {
    hide *;
    MatchedFits(stream, o, spans, raw, span, s);
    StandsIs(stream, s, o, spans, raw);
    if v: Verdict :| Means(o.status, o.errorType, v) {
      PostToolTells(stream, o, raw, span, v);
      CompletesIs(s, o, span, v);
      if !(span.closed.Some? && v.Refused?) {
        VerdictTaken(stream, s, o, raw, span, v);
      }
    } else {
      assert forall v: Verdict :: !Means(o.status, o.errorType, v);
      PostToolGaps(stream, o, raw, span);
      NoVerdict(s, o, span);
    }
  }

  lemma StandsIs(stream: Stream, s: BrainState, o: Observation, spans: seq<Span>, raw: Event)
    ensures var first := BuildPlan(stream, Observed(o), raw, Matched(Observed(o), spans).0, Forced(s, Observed(o), spans));
            Stands(stream, s, o, spans, raw) <==>
            first.Ok? && first.value.status.Applied? && Sequenced(s, [raw] + first.value.events).Ok?
  {
    hide BuildPlan, Matched, Forced, Sequenced;
  }

  lemma NoVerdict(s: BrainState, o: Observation, span: Span)
    requires forall v: Verdict :: !Means(o.status, o.errorType, v)
    ensures !Completes(s, o, span)
  {
    hide Means, Current;
  }

  lemma CompletesIs(s: BrainState, o: Observation, span: Span, v: Verdict)
    requires Current(s, span) && Means(o.status, o.errorType, v)
    ensures Completes(s, o, span) <==> !(span.closed.Some? && v.Refused?)
  {
    forall w: Verdict | Means(o.status, o.errorType, w) ensures w == v {
      OneMeaning(o.status, o.errorType, v, w);
    }
    hide Means, Current;
  }

  lemma MatchedFits(stream: Stream, o: Observation, spans: seq<Span>, raw: Event, span: Span, s: BrainState)
    requires o.hook.PostToolCall? && MatchSpan(o, spans).0 == Some(span) && Current(s, span)
    ensures PostToolPlan(stream, o, raw, Some(span)).Ok?
  {
    MatchMeaning(o, spans);
    hide MatchSpan, ReadStatus, GapPlan, TerminalEvents;
  }

  // The reducer takes the plan.
  lemma VerdictTaken(stream: Stream, s: BrainState, o: Observation, raw: Event, span: Span, v: Verdict)
    requires Ready(stream, s, o, raw) && Current(s, span) && Means(o.status, o.errorType, v)
    requires !(span.closed.Some? && v.Refused?) && PostToolPlan(stream, o, raw, Some(span)).Ok?
    ensures Sequenced(s, [raw] + PostToolPlan(stream, o, raw, Some(span)).value.events).Ok?
  {
    hide *;
    ReadyParts(stream, s, o, raw);
    ReadIsMeant(o.status, o.errorType);
    var a := CurrentAction(s, span);
    ScreenedAction(s, a);
    var late := span.closed.Some?;
    ReadingFor(o, v);
    PlanFor(stream, o, raw, span);
    TerminalAttempt(stream, s, o, raw, a, late);
  }

  lemma ReadingFor(o: Observation, v: Verdict)
    requires Means(o.status, o.errorType, v)
    ensures !ReadStatus(o.status, o.errorType).Unclear?
    ensures !v.Refused? ==> ReadStatus(o.status, o.errorType).Executed?
    ensures v.Refused? ==> ReadStatus(o.status, o.errorType).Prevented?
  {
    ReadIsMeant(o.status, o.errorType);
    hide Means, ReadStatus;
  }

  lemma PlanFor(stream: Stream, o: Observation, raw: Event, span: Span)
    requires PostToolPlan(stream, o, raw, Some(span)).Ok? && !ReadStatus(o.status, o.errorType).Unclear?
    requires !(span.closed.Some? && ReadStatus(o.status, o.errorType).Prevented?)
    ensures span.actionId.Some?
    ensures PostToolPlan(stream, o, raw, Some(span)).value.events ==
            TerminalEvents(stream, o, raw, span.actionId.value, ReadStatus(o.status, o.errorType), span.closed.Some?)
  {
    hide ReadStatus, TerminalEvents, GapPlan;
  }

  lemma CurrentAction(s: BrainState, span: Span) returns (a: Actions.ActionRecord)
    requires Current(s, span)
    ensures a in s.actions && span.actionId == Some(a.actionId) && Actions.Blocked !in a.phaseHistory
    ensures if span.closed.None? then a.phase == Actions.Prepared
            else a.phase == Actions.Receipt || a.phase == Actions.Reconstructed
  {
    a :| a in s.actions && a.actionId == span.actionId.value && Awaits(a, span);
  }

  /* ---------------- the other hooks ---------------- */

  lemma OtherFirst(stream: Stream, s: BrainState, o: Observation, spans: seq<Span>, raw: Event)
    requires !o.hook.PreToolCall? && !o.hook.PostToolCall?
    ensures var matched, plan := MatchSpan(o, spans).0,
              BuildPlan(stream, Observed(o), raw, Matched(Observed(o), spans).0, Forced(s, Observed(o), spans));
            && (CapacityGap(Observed(o), spans).Some? ==> plan.Ok? && plan.value.status.GapStatus?)
            && (CapacityGap(Observed(o), spans).None? && MatchSpan(o, spans).1.None? ==>
                  plan == AttributedPlan(stream, o, raw, matched))
            && (MatchSpan(o, spans).1.Some? ==> plan.Ok? && plan.value.status.GapStatus?)
  {
    hide MatchSpan, GapPlan, AttributedPlan, CapacityGap;
    if Forced(s, Observed(o), spans).Some? {
      ForcedIsGap(stream, o, raw, MatchSpan(o, spans).0, Forced(s, Observed(o), spans).value);
    }
  }

  lemma PlainTaken(stream: Stream, s: BrainState, o: Observation, raw: Event)
    requires Ready(stream, s, o, raw)
    ensures Sequenced(s, [raw] + [Attributed(stream, o, raw)]).Ok?
  {
    hide *;
    ReadyParts(stream, s, o, raw);
    AttributedIsPlain(stream, o, raw);
    PlainAttempt(stream, s, raw, [Attributed(stream, o, raw)]);
  }

  // API requests and their completions.
  lemma ApiStands(stream: Stream, s: BrainState, o: Observation, spans: seq<Span>, raw: Event)
    requires Ready(stream, s, o, raw) && |spans| <= MAX_HERMES_SPANS_PER_STREAM
    requires o.hook.PreApiRequest? || o.hook.PostApiRequest? || o.hook.ApiRequestError?
    requires !(Anonymous(Observed(o)) && CapacityGap(Observed(o), spans).None?)
    ensures Stands(stream, s, o, spans, raw) <==> Applies(s, o, spans)
  {
    hide *;
    OtherFirst(stream, s, o, spans, raw);
    ApiObserved(o);
    NoSlot(Observed(o), spans);
    SpanTableMatch(o, spans);
    PlainTaken(stream, s, o, raw);
    ApiPlan(stream, o, spans, raw);
    StandsIs(stream, s, o, spans, raw);
    ApiApplies(s, o, spans);
  }

  lemma ApiObserved(o: Observation)
    ensures o.hook.PostApiRequest? || o.hook.ApiRequestError? ==> !Anonymous(Observed(o))
  {
  }

  lemma ApiApplies(s: BrainState, o: Observation, spans: seq<Span>)
    requires o.hook.PreApiRequest? || o.hook.PostApiRequest? || o.hook.ApiRequestError?
    ensures Applies(s, o, spans) <==> if o.hook.PreApiRequest? then !Full(spans) else MatchSpan(o, spans).0.Some?
    ensures o.hook.PreApiRequest? ==> MatchSpan(o, spans) == (None, None)
  {
    hide Full, Filter;
  }

  lemma ApiPlan(stream: Stream, o: Observation, spans: seq<Span>, raw: Event)
    requires o.hook.PreApiRequest? || o.hook.PostApiRequest? || o.hook.ApiRequestError?
    ensures var plan := AttributedPlan(stream, o, raw, MatchSpan(o, spans).0);
            if o.hook.PreApiRequest? then
              plan.Ok? <==> !Anonymous(Observed(o))
            else plan.Ok? && (plan.value.status.Applied? <==> MatchSpan(o, spans).0.Some?)
    ensures var plan := AttributedPlan(stream, o, raw, MatchSpan(o, spans).0);
            plan.Ok? ==>
              (o.hook.PreApiRequest? ==> plan.value.status.Applied?) &&
              (plan.value.status.Applied? ==> plan.value.events == [Attributed(stream, o, raw)])
  {
    if !o.hook.PreApiRequest? {
      MatchMeaning(o, spans);
    }
    hide MatchSpan, GapPlan, Attributed;
  }

  // A subagent that starts is registered, if the identity has room for it.
  lemma SubagentStands(stream: Stream, s: BrainState, o: Observation, spans: seq<Span>, raw: Event)
    requires Ready(stream, s, o, raw) && o.hook.SubagentStart?
    ensures Stands(stream, s, o, spans, raw) <==> Applies(s, o, spans)
  {
    hide *;
    StandsIs(stream, s, o, spans, raw);
    SubagentFirst(stream, s, o, spans, raw);
    SubagentTaken(stream, s, o, raw);
    SubagentApplies(s, o, spans);
  }

  lemma SubagentFirst(stream: Stream, s: BrainState, o: Observation, spans: seq<Span>, raw: Event)
    requires o.hook.SubagentStart?
    ensures BuildPlan(stream, Observed(o), raw, Matched(Observed(o), spans).0, Forced(s, Observed(o), spans)) ==
            Ok(Plan(PlanStatus.Applied, [Registered(stream, o, raw), Attributed(stream, o, raw)], None, None))
  {
    hide Registered, Attributed, Filter;
  }

  lemma SubagentApplies(s: BrainState, o: Observation, spans: seq<Span>)
    requires o.hook.SubagentStart?
    ensures Applies(s, o, spans) <==>
            Keyed.Has(Identity.Id, s.identity.actors, ChildActor(o)) || |s.identity.actors| < MAX_IDENTITY_ACTORS
  {
    hide MatchSpan, Keyed.Has, ChildActor;
  }

  lemma SubagentTaken(stream: Stream, s: BrainState, o: Observation, raw: Event)
    requires Ready(stream, s, o, raw)
    ensures Sequenced(s, [raw] + [Registered(stream, o, raw), Attributed(stream, o, raw)]).Ok? <==>
            Keyed.Has(Identity.Id, s.identity.actors, ChildActor(o)) || |s.identity.actors| < MAX_IDENTITY_ACTORS
  {
    hide *;
    var e1, e2 := Registered(stream, o, raw), Attributed(stream, o, raw);
    ReadyParts(stream, s, o, raw);
    PlainNext(s, raw);
    SequencedCons(s, raw, [e1, e2]);
    var t := Next(s, raw).value;
    SameBrain(stream, s, t, raw);
    SequencedCons(t, e1, [e2]);
    assert [e1] + [e2] == [e1, e2];
    SameActors(s, raw);
    RegistrationTaken(t, stream, o, raw);
    if Next(t, e1).Ok? {
      AttributedIsPlain(stream, o, raw);
      BoundFields(stream, t, raw);
      RegisteredNext(t, stream, o, raw);
      PlainSequence(Next(t, e1).value, [e2]);
    }
  }

  lemma SameActors(s: BrainState, raw: Event)
    requires Plain(raw.kind) && Next(s, raw).Ok?
    ensures Next(s, raw).value.identity.actors == s.identity.actors
  {
    var f := At(raw, s.lastSequence + 1);
    NextIs(s, raw);
    RunTotals.ActorsExact(s, f, Identity.ActorRecord(s.brainId, Identity.SelfActor, None, None, map[]));
    hide ReduceState;
  }

  // The child is registered unless it is new and the identity is full.
  lemma ChildDecided(s: BrainState, stream: Stream, o: Observation, raw: Event, n: nat)
    requires Bound(stream, s, raw) && Identity.SelfBoundary(s.identity) && s.identity.selfActorId == s.brainId
    ensures Identity.ReduceIdentity(s.identity, At(Registered(stream, o, raw), n)).Ok? <==>
            Keyed.Has(Identity.Id, s.identity.actors, ChildActor(o)) || |s.identity.actors| < MAX_IDENTITY_ACTORS
  {
    var p := Registered(stream, o, raw).payload;
    assert GetText(p, ACTOR_ID) == Some(ChildActor(o)) && Get(p, KIND) == Str(EXTERNAL_AGENT);
    assert Get(p, DISPLAY_NAME) == Null && Get(p, PARENT_ACTOR_ID) == Str(stream.brainId);
    assert GetOr(p, ATTRIBUTES, Obj(map[])).Obj?;
    assert Identity.KindOf(Str(EXTERNAL_AGENT)) == Some(Identity.ExternalAgent);
    hide Keyed.Upsert, Keyed.Has, Identity.SelfBoundary;
  }

  lemma RegistrationTaken(s: BrainState, stream: Stream, o: Observation, raw: Event)
    requires Sound(s) && Bound(stream, s, raw)
    ensures Next(s, Registered(stream, o, raw)).Ok? <==>
            Keyed.Has(Identity.Id, s.identity.actors, ChildActor(o)) || |s.identity.actors| < MAX_IDENTITY_ACTORS
  {
    hide *;
    var n := s.lastSequence + 1;
    var e := Registered(stream, o, raw);
    var f := At(e, n);
    RegisteredFields(stream, o, raw);
    BoundFields(stream, s, raw);
    AtFields(e, n);
    OwnAddressed(s, e);
    SoundParts(s);
    InvFits(s);
    ChildDecided(s, stream, o, raw, n);
    ChildRegisters(s, stream, o, raw, n);
    RegistrationDecided(s, f);
    NextIs(s, e);
  }

  /* ---------------- every committed record ---------------- */

  lemma PlainHooks(stream: Stream, s: BrainState, o: Observation, spans: seq<Span>, raw: Event)
    requires Ready(stream, s, o, raw)
    requires !o.hook.PreToolCall? && !o.hook.PostToolCall? && !o.hook.PreApiRequest? && !o.hook.PostApiRequest? &&
             !o.hook.ApiRequestError? && !o.hook.SubagentStart?
    ensures Stands(stream, s, o, spans, raw) && Applies(s, o, spans)
  {
    StandsIs(stream, s, o, spans, raw);
    PlainTaken(stream, s, o, raw);
    PlainFirst(stream, s, o, spans, raw);
    hide BuildPlan, Forced, Matched, Sequenced, Stands, Ready, Attributed, MatchSpan;
  }

  lemma PlainFirst(stream: Stream, s: BrainState, o: Observation, spans: seq<Span>, raw: Event)
    requires !o.hook.PreToolCall? && !o.hook.PostToolCall? && !o.hook.PreApiRequest? && !o.hook.PostApiRequest? &&
             !o.hook.ApiRequestError? && !o.hook.SubagentStart?
    ensures BuildPlan(stream, Observed(o), raw, Matched(Observed(o), spans).0, Forced(s, Observed(o), spans)) ==
            Ok(Plan(PlanStatus.Applied, [Attributed(stream, o, raw)], None, None))
  {
    hide Attributed, Filter;
  }

  lemma HookStands(stream: Stream, s: BrainState, o: Observation, spans: seq<Span>, raw: Event)
    requires Ready(stream, s, o, raw) && |spans| <= MAX_HERMES_SPANS_PER_STREAM
    requires !(Anonymous(Observed(o)) && CapacityGap(Observed(o), spans).None?)
    ensures Stands(stream, s, o, spans, raw) <==> Applies(s, o, spans)
  {
    hide *;
    match o.hook
    case PreToolCall => PreToolStands(stream, s, o, spans, raw);
    case PostToolCall => PostToolStands(stream, s, o, spans, raw);
    case PreApiRequest => ApiStands(stream, s, o, spans, raw);
    case PostApiRequest => ApiStands(stream, s, o, spans, raw);
    case ApiRequestError => ApiStands(stream, s, o, spans, raw);
    case SubagentStart => SubagentStands(stream, s, o, spans, raw);
    case _ => PlainHooks(stream, s, o, spans, raw);
  }

  // A committed record is applied exactly when it is an observation whose hook
  // finds what it needs: a slot for its span, a slot for its action, its own
  // span, the span's action in place and a verdict for it, or a place for the
  // actor.  Everything else is recorded as a gap.
  lemma StatusExact(stream: Stream, s: BrainState, record: Record, spans: seq<Span>, rawId: Text)
    requires Sound(s) && Binding(stream, s, record, rawId) && |spans| <= MAX_HERMES_SPANS_PER_STREAM
    requires Commit(stream, s, record, spans, rawId).Ok?
    ensures Commit(stream, s, record, spans, rawId).value.plan.status.Applied? <==>
            record.Observed? && Applies(s, record.o, spans)
  {
    hide *;
    var raw := RawEvent(stream, record, rawId);
    FirstPlanStands(stream, s, record, spans, rawId);
    CommitExact(stream, s, record, spans, rawId);
    BindingParts(stream, s, record, rawId);
    RecordFirst(stream, s, record, spans, raw);
    if record.Observed? {
      ReadyWhole(stream, s, record.o, raw);
      HookStands(stream, s, record.o, spans, raw);
    }
  }

  lemma ReadyWhole(stream: Stream, s: BrainState, o: Observation, raw: Event)
    requires Sound(s) && Bound(stream, s, raw) && stream.brainId == s.brainId && Plain(raw.kind) && raw.brainId == s.brainId
    requires (forall a :: a in s.actions ==> !Blank(a.actionId))
    requires !Keyed.Has(Actions.Id, s.actions, ActionIdFor(raw, o.captureSeq))
    ensures Ready(stream, s, o, raw)
  {
    hide Sound, Bound, Plain, Blank, Keyed.Has, ActionIdFor;
  }

  lemma RecordFirst(stream: Stream, s: BrainState, record: Record, spans: seq<Span>, raw: Event)
    ensures var first := BuildPlan(stream, record, raw, Matched(record, spans).0, Forced(s, record, spans));
            && (record.Gap? ==> first.Ok? && first.value.status.GapStatus?)
            && (record.Observed? ==>
                  record == Observed(record.o) &&
                  (Stands(stream, s, record.o, spans, raw) <==>
                   first.Ok? && first.value.status.Applied? && Sequenced(s, [raw] + first.value.events).Ok?))
  {
    if record.Observed? {
      hide BuildPlan, Matched, Forced, Sequenced;
    }
  }
}
