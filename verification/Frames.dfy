// The frame that a commit projects and stores with its acknowledgement: its
// record budget and its own rule about semantic evidence, either of which
// would undo the commit (runtime/store.py, protocol/models.py).
module Frames {
  import opened Prelude
  import opened Values
  import opened Limits
  import opened State
  import opened Reducer
  import opened SemanticIngest
  import opened PlanAcceptance
  import opened SemanticCommit
  import opened StoreCommit
  import Personality
  import RunTotals

  const FRAME_PROJECTION_RECORD_BUDGET: nat :=
    MAX_PERSONALITY_VALUES_PER_LAYER * 3 * 4 + MAX_ENERGY_RECORDS * 3 + MAX_WORKSPACE_BROADCAST * 3 +
    MAX_THOUGHT_BRANCHES * 3 + MAX_ACTION_RECORDS * 8 + MAX_IDENTITY_ACTORS * 4 + MAX_PROVENANCE_AUTHORIZATIONS * 2 +
    MAX_MEMORY_RECORDS * 3 + MAX_CAPABILITIES * 3 + MAX_WORLD_PROPOSITIONS_PER_LAYER * 4 * 3 +
    MAX_COGNITION_REFLECTIONS * 2 + MAX_RAW_LIFECYCLE_KEYS * 2

  /* ---------------- observability and the frame ---------------- */

  // The row of a brain in brain_observability.
  datatype Evidence = Evidence(traceComplete: bool, semanticComplete: bool, dropped: nat, records: nat, legacy: nat,
                               gaps: nat)

  const NEW_BRAIN := Evidence(true, true, 0, 0, 0, 0)

  function DroppedCount(record: Record): nat {
    if record.Gap? && record.first <= record.last then record.last - record.first + 1 else 0
  }

  function GapCount(plan: Plan): nat {
    if plan.status.GapStatus? then 1 else 0
  }

  // _record_semantic_observability
  function AfterRecord(v: Evidence, record: Record, plan: Plan): Evidence {
    Evidence(v.traceComplete && GapCount(plan) == 0, v.semanticComplete && plan.status.Applied?,
             v.dropped + DroppedCount(record), v.records + 1, v.legacy, v.gaps + GapCount(plan))
  }

  // An event appended without a record; _record_unbounded_gap_observability.
  function AfterEvent(v: Evidence, e: Event): Evidence {
    if RunTotals.IsGap(e) then v.(traceComplete := false, semanticComplete := false, gaps := v.gaps + 1) else v
  }

  datatype Frame = Frame(traceComplete: bool, aggregateComplete: bool, dropped: nat, records: nat, legacy: nat, gaps: nat,
                         visited: nat)

  // How many records _project_bridge_frame goes through.
  function Visited(s: BrainState): nat {
    var p := s.personality.values;
    (Personality.Size(p.traits) + Personality.Size(p.adaptations) + Personality.Size(p.narrativeIdeal)) * 4 +
    |s.energies| * 3 + |s.workspace.broadcast| * 3 + |s.thoughts| * 3 + |s.actions| * 8 + |s.identity.actors| * 4 +
    |s.identity.authorizations| * 2 + |s.memories| * 3 + |s.capabilities| * 3 +
    (|s.world.observed| + |s.world.believed| + |s.world.simulated| + |s.world.ideal|) * 3 +
    |s.reflections| * 2 + |s.rawCounts| * 2
  }

  // _semantic_frame_evidence_in_transaction, with the record in preparation,
  // and the fields of the frame that a rule speaks of.
  function FrameOf(successor: BrainState, v: Evidence, record: Record, plan: Plan): Frame {
    Frame(successor.traceComplete, v.traceComplete && v.semanticComplete && plan.status.Applied?,
          v.dropped + DroppedCount(record), v.records + 1, v.legacy, v.gaps + GapCount(plan), Visited(successor))
  }

  predicate Truthful(aggregate: bool, trace: bool, dropped: nat, records: nat, legacy: nat, gaps: nat) {
    && aggregate == (trace && legacy == 0 && gaps == 0)
    && legacy <= records
    && (dropped > 0 ==> gaps > 0)
  }

  // ConsciousnessFrameV3 with FrameSemanticEvidenceV1, and the budget.
  predicate FrameOk(f: Frame) {
    && Truthful(f.aggregateComplete, f.traceComplete, f.dropped, f.records, f.legacy, f.gaps)
    && f.visited <= FRAME_PROJECTION_RECORD_BUDGET
  }

  // The row says of the brain what a frame must say.
  predicate Consistent(s: BrainState, v: Evidence) {
    Truthful(v.traceComplete && v.semanticComplete, s.traceComplete, v.dropped, v.records, v.legacy, v.gaps)
  }

  /* ---------------- the budget ---------------- */

  lemma ValidFits(s: BrainState)
    requires Valid(s)
    ensures Visited(s) <= FRAME_PROJECTION_RECORD_BUDGET
  {
    ActsFit(s);
    SelfFits(s);
    RestFits(s);
    hide Valid;
  }

  lemma ActsFit(s: BrainState)
    requires Valid(s)
    ensures |s.energies| <= MAX_ENERGY_RECORDS && |s.actions| <= MAX_ACTION_RECORDS
    ensures |s.thoughts| <= MAX_THOUGHT_BRANCHES && |s.reflections| <= MAX_COGNITION_REFLECTIONS
    ensures |s.memories| <= MAX_MEMORY_RECORDS && |s.capabilities| <= MAX_CAPABILITIES
    ensures |s.rawCounts| <= MAX_RAW_LIFECYCLE_KEYS
  {
    hide IdentityOk, PersonalityOk, WorldOk, NameOk;
  }

  lemma SelfFits(s: BrainState)
    requires Valid(s)
    ensures |s.identity.actors| <= MAX_IDENTITY_ACTORS && |s.identity.authorizations| <= MAX_PROVENANCE_AUTHORIZATIONS
    ensures var p := s.personality.values;
            && Personality.Size(p.traits) <= MAX_PERSONALITY_VALUES_PER_LAYER
            && Personality.Size(p.adaptations) <= MAX_PERSONALITY_VALUES_PER_LAYER
            && Personality.Size(p.narrativeIdeal) <= MAX_PERSONALITY_VALUES_PER_LAYER
  {
    hide WorldOk, ActionsOk, EnergiesOk, MemoriesOk, RawCountsOk, NameOk;
  }

  lemma RestFits(s: BrainState)
    requires Valid(s)
    ensures |s.workspace.broadcast| <= MAX_WORKSPACE_BROADCAST
    ensures |s.world.observed| <= MAX_WORLD_PROPOSITIONS_PER_LAYER
    ensures |s.world.believed| <= MAX_WORLD_PROPOSITIONS_PER_LAYER
    ensures |s.world.simulated| <= MAX_WORLD_PROPOSITIONS_PER_LAYER
    ensures |s.world.ideal| <= MAX_WORLD_PROPOSITIONS_PER_LAYER
  {
    hide IdentityOk, PersonalityOk, ActionsOk, EnergiesOk, MemoriesOk, RawCountsOk, NameOk;
  }

  /* ---------------- gaps of a batch ---------------- */

  predicate HasGap(events: seq<Event>) {
    exists i :: 0 <= i < |events| && RunTotals.IsGap(events[i])
  }

  lemma {:induction false} NumberedGaps(events: seq<Event>, from: nat)
    ensures RunTotals.Many(Numbered(events, from), RunTotals.IsGap) > 0 <==> HasGap(events)
    decreases |events|
  {
    if events != [] {
      var rest := events[1..];
      NumberedGaps(rest, from + 1);
      var numbered := Numbered(events, from);
      assert numbered[1..] == Numbered(rest, from + 1) && numbered[0].kind == events[0].kind;
      assert forall i :: 0 <= i < |rest| ==> rest[i] == events[i + 1];
      assert forall i :: 0 < i < |events| ==> events[i] == rest[i - 1];
    }
  }

  lemma TotalsTrace(s: BrainState, t: RunTotals.Totals, events: seq<Event>)
    ensures RunTotals.TotalsOf(s).complete == s.traceComplete
    ensures RunTotals.Added(t, events).complete == (t.complete && RunTotals.Many(events, RunTotals.IsGap) == 0)
  {
    hide RunTotals.Many, RunTotals.Streak, RunTotals.HealthyAfter;
  }

  lemma BatchTrace(s: BrainState, events: seq<Event>)
    requires Sequenced(s, events).Ok?
    ensures Sequenced(s, events).value.traceComplete == (s.traceComplete && !HasGap(events))
  {
    var numbered := Numbered(events, s.lastSequence + 1);
    SequencedIs(s, events);
    hide *;
    RunTotals.RunAddsUp(s, numbered);
    TotalsTrace(s, RunTotals.TotalsOf(s), numbered);
    TotalsTrace(Sequenced(s, events).value, RunTotals.TotalsOf(s), []);
    NumberedGaps(events, s.lastSequence + 1);
  }

  lemma SequencedIs(s: BrainState, events: seq<Event>)
    ensures Sequenced(s, events) == ReduceMany(s, Numbered(events, s.lastSequence + 1))
  {
    hide ReduceMany, Numbered;
  }

  lemma EventTrace(s: BrainState, e: Event)
    requires ReduceState(s, e).Ok?
    ensures ReduceState(s, e).value.traceComplete == (s.traceComplete && !RunTotals.IsGap(e))
  {
    hide *;
    RunTotals.StepTotals(s, e);
    TotalsTrace(s, RunTotals.TotalsOf(s), [e]);
    TotalsTrace(ReduceState(s, e).value, RunTotals.TotalsOf(s), []);
    OneGap(e);
  }

  lemma OneGap(e: Event)
    ensures RunTotals.Many([e], RunTotals.IsGap) == if RunTotals.IsGap(e) then 1 else 0
  {
    assert [e][1..] == [];
  }

  // A plan is one of a gap exactly when its batch says so in the ledger.
  lemma PlanHasGap(stream: Stream, record: Record, raw: Event, matched: Option<Span>, used: Option<Text>, plan: Plan)
    requires BuildPlan(stream, record, raw, matched, used) == Ok(plan)
    requires raw.kind == RawEvent(stream, record, raw.eventId).kind
    ensures plan.status.GapStatus? <==> HasGap([raw] + plan.events)
    ensures record.Gap? ==> plan.status.GapStatus?
  {
    hide BuildPlan, HasGap, RunTotals.IsGap;
    BatchHasGap(raw, plan.events);
    RawGap(stream, record, raw);
    if record.Gap? {
      GapRecordPlan(stream, record, raw, matched, used);
    } else if plan.status.GapStatus? {
      GapStatusPlan(stream, record.o, raw, matched, used);
    } else {
      AppliedPlan(stream, record, raw, matched, used);
    }
  }

  lemma BatchHasGap(raw: Event, events: seq<Event>)
    ensures HasGap([raw] + events) <==> RunTotals.IsGap(raw) || HasGap(events)
    ensures |events| == 1 && events[0].kind.SemanticGap? ==> HasGap(events)
    ensures (forall i :: 0 <= i < |events| ==> !RunTotals.IsGap(events[i])) ==> !HasGap(events)
  {
    var all := [raw] + events;
    assert all[0] == raw;
    forall i | 0 <= i < |events| ensures all[i + 1] == events[i] {
    }
    if |events| == 1 && events[0].kind.SemanticGap? {
      assert RunTotals.IsGap(events[0]);
    }
    hide RunTotals.IsGap;
    if i :| 0 <= i < |all| && RunTotals.IsGap(all[i]) {
      assert i > 0 ==> all[i] == events[i - 1];
    }
  }

  lemma RawGap(stream: Stream, record: Record, raw: Event)
    requires raw.kind == RawEvent(stream, record, raw.eventId).kind
    ensures RunTotals.IsGap(raw) <==> record.Gap?
  {
  }

  lemma GapRecordPlan(stream: Stream, record: Record, raw: Event, matched: Option<Span>, used: Option<Text>)
    requires record.Gap?
    ensures BuildPlan(stream, record, raw, matched, used) == Ok(Plan(GapStatus, [], None, None))
  {
  }

  lemma GapStatusPlan(stream: Stream, o: Observation, raw: Event, matched: Option<Span>, used: Option<Text>)
    requires BuildPlan(stream, Observed(o), raw, matched, used).Ok?
    requires BuildPlan(stream, Observed(o), raw, matched, used).value.status.GapStatus?
    ensures var events := BuildPlan(stream, Observed(o), raw, matched, used).value.events;
            |events| == 1 && events[0].kind.SemanticGap?
  {
    hide TerminalEvents, Registered, Attributed, ReadStatus;
  }

  lemma AppliedPlan(stream: Stream, record: Record, raw: Event, matched: Option<Span>, used: Option<Text>)
    requires BuildPlan(stream, record, raw, matched, used).Ok?
    requires BuildPlan(stream, record, raw, matched, used).value.status.Applied?
    ensures record.Observed?
    ensures var events := BuildPlan(stream, record, raw, matched, used).value.events;
            forall i :: 0 <= i < |events| ==> !RunTotals.IsGap(events[i])
  {
    RegisteredFields(stream, record.o, raw);
    hide Registered, ReadStatus;
  }

  /* ---------------- every commit ---------------- */

  // The frame of a commit always meets its own rules, so neither ever undoes
  // one; and the row goes on telling the truth.
  lemma CommitFrames(stream: Stream, s: BrainState, record: Record, spans: seq<Span>, rawId: Text, v: Evidence)
    requires Consistent(s, v) && Commit(stream, s, record, spans, rawId).Ok?
    ensures var c := Commit(stream, s, record, spans, rawId).value;
            && Consistent(c.successor, AfterRecord(v, record, c.plan))
            && (Sound(s) && Binding(stream, s, record, rawId) ==> FrameOk(FrameOf(c.successor, v, record, c.plan)))
  {
    var c := Commit(stream, s, record, spans, rawId).value;
    var raw := RawEvent(stream, record, rawId);
    var used := CommitIs(stream, s, record, spans, rawId);
    RawIs(stream, record, rawId);
    hide *;
    PlanHasGap(stream, record, raw, Matched(record, spans).0, used, c.plan);
    BatchTrace(s, [raw] + c.plan.events);
    EvidenceKept(s, v, record, c.plan, c.successor);
    if Sound(s) && Binding(stream, s, record, rawId) {
      CommitExact(stream, s, record, spans, rawId);
      SoundParts(c.successor);
      InvIsValid(c.successor);
      ValidFits(c.successor);
      FrameIs(s, v, record, c.plan, c.successor);
    }
  }

  lemma RawIs(stream: Stream, record: Record, rawId: Text)
    ensures var raw := RawEvent(stream, record, rawId); raw.kind == RawEvent(stream, record, raw.eventId).kind
  {
  }

  lemma EvidenceKept(s: BrainState, v: Evidence, record: Record, plan: Plan, successor: BrainState)
    requires Consistent(s, v) && (record.Gap? ==> plan.status.GapStatus?)
    requires successor.traceComplete == (s.traceComplete && !plan.status.GapStatus?)
    ensures Consistent(successor, AfterRecord(v, record, plan))
  {
  }

  lemma FrameIs(s: BrainState, v: Evidence, record: Record, plan: Plan, successor: BrainState)
    requires Consistent(s, v) && (record.Gap? ==> plan.status.GapStatus?)
    requires successor.traceComplete == (s.traceComplete && !plan.status.GapStatus?)
    requires Visited(successor) <= FRAME_PROJECTION_RECORD_BUDGET
    ensures FrameOk(FrameOf(successor, v, record, plan))
  {
    hide Visited;
  }

  /* ---------------- runs ---------------- */

  // A brain with its row, under commits of any streams and other events.
  datatype Row = Row(brain: BrainState, evidence: Evidence)

  datatype Step =
    | RecordStep(stream: Stream, record: Record, spans: seq<Span>, rawId: Text)
    | EventStep(event: Event)

  function Do(r: Row, step: Step): Row {
    match step
    case RecordStep(stream, record, spans, rawId) =>
      var c := Commit(stream, r.brain, record, spans, rawId);
      if c.Ok? then Row(c.value.successor, AfterRecord(r.evidence, record, c.value.plan)) else r
    case EventStep(e) =>
      var x := ReduceState(r.brain, e);
      if x.Ok? then Row(x.value, AfterEvent(r.evidence, e)) else r
  }

  function Run(r: Row, steps: seq<Step>): Row
    decreases |steps|
  {
    if steps == [] then r else Run(Do(r, steps[0]), steps[1..])
  }

  lemma StepConsistent(r: Row, step: Step)
    requires Consistent(r.brain, r.evidence)
    ensures Consistent(Do(r, step).brain, Do(r, step).evidence)
  {
    match step
    case RecordStep(stream, record, spans, rawId) =>
      RecordConsistent(r, stream, record, spans, rawId);
    case EventStep(e) =>
      EventConsistent(r, e);
    hide *;
  }

  lemma RecordConsistent(r: Row, stream: Stream, record: Record, spans: seq<Span>, rawId: Text)
    requires Consistent(r.brain, r.evidence)
    ensures var z := Do(r, RecordStep(stream, record, spans, rawId)); Consistent(z.brain, z.evidence)
  {
    hide Commit, Consistent, Binding, Sound, FrameOk, FrameOf;
    if Commit(stream, r.brain, record, spans, rawId).Ok? {
      CommitFrames(stream, r.brain, record, spans, rawId, r.evidence);
    }
  }

  lemma EventConsistent(r: Row, e: Event)
    requires Consistent(r.brain, r.evidence)
    ensures var z := Do(r, EventStep(e)); Consistent(z.brain, z.evidence)
  {
    hide ReduceState;
    if ReduceState(r.brain, e).Ok? {
      EventTrace(r.brain, e);
    }
  }

  // Over every life of a brain its row agrees with its state.
  lemma {:induction false} RunConsistent(r: Row, steps: seq<Step>)
    requires Consistent(r.brain, r.evidence)
    ensures Consistent(Run(r, steps).brain, Run(r, steps).evidence)
    decreases |steps|
  {
    hide Consistent, Do;
    if steps != [] {
      StepConsistent(r, steps[0]);
      RunConsistent(Do(r, steps[0]), steps[1..]);
    }
  }

  lemma NewBrainConsistent(brainId: Text)
    ensures Consistent(Genesis(brainId), NEW_BRAIN)
  {
  }
}
