// Sequencing a plan and reducing it, as the store does when it commits one
// bridge record (runtime/store.py, commit_bridge_record).
module SemanticCommit {
  import opened Prelude
  import opened Values
  import opened Limits
  import opened State
  import opened Reducer
  import opened ReducerInvariant
  import opened ActionRuns
  import opened ReducerAcceptance
  import opened SemanticIngest
  import opened PlanAcceptance
  import Keyed
  import Actions
  import Identity
  import Personality
  import World
  import Workspace
  import Cognition
  import H = ActionHistory

  /* ---------------- numbering ---------------- */

  function At(e: Event, sequence: nat): Event {
    e.(sequence := Some(sequence))
  }

  // expected_sequence + offset
  function Numbered(events: seq<Event>, from: nat): (r: seq<Event>)
    ensures |r| == |events|
  {
    if events == [] then [] else [At(events[0], from)] + Numbered(events[1..], from + 1)
  }

  // sequence_and_reduce
  function Sequenced(s: BrainState, events: seq<Event>): Result<BrainState> {
    ReduceMany(s, Numbered(events, s.lastSequence + 1))
  }

  function Next(s: BrainState, e: Event): Result<BrainState> {
    ReduceState(s, At(e, s.lastSequence + 1))
  }

  lemma CommonSequence(s: BrainState, e: Event)
    requires Common(s, e).Ok?
    ensures Common(s, e).value.lastSequence == CountEvent(s, e).lastSequence
  {
    hide CountEvent, ApplyIdentity, ApplyPersonality, ApplyActions, ApplyWorld, ApplyWorkspace, ApplyMemory, Trusted;
    var s0 := CountEvent(s, e);
    IdentityFrame(s0, e);
    var s1 := ApplyIdentity(s0, e).value;
    PersonalityFrame(s1, e);
    var s2 := ApplyPersonality(s1, e).value;
    ActionsFrame(s2, e, Trusted(s, e));
    var (s3, grounded) := ApplyActions(s2, e, Trusted(s, e)).value;
    WorldFrame(s3, e, Trusted(s, e), grounded);
    var s4 := ApplyWorld(s3, e, Trusted(s, e), grounded).value;
    WorkspaceFrame(s4, e);
    MemoryFrame(ApplyWorkspace(s4, e).value, e);
  }

  lemma SpecificSequence(c: BrainState, e: Event)
    requires ApplySpecific(c, e).Ok?
    ensures ApplySpecific(c, e).value.lastSequence == c.lastSequence
    ensures ApplySpecific(c, e).value.brainId == c.brainId
  {
    hide ApplyTick, ApplyCapabilities, ApplyReassessment, ApplyAssessment, ApplySimulation, ApplyReflection,
         ApplyFailure, Get, Blank;
    match e.kind
    case ClockTick => TickFrame(c, e);
    case CapabilitiesReported => CapabilitiesFrame(c, e);
    case EnergyRequested => if ApplySpecific(c, e) != Ok(c) { ReassessmentFrame(c, e); }
    case EnergyAssessed => AssessmentFrame(c, e);
    case SimulationCreated => SimulationFrame(c, e);
    case CognitionReflected => ReflectionFrame(c, e);
    case RuntimeFailed => FailureFrame(c, e);
    case _ =>
  }

  lemma CountedSequence(s: BrainState, e: Event)
    ensures CountEvent(s, e).lastSequence == if e.sequence.Some? then e.sequence.value else s.lastSequence
  {
    hide InsertCount, Increment;
  }

  // An accepted sequenced event becomes the newest one.
  lemma SequenceAdvances(s: BrainState, e: Event)
    requires ReduceState(s, e).Ok? && e.sequence.Some?
    ensures ReduceState(s, e).value.lastSequence == s.lastSequence + 1
    ensures ReduceState(s, e).value.brainId == s.brainId
  {
    hide Common, ApplySpecific, CountEvent;
    CountedSequence(s, e);
    CommonSequence(s, e);
    CommonActors(s, e);
    SpecificSequence(Common(s, e).value, e);
  }

  // Numbering ahead of time is numbering each event when its turn comes.
  lemma {:induction false} SequencedStep(s: BrainState, events: seq<Event>)
    requires events != []
    ensures Sequenced(s, events) ==
            (var next := Next(s, events[0]); if next.Err? then next else Sequenced(next.value, events[1..]))
  {
    hide ReduceState, Addressed;
    var n := Numbered(events, s.lastSequence + 1);
    assert n[0] == At(events[0], s.lastSequence + 1) && n[1..] == Numbered(events[1..], s.lastSequence + 2);
    if ReduceState(s, n[0]).Ok? {
      SequenceAdvances(s, n[0]);
    }
  }

  lemma SequencedNone(s: BrainState)
    ensures Sequenced(s, []) == Ok(s)
  {
  }

  /* ---------------- the derived simulation and registration ---------------- */

  predicate Bound(stream: Stream, s: BrainState, raw: Event) {
    stream.brainId == s.brainId && !stream.brainId.Join? && !Blank(raw.eventId)
  }

  lemma OwnAddressed(s: BrainState, e: Event)
    requires e.brainId == s.brainId
    ensures Addressed(s, At(e, s.lastSequence + 1))
  {
  }

  predicate Describes(p: Payload, o: Observation, branch: Text, rawId: Text) {
    && HasField(p, PROPOSITION_ID, Str(branch)) && HasField(p, BRANCH_ID, Str(branch)) && HasField(p, STANCE, Str(SIMULATE))
    && HasField(p, COGNITION_MODE, Str(EVENT_MODE)) && HasField(p, ALGORITHM_VERSION, Str(SEMANTIC_V1))
    && HasField(p, CONFIG_VERSION, Str(SEMANTIC_V1)) && HasField(p, UNCERTAINTY, Float(0.5))
    && HasField(p, SOURCE_IDS, TextArray([rawId])) && CONFIDENCE !in p
    && CONTENT in p && p[CONTENT].Obj?
    && EXPECTED_CONSEQUENCES in p && p[EXPECTED_CONSEQUENCES].Arr? &&
       Cognition.AllObjects(p[EXPECTED_CONSEQUENCES].items)
  }

  lemma DescribedSimulation(e: Event, o: Observation, branch: Text, rawId: Text)
    requires Describes(e.payload, o, branch, rawId) && branch.Join? && !Blank(rawId)
    ensures World.Proposition(e, e.payload, World.Simulated, None).Ok?
    ensures Cognition.SimulationBranch(e.payload).Ok?
  {
    assert Workspace.SourceIdsOk([rawId]);
    hide Workspace.SourceIdsOk, Cognition.Objects, Cognition.AllObjects;
  }

  lemma SimulatedDescribes(o: Observation, raw: Event, branch: Text)
    ensures Describes(SimulatedPayload(o, raw, branch), o, branch, raw.eventId)
  {
    hide TextArray;
  }

  lemma SimulationAcceptable(s: BrainState, e: Event)
    requires e.kind.SimulationCreated? && |s.actions| <= MAX_ACTION_RECORDS
    requires World.Proposition(e, e.payload, World.Simulated, None).Ok?
    ensures Acceptable(s, e)
    ensures Actions.ReduceActions(s.actions, e, Trusted(s, e)) == Ok((s.actions, {}))
  {
    hide Trusted, FirstTerminal, World.Proposition, World.Upsert;
  }

  lemma SimulationTail(c: BrainState, e: Event)
    requires e.kind.SimulationCreated? && Cognition.SimulationBranch(e.payload).Ok?
    ensures ApplySpecific(c, e).Ok?
  {
    hide Cognition.SimulationBranch;
  }

  lemma SimulationAccepted(s: BrainState, e: Event)
    requires Sound(s) && Addressed(s, e) && e.kind.SimulationCreated?
    requires World.Proposition(e, e.payload, World.Simulated, None).Ok?
    requires Cognition.SimulationBranch(e.payload).Ok?
    ensures ReduceState(s, e).Ok?
    ensures ReduceState(s, e).value.actions == s.actions && Sound(ReduceState(s, e).value)
  {
    hide *;
    SoundParts(s);
    SimulationAcceptable(s, e);
    CommonExact(s, e);
    SimulationTail(Common(s, e).value, e);
    ReducedByTail(s, e);
    ReducedActions(s, e);
    RetainedAll(s.actions);
    SoundKept(s, e);
  }

  lemma RegistrationDecided(s: BrainState, e: Event)
    requires Sound(s) && Addressed(s, e) && e.kind.ActorRegistered?
    ensures Identity.ReduceIdentity(s.identity, e).Ok? ==>
              ReduceState(s, e).Ok? && ReduceState(s, e).value.actions == s.actions && Sound(ReduceState(s, e).value)
    ensures Identity.ReduceIdentity(s.identity, e) == Err(Capacity) ==> ReduceState(s, e) == Err(Capacity)
  {
    SoundParts(s);
    CountEventIdentity(s, e);
    hide Sound, Inv, Identity.ReduceIdentity, ApplySpecific, CountEvent, H.Lifecycle, Keyed.Unique;
    if Identity.ReduceIdentity(s.identity, e).Ok? {
      RegistrationAccepted(s, e);
      hide ReduceState;
      ReducedActions(s, e);
      NoAction(s.actions, e, Trusted(s, e));
      RetainedAll(s.actions);
      SoundKept(s, e);
    }
  }

  lemma NoAction(actions: seq<Actions.ActionRecord>, e: Event, trusted: bool)
    requires e.kind.ActorRegistered?
    ensures Actions.ReduceActions(actions, e, trusted) == Ok((actions, {}))
  {
  }

  lemma ChildRegisters(s: BrainState, stream: Stream, o: Observation, raw: Event, n: nat)
    requires Bound(stream, s, raw) && Identity.SelfBoundary(s.identity) && s.identity.selfActorId == s.brainId
    ensures var r := Identity.ReduceIdentity(s.identity, At(Registered(stream, o, raw), n));
            r.Ok? || r == Err(Capacity)
  {
    var p := Registered(stream, o, raw).payload;
    assert GetText(p, ACTOR_ID) == Some(ChildActor(o)) && Get(p, KIND) == Str(EXTERNAL_AGENT);
    assert Get(p, DISPLAY_NAME) == Null && Get(p, PARENT_ACTOR_ID) == Str(stream.brainId);
    assert GetOr(p, ATTRIBUTES, Obj(map[])).Obj?;
    assert Identity.KindOf(Str(EXTERNAL_AGENT)) == Some(Identity.ExternalAgent);
    hide Keyed.Upsert, Keyed.Has, Identity.SelfBoundary;
  }

  /* ---------------- one event at a time ---------------- */

  lemma AtFields(e: Event, n: nat)
    ensures var f := At(e, n);
            f.kind == e.kind && f.payload == e.payload && f.brainId == e.brainId && f.sequence == Some(n)
  {
  }

  lemma NextIs(s: BrainState, e: Event)
    ensures Next(s, e) == ReduceState(s, At(e, s.lastSequence + 1))
  {
    hide ReduceState;
  }

  lemma PlainNext(s: BrainState, e: Event)
    requires Sound(s) && e.brainId == s.brainId && Plain(e.kind)
    ensures Next(s, e).Ok?
    ensures Next(s, e).value.actions == s.actions && Sound(Next(s, e).value) && Next(s, e).value.brainId == s.brainId
  {
    hide *;
    var f := At(e, s.lastSequence + 1);
    AtFields(e, s.lastSequence + 1);
    OwnAddressed(s, e);
    NextIs(s, e);
    PlainAccepted(s, f);
    SequenceAdvances(s, f);
  }

  lemma SimulatedFields(stream: Stream, o: Observation, raw: Event)
    ensures var e := Simulated(stream, o, raw);
            && e.kind.SimulationCreated? && e.brainId == stream.brainId
            && e.payload == SimulatedPayload(o, raw, BranchIdFor(ActionIdFor(raw, o.captureSeq)))
    ensures BranchIdFor(ActionIdFor(raw, o.captureSeq)).Join?
  {
    hide SimulatedPayload;
  }

  lemma BoundFields(stream: Stream, s: BrainState, raw: Event)
    requires Bound(stream, s, raw)
    ensures stream.brainId == s.brainId && !Blank(raw.eventId)
  {
    hide Blank;
  }

  lemma SimulatedNext(s: BrainState, stream: Stream, o: Observation, raw: Event)
    requires Sound(s) && Bound(stream, s, raw)
    ensures var e := Simulated(stream, o, raw);
            && Next(s, e).Ok? && Next(s, e).value.actions == s.actions
            && Sound(Next(s, e).value) && Next(s, e).value.brainId == s.brainId
  {
    hide *;
    var e := Simulated(stream, o, raw);
    var f := At(e, s.lastSequence + 1);
    var branch := BranchIdFor(ActionIdFor(raw, o.captureSeq));
    BoundFields(stream, s, raw);
    SimulatedFields(stream, o, raw);
    AtFields(e, s.lastSequence + 1);
    OwnAddressed(s, e);
    SimulatedDescribes(o, raw, branch);
    DescribedSimulation(f, o, branch, raw.eventId);
    SimulationAccepted(s, f);
    SequenceAdvances(s, f);
    NextIs(s, e);
  }

  lemma StepNext(s: BrainState, e: Event, a: Actions.ActionRecord)
    requires Sound(s) && e.brainId == s.brainId && Steps(e) && a in s.actions
    requires Actions.ActionIdOf(e) == Ok(a.actionId) && H.Guards(a, e, Trusted(s, e))
    ensures Actions.Step(a, e, Trusted(s, e)).Ok? && Next(s, e).Ok?
    ensures var b := Actions.Step(a, e, Trusted(s, e)).value.0;
            var r := Next(s, e).value;
            && r.actions == Keyed.Upsert(Actions.Id, s.actions, b) && b in r.actions
            && b.actionId == a.actionId && Sound(r) && r.brainId == s.brainId
  {
    hide *;
    var n := s.lastSequence + 1;
    OwnAddressed(s, e);
    AtFields(e, n);
    NumberedSame(s, a, e, n);
    StepAccepted(s, At(e, n), a);
    NextIs(s, e);
    SequenceAdvances(s, At(e, n));
  }

  // Numbering an event changes nothing that an action sees of it.
  lemma NumberedSame(s: BrainState, a: Actions.ActionRecord, e: Event, n: nat)
    ensures var f := At(e, n);
            && (Steps(f) <==> Steps(e)) && Actions.ActionIdOf(f) == Actions.ActionIdOf(e)
            && Trusted(s, f) == Trusted(s, e)
            && (H.Guards(a, f, Trusted(s, e)) <==> H.Guards(a, e, Trusted(s, e)))
            && Actions.Step(a, f, Trusted(s, e)) == Actions.Step(a, e, Trusted(s, e))
  {
    NumberedReceipt(a, e, n, Trusted(s, e));
    hide Actions.ReceiveReceipt, H.ReceiptGuards, Actions.Validated, H.WasDispatched, Get, Blank, Trusted;
    assert Trusted(s, At(e, n)) == Trusted(s, e) by { NumberedTrust(s, e, n); }
  }

  lemma NumberedTrust(s: BrainState, e: Event, n: nat)
    ensures Trusted(s, At(e, n)) == Trusted(s, e)
  {
  }

  lemma NumberedReceipt(a: Actions.ActionRecord, e: Event, n: nat, trusted: bool)
    ensures Actions.ReceiveReceipt(a, At(e, n), trusted) == Actions.ReceiveReceipt(a, e, trusted)
    ensures H.ReceiptGuards(a, At(e, n), trusted) <==> H.ReceiptGuards(a, e, trusted)
  {
    hide Actions.ReceiptSourceOk, Actions.GroundedIds, Actions.ValidReceipt, Actions.WithReceipt, Actions.Validated,
         Get, GetOr, Actions.LateFlagOk, Actions.DispositionOf, Sorted;
  }

  lemma ProposedNext(s: BrainState, stream: Stream, o: Observation, raw: Event)
    requires Sound(s) && Bound(stream, s, raw)
    requires !Keyed.Has(Actions.Id, s.actions, ActionIdFor(raw, o.captureSeq))
    ensures var e := Proposed(stream, o, raw);
            && (!Room(s.actions) ==> Next(s, e) == Err(Capacity))
            && (Room(s.actions) ==>
                  && Next(s, e).Ok? && Sound(Next(s, e).value) && Next(s, e).value.brainId == s.brainId
                  && exists a :: a in Next(s, e).value.actions && a.actionId == ActionIdFor(raw, o.captureSeq) &&
                                 a.phase == Actions.Proposed && a.energyStatus.Unrequested?)
  {
    hide *;
    var id := ActionIdFor(raw, o.captureSeq);
    var e := Proposed(stream, o, raw);
    var f := At(e, s.lastSequence + 1);
    BoundFields(stream, s, raw);
    ProposedFields(stream, o, raw, s.lastSequence + 1);
    OwnAddressed(s, e);
    NextIs(s, e);
    ProposalDecided(s, f, id);
    if Room(s.actions) {
      SequenceAdvances(s, f);
    }
  }

  lemma ProposedFields(stream: Stream, o: Observation, raw: Event, n: nat)
    ensures var e := At(Proposed(stream, o, raw), n);
            && e.kind.ActionProposed? && Actions.ActionIdOf(e) == Ok(ActionIdFor(raw, o.captureSeq))
            && Get(e.payload, INTENT).Obj? && e.sequence.Some? && e.brainId == stream.brainId
            && Proposed(stream, o, raw).brainId == stream.brainId
  {
    var id := ActionIdFor(raw, o.captureSeq);
    assert Get(ProposedPayload(o, raw, id), ACTION_ID) == Str(id);
  }

  lemma SequencedCons(s: BrainState, e: Event, rest: seq<Event>)
    ensures Sequenced(s, [e] + rest) == (var next := Next(s, e); if next.Err? then next else Sequenced(next.value, rest))
  {
    SequencedStep(s, [e] + rest);
    assert ([e] + rest)[1..] == rest;
    hide Sequenced, Next;
  }

  lemma NamedStep(stream: Stream, raw: Event, role: Text, kind: EventType, payload: Payload, id: Text)
    requires HasField(payload, ACTION_ID, Str(id)) && !Blank(id)
    ensures var e := Derived(stream, raw, role, kind, payload, Some(id));
            Actions.ActionIdOf(e) == Ok(id) && e.kind == kind && e.payload == payload && e.brainId == stream.brainId
  {
    hide Blank;
  }

  /* ---------------- the pre-tool plan ---------------- */

  function PreToolEvents(stream: Stream, o: Observation, raw: Event): seq<Event> {
    [Proposed(stream, o, raw), Sampled(stream, o, raw), Requested(stream, o, raw), Simulated(stream, o, raw),
     PreparedEvent(stream, o, raw)]
  }

  lemma RequestedFields(stream: Stream, o: Observation, raw: Event)
    ensures var e := Requested(stream, o, raw);
            && e.kind.EnergyRequested? && Steps(e) && e.brainId == stream.brainId
            && Actions.ActionIdOf(e) == Ok(ActionIdFor(raw, o.captureSeq))
  {
    var id := ActionIdFor(raw, o.captureSeq);
    assert id.Join? && Requested(stream, o, raw).payload[ACTION_ID] == Str(id);
  }

  lemma PreparedFields(stream: Stream, o: Observation, raw: Event)
    ensures var e := PreparedEvent(stream, o, raw);
            && e.kind.ActionPrepared? && Steps(e) && e.brainId == stream.brainId
            && Actions.ActionIdOf(e) == Ok(ActionIdFor(raw, o.captureSeq))
            && Get(e.payload, BRANCH_ID) == Str(BranchIdFor(ActionIdFor(raw, o.captureSeq)))
            && !Blank(BranchIdFor(ActionIdFor(raw, o.captureSeq)))
  {
    var id := ActionIdFor(raw, o.captureSeq);
    assert id.Join? && PreparedEvent(stream, o, raw).payload[ACTION_ID] == Str(id);
  }

  lemma SampledFields(stream: Stream, o: Observation, raw: Event)
    ensures Plain(Sampled(stream, o, raw).kind) && Sampled(stream, o, raw).brainId == stream.brainId
  {
  }

  // The action that a pre-tool plan leaves behind.
  predicate ReadyToRun(a: Actions.ActionRecord, o: Observation, raw: Event) {
    var id := ActionIdFor(raw, o.captureSeq);
    && a.actionId == id && a.phase == Actions.Prepared && a.energyStatus.EnergyPending?
    && a.preparedBranchId == Some(BranchIdFor(id))
  }

  lemma RequestGuard(a: Actions.ActionRecord, e: Event, trusted: bool)
    requires e.kind.EnergyRequested? && a.energyStatus.Unrequested?
    ensures H.Guards(a, e, trusted)
  {
  }

  lemma PrepareGuard(a: Actions.ActionRecord, e: Event, trusted: bool, branch: Text)
    requires e.kind.ActionPrepared? && a.phase == Actions.Proposed
    requires Get(e.payload, BRANCH_ID) == Str(branch) && !Blank(branch)
    ensures H.Guards(a, e, trusted)
  {
    hide Blank, Get;
  }

  lemma PreparedReady(a: Actions.ActionRecord, b: Actions.ActionRecord, o: Observation, raw: Event)
    requires b.actionId == ActionIdFor(raw, o.captureSeq) && b.phase == Actions.Prepared
    requires b.energyStatus.EnergyPending?
    requires FromOption(b.preparedBranchId) == Str(BranchIdFor(ActionIdFor(raw, o.captureSeq)))
    ensures ReadyToRun(b, o, raw)
  {
  }

  // After the proposal the rest of the plan always goes through.
  lemma AfterProposal(s: BrainState, stream: Stream, o: Observation, raw: Event, a: Actions.ActionRecord)
    requires Sound(s) && Bound(stream, s, raw) && a in s.actions && a.actionId == ActionIdFor(raw, o.captureSeq)
    requires a.phase == Actions.Proposed && a.energyStatus.Unrequested?
    ensures var r := Sequenced(s, PreToolEvents(stream, o, raw)[1..]);
            r.Ok? && Sound(r.value) && exists b :: b in r.value.actions && ReadyToRun(b, o, raw)
  {
    hide *;
    BoundFields(stream, s, raw);
    var e2, e3, e4, e5 := Sampled(stream, o, raw), Requested(stream, o, raw), Simulated(stream, o, raw),
                          PreparedEvent(stream, o, raw);
    SampledFields(stream, o, raw);
    PlainNext(s, e2);
    var s2 := Next(s, e2).value;
    RequestedFields(stream, o, raw);
    RequestGuard(a, e3, Trusted(s2, e3));
    StepNext(s2, e3, a);
    StepOutcome(a, e3, Trusted(s2, e3));
    var b := Actions.Step(a, e3, Trusted(s2, e3)).value.0;
    PhaseKept(a, e3);
    var s3 := Next(s2, e3).value;
    SameBrain(stream, s, s3, raw);
    SimulatedNext(s3, stream, o, raw);
    var s4 := Next(s3, e4).value;
    PreparedFields(stream, o, raw);
    PrepareGuard(b, e5, Trusted(s4, e5), BranchIdFor(ActionIdFor(raw, o.captureSeq)));
    StepNext(s4, e5, b);
    StepOutcome(b, e5, Trusted(s4, e5));
    var d := Actions.Step(b, e5, Trusted(s4, e5)).value.0;
    PhaseKept(b, e5);
    PreparedReady(b, d, o, raw);
    SequencedNone(Next(s4, e5).value);
    SequencedCons(s4, e5, []);
    SequencedCons(s3, e4, [e5]);
    SequencedCons(s2, e3, [e4, e5]);
    SequencedCons(s, e2, [e3, e4, e5]);
    PreToolRest(stream, o, raw);
    assert [e5] + [] == [e5] && [e4] + [e5] == [e4, e5] && [e3] + [e4, e5] == [e3, e4, e5] &&
           [e2] + [e3, e4, e5] == [e2, e3, e4, e5];
  }

  lemma PreToolRest(stream: Stream, o: Observation, raw: Event)
    ensures PreToolEvents(stream, o, raw) == [Proposed(stream, o, raw)] + PreToolEvents(stream, o, raw)[1..]
    ensures PreToolEvents(stream, o, raw)[1..] ==
            [Sampled(stream, o, raw), Requested(stream, o, raw), Simulated(stream, o, raw), PreparedEvent(stream, o, raw)]
  {
    hide Proposed, Sampled, Requested, Simulated, PreparedEvent;
  }

  lemma PhaseKept(a: Actions.ActionRecord, e: Event)
    ensures e.kind.EnergyRequested? ==> PhaseAfter(a.phase, e.kind) == a.phase
    ensures e.kind.ActionPrepared? ==> PhaseAfter(a.phase, e.kind) == Actions.Prepared
    ensures e.kind.ActionDispatched? ==> PhaseAfter(a.phase, e.kind) == Actions.Dispatched
    ensures e.kind.ActionBlocked? ==> PhaseAfter(a.phase, e.kind) == Actions.Blocked
    ensures e.kind.ActionReceipt? ==> PhaseAfter(a.phase, e.kind) == Actions.Receipt
    ensures e.kind.ActionReconstructed? ==> PhaseAfter(a.phase, e.kind) == Actions.Reconstructed
  {
  }

  lemma SameBrain(stream: Stream, s: BrainState, t: BrainState, raw: Event)
    requires Bound(stream, s, raw) && t.brainId == s.brainId
    ensures Bound(stream, t, raw)
  {
    hide Blank;
  }

  // The whole pre-tool plan, for a fresh action id: accepted exactly when an
  // action slot is free or can be freed, and then it leaves the action
  // prepared with its energy assessment pending; refused, it is refused for
  // capacity.
  lemma PreToolDecided(s: BrainState, stream: Stream, o: Observation, raw: Event)
    requires Sound(s) && Bound(stream, s, raw)
    requires !Keyed.Has(Actions.Id, s.actions, ActionIdFor(raw, o.captureSeq))
    ensures var r := Sequenced(s, PreToolEvents(stream, o, raw));
            && (Room(s.actions) ==>
                  r.Ok? && Sound(r.value) && exists b :: b in r.value.actions && ReadyToRun(b, o, raw))
            && (!Room(s.actions) ==> r == Err(Capacity))
  {
    hide *;
    var e1 := Proposed(stream, o, raw);
    ProposedNext(s, stream, o, raw);
    PreToolRest(stream, o, raw);
    SequencedCons(s, e1, PreToolEvents(stream, o, raw)[1..]);
    if Room(s.actions) {
      var s1 := Next(s, e1).value;
      SameBrain(stream, s, s1, raw);
      var a :| a in s1.actions && a.actionId == ActionIdFor(raw, o.captureSeq) && a.phase == Actions.Proposed &&
               a.energyStatus.Unrequested?;
      AfterProposal(s1, stream, o, raw, a);
    }
  }

  /* ---------------- terminal plans ---------------- */

  lemma StepRefused(s: BrainState, e: Event, a: Actions.ActionRecord)
    requires Sound(s) && e.brainId == s.brainId && a in s.actions && Steps(e)
    requires Actions.ActionIdOf(e) == Ok(a.actionId) && !H.Guards(a, e, Trusted(s, e))
    ensures Next(s, e).Err?
  {
    hide *;
    var f := At(e, s.lastSequence + 1);
    AtFields(e, s.lastSequence + 1);
    NumberedSame(s, a, e, s.lastSequence + 1);
    SoundParts(s);
    UnguardedStep(s, e, a);
    UnguardedActs(s, f, a);
    CommonExact(s, f);
    UnguardedCommon(s, f);
    NextIs(s, e);
  }

  lemma UnguardedStep(s: BrainState, e: Event, a: Actions.ActionRecord)
    requires Sound(s) && a in s.actions && !H.Guards(a, e, Trusted(s, e))
    ensures Actions.Step(a, e, Trusted(s, e)).Err?
  {
    hide Inv, H.Lifecycle, H.Accounts, H.Guards, Trusted, Tracked, Actions.Step;
    var logs: Logs :| Tracked(s.actions, logs);
    NamedFollows(s.actions, a, logs);
    H.StepExact(a, e, Trusted(s, e), logs[a.actionId]);
  }

  lemma UnguardedActs(s: BrainState, f: Event, a: Actions.ActionRecord)
    requires Keyed.Unique(Actions.Id, s.actions) && a in s.actions && Steps(f)
    requires Actions.ActionIdOf(f) == Ok(a.actionId) && Actions.Step(a, f, Trusted(s, f)).Err?
    ensures Actions.ReduceActions(s.actions, f, Trusted(s, f)).Err?
  {
    Keyed.FindUnique(Actions.Id, s.actions, a);
    hide Actions.Step, Actions.ActionIdOf, Keyed.Find, Keyed.Has, Keyed.Unique, Trusted, Keyed.Upsert;
  }

  lemma UnguardedCommon(s: BrainState, f: Event)
    requires Common(s, f).Ok? <==> Acceptable(s, f)
    requires Actions.ReduceActions(s.actions, f, Trusted(s, f)).Err?
    ensures ReduceState(s, f).Err?
  {
    hide Common, ApplySpecific, Addressed, Actions.ReduceActions, Trusted;
  }

  lemma TerminalFields(stream: Stream, o: Observation, raw: Event, id: Text, r: Reading, late: bool)
    requires !r.Unclear? && !Blank(id)
    ensures var e := ReceiptEvent(stream, o, raw, id, r, late);
            e.kind.ActionReceipt? && Steps(e) && Actions.ActionIdOf(e) == Ok(id) && e.brainId == stream.brainId &&
            e.payload == TerminalPayload(o, id, r, late)
    ensures var e := BlockedEvent(stream, o, raw, id, r);
            e.kind.ActionBlocked? && Steps(e) && Actions.ActionIdOf(e) == Ok(id) && e.brainId == stream.brainId &&
            e.payload == TerminalPayload(o, id, r, false)
    ensures var e := DispatchedEvent(stream, raw, id);
            e.kind.ActionDispatched? && Steps(e) && Actions.ActionIdOf(e) == Ok(id) && e.brainId == stream.brainId
    ensures var e := ReconstructedEvent(stream, raw, id, r);
            e.kind.ActionReconstructed? && Steps(e) && Actions.ActionIdOf(e) == Ok(id) && e.brainId == stream.brainId
  {
    PayloadPlain(o, id, r, late);
    PayloadPlain(o, id, r, false);
    hide Blank, ReadingText, AssessmentOf, TerminalPayload, Actions.ActionIdOf;
    NamedStep(stream, raw, if late then ROLE_LATE_RECEIPT else ROLE_RECEIPT, ActionReceipt, TerminalPayload(o, id, r, late), id);
    NamedStep(stream, raw, ROLE_BLOCKED, ActionBlocked, TerminalPayload(o, id, r, false), id);
    NamedStep(stream, raw, ROLE_DISPATCHED, ActionDispatched, map[ACTION_ID := Str(id)], id);
    NamedStep(stream, raw, ROLE_RECONSTRUCTED, ActionReconstructed,
              map[ACTION_ID := Str(id), ASSESSMENT := Str(AssessmentOf(r))], id);
  }

  lemma PayloadPlain(o: Observation, id: Text, r: Reading, late: bool)
    requires !r.Unclear?
    ensures var p := TerminalPayload(o, id, r, late);
            HasField(p, ACTION_ID, Str(id)) && EFFECT_EVIDENCE !in p && REASSESSMENT_REASON !in p
  {
    hide ReadingText;
  }

  lemma TerminalValues(o: Observation, id: Text, st: Actions.ReceiptStatus, late: bool)
    ensures var p := TerminalPayload(o, id, Executed(st), late);
            && Actions.StatusOf(Get(p, STATUS)) == Some(st) && Get(p, SOURCE_STATUS) == Str(o.status)
            && Get(p, SOURCE_ERROR_TYPE) == o.errorType && GetOr(p, LATE, Bool(false)) == Bool(late)
            && EFFECT_EVIDENCE !in p
  {
    H.StatusReadsBack(st);
    hide Actions.StatusOf, Actions.StatusText;
  }

  // What the compiler read is what the reducer will accept; only the place
  // of the action in its lifecycle decides.
  lemma ReceiptGuard(a: Actions.ActionRecord, e: Event, trusted: bool, o: Observation, id: Text,
                     st: Actions.ReceiptStatus, late: bool)
    requires H.Lifecycle(a) && e.kind.ActionReceipt? && e.payload == TerminalPayload(o, id, Executed(st), late)
    requires ReadStatus(o.status, o.errorType) == Executed(st)
    ensures H.Guards(a, e, trusted) <==> if late then H.WasReceipted(a) else a.phase == Actions.Dispatched
  {
    TablesAgree(o, id);
    TerminalValues(o, id, st, late);
    NoEvidence(e.payload, trusted);
    H.PhaseFacts(a);
    ReceiptPlace(a, late);
    hide Actions.ReceiptSourceOk, ReadStatus, TerminalPayload, Actions.GroundedIds, Actions.StatusOf, H.Lifecycle, Get, GetOr,
         Actions.BlockedSourceOk;
    assert Actions.LateFlagOk(a, e.payload) <==>
           if late then a.phase == Actions.Receipt || a.phase == Actions.Reconstructed else a.phase == Actions.Dispatched;
  }

  lemma ReceiptPlace(a: Actions.ActionRecord, late: bool)
    requires H.Lifecycle(a)
    ensures (a.phase == Actions.Receipt || a.phase == Actions.Reconstructed) && H.WasDispatched(a) <==> H.WasReceipted(a)
  {
    hide Actions.ValidAction;
  }

  lemma BlockGuard(a: Actions.ActionRecord, e: Event, trusted: bool, o: Observation, id: Text)
    requires e.kind.ActionBlocked? && e.payload == TerminalPayload(o, id, Prevented, false)
    requires ReadStatus(o.status, o.errorType).Prevented?
    ensures H.Guards(a, e, trusted) <==> a.phase == Actions.Prepared
  {
    TablesAgree(o, id);
    hide ReadStatus, TerminalPayload, Actions.BlockedSourceOk, Actions.ReceiptSourceOk;
  }

  lemma SimpleGuards(a: Actions.ActionRecord, e: Event, trusted: bool)
    ensures e.kind.ActionDispatched? ==> (H.Guards(a, e, trusted) <==> a.phase == Actions.Prepared)
    ensures e.kind.ActionReconstructed? ==>
              (H.Guards(a, e, trusted) <==> a.phase == Actions.Blocked || a.phase == Actions.Receipt)
  {
  }

  function OutcomeRead(before: Option<Actions.Outcome>, r: Reading): Option<Actions.Outcome> {
    if !r.Executed? || before.Some? then before else Actions.OutcomeOf(r.status)
  }

  ghost predicate Ended(s: BrainState, id: Text, outcome: Option<Actions.Outcome>) {
    exists b :: b in s.actions && b.actionId == id && b.phase == Actions.Reconstructed && b.outcome == outcome
  }

  // The reconstruction that closes every terminal plan.
  lemma Reconstructs(s: BrainState, stream: Stream, raw: Event, o: Observation, id: Text, r: Reading, a: Actions.ActionRecord)
    requires Sound(s) && stream.brainId == s.brainId && !Blank(id) && !r.Unclear?
    requires a in s.actions && a.actionId == id && (a.phase == Actions.Blocked || a.phase == Actions.Receipt)
    ensures var x := Sequenced(s, [ReconstructedEvent(stream, raw, id, r)]);
            x.Ok? && Sound(x.value) && Ended(x.value, id, a.outcome)
  {
    hide *;
    var e := ReconstructedEvent(stream, raw, id, r);
    TerminalFields(stream, o, raw, id, r, false);
    SimpleGuards(a, e, Trusted(s, e));
    StepNext(s, e, a);
    StepOutcome(a, e, Trusted(s, e));
    PhaseKept(a, e);
    SequencedCons(s, e, []);
    SequencedNone(Next(s, e).value);
    assert [e] + [] == [e];
    EndedBy(Next(s, e).value, Actions.Step(a, e, Trusted(s, e)).value.0, id);
  }

  lemma EndedBy(s: BrainState, b: Actions.ActionRecord, id: Text)
    requires b in s.actions && b.actionId == id && b.phase == Actions.Reconstructed
    ensures Ended(s, id, b.outcome)
  {
  }

  // A terminal event followed by the reconstruction.
  lemma TerminalThenReconstructed(s: BrainState, stream: Stream, raw: Event, o: Observation, id: Text, r: Reading,
                                  e: Event, a: Actions.ActionRecord)
    requires Sound(s) && stream.brainId == s.brainId && !Blank(id) && !r.Unclear?
    requires a in s.actions && a.actionId == id && Steps(e) && e.brainId == s.brainId && Actions.ActionIdOf(e) == Ok(id)
    requires e.kind.ActionBlocked? || e.kind.ActionReceipt?
    ensures var x := Sequenced(s, [e, ReconstructedEvent(stream, raw, id, r)]);
            && (x.Ok? <==> H.Guards(a, e, Trusted(s, e)))
            && (x.Ok? ==> Sound(x.value) && Actions.Step(a, e, Trusted(s, e)).Ok? &&
                          Ended(x.value, id, Actions.Step(a, e, Trusted(s, e)).value.0.outcome))
  {
    hide *;
    var last := ReconstructedEvent(stream, raw, id, r);
    SequencedCons(s, e, [last]);
    assert [e] + [last] == [e, last];
    if H.Guards(a, e, Trusted(s, e)) {
      StepNext(s, e, a);
      StepOutcome(a, e, Trusted(s, e));
      PhaseKept(a, e);
      Reconstructs(Next(s, e).value, stream, raw, o, id, r, Actions.Step(a, e, Trusted(s, e)).value.0);
    } else {
      StepRefused(s, e, a);
    }
  }

  lemma TerminalShape(stream: Stream, o: Observation, raw: Event, id: Text, r: Reading, late: bool)
    requires !r.Unclear?
    ensures var last := ReconstructedEvent(stream, raw, id, r);
            TerminalEvents(stream, o, raw, id, r, late) ==
              if r.Prevented? then [BlockedEvent(stream, o, raw, id, r), last]
              else if late then [ReceiptEvent(stream, o, raw, id, r, true), last]
              else [DispatchedEvent(stream, raw, id), ReceiptEvent(stream, o, raw, id, r, false), last]
  {
    hide BlockedEvent, ReceiptEvent, DispatchedEvent, ReconstructedEvent;
  }

  lemma LifecycleIn(s: BrainState, a: Actions.ActionRecord)
    requires Sound(s) && a in s.actions
    ensures H.Lifecycle(a)
  {
    hide *;
    SoundParts(s);
  }

  lemma ReceiptStatusOf(a: Actions.ActionRecord, e: Event, trusted: bool, o: Observation, id: Text, r: Reading, late: bool)
    requires Steps(e) && Actions.Step(a, e, trusted).Ok? && r.Executed? && e.kind.ActionReceipt?
    requires e.payload == TerminalPayload(o, id, r, late)
    ensures Actions.Step(a, e, trusted).value.0.outcome == OutcomeRead(a.outcome, r)
  {
    StepOutcome(a, e, trusted);
    TerminalValues(o, id, r.status, late);
    hide TerminalPayload, Actions.Step, Actions.StatusOf, Get, GetOr, Steps;
  }

  // A late plan is accepted exactly when the action already has a receipt.
  lemma LatePlanDecided(s: BrainState, stream: Stream, o: Observation, raw: Event, a: Actions.ActionRecord)
    requires Sound(s) && stream.brainId == s.brainId && a in s.actions && !Blank(a.actionId)
    requires ReadStatus(o.status, o.errorType).Executed?
    ensures var r := ReadStatus(o.status, o.errorType);
            var x := Sequenced(s, TerminalEvents(stream, o, raw, a.actionId, r, true));
            && (x.Ok? <==> Actions.Receipt in a.phaseHistory)
            && (x.Ok? ==> Sound(x.value) && Ended(x.value, a.actionId, OutcomeRead(a.outcome, r)))
  {
    hide *;
    var r := ReadStatus(o.status, o.errorType);
    var e := ReceiptEvent(stream, o, raw, a.actionId, r, true);
    TerminalShape(stream, o, raw, a.actionId, r, true);
    TerminalFields(stream, o, raw, a.actionId, r, true);
    LifecycleIn(s, a);
    ReceiptGuard(a, e, Trusted(s, e), o, a.actionId, r.status, true);
    WasReceiptedIs(a);
    TerminalThenReconstructed(s, stream, raw, o, a.actionId, r, e, a);
    if H.Guards(a, e, Trusted(s, e)) {
      ReceiptStatusOf(a, e, Trusted(s, e), o, a.actionId, r, true);
    }
  }

  lemma WasReceiptedIs(a: Actions.ActionRecord)
    ensures H.WasReceipted(a) <==> Actions.Receipt in a.phaseHistory
  {
  }

  // A plan for a call that was prevented, or executed and not yet reported,
  // is accepted exactly when the action is prepared, and ends it.
  lemma OnTimePlanDecided(s: BrainState, stream: Stream, o: Observation, raw: Event, a: Actions.ActionRecord)
    requires Sound(s) && stream.brainId == s.brainId && a in s.actions && !Blank(a.actionId)
    requires !ReadStatus(o.status, o.errorType).Unclear?
    ensures var r := ReadStatus(o.status, o.errorType);
            var x := Sequenced(s, TerminalEvents(stream, o, raw, a.actionId, r, false));
            && (x.Ok? <==> a.phase == Actions.Prepared)
            && (x.Ok? ==> Sound(x.value) && Ended(x.value, a.actionId, OutcomeRead(a.outcome, r)))
  {
    hide *;
    var r := ReadStatus(o.status, o.errorType);
    TerminalShape(stream, o, raw, a.actionId, r, false);
    TerminalFields(stream, o, raw, a.actionId, r, false);
    if r.Prevented? {
      var e := BlockedEvent(stream, o, raw, a.actionId, r);
      assert r == Prevented;
      BlockGuard(a, e, Trusted(s, e), o, a.actionId);
      TerminalThenReconstructed(s, stream, raw, o, a.actionId, r, e, a);
      if H.Guards(a, e, Trusted(s, e)) {
        StepOutcome(a, e, Trusted(s, e));
        UnreadOutcome(a.outcome, r);
      }
    } else {
      DispatchThenReceipt(s, stream, o, raw, a, r);
    }
  }

  lemma UnreadOutcome(before: Option<Actions.Outcome>, r: Reading)
    requires r.Prevented?
    ensures OutcomeRead(before, r) == before
  {
  }

  lemma DispatchThenReceipt(s: BrainState, stream: Stream, o: Observation, raw: Event, a: Actions.ActionRecord, r: Reading)
    requires Sound(s) && stream.brainId == s.brainId && a in s.actions && !Blank(a.actionId)
    requires r == ReadStatus(o.status, o.errorType) && r.Executed?
    ensures var x := Sequenced(s, [DispatchedEvent(stream, raw, a.actionId),
                                   ReceiptEvent(stream, o, raw, a.actionId, r, false),
                                   ReconstructedEvent(stream, raw, a.actionId, r)]);
            && (x.Ok? <==> a.phase == Actions.Prepared)
            && (x.Ok? ==> Sound(x.value) && Ended(x.value, a.actionId, OutcomeRead(a.outcome, r)))
  {
    hide *;
    var d := DispatchedEvent(stream, raw, a.actionId);
    var e := ReceiptEvent(stream, o, raw, a.actionId, r, false);
    var last := ReconstructedEvent(stream, raw, a.actionId, r);
    TerminalFields(stream, o, raw, a.actionId, r, false);
    SimpleGuards(a, d, Trusted(s, d));
    SequencedCons(s, d, [e, last]);
    assert [d] + [e, last] == [d, e, last];
    if a.phase == Actions.Prepared {
      StepNext(s, d, a);
      StepOutcome(a, d, Trusted(s, d));
      PhaseKept(a, d);
      var b := Actions.Step(a, d, Trusted(s, d)).value.0;
      var t := Next(s, d).value;
      LifecycleIn(t, b);
      ReceiptGuard(b, e, Trusted(t, e), o, a.actionId, r.status, false);
      TerminalThenReconstructed(t, stream, raw, o, a.actionId, r, e, b);
      ReceiptStatusOf(b, e, Trusted(t, e), o, a.actionId, r, false);
    } else {
      StepRefused(s, d, a);
    }
  }

  // Dispatch alone is not enough: from any state with a prepared action,
  // dispatching it leads to a state in which a late completion is refused.
  lemma DispatchIsNotEnough(s: BrainState, stream: Stream, o: Observation, raw: Event, a: Actions.ActionRecord)
    returns (t: BrainState)
    requires Sound(s) && stream.brainId == s.brainId && a in s.actions && !Blank(a.actionId)
    requires a.phase == Actions.Prepared && ReadStatus(o.status, o.errorType).Executed?
    ensures Next(s, DispatchedEvent(stream, raw, a.actionId)) == Ok(t)
    ensures Sequenced(t, TerminalEvents(stream, o, raw, a.actionId, ReadStatus(o.status, o.errorType), true)).Err?
  {
    hide *;
    var r := ReadStatus(o.status, o.errorType);
    var d := DispatchedEvent(stream, raw, a.actionId);
    TerminalFields(stream, o, raw, a.actionId, r, false);
    SimpleGuards(a, d, Trusted(s, d));
    StepNext(s, d, a);
    StepOutcome(a, d, Trusted(s, d));
    var b := Actions.Step(a, d, Trusted(s, d)).value.0;
    t := Next(s, d).value;
    LifecycleIn(t, b);
    DispatchedPhase(a, d, Trusted(s, d));
    DispatchedHasNone(b);
    LatePlanDecided(t, stream, o, raw, b);
  }

  lemma DispatchedPhase(a: Actions.ActionRecord, d: Event, trusted: bool)
    requires d.kind.ActionDispatched? && Actions.Step(a, d, trusted).Ok?
    ensures Actions.Step(a, d, trusted).value.0.phase == Actions.Dispatched
  {
    hide Actions.ValidAction;
  }

  lemma DispatchedHasNone(b: Actions.ActionRecord)
    requires H.Lifecycle(b) && b.phase == Actions.Dispatched
    ensures Actions.Receipt !in b.phaseHistory
  {
    H.PhaseFacts(b);
  }

  // Such states are reached: the pre-tool plan of any call on a new brain
  // leaves a prepared action.
  lemma NewBrainPrepares(stream: Stream, o: Observation, raw: Event)
    requires !stream.brainId.Join? && !Blank(raw.eventId)
    ensures var x := Sequenced(Genesis(stream.brainId), PreToolEvents(stream, o, raw));
            x.Ok? && Sound(x.value) && exists b :: b in x.value.actions && ReadyToRun(b, o, raw)
  {
    var g := Genesis(stream.brainId);
    assert g.actions == [] && g.brainId == stream.brainId;
    assert Room(g.actions) && Bound(stream, g, raw) && !Keyed.Has(Actions.Id, g.actions, ActionIdFor(raw, o.captureSeq));
    hide *;
    NothingReduced(g);
    ReachableSound(stream.brainId, []);
    PreToolDecided(g, stream, o, raw);
  }
}
