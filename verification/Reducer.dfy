// The pure reducer, the sole mutation path for brain state (core/reducer.py).
//
// The source ends reduce_state with a full re-validation of the new state.
// ReduceState below leaves that step out: that the validator would accept
// every state it builds is proved in ReducerInvariant.
module Reducer {
  import opened Prelude
  import opened Values
  import opened Limits
  import opened State
  import Keyed
  import Actions
  import Identity
  import Personality
  import World
  import Workspace
  import Cognition

  /* ---------------- raw lifecycle counts ---------------- */

  // The wire name of an event type; it orders the count table.
  function EventName(kind: EventType): string {
    match kind
    case BrainCreated => "brain.created"
    case IdentityNamed => "identity.named"
    case ActorRegistered => "identity.actor_registered"
    case ProvenanceAuthorized => "identity.provenance_authorized"
    case PersonalityRevised => "personality.revised"
    case ClockTick => "clock.tick"
    case CapabilitiesReported => "capabilities.reported"
    case SemanticGap => "semantic.gap"
    case TraceGap => "trace.gap"
    case EnergyRequested => "action.energy_requested"
    case EnergyAssessed => "action.energy_assessed"
    case EnergyAssessmentFailed => "action.energy_assessment_failed"
    case ActionProposed => "action.proposed"
    case ActionPrepared => "action.prepared"
    case ActionBlocked => "action.blocked"
    case ActionDispatched => "action.dispatched"
    case ActionReceipt => "action.receipt"
    case ActionReconstructed => "action.reconstructed"
    case ObservationRecorded => "observation.recorded"
    case BeliefUpdated => "belief.updated"
    case SimulationCreated => "simulation.created"
    case IdealUpdated => "ideal.updated"
    case MemoryRecorded => "memory.recorded"
    case WorkspaceBroadcast => "workspace.broadcast"
    case CognitionReflected => "cognition.reflected"
    case RuntimeFailed => "runtime.failure"
    case RuntimeRecovered => "runtime.recovered"
    case HookObserved(hook) => "hermes.observer." + HookName(hook)
    case AttributedTo(hook) => AttributedName(hook)
    case ControlSampled => "personality.control.sampled"
    case OtherType(name) => name
  }

  function HookName(hook: Hook): string {
    match hook
    case OnSessionStart => "on_session_start"
    case OnSessionEnd => "on_session_end"
    case OnSessionFinalize => "on_session_finalize"
    case OnSessionReset => "on_session_reset"
    case PreLlmCall => "pre_llm_call"
    case PostLlmCall => "post_llm_call"
    case PreApiRequest => "pre_api_request"
    case PostApiRequest => "post_api_request"
    case ApiRequestError => "api_request_error"
    case PreToolCall => "pre_tool_call"
    case PostToolCall => "post_tool_call"
    case PreApprovalRequest => "pre_approval_request"
    case PostApprovalResponse => "post_approval_response"
    case SubagentStart => "subagent_start"
    case SubagentStop => "subagent_stop"
    case PreVerify => "pre_verify"
  }

  // _ATTRIBUTED_EVENT_TYPES; tool hooks have plans of their own.
  function AttributedName(hook: Hook): string {
    match hook
    case PreLlmCall => "semantic.llm.attributed"
    case PostLlmCall => "semantic.llm.attributed"
    case PreApiRequest => "semantic.api.attributed"
    case PostApiRequest => "semantic.api.attributed"
    case ApiRequestError => "semantic.api.attributed"
    case PreApprovalRequest => "semantic.approval.attributed"
    case PostApprovalResponse => "semantic.approval.attributed"
    case SubagentStart => "semantic.subagent.attributed"
    case SubagentStop => "semantic.subagent.attributed"
    case PreVerify => "semantic.verification.attributed"
    case PreToolCall => ""
    case PostToolCall => ""
    case _ => "semantic.session.attributed"
  }

  predicate Counted(counts: seq<RawCount>, name: string) {
    exists i :: 0 <= i < |counts| && counts[i].name == name
  }

  function Increment(counts: seq<RawCount>, name: string): (r: seq<RawCount>)
    requires Counted(counts, name)
    ensures |r| == |counts|
  {
    if counts[0].name == name then [counts[0].(count := counts[0].count + 1)] + counts[1..]
    else [counts[0]] + Increment(counts[1..], name)
  }

  // A new entry at its place in name order.
  function InsertCount(counts: seq<RawCount>, name: string): (r: seq<RawCount>)
    ensures |r| == |counts| + 1
  {
    if counts == [] || StringLe(name, counts[0].name) then [RawCount(name, 1)] + counts
    else [counts[0]] + InsertCount(counts[1..], name)
  }

  // One event of a name in a table of at most MAX_RAW_LIFECYCLE_KEYS entries;
  // a new name in a full table takes the place of the first, sorted(counts)[0].
  function CountName(counts: seq<RawCount>, name: string): seq<RawCount> {
    if Counted(counts, name) then Increment(counts, name)
    else if |counts| >= MAX_RAW_LIFECYCLE_KEYS then InsertCount(counts[1..], name)
    else InsertCount(counts, name)
  }

  // The event and key counters, which every event advances.
  function CountEvent(s: BrainState, e: Event): BrainState {
    var ws := s.workingSet.(reducedEvents := s.workingSet.reducedEvents + 1);
    var sequence := if e.sequence.Some? then e.sequence.value else s.lastSequence;
    var counts := CountName(s.rawCounts, EventName(e.kind));
    var t := s.(rawCounts := counts, lastSequence := sequence);
    if Counted(s.rawCounts, EventName(e.kind)) then t.(workingSet := ws)
    else if |s.rawCounts| >= MAX_RAW_LIFECYCLE_KEYS then
      // the events of the first entry move to the evicted sum
      t.(workingSet := ws.(rawKeys := ws.rawKeys.Advance(1, 1),
                           rawEventsEvicted := ws.rawEventsEvicted + s.rawCounts[0].count))
    else t.(workingSet := ws.(rawKeys := ws.rawKeys.Advance(1, 0)))
  }

  /* ---------------- identity and personality ---------------- */

  function Grown(c: Counter, before: nat, after: nat): Counter {
    if after > before then c.Advance(after - before, 0) else c
  }

  function ApplyIdentity(s: BrainState, e: Event): Result<BrainState> {
    var identity :- Identity.ReduceIdentity(s.identity, e);
    var ws := s.workingSet;
    var actors := if |identity.actors| > |s.identity.actors| then ws.actors.Advance(1, 0) else ws.actors;
    var authorizations := if |identity.authorizations| > |s.identity.authorizations|
                          then ws.authorizations.Advance(1, 0) else ws.authorizations;
    Ok(s.(identity := identity, workingSet := ws.(actors := actors, authorizations := authorizations)))
  }

  function ApplyPersonality(s: BrainState, e: Event): Result<BrainState> {
    var p :- Personality.ReducePersonality(s.personality, e, s.logicalClock);
    var before := s.personality.values;
    var c := s.workingSet.personality;
    Ok(s.(personality := p,
          workingSet := s.workingSet.(personality := Personality.Layers(
            Grown(c.traits, Personality.Size(before.traits), Personality.Size(p.values.traits)),
            Grown(c.adaptations, Personality.Size(before.adaptations), Personality.Size(p.values.adaptations)),
            Grown(c.narrativeIdeal, Personality.Size(before.narrativeIdeal), Personality.Size(p.values.narrativeIdeal))))))
  }

  /* ---------------- actions ---------------- */

  predicate Terminal(a: Actions.ActionRecord) {
    (a.phase.Blocked? || a.phase.Reconstructed?) && !a.energyStatus.EnergyPending?
  }

  function FirstTerminal(actions: seq<Actions.ActionRecord>): (r: Option<nat>)
    ensures r.Some? ==> r.value < |actions| && Terminal(actions[r.value])
    ensures r.Some? ==> forall i :: 0 <= i < r.value ==> !Terminal(actions[i])
    ensures r.None? ==> forall i :: 0 <= i < |actions| ==> !Terminal(actions[i])
  {
    if actions == [] then None
    else if Terminal(actions[0]) then Some(0)
    else
      var rest := FirstTerminal(actions[1..]);
      assert forall i :: 0 < i < |actions| ==> actions[i] == actions[1..][i - 1];
      if rest.None? then None else Some(rest.value + 1)
  }

  function AdmitActions(s: BrainState, acted: seq<Actions.ActionRecord>): Result<BrainState> {
    var ws := s.workingSet;
    var admitted := Keyed.CountNew(Actions.Id, s.actions, acted);
    if |acted| <= MAX_ACTION_RECORDS then
      Ok(s.(actions := acted,
            workingSet := ws.(actions := if admitted > 0 then ws.actions.Advance(admitted, 0) else ws.actions)))
    else
      var terminal := FirstTerminal(acted);
      if terminal.None? then Err(Capacity)
      else
        var evicted := acted[terminal.value].actionId;
        var energies := Keyed.Without(Personality.EnergyId, s.energies, evicted);
        Ok(s.(actions := Keyed.RemoveAt(acted, terminal.value),
              energies := energies,
              workingSet := ws.(
                actions := if admitted > 0 then ws.actions.Advance(admitted, 1) else ws.actions,
                energies := if |energies| != |s.energies| then ws.energies.Advance(0, 1) else ws.energies)))
  }

  function ApplyActions(s: BrainState, e: Event, trusted: bool): Result<(BrainState, set<Text>)> {
    var (acted, grounded) :- Actions.ReduceActions(s.actions, e, trusted);
    var next :- AdmitActions(s, acted);
    Ok((next, grounded))
  }

  /* ---------------- world, workspace, memory ---------------- */

  function WorldCounter(c: Counter, before: World.Propositions, after: World.Propositions): Counter {
    var kept := |Keyed.Keys(World.Id, before) * Keyed.Keys(World.Id, after)|;
    KeptBound(Keyed.Keys(World.Id, before), Keyed.Keys(World.Id, after));
    c.Advance(|after| - kept, |before| - kept)
  }

  lemma KeptBound(a: set<Text>, b: set<Text>)
    ensures |a * b| <= |a| && |a * b| <= |b|
  {
    assert a == a * b + (a - b);
    assert b == a * b + (b - a);
  }

  function ApplyWorld(s: BrainState, e: Event, trusted: bool, grounded: set<Text>): Result<BrainState> {
    var w :- World.ReduceWorld(s.world, e, trusted, grounded);
    var c := s.workingSet.world;
    Ok(s.(world := w,
          workingSet := s.workingSet.(world := WorldCounters(
            WorldCounter(c.observed, s.world.observed, w.observed),
            WorldCounter(c.believed, s.world.believed, w.believed),
            WorldCounter(c.simulated, s.world.simulated, w.simulated),
            WorldCounter(c.ideal, s.world.ideal, w.ideal)))))
  }

  function ApplyWorkspace(s: BrainState, e: Event): Result<BrainState> {
    var w :- Workspace.ReduceWorkspace(s.workspace, e);
    Ok(s.(workspace := w))
  }

  // The counter of a tuple that is upserted and then cut to its newest part:
  // max(0, before + admitted - after) entries leave it.
  function UpsertCounter(c: Counter, before: nat, admitted: nat, after: nat): Counter {
    c.Advance(admitted, if before + admitted > after then before + admitted - after else 0)
  }

  function ApplyMemory(s: BrainState, e: Event): Result<BrainState> {
    if !e.kind.MemoryRecorded? then Ok(s)
    else
      var memory := Workspace.ParseMemory(e.payload);
      if memory.None? then Err(Invariant)
      else
        var memories := KeepLast(Keyed.Upsert(Workspace.MemoryId, s.memories, memory.value), MAX_MEMORY_RECORDS);
        var admitted := if Keyed.Has(Workspace.MemoryId, s.memories, memory.value.memoryId) then 0 else 1;
        Ok(s.(memories := memories,
              workingSet := s.workingSet.(memories :=
                UpsertCounter(s.workingSet.memories, |s.memories|, admitted, |memories|))))
  }

  /* ---------------- the event-specific tail ---------------- */

  function ApplyName(s: BrainState, e: Event): Result<BrainState> {
    var name := Get(e.payload, NAME);
    if !name.Null? && (!name.Str? || Blank(name.t)) then Err(Invariant)
    else
      var value := AsOption(name);
      Ok(s.(name := value,
            identity := if e.kind.BrainCreated? && s.identity.name != value
                        then s.identity.(name := value) else s.identity))
  }

  function ApplyTick(s: BrainState, e: Event): Result<BrainState> {
    var elapsed := Get(e.payload, ELAPSED_SECONDS);
    if !IsNumber(elapsed) || Number(elapsed) < 0.0 then Err(Invariant)
    else
      var clock := s.logicalClock + Number(elapsed);
      var p :- Personality.AdvanceClock(s.personality, clock);
      Ok(s.(logicalClock := clock, personality := p,
            runtime := s.runtime.(tickCount := s.runtime.tickCount + 1,
                                  lastElapsedSeconds := Number(elapsed))))
  }

  function ApplyCapabilities(s: BrainState, e: Event): Result<BrainState> {
    var reported := Get(e.payload, CAPABILITIES);
    if !reported.Obj? then Err(Invariant)
    else if |reported.fields| > MAX_CAPABILITIES then Err(Capacity)
    else Ok(s.(capabilities := reported.fields,
               workingSet := s.workingSet.(capabilities := Counter(|reported.fields|, 0))))
  }

  // A legacy reassessment takes the neutral vector it replaces away.
  function ApplyReassessment(s: BrainState, e: Event): Result<BrainState> {
    var id :- Actions.ActionIdOf(e);
    if !Keyed.Has(Personality.EnergyId, s.energies, id) then Err(Invariant)
    else if !Personality.LegacyNeutral(Keyed.Find(Personality.EnergyId, s.energies, id)) then Err(Invariant)
    else Ok(s.(energies := Keyed.Without(Personality.EnergyId, s.energies, id),
               workingSet := s.workingSet.(energies := s.workingSet.energies.Advance(0, 1))))
  }

  function ApplyAssessment(s: BrainState, e: Event): Result<BrainState> {
    var id :- Actions.ActionIdOf(e);
    if !Keyed.Has(Actions.Id, s.actions, id) then Err(Invariant)
    else
      var energy :- Personality.EnergyFromEvent(e);
      var all := Keyed.Upsert(Personality.EnergyId, s.energies, energy);
      var admitted := if Keyed.Has(Personality.EnergyId, s.energies, id) then 0 else 1;
      if |all| > MAX_ENERGY_RECORDS then
        Ok(s.(energies := KeepLast(all, MAX_ENERGY_RECORDS),
              workingSet := s.workingSet.(energies := s.workingSet.energies.Advance(admitted, 1))))
      else
        Ok(s.(energies := all,
              workingSet := s.workingSet.(energies := s.workingSet.energies.Advance(admitted, 0))))
  }

  function ApplySimulation(s: BrainState, e: Event): Result<BrainState> {
    var branch :- Cognition.SimulationBranch(e.payload);
    var thoughts := KeepLast(Keyed.Upsert(Cognition.BranchKey, s.thoughts, branch), MAX_THOUGHT_BRANCHES);
    var admitted := if Keyed.Has(Cognition.BranchKey, s.thoughts, branch.branchId) then 0 else 1;
    Ok(s.(thoughts := thoughts,
          workingSet := s.workingSet.(thoughts :=
            UpsertCounter(s.workingSet.thoughts, |s.thoughts|, admitted, |thoughts|))))
  }

  function ApplyReflection(s: BrainState, e: Event): Result<BrainState> {
    var result := Cognition.ParseReflection(e.payload);
    if result.None? then Err(Invariant)
    else
      var branches := Cognition.Branches(result.value);
      if exists i :: 0 <= i < |branches| && !Cognition.ValidBranch(branches[i]) then Err(Invariant)
      else
        var existing := Keyed.PutAll(Cognition.BranchKey, [], s.thoughts + branches);
        var thoughts := KeepLast(existing, MAX_THOUGHT_BRANCHES);
        var admitted := Keyed.CountNew(Cognition.BranchKey, s.thoughts, branches);
        var full := if |s.reflections| >= MAX_COGNITION_REFLECTIONS then 1 else 0;
        Ok(s.(reflections := KeepLast(s.reflections + [result.value], MAX_COGNITION_REFLECTIONS),
              thoughts := thoughts,
              workingSet := s.workingSet.(
                reflections := s.workingSet.reflections.Advance(1, full),
                thoughts := UpsertCounter(s.workingSet.thoughts, |s.thoughts|, admitted, |thoughts|))))
  }

  function ApplyFailure(s: BrainState, e: Event): Result<BrainState> {
    var errorType := GetText(e.payload, ERROR_TYPE);
    var message := GetText(e.payload, MESSAGE);
    var phase := GetText(e.payload, PHASE);
    if errorType.None? || message.None? || phase.None? then Err(Invariant)
    else Ok(s.(runtime := RuntimeState(
                 false, s.runtime.tickCount, s.runtime.failureCount + 1, s.runtime.consecutiveFailures + 1,
                 s.runtime.lastElapsedSeconds,
                 Some(RuntimeFailure(errorType.value, message.value, phase.value)))))
  }

  function ApplySpecific(s: BrainState, e: Event): Result<BrainState> {
    match e.kind
    case BrainCreated => ApplyName(s, e)
    case IdentityNamed => ApplyName(s, e)
    case ClockTick => ApplyTick(s, e)
    case CapabilitiesReported => ApplyCapabilities(s, e)
    case SemanticGap => Ok(s.(traceComplete := false))
    case TraceGap => Ok(s.(traceComplete := false))
    case EnergyRequested =>
      if Get(e.payload, REASSESSMENT_REASON) == Str(LEGACY_NEUTRAL_DEFAULT) then ApplyReassessment(s, e) else Ok(s)
    case EnergyAssessed => ApplyAssessment(s, e)
    case SimulationCreated => ApplySimulation(s, e)
    case CognitionReflected => ApplyReflection(s, e)
    case RuntimeFailed => ApplyFailure(s, e)
    case RuntimeRecovered => Ok(s.(runtime := s.runtime.(healthy := true, consecutiveFailures := 0)))
    case _ => Ok(s)
  }

  /* ---------------- reduce_state ---------------- */

  predicate Addressed(s: BrainState, e: Event) {
    && e.brainId == s.brainId
    && (e.sequence.Some? ==> e.sequence.value == s.lastSequence + 1)
  }

  function Trusted(s: BrainState, e: Event): bool {
    Identity.IsAuthorized(s.identity, e.actorId, e.adapterId)
  }

  // The common part: counters, identity, personality, actions, world,
  // workspace and memories, in the source's order.
  function Common(s: BrainState, e: Event): Result<BrainState> {
    var s1 :- ApplyIdentity(CountEvent(s, e), e);
    var s2 :- ApplyPersonality(s1, e);
    var (s3, grounded) :- ApplyActions(s2, e, Trusted(s, e));
    var s4 :- ApplyWorld(s3, e, Trusted(s, e), grounded);
    var s5 :- ApplyWorkspace(s4, e);
    ApplyMemory(s5, e)
  }

  function ReduceState(s: BrainState, e: Event): Result<BrainState> {
    if !Addressed(s, e) then Err(Invariant)
    else
      var common :- Common(s, e);
      ApplySpecific(common, e)
  }

  // reduce_many, as a fold.
  function ReduceMany(s: BrainState, events: seq<Event>): Result<BrainState>
    decreases |events|
  {
    if events == [] then Ok(s)
    else
      var next :- ReduceState(s, events[0]);
      ReduceMany(next, events[1..])
  }

  lemma NothingReduced(s: BrainState)
    ensures ReduceMany(s, []) == Ok(s)
  {
  }

  // The loop of reduce_many.
  method ReduceAll(state: BrainState, events: seq<Event>) returns (r: Result<BrainState>)
    ensures r == ReduceMany(state, events)
  {
    var current := state;
    var rest := events;
    while rest != []
      invariant ReduceMany(state, events) == ReduceMany(current, rest)
      decreases |rest|
    {
      var next := ReduceState(current, rest[0]);
      if next.Err? {
        return next;
      }
      current := next.value;
      rest := rest[1..];
    }
    return Ok(current);
  }

  // Reducing one more event after a run is reducing it from the run's result.
  lemma {:induction false} ReduceManyAppend(s: BrainState, events: seq<Event>, e: Event)
    ensures ReduceMany(s, events + [e]) ==
            (var r := ReduceMany(s, events); if r.Err? then r else ReduceState(r.value, e))
    decreases |events|
  {
    if events == [] {
      assert [] + [e] == [e];
    } else {
      assert (events + [e])[1..] == events[1..] + [e];
      var next := ReduceState(s, events[0]);
      if next.Ok? {
        ReduceManyAppend(next.value, events[1..], e);
      }
    }
  }

  lemma {:induction false} ReduceManyConcat(s: BrainState, front: seq<Event>, back: seq<Event>)
    ensures ReduceMany(s, front + back) ==
            (var r := ReduceMany(s, front); if r.Err? then r else ReduceMany(r.value, back))
    decreases |front|
  {
    if front == [] {
      assert [] + back == back;
    } else {
      assert (front + back)[1..] == front[1..] + back;
      var next := ReduceState(s, front[0]);
      if next.Ok? {
        ReduceManyConcat(next.value, front[1..], back);
      }
    }
  }
}
