// What an accepted event leaves in the state, field by field and in order
// (core/reducer.py, core/personality.py, core/action.py, core/identity.py).
module ReadBack {
  import opened Prelude
  import opened Values
  import opened Limits
  import opened State
  import opened Reducer
  import opened ReducerInvariant
  import opened ActionRuns
  import Keyed
  import Actions
  import Identity
  import Personality
  import World
  import Workspace
  import Cognition
  import RunTotals

  /* ---------------- the newest of a bounded sequence ---------------- */

  function LastOf<T>(items: seq<T>, n: nat): seq<T> {
    if |items| <= n then items else items[|items| - n..]
  }

  // `after` is the newest n of `before` and then x, with x in place of its
  // namesake if it has one.
  ghost predicate Newest<T(!new)>(key: T -> Text, before: seq<T>, after: seq<T>, x: T, n: nat) {
    && (!Keyed.Has(key, before, key(x)) ==> after == LastOf(before + [x], n))
    && (forall k: nat :: Keyed.Sole(key, before, key(x), k) ==> after == LastOf(before[..k] + before[k + 1..] + [x], n))
  }

  lemma KeepsLast<T>(items: seq<T>, n: nat)
    ensures KeepLast(items, n) == LastOf(items, n)
  {
  }

  lemma UpsertedNewest<T(!new)>(key: T -> Text, before: seq<T>, x: T, n: nat)
    ensures Newest(key, before, KeepLast(Keyed.Upsert(key, before, x), n), x, n)
    ensures |before| < n ==> Newest(key, before, Keyed.Upsert(key, before, x), x, n)
  {
    var all := Keyed.Upsert(key, before, x);
    Keyed.UpsertOrder(key, before, x);
    KeepsLast(all, n);
    forall k: nat | Keyed.Sole(key, before, key(x), k) ensures all == before[..k] + before[k + 1..] + [x] {
      assert k < |before|;
    }
    hide Keyed.Upsert, Keyed.Has, Keyed.Sole, KeepLast;
  }

  /* ---------------- simulations ---------------- */

  // The fields of a branch, as a simulation event gives them.
  predicate Simulates(b: Cognition.ThoughtBranch, p: Payload) {
    && GetOr(p, BRANCH_ID, Get(p, PROPOSITION_ID)) == Str(b.branchId)
    && GetOr(p, STANCE, Str(SIMULATE)) == Str(b.stance)
    && Get(p, CONTENT) == Obj(b.content)
    && ToFloat(GetOr(p, UNCERTAINTY, Float(0.5))) == Some(b.uncertainty)
    && GetOr(p, COGNITION_MODE, Str(EVENT_MODE)) == Str(b.cognitionMode)
    && GetOr(p, ALGORITHM_VERSION, Str(EVENT_V1)) == Str(b.algorithmVersion)
    && GetOr(p, CONFIG_VERSION, Str(EVENT_V1)) == Str(b.configVersion)
    && (SOURCE_IDS in p ==> IsTextArray(p[SOURCE_IDS]) && Texts(p[SOURCE_IDS]) == b.sourceIds)
    && (SOURCE_IDS !in p ==> b.sourceIds == [])
    && (EXPECTED_CONSEQUENCES in p ==>
          p[EXPECTED_CONSEQUENCES].Arr? && |p[EXPECTED_CONSEQUENCES].items| == |b.expectedConsequences| &&
          forall i :: 0 <= i < |b.expectedConsequences| ==>
            p[EXPECTED_CONSEQUENCES].items[i] == Obj(b.expectedConsequences[i]))
  }

  lemma BranchRead(p: Payload)
    requires Cognition.SimulationBranch(p).Ok?
    ensures Simulates(Cognition.SimulationBranch(p).value, p)
  {
    hide Blank, Cognition.ValidBranch, ToFloat;
    if SOURCE_IDS !in p {
      assert Texts(Arr([])) == [];
    }
  }

  // A simulation is the newest thought.
  lemma SimulationRecorded(s: BrainState, e: Event)
    requires e.kind.SimulationCreated? && ReduceState(s, e).Ok?
    ensures Thinks(s.thoughts, ReduceState(s, e).value.thoughts, e.payload)
  {
    hide *;
    ReducedBySimulation(s, e);
    CommonFrame(s, e);
    SameThoughts(s, Common(s, e).value);
    BranchRead(e.payload);
    SimulationKept(Common(s, e).value, e);
  }

  lemma ReducedBySimulation(s: BrainState, e: Event)
    requires e.kind.SimulationCreated? && ReduceState(s, e).Ok?
    ensures Common(s, e).Ok? && ReduceState(s, e) == ApplySimulation(Common(s, e).value, e)
    ensures Cognition.SimulationBranch(e.payload).Ok?
  {
    hide Common, Cognition.SimulationBranch;
  }

  lemma ReducedByReflection(s: BrainState, e: Event)
    requires e.kind.CognitionReflected? && ReduceState(s, e).Ok?
    ensures Common(s, e).Ok? && ReduceState(s, e) == ApplyReflection(Common(s, e).value, e)
  {
    hide Common, ApplyReflection;
  }

  lemma ReflectionKept(c: BrainState, e: Event)
    requires ApplyReflection(c, e).Ok?
    ensures var r := Cognition.ParseReflection(e.payload);
            r.Some? && ApplyReflection(c, e).value.reflections == LastOf(c.reflections + [r.value], MAX_COGNITION_REFLECTIONS)
  {
    hide Cognition.ParseReflection, Cognition.Branches, Cognition.ValidBranch, Keyed.PutAll, Keyed.CountNew, UpsertCounter;
    KeepsLast(c.reflections + [Cognition.ParseReflection(e.payload).value], MAX_COGNITION_REFLECTIONS);
    hide KeepLast, LastOf;
  }

  lemma SameThoughts(s: BrainState, c: BrainState)
    requires SameTail(s, c)
    ensures c.thoughts == s.thoughts && c.reflections == s.reflections && c.runtime == s.runtime
    ensures c.capabilities == s.capabilities && c.name == s.name
  {
  }

  ghost predicate Thinks(before: seq<Cognition.ThoughtBranch>, after: seq<Cognition.ThoughtBranch>, p: Payload) {
    && after != [] && Simulates(after[|after| - 1], p)
    && Newest(Cognition.BranchKey, before, after, after[|after| - 1], MAX_THOUGHT_BRANCHES)
  }

  lemma SimulationKept(c: BrainState, e: Event)
    requires ApplySimulation(c, e).Ok? && Simulates(Cognition.SimulationBranch(e.payload).value, e.payload)
    ensures Thinks(c.thoughts, ApplySimulation(c, e).value.thoughts, e.payload)
  {
    var b := Cognition.SimulationBranch(e.payload).value;
    UpsertedNewest(Cognition.BranchKey, c.thoughts, b, MAX_THOUGHT_BRANCHES);
    LastUpserted(Cognition.BranchKey, c.thoughts, b, MAX_THOUGHT_BRANCHES);
    hide Cognition.SimulationBranch, Simulates, Newest, Keyed.Upsert, Keyed.Has, UpsertCounter, KeepLast;
  }

  lemma LastUpserted<T(!new)>(key: T -> Text, before: seq<T>, x: T, n: nat)
    requires n > 0
    ensures var r := KeepLast(Keyed.Upsert(key, before, x), n); r != [] && r[|r| - 1] == x
  {
    hide Keyed.Without;
  }

  /* ---------------- energy assessments ---------------- */

  predicate Dimension(p: Payload, key: Text, value: real) {
    key in p && IsNumber(p[key]) && Number(p[key]) == value
  }

  // Each dimension of the vector is the number under its own name.
  predicate Measures(v: Personality.EnergyVector, p: Payload) {
    && GetText(p, ACTION_ID) == Some(v.actionId)
    && Dimension(p, SALIENCE, v.salience) && Dimension(p, URGENCY, v.urgency)
    && Dimension(p, VALENCE, v.valence) && Dimension(p, AROUSAL, v.arousal)
    && Dimension(p, CONTROL, v.control) && Dimension(p, RESOURCES, v.resources)
    && Dimension(p, COST, v.cost) && Dimension(p, PERSONALITY_RELEVANCE, v.personalityRelevance)
    && v.assessmentSource == Get(p, ASSESSMENT_SOURCE) && v.assessmentSummary == Get(p, ASSESSMENT_SUMMARY)
    && GetOr(p, PROVENANCE, Obj(map[])) == Obj(v.provenance)
    && GetOr(p, EVIDENCE_BASIS, Obj(map[])) == Obj(v.evidenceBasis)
    && (UNKNOWN_DIMENSIONS in p ==> IsTextArray(p[UNKNOWN_DIMENSIONS]) && Texts(p[UNKNOWN_DIMENSIONS]) == v.unknownDimensions)
    && (DEFICITS in p ==>
          p[DEFICITS].Obj? && v.deficits.Keys == p[DEFICITS].fields.Keys &&
          forall k :: k in v.deficits ==> Dimension(p[DEFICITS].fields, k, v.deficits[k]))
    && (DEFICITS !in p ==> v.deficits == map[])
  }

  lemma VectorRead(e: Event)
    requires Personality.EnergyFromEvent(e).Ok?
    ensures Measures(Personality.EnergyFromEvent(e).value, e.payload)
  {
    hide Blank, LongerThan, NoDuplicates, OptionalText, TextArray;
  }

  ghost predicate Assesses(before: seq<Personality.EnergyVector>, after: seq<Personality.EnergyVector>, p: Payload) {
    && after != [] && Measures(after[|after| - 1], p)
    && Newest(Personality.EnergyId, before, after, after[|after| - 1], MAX_ENERGY_RECORDS)
  }

  // An accepted assessment is the newest vector.
  lemma AssessmentRecorded(s: BrainState, e: Event)
    requires Inv(s) && e.kind.EnergyAssessed? && ReduceState(s, e).Ok?
    ensures Assesses(s.energies, ReduceState(s, e).value.energies, e.payload)
  {
    hide *;
    SameEnergies(s, e);
    AssessmentKept(s, Common(s, e).value, e);
    ReducedByAssessment(s, e);
  }

  lemma ReducedByAssessment(s: BrainState, e: Event)
    requires e.kind.EnergyAssessed? && ReduceState(s, e).Ok?
    ensures Common(s, e).Ok? && ApplyAssessment(Common(s, e).value, e).Ok?
    ensures ReduceState(s, e) == ApplyAssessment(Common(s, e).value, e)
  {
    hide Common, ApplyAssessment;
  }

  lemma SameEnergies(s: BrainState, e: Event)
    requires Inv(s) && e.kind.EnergyAssessed? && ReduceState(s, e).Ok?
    ensures Common(s, e).Ok? && ApplyAssessment(Common(s, e).value, e).Ok?
    ensures Common(s, e).value.energies == s.energies
  {
    ReducedByAssessment(s, e);
    CommonActed(s, e);
    ActedSize(s, e);
    hide Common, ApplyAssessment, Inv, Actions.ReduceActions, Retained, World.ReduceWorld, ReduceState;
  }

  lemma ActedSize(s: BrainState, e: Event)
    requires Inv(s) && e.kind.EnergyAssessed? && Actions.ReduceActions(s.actions, e, Trusted(s, e)).Ok?
    ensures |Actions.ReduceActions(s.actions, e, Trusted(s, e)).value.0| <= MAX_ACTION_RECORDS
  {
    hide IdentityOk, PersonalityOk, EnergiesOk, ThoughtsOk, ReflectionsOk, WorldOk, Workspace.ValidWorkspace,
         MemoriesOk, RawCountsOk, CapabilitiesOk, NameOk, Actions.ValidAction, Trusted;
    var id := Actions.ActionIdOf(e).value;
    var a := Keyed.Find(Actions.Id, s.actions, id);
    StepValid(a, e, Trusted(s, e));
    Keyed.UpsertUnique(Actions.Id, s.actions, Actions.Step(a, e, Trusted(s, e)).value.0);
    hide Actions.Step, Keyed.Upsert, Keyed.Unique;
  }

  lemma AssessmentKept(s: BrainState, c: BrainState, e: Event)
    requires ApplyAssessment(c, e).Ok? && c.energies == s.energies
    ensures Assesses(s.energies, ApplyAssessment(c, e).value.energies, e.payload)
  {
    var v := Personality.EnergyFromEvent(e).value;
    VectorRead(e);
    UpsertedNewest(Personality.EnergyId, c.energies, v, MAX_ENERGY_RECORDS);
    LastUpserted(Personality.EnergyId, c.energies, v, MAX_ENERGY_RECORDS);
    hide Personality.EnergyFromEvent, Measures, Newest, Keyed.Upsert, Keyed.Has, Actions.ActionIdOf;
  }

  /* ---------------- reflections, names, capabilities, failures ---------------- */

  // A reflection is the newest of the reflections.
  lemma ReflectionRecorded(s: BrainState, e: Event)
    requires e.kind.CognitionReflected? && ReduceState(s, e).Ok?
    ensures var r := Cognition.ParseReflection(e.payload);
            r.Some? && ReduceState(s, e).value.reflections == LastOf(s.reflections + [r.value], MAX_COGNITION_REFLECTIONS)
  {
    hide *;
    ReducedByReflection(s, e);
    CommonFrame(s, e);
    SameThoughts(s, Common(s, e).value);
    ReflectionKept(Common(s, e).value, e);
  }

  // A name event sets the name that the payload gives, of brain and identity.
  lemma NameRecorded(s: BrainState, e: Event)
    requires Inv(s) && (e.kind.BrainCreated? || e.kind.IdentityNamed?) && ReduceState(s, e).Ok?
    ensures var r := ReduceState(s, e).value;
            FromOption(r.name) == Get(e.payload, NAME) && r.identity.name == r.name
  {
    ReductionKeepsInv(s, e);
    NameOfInv(ReduceState(s, e).value);
    hide Common, Inv, Get, Blank;
  }

  lemma NameOfInv(s: BrainState)
    requires Inv(s)
    ensures s.identity.name == s.name
  {
    hide Core;
  }

  lemma CapabilitiesRecorded(s: BrainState, e: Event)
    requires e.kind.CapabilitiesReported? && ReduceState(s, e).Ok?
    ensures Get(e.payload, CAPABILITIES) == Obj(ReduceState(s, e).value.capabilities)
  {
    hide Common, Get;
  }

  // A failure is the last one, and the last tick is the last elapsed time.
  lemma RuntimeRecorded(s: BrainState, e: Event)
    requires ReduceState(s, e).Ok?
    ensures var r := ReduceState(s, e).value.runtime;
            && (e.kind.RuntimeFailed? ==>
                  r.lastFailure.Some? &&
                  GetText(e.payload, ERROR_TYPE) == Some(r.lastFailure.value.errorType) &&
                  GetText(e.payload, MESSAGE) == Some(r.lastFailure.value.message) &&
                  GetText(e.payload, PHASE) == Some(r.lastFailure.value.phase))
            && (!e.kind.RuntimeFailed? ==> r.lastFailure == s.runtime.lastFailure)
            && (e.kind.ClockTick? ==> Dimension(e.payload, ELAPSED_SECONDS, r.lastElapsedSeconds))
            && (!e.kind.ClockTick? ==> r.lastElapsedSeconds == s.runtime.lastElapsedSeconds)
  {
    CommonFrame(s, e);
    SameThoughts(s, Common(s, e).value);
    RuntimeTail(Common(s, e).value, e);
    hide Common, SameTail, ApplySpecific;
  }

  lemma RuntimeTail(c: BrainState, e: Event)
    requires ApplySpecific(c, e).Ok?
    ensures var r := ApplySpecific(c, e).value.runtime;
            && (e.kind.RuntimeFailed? ==>
                  r.lastFailure.Some? &&
                  GetText(e.payload, ERROR_TYPE) == Some(r.lastFailure.value.errorType) &&
                  GetText(e.payload, MESSAGE) == Some(r.lastFailure.value.message) &&
                  GetText(e.payload, PHASE) == Some(r.lastFailure.value.phase))
            && (!e.kind.RuntimeFailed? ==> r.lastFailure == c.runtime.lastFailure)
            && (e.kind.ClockTick? ==> Dimension(e.payload, ELAPSED_SECONDS, r.lastElapsedSeconds))
            && (!e.kind.ClockTick? ==> r.lastElapsedSeconds == c.runtime.lastElapsedSeconds)
  {
    hide ApplyCapabilities, ApplyReassessment, ApplyAssessment, ApplySimulation, ApplyReflection, ApplyName, GetText,
         Personality.AdvanceClock;
    match e.kind
    case BrainCreated => NameFrame(c, e);
    case IdentityNamed => NameFrame(c, e);
    case CapabilitiesReported => CapabilitiesFrame(c, e);
    case EnergyRequested => if ApplySpecific(c, e) != Ok(c) { ReassessmentFrame(c, e); }
    case EnergyAssessed => AssessmentFrame(c, e);
    case SimulationCreated => SimulationFrame(c, e);
    case CognitionReflected => ReflectionFrame(c, e);
    case _ =>
  }

  /* ---------------- memories ---------------- */

  // The fields of a memory, as its event gives them.
  predicate Remembers(m: Workspace.MemoryRecord, p: Payload) {
    && GetText(p, MEMORY_ID) == Some(m.memoryId) && Get(p, CONTENT) == Obj(m.content)
    && ToFloat(GetOr(p, SALIENCE, Float(0.5))) == Some(m.salience)
    && (SOURCE_IDS in p ==> IsTextArray(p[SOURCE_IDS]) && Texts(p[SOURCE_IDS]) == m.sourceIds)
    && (SOURCE_IDS !in p ==> m.sourceIds == [])
  }

  lemma MemoryRead(p: Payload)
    requires Workspace.ParseMemory(p).Some?
    ensures Remembers(Workspace.ParseMemory(p).value, p)
  {
    hide Blank, ToFloat;
    if SOURCE_IDS !in p {
      assert Texts(Arr([])) == [];
    }
  }

  ghost predicate Recalls(before: seq<Workspace.MemoryRecord>, after: seq<Workspace.MemoryRecord>, p: Payload) {
    && after != [] && Remembers(after[|after| - 1], p)
    && Newest(Workspace.MemoryId, before, after, after[|after| - 1], MAX_MEMORY_RECORDS)
  }

  lemma CommonMemories(s: BrainState, e: Event)
    requires Common(s, e).Ok?
    ensures if e.kind.MemoryRecorded? then Recalls(s.memories, Common(s, e).value.memories, e.payload)
            else Common(s, e).value.memories == s.memories
  {
    hide CountEvent, ApplyIdentity, ApplyPersonality, ApplyActions, ApplyWorld, ApplyWorkspace, ApplyMemory, Trusted,
         Recalls;
    CountEventFrame(s, e);
    var s0 := CountEvent(s, e);
    IdentityFrame(s0, e);
    var s1 := ApplyIdentity(s0, e).value;
    PersonalityFrame(s1, e);
    var s2 := ApplyPersonality(s1, e).value;
    ActionsFrame(s2, e, Trusted(s, e));
    var (s3, grounded) := ApplyActions(s2, e, Trusted(s, e)).value;
    WorldFrame(s3, e, Trusted(s, e), grounded);
    var s4 := ApplyWorld(s3, e, Trusted(s, e), grounded).value;
    WorkspaceFrame(s4, e);
    MemoryKept(ApplyWorkspace(s4, e).value, e);
  }

  lemma MemoryKept(c: BrainState, e: Event)
    requires ApplyMemory(c, e).Ok?
    ensures if e.kind.MemoryRecorded? then Recalls(c.memories, ApplyMemory(c, e).value.memories, e.payload)
            else ApplyMemory(c, e).value.memories == c.memories
  {
    if e.kind.MemoryRecorded? {
      var m := Workspace.ParseMemory(e.payload).value;
      MemoryRead(e.payload);
      UpsertedNewest(Workspace.MemoryId, c.memories, m, MAX_MEMORY_RECORDS);
      LastUpserted(Workspace.MemoryId, c.memories, m, MAX_MEMORY_RECORDS);
    }
    hide Workspace.ParseMemory, Remembers, Newest, Keyed.Upsert, Keyed.Has, UpsertCounter, KeepLast;
  }

  lemma TailMemories(c: BrainState, e: Event)
    requires ApplySpecific(c, e).Ok?
    ensures ApplySpecific(c, e).value.memories == c.memories
  {
    hide ApplyCapabilities, ApplyReassessment, ApplyAssessment, ApplySimulation, ApplyReflection, ApplyName, ApplyTick,
         ApplyFailure;
    match e.kind
    case BrainCreated => NameFrame(c, e);
    case IdentityNamed => NameFrame(c, e);
    case ClockTick => TickFrame(c, e);
    case CapabilitiesReported => CapabilitiesFrame(c, e);
    case EnergyRequested => if ApplySpecific(c, e) != Ok(c) { ReassessmentFrame(c, e); }
    case EnergyAssessed => AssessmentFrame(c, e);
    case SimulationCreated => SimulationFrame(c, e);
    case CognitionReflected => ReflectionFrame(c, e);
    case RuntimeFailed => FailureFrame(c, e);
    case _ =>
  }

  // A recorded memory is the newest; other events leave the memories alone.
  lemma MemoryRecorded(s: BrainState, e: Event)
    requires ReduceState(s, e).Ok?
    ensures if e.kind.MemoryRecorded? then Recalls(s.memories, ReduceState(s, e).value.memories, e.payload)
            else ReduceState(s, e).value.memories == s.memories
  {
    CommonMemories(s, e);
    TailMemories(Common(s, e).value, e);
    hide Common, ApplySpecific, Recalls;
  }

  /* ---------------- propositions ---------------- */

  // The fields of a proposition, as its event gives them.
  predicate Places(x: World.WorldProposition, e: Event, layer: World.WorldLayer) {
    && RunTotals.Carries(e, x, layer) && Get(e.payload, CONTENT) == Obj(x.content)
    && IsNumber(GetOr(e.payload, CONFIDENCE, Float(1.0)))
    && Number(GetOr(e.payload, CONFIDENCE, Float(1.0))) == x.confidence
  }

  ghost predicate Shows(before: World.Propositions, after: World.Propositions, e: Event, layer: World.WorldLayer) {
    && after != [] && Places(after[|after| - 1], e, layer)
    && Newest(World.Id, before, after, after[|after| - 1], MAX_WORLD_PROPOSITIONS_PER_LAYER)
  }

  lemma PlaceShown(w: World.WorldModel, e: Event, layer: World.WorldLayer, trusted: bool)
    requires World.Place(w, e, layer, trusted).Ok?
    ensures var r := World.Place(w, e, layer, trusted).value;
            if layer.Observed? && !trusted then r == w
            else Shows(w.Get(layer), r.Get(layer), e, layer) &&
                 forall other: World.WorldLayer :: other != layer ==> r.Get(other) == w.Get(other)
  {
    if !(layer.Observed? && !trusted) {
      var x := World.Proposition(e, e.payload, layer, None).value;
      PlacesIt(e, layer);
      UpsertedNewest(World.Id, w.Get(layer), x, MAX_WORLD_PROPOSITIONS_PER_LAYER);
      LastUpserted(World.Id, w.Get(layer), x, MAX_WORLD_PROPOSITIONS_PER_LAYER);
    }
    hide World.Proposition, Places, Newest, Keyed.Upsert, KeepLast;
  }

  lemma PlacesIt(e: Event, layer: World.WorldLayer)
    requires World.Proposition(e, e.payload, layer, None).Ok?
    ensures Places(World.Proposition(e, e.payload, layer, None).value, e, layer)
  {
    hide Blank;
  }

  // Which layer an event fixes.
  predicate Fixes(kind: EventType, layer: World.WorldLayer) {
    match layer
    case Observed => kind.ObservationRecorded?
    case Believed => kind.BeliefUpdated?
    case Simulated => kind.SimulationCreated?
    case Ideal => kind.IdealUpdated?
  }

  // An event that fixes a layer makes its proposition the newest there; an
  // observation does so only when its provenance is trusted.
  lemma PropositionRecorded(s: BrainState, e: Event, layer: World.WorldLayer)
    requires Fixes(e.kind, layer) && ReduceState(s, e).Ok?
    ensures if layer.Observed? && !Trusted(s, e) then ReduceState(s, e).value.world == s.world
            else Shows(s.world.Get(layer), ReduceState(s, e).value.world.Get(layer), e, layer)
  {
    hide *;
    ReducedActions(s, e);
    var (acted, grounded) := Actions.ReduceActions(s.actions, e, Trusted(s, e)).value;
    PlacedBy(s.world, e, Trusted(s, e), grounded, layer);
    PlaceShown(s.world, e, layer, Trusted(s, e));
  }

  lemma PlacedBy(w: World.WorldModel, e: Event, trusted: bool, grounded: set<Text>, layer: World.WorldLayer)
    requires Fixes(e.kind, layer)
    ensures World.ReduceWorld(w, e, trusted, grounded) == World.Place(w, e, layer, trusted)
  {
    hide World.Place;
  }

  /* ---------------- what the working set counts ---------------- */

  // One more was admitted, or none.
  predicate CountsOne(before: Counter, after: Counter, admitted: bool) {
    after.total == before.total + if admitted then 1 else 0
  }

  // A record counts as admitted when its id is new, and an action when it is
  // proposed.
  lemma MemoryCounts(s: BrainState, e: Event)
    requires ApplyMemory(s, e).Ok?
    ensures CountsOne(s.workingSet.memories, ApplyMemory(s, e).value.workingSet.memories,
                      e.kind.MemoryRecorded? && GetText(e.payload, MEMORY_ID).Some? &&
                      !Keyed.Has(Workspace.MemoryId, s.memories, GetText(e.payload, MEMORY_ID).value))
  {
    if e.kind.MemoryRecorded? {
      MemoryRead(e.payload);
    }
    hide Workspace.ParseMemory, Keyed.Has, Keyed.Upsert, KeepLast;
  }

  lemma AssessmentCounts(s: BrainState, e: Event)
    requires ApplyAssessment(s, e).Ok?
    ensures GetText(e.payload, ACTION_ID).Some?
    ensures CountsOne(s.workingSet.energies, ApplyAssessment(s, e).value.workingSet.energies,
                      !Keyed.Has(Personality.EnergyId, s.energies, GetText(e.payload, ACTION_ID).value))
  {
    VectorRead(e);
    hide Personality.EnergyFromEvent, Keyed.Has, Keyed.Upsert, KeepLast;
  }

  lemma SimulationCounts(s: BrainState, e: Event)
    requires ApplySimulation(s, e).Ok?
    ensures GetOr(e.payload, BRANCH_ID, Get(e.payload, PROPOSITION_ID)).Str?
    ensures CountsOne(s.workingSet.thoughts, ApplySimulation(s, e).value.workingSet.thoughts,
                      !Keyed.Has(Cognition.BranchKey, s.thoughts,
                                 GetOr(e.payload, BRANCH_ID, Get(e.payload, PROPOSITION_ID)).t))
  {
    BranchRead(e.payload);
    hide Cognition.SimulationBranch, Keyed.Has, Keyed.Upsert, KeepLast;
  }

  lemma ReflectionCounts(s: BrainState, e: Event)
    requires ApplyReflection(s, e).Ok?
    ensures CountsOne(s.workingSet.reflections, ApplyReflection(s, e).value.workingSet.reflections, true)
  {
    hide Cognition.ParseReflection, Cognition.Branches, Cognition.ValidBranch, Keyed.PutAll, Keyed.CountNew, UpsertCounter,
         KeepLast;
  }

  lemma ActionCounts(s: BrainState, e: Event, trusted: bool)
    requires ApplyActions(s, e, trusted).Ok?
    ensures CountsOne(s.workingSet.actions, ApplyActions(s, e, trusted).value.0.workingSet.actions, e.kind.ActionProposed?)
  {
    AdmittedCount(s.actions, e, trusted);
    hide Actions.ReduceActions, Keyed.CountNew, FirstTerminal, Keyed.Without, Keyed.RemoveAt;
  }

  lemma AdmittedCount(actions: seq<Actions.ActionRecord>, e: Event, trusted: bool)
    requires Actions.ReduceActions(actions, e, trusted).Ok?
    ensures Keyed.CountNew(Actions.Id, actions, Actions.ReduceActions(actions, e, trusted).value.0) ==
            if e.kind.ActionProposed? then 1 else 0
  {
    if e.kind.ActionProposed? {
      var id := Actions.ActionIdOf(e).value;
      Actions.ProposedId(id, e);
      hide Actions.Propose;
      Keyed.CountNewNone(Actions.Id, actions, actions);
      Keyed.CountNewAppend(Actions.Id, actions, actions, Actions.Propose(id, e).value);
    } else if Actions.IsLifecycle(e.kind) {
      var id := Actions.ActionIdOf(e).value;
      var a := Keyed.Find(Actions.Id, actions, id);
      StepValid(a, e, trusted);
      hide Actions.Step;
      Keyed.CountNewUpsert(Actions.Id, actions, Actions.Step(a, e, trusted).value.0);
    } else {
      Keyed.CountNewNone(Actions.Id, actions, actions);
    }
    hide Keyed.CountNew, Keyed.Upsert, Actions.ActionIdOf;
  }
}
