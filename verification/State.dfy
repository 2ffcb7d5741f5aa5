// The replay-derived brain state and its validator (core/state.py).
module State {
  import opened Prelude
  import opened Values
  import opened Limits
  import Keyed
  import Actions
  import Identity
  import Personality
  import World
  import Workspace
  import Cognition

  // WorkingSetCounter: admissions and evictions since genesis.
  datatype Counter = Counter(total: nat, evicted: nat) {
    function Advance(admitted: nat, dropped: nat): Counter {
      Counter(total + admitted, evicted + dropped)
    }

    // The exact accounting equation of one collection.
    predicate Accounts(retained: nat) {
      evicted <= total && total - evicted == retained
    }
  }

  datatype WorldCounters = WorldCounters(
    observed: Counter, believed: Counter, simulated: Counter, ideal: Counter)
  {
    function Get(layer: World.WorldLayer): Counter {
      match layer
      case Observed => observed
      case Believed => believed
      case Simulated => simulated
      case Ideal => ideal
    }
  }

  datatype WorkingSet = WorkingSet(
    actions: Counter,
    energies: Counter,
    thoughts: Counter,
    memories: Counter,
    reflections: Counter,
    world: WorldCounters,
    actors: Counter,
    authorizations: Counter,
    personality: Personality.Layers<Counter>,
    rawKeys: Counter,
    rawEventsEvicted: nat,
    reducedEvents: nat,
    capabilities: Counter)

  datatype RuntimeFailure = RuntimeFailure(errorType: Text, message: Text, phase: Text)

  datatype RuntimeState = RuntimeState(
    healthy: bool,
    tickCount: nat,
    failureCount: nat,
    consecutiveFailures: nat,
    lastElapsedSeconds: real,
    lastFailure: Option<RuntimeFailure>)

  // One entry of raw_lifecycle_counts, kept in the order of event names.
  datatype RawCount = RawCount(name: string, count: nat)

  datatype BrainState = BrainState(
    brainId: Text,
    name: Option<Text>,
    identity: Identity.IdentityState,
    personality: Personality.PersonalityControl,
    energies: seq<Personality.EnergyVector>,
    thoughts: seq<Cognition.ThoughtBranch>,
    actions: seq<Actions.ActionRecord>,
    world: World.WorldModel,
    workspace: Workspace.WorkspaceState,
    memories: seq<Workspace.MemoryRecord>,
    reflections: seq<Cognition.CognitionResult>,
    runtime: RuntimeState,
    capabilities: Payload,
    workingSet: WorkingSet,
    logicalClock: real,
    traceComplete: bool,
    rawCounts: seq<RawCount>,
    lastSequence: nat)

  const ZERO: Counter := Counter(0, 0)

  // BrainState.genesis
  function Genesis(brainId: Text): BrainState {
    BrainState(
      brainId, None, Identity.Genesis(brainId), Personality.NewPersonality(), [], [], [],
      World.WorldModel([], [], [], []),
      Workspace.WorkspaceState(Workspace.DEFAULT_WORKSPACE_CAPACITY, 0, []),
      [], [], RuntimeState(true, 0, 0, 0, 0.0, None), map[],
      WorkingSet(ZERO, ZERO, ZERO, ZERO, ZERO, WorldCounters(ZERO, ZERO, ZERO, ZERO),
                 Counter(1, 0), ZERO, Personality.Layers(ZERO, ZERO, ZERO), ZERO, 0, 0, ZERO),
      0.0, true, [], 0)
  }

  function SumCounts(counts: seq<RawCount>): nat {
    if counts == [] then 0 else counts[0].count + SumCounts(counts[1..])
  }

  /* ---------------- BrainState._identity_matches_brain ---------------- */

  ghost predicate NameOk(identity: Identity.IdentityState, name: Option<Text>) {
    identity.name == name && (name.Some? ==> !Blank(name.value))
  }

  ghost predicate IdentityOk(identity: Identity.IdentityState, brainId: Text,
                             actors: Counter, authorizations: Counter) {
    && identity.selfActorId == brainId
    && Identity.SelfBoundary(identity)
    && |identity.actors| <= MAX_IDENTITY_ACTORS
    && |identity.authorizations| <= MAX_PROVENANCE_AUTHORIZATIONS
    && actors.Accounts(|identity.actors|) && actors.evicted == 0
    && authorizations.Accounts(|identity.authorizations|) && authorizations.evicted == 0
  }

  lemma SelfHolds(s: BrainState)
    requires IdentityOk(s.identity, s.brainId, s.workingSet.actors, s.workingSet.authorizations)
    ensures Identity.SelfBoundary(s.identity) && s.identity.selfActorId == s.brainId
  {
    hide Identity.SelfBoundary;
  }

  ghost predicate BucketOk(layer: Personality.Layer, bucket: Personality.Bucket, clock: real) {
    && Personality.ValidBucket(bucket)
    && bucket.capacity == Personality.PolicyCapacity(layer)
    && bucket.refill == Personality.PolicyRefill(layer)
    && bucket.clock == clock
  }

  ghost predicate ValuesOk(values: Personality.LayerValues, counter: Counter) {
    && Personality.ValidValues(values)
    && Personality.Size(values) <= MAX_PERSONALITY_VALUES_PER_LAYER
    && counter.Accounts(Personality.Size(values)) && counter.evicted == 0
  }

  ghost predicate LayerOk(layer: Personality.Layer, values: Personality.LayerValues,
                          bucket: Personality.Bucket, counter: Counter, clock: real) {
    BucketOk(layer, bucket, clock) && ValuesOk(values, counter)
  }

  ghost predicate PersonalityOk(p: Personality.PersonalityControl, counters: Personality.Layers<Counter>,
                                clock: real) {
    && clock >= 0.0
    && LayerOk(Personality.Traits, p.values.traits, p.rates.traits, counters.traits, clock)
    && LayerOk(Personality.Adaptations, p.values.adaptations, p.rates.adaptations,
               counters.adaptations, clock)
    && LayerOk(Personality.NarrativeIdeal, p.values.narrativeIdeal, p.rates.narrativeIdeal,
               counters.narrativeIdeal, clock)
  }

  ghost predicate ActionsOk(actions: seq<Actions.ActionRecord>, counter: Counter) {
    && Keyed.Unique(Actions.Id, actions)
    && |actions| <= MAX_ACTION_RECORDS
    && (forall i :: 0 <= i < |actions| ==> Actions.ValidAction(actions[i]))
    && counter.Accounts(|actions|)
  }

  ghost predicate EnergiesOk(energies: seq<Personality.EnergyVector>, actions: seq<Actions.ActionRecord>,
                             counter: Counter) {
    && Keyed.Unique(Personality.EnergyId, energies)
    && |energies| <= MAX_ENERGY_RECORDS
    && Keyed.Keys(Personality.EnergyId, energies) <= Keyed.Keys(Actions.Id, actions)
    && counter.Accounts(|energies|)
  }

  ghost predicate ThoughtsOk(thoughts: seq<Cognition.ThoughtBranch>, counter: Counter) {
    |thoughts| <= MAX_THOUGHT_BRANCHES && counter.Accounts(|thoughts|)
  }

  ghost predicate ReflectionsOk(reflections: seq<Cognition.CognitionResult>, counter: Counter) {
    |reflections| <= MAX_COGNITION_REFLECTIONS && counter.Accounts(|reflections|)
  }

  ghost predicate WorldLayerOk(items: World.Propositions, counter: Counter) {
    World.ValidLayer(items) && counter.Accounts(|items|)
  }

  ghost predicate WorldOk(w: World.WorldModel, counters: WorldCounters) {
    && WorldLayerOk(w.observed, counters.observed)
    && WorldLayerOk(w.believed, counters.believed)
    && WorldLayerOk(w.simulated, counters.simulated)
    && WorldLayerOk(w.ideal, counters.ideal)
  }

  ghost predicate MemoriesOk(memories: seq<Workspace.MemoryRecord>, counter: Counter) {
    && |memories| <= MAX_MEMORY_RECORDS
    && (forall i :: 0 <= i < |memories| ==> Workspace.ValidMemory(memories[i]))
    && counter.Accounts(|memories|)
  }

  ghost predicate RawCountsOk(counts: seq<RawCount>, keys: Counter, evictedEvents: nat,
                              reducedEvents: nat, lastSequence: nat) {
    && |counts| <= MAX_RAW_LIFECYCLE_KEYS
    && keys.Accounts(|counts|)
    && SumCounts(counts) + evictedEvents == reducedEvents
    && lastSequence <= reducedEvents
  }

  ghost predicate CapabilitiesOk(capabilities: Payload, counter: Counter) {
    |capabilities| <= MAX_CAPABILITIES && counter == Counter(|capabilities|, 0)
  }

  // Everything the validator asks for except the agreement of the two names.
  ghost predicate Core(s: BrainState) {
    var ws := s.workingSet;
    && IdentityOk(s.identity, s.brainId, ws.actors, ws.authorizations)
    && PersonalityOk(s.personality, ws.personality, s.logicalClock)
    && ActionsOk(s.actions, ws.actions)
    && EnergiesOk(s.energies, s.actions, ws.energies)
    && ThoughtsOk(s.thoughts, ws.thoughts)
    && ReflectionsOk(s.reflections, ws.reflections)
    && WorldOk(s.world, ws.world)
    && Workspace.ValidWorkspace(s.workspace)
    && MemoriesOk(s.memories, ws.memories)
    && RawCountsOk(s.rawCounts, ws.rawKeys, ws.rawEventsEvicted, ws.reducedEvents, s.lastSequence)
    && CapabilitiesOk(s.capabilities, ws.capabilities)
  }

  // The whole validator.
  ghost predicate Valid(s: BrainState) {
    Core(s) && NameOk(s.identity, s.name)
  }

  // The validator does not ask for distinct actor ids, and without them it is
  // not inductive; every state reached by reduction has them.
  ghost predicate Inv(s: BrainState) {
    Valid(s) && Keyed.Unique(Identity.Id, s.identity.actors)
  }

  lemma InvIsValid(s: BrainState)
    requires Inv(s)
    ensures Valid(s)
  {
    hide Valid;
  }

  lemma GenesisLayers(brainId: Text)
    ensures var s := Genesis(brainId);
            && PersonalityOk(s.personality, s.workingSet.personality, 0.0)
            && WorldOk(s.world, s.workingSet.world)
  {
  }

  lemma GenesisIdentity(brainId: Text)
    ensures var s := Genesis(brainId);
            && IdentityOk(s.identity, brainId, s.workingSet.actors, s.workingSet.authorizations)
            && Keyed.Unique(Identity.Id, s.identity.actors)
  {
    assert Identity.SoleSelf(Identity.Genesis(brainId), 0);
  }

  lemma GenesisActs()
    ensures ActionsOk([], ZERO) && EnergiesOk([], [], ZERO)
  {
  }

  lemma GenesisRest()
    ensures ThoughtsOk([], ZERO) && ReflectionsOk([], ZERO)
  {
  }

  lemma GenesisCounts()
    ensures RawCountsOk([], ZERO, 0, 0, 0)
  {
    assert SumCounts([]) == 0;
  }

  lemma GenesisCapabilities()
    ensures CapabilitiesOk(map[], ZERO)
  {
    var none: Payload := map[];
    assert |none| == 0;
  }

  lemma GenesisMemories()
    ensures MemoriesOk([], ZERO)
  {
    hide Workspace.ValidMemory;
  }

  lemma GenesisWorkspace()
    ensures Workspace.ValidWorkspace(Workspace.WorkspaceState(Workspace.DEFAULT_WORKSPACE_CAPACITY, 0, []))
  {
    hide Workspace.ValidCandidate;
  }

  lemma GenesisInv(brainId: Text)
    ensures Inv(Genesis(brainId))
  {
    GenesisLayers(brainId);
    GenesisIdentity(brainId);
    GenesisActs();
    GenesisRest();
    GenesisCounts();
    GenesisCapabilities();
    GenesisMemories();
    GenesisWorkspace();
    hide PersonalityOk, WorldOk, IdentityOk, Keyed.Unique, ActionsOk, EnergiesOk, ThoughtsOk, ReflectionsOk,
         MemoriesOk, RawCountsOk, CapabilitiesOk, Workspace.ValidWorkspace;
  }
}
