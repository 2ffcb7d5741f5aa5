// One C0 cycle without an agent turn: a tick, a broadcast and a reflection
// (ConsciousEngine.pulse), on an engine with no competing writer.
module Pulse {
  import opened Prelude
  import opened Values
  import opened Limits
  import opened State
  import opened Reducer
  import opened ReducerInvariant
  import opened Specialists
  import Keyed
  import Actions
  import Identity
  import Personality
  import World
  import Cognition
  import RateLimit
  import opened ActionRuns
  import W = Workspace

  function OwnEvent(s: BrainState, kind: EventType, eventId: Text, payload: Payload): Event {
    Event(kind, eventId, s.brainId, Some(s.lastSequence + 1), s.brainId, None, None, payload)
  }

  function TickEvent(s: BrainState, eventId: Text, elapsed: real): Event {
    OwnEvent(s, ClockTick, eventId, map[ELAPSED_SECONDS := Float(elapsed)])
  }

  function BroadcastEvent(s: BrainState, eventId: Text, candidates: seq<W.WorkspaceCandidate>): Event {
    OwnEvent(s, WorkspaceBroadcast, eventId,
             map[CYCLE := Int(s.workspace.cycle + 1), CANDIDATES := Arr(W.CandidatesJson(candidates))])
  }

  function Ignited(s: BrainState): Payload {
    map[CYCLE := Int(s.workspace.cycle), BROADCAST := Arr(W.CandidatesJson(s.workspace.broadcast))]
  }

  function ReflectionOf(s: BrainState, h: Hashes): Cognition.CognitionResult {
    var content := Ignited(s);
    Cognition.Reflect(content, TextSet(PriorIds(s.workspace.broadcast)), h.fingerprint(content), h.seed(content))
  }

  function ReflectionEvent(s: BrainState, eventId: Text, h: Hashes): Event {
    OwnEvent(s, CognitionReflected, eventId, Cognition.ResultPayload(ReflectionOf(s, h)))
  }

  datatype EventIds = EventIds(tick: Text, broadcast: Text, reflection: Text)

  // pulse: the three appends in order; an error stops the cycle where it is.
  function Pulsed(s: BrainState, h: Hashes, elapsed: real, ids: EventIds): Result<BrainState> {
    var ticked :- ReduceState(s, TickEvent(s, ids.tick, elapsed));
    var bids := Derive(ticked, h);
    if bids.None? then Err(Invariant)
    else
      var chosen := W.Chosen(bids.value, ticked.workspace.capacity);
      var cast :- ReduceState(ticked, BroadcastEvent(ticked, ids.broadcast, chosen));
      ReduceState(cast, ReflectionEvent(cast, ids.reflection, h))
  }

  /* ---------------- which events the common part accepts ---------------- */

  // Events that no component reducer interprets.
  predicate Quiet(kind: EventType) {
    kind.ClockTick? || kind.CognitionReflected? || kind.WorkspaceBroadcast?
  }

  lemma QuietFront(s: BrainState, e: Event)
    requires Quiet(e.kind) && |s.actions| <= MAX_ACTION_RECORDS
    ensures ApplyIdentity(s, e) == Ok(s)
    ensures ApplyPersonality(s, e) == Ok(s)
    ensures ApplyActions(s, e, Trusted(s, e)) == Ok((s, {}))
  {
    hide Trusted;
    UnactedAccepted(s, e, Trusted(s, e));
  }

  lemma WorldQuiet(s: BrainState, e: Event, trusted: bool)
    requires Quiet(e.kind)
    ensures ApplyWorld(s, e, trusted, {}).Ok?
    ensures var r := ApplyWorld(s, e, trusted, {}).value; r == s.(workingSet := r.workingSet)
  {
    assert World.ReduceWorld(s.world, e, trusted, {}) == Ok(s.world);
    hide World.ReduceWorld, WorldCounter;
  }

  lemma MemoryQuiet(s: BrainState, e: Event)
    requires Quiet(e.kind)
    ensures ApplyMemory(s, e) == Ok(s)
  {
  }

  // For them the common part is the counters, and the workspace for a
  // broadcast.
  lemma QuietCommon(s: BrainState, e: Event)
    requires Quiet(e.kind) && |s.actions| <= MAX_ACTION_RECORDS
    ensures Common(s, e).Ok? <==> W.ReduceWorkspace(s.workspace, e).Ok?
    ensures Common(s, e).Ok? ==>
              var r := Common(s, e).value;
              && W.ReduceWorkspace(s.workspace, e) == Ok(r.workspace)
              && r == s.(rawCounts := r.rawCounts, lastSequence := r.lastSequence, workspace := r.workspace,
                         workingSet := r.workingSet)
  {
    CountEventFrame(s, e);
    var s0 := CountEvent(s, e);
    hide CountEvent, W.ReduceWorkspace, ApplyIdentity, ApplyPersonality, ApplyActions, Trusted, ApplyWorld, ApplyMemory;
    QuietFront(s0, e);
    UnactedAccepted(s0, e, Trusted(s, e));
    WorldQuiet(s0, e, Trusted(s, e));
    var s4 := ApplyWorld(s0, e, Trusted(s, e), {}).value;
    var w := W.ReduceWorkspace(s.workspace, e);
    if w.Ok? {
      MemoryQuiet(s4.(workspace := w.value), e);
    }
  }

  lemma ValidFits(s: BrainState)
    requires Valid(s)
    ensures |s.actions| <= MAX_ACTION_RECORDS && W.ValidWorkspace(s.workspace)
    ensures WorldOk(s.world, s.workingSet.world)
    ensures Personality.ValidValues(s.personality.values.narrativeIdeal)
  {
    assert PersonalityOk(s.personality, s.workingSet.personality, s.logicalClock) &&
           ActionsOk(s.actions, s.workingSet.actions) by {
      hide IdentityOk, PersonalityOk, ActionsOk, EnergiesOk, ThoughtsOk, ReflectionsOk, WorldOk, NameOk,
           W.ValidWorkspace, MemoriesOk, CapabilitiesOk, RawCountsOk;
    }
    assert W.ValidWorkspace(s.workspace) && WorldOk(s.world, s.workingSet.world) by {
      hide IdentityOk, PersonalityOk, ActionsOk, EnergiesOk, ThoughtsOk, ReflectionsOk, WorldOk, NameOk,
           W.ValidWorkspace, MemoriesOk, CapabilitiesOk, RawCountsOk;
    }
    hide Valid, BucketOk, Actions.ValidAction, Keyed.Unique, Personality.ValidValues, W.ValidWorkspace, WorldOk;
  }

  /* ---------------- the three events ---------------- */

  // What a pulse may change of what the specialists read: nothing but the
  // workspace.
  ghost predicate SameSources(s: BrainState, r: BrainState) {
    && r.memories == s.memories && r.actions == s.actions && r.energies == s.energies && r.world == s.world
    && r.personality.values == s.personality.values
  }

  lemma BucketClocks(s: BrainState)
    requires Valid(s)
    ensures s.personality.rates.traits.clock == s.logicalClock
    ensures s.personality.rates.adaptations.clock == s.logicalClock
    ensures s.personality.rates.narrativeIdeal.clock == s.logicalClock
  {
    hide Valid;
    RateLimit.ValidLayerBucket(s, Personality.Traits);
    RateLimit.ValidLayerBucket(s, Personality.Adaptations);
    RateLimit.ValidLayerBucket(s, Personality.NarrativeIdeal);
  }

  lemma AnyTickAccepted(s: BrainState, e: Event, elapsed: real)
    requires Valid(s) && Addressed(s, e) && e.kind.ClockTick?
    requires Get(e.payload, ELAPSED_SECONDS) == Float(elapsed) && elapsed >= 0.0
    ensures ReduceState(s, e).Ok?
    ensures var r := ReduceState(s, e).value; SameSources(s, r) && r.workspace == s.workspace
  {
    ValidFits(s);
    BucketClocks(s);
    QuietCommon(s, e);
    hide Valid, Common, WorldOk, W.ValidWorkspace, Personality.ValidValues, Get, Addressed;
    TickTail(Common(s, e).value, e, elapsed);
    hide ApplySpecific;
  }

  lemma TickAccepted(s: BrainState, eventId: Text, elapsed: real)
    requires Valid(s) && elapsed >= 0.0
    ensures var e := TickEvent(s, eventId, elapsed);
            ReduceState(s, e).Ok? &&
            (var r := ReduceState(s, e).value; SameSources(s, r) && r.workspace == s.workspace)
  {
    var e := TickEvent(s, eventId, elapsed);
    assert Get(e.payload, ELAPSED_SECONDS) == Float(elapsed) && e.kind.ClockTick? && Addressed(s, e);
    hide *;
    AnyTickAccepted(s, e, elapsed);
  }

  lemma TickTail(c: BrainState, e: Event, elapsed: real)
    requires e.kind.ClockTick? && Get(e.payload, ELAPSED_SECONDS) == Float(elapsed) && elapsed >= 0.0
    requires c.personality.rates.traits.clock == c.logicalClock && c.personality.rates.adaptations.clock == c.logicalClock
    requires c.personality.rates.narrativeIdeal.clock == c.logicalClock
    ensures ApplySpecific(c, e).Ok?
    ensures var r := ApplySpecific(c, e).value; SameSources(c, r) && r.workspace == c.workspace
  {
    hide Get;
  }

  predicate Selected(s: BrainState, chosen: seq<W.WorkspaceCandidate>) {
    && (forall i :: 0 <= i < |chosen| ==> W.ValidCandidate(chosen[i]) && chosen[i].cycle == s.workspace.cycle + 1)
    && W.Chosen(chosen, s.workspace.capacity) == chosen
  }

  lemma BroadcastReduces(s: BrainState, e: Event, chosen: seq<W.WorkspaceCandidate>)
    requires Selected(s, chosen) && e.kind.WorkspaceBroadcast?
    requires Get(e.payload, CYCLE) == Int(s.workspace.cycle + 1)
    requires Get(e.payload, CANDIDATES) == Arr(W.CandidatesJson(chosen))
    ensures W.ReduceWorkspace(s.workspace, e) ==
            Ok(s.workspace.(cycle := s.workspace.cycle + 1, broadcast := chosen))
  {
    W.CandidatesRoundTrip(chosen);
    hide Get, W.ParseCandidates, W.CandidatesJson, W.Chosen, W.ValidCandidate;
  }

  lemma BroadcastTail(c: BrainState, e: Event)
    requires e.kind.WorkspaceBroadcast?
    ensures ApplySpecific(c, e) == Ok(c)
  {
  }

  lemma AnyBroadcastAccepted(s: BrainState, e: Event, chosen: seq<W.WorkspaceCandidate>)
    requires Valid(s) && Addressed(s, e) && e.kind.WorkspaceBroadcast? && Selected(s, chosen)
    requires Get(e.payload, CYCLE) == Int(s.workspace.cycle + 1)
    requires Get(e.payload, CANDIDATES) == Arr(W.CandidatesJson(chosen))
    ensures ReduceState(s, e).Ok?
    ensures var r := ReduceState(s, e).value;
            SameSources(s, r) && r.workspace == s.workspace.(cycle := s.workspace.cycle + 1, broadcast := chosen)
  {
    ValidFits(s);
    QuietCommon(s, e);
    BroadcastReduces(s, e, chosen);
    BroadcastTail(Common(s, e).value, e);
    hide Valid, Common, WorldOk, W.ValidWorkspace, Personality.ValidValues, Get, Addressed, ApplySpecific,
         W.ReduceWorkspace, Selected, W.CandidatesJson;
  }

  lemma BroadcastFields(s: BrainState, eventId: Text, chosen: seq<W.WorkspaceCandidate>)
    ensures var e := BroadcastEvent(s, eventId, chosen);
            && Addressed(s, e) && e.kind.WorkspaceBroadcast?
            && Get(e.payload, CYCLE) == Int(s.workspace.cycle + 1)
            && Get(e.payload, CANDIDATES) == Arr(W.CandidatesJson(chosen))
  {
    hide W.CandidatesJson;
  }

  lemma BroadcastAccepted(s: BrainState, eventId: Text, chosen: seq<W.WorkspaceCandidate>)
    requires Valid(s) && Selected(s, chosen)
    ensures var e := BroadcastEvent(s, eventId, chosen);
            ReduceState(s, e).Ok? &&
            (var r := ReduceState(s, e).value;
             SameSources(s, r) && r.workspace == s.workspace.(cycle := s.workspace.cycle + 1, broadcast := chosen))
  {
    hide *;
    var e := BroadcastEvent(s, eventId, chosen);
    BroadcastFields(s, eventId, chosen);
    AnyBroadcastAccepted(s, e, chosen);
  }

  lemma ReflectionTail(c: BrainState, e: Event, r: Cognition.CognitionResult)
    requires e.kind.CognitionReflected? && Cognition.ParseReflection(e.payload) == Some(r)
    requires forall i :: 0 <= i < |r.alternatives| ==> Cognition.ValidBranch(Cognition.Branch(r, r.alternatives[i]))
    ensures ApplySpecific(c, e).Ok?
    ensures var d := ApplySpecific(c, e).value; SameSources(c, d) && d.workspace == c.workspace
  {
    hide Cognition.ParseReflection, Cognition.ValidBranch, Cognition.Branch, Keyed.PutAll, Keyed.CountNew, UpsertCounter;
  }

  lemma AnyReflectionAccepted(s: BrainState, e: Event, r: Cognition.CognitionResult)
    requires Valid(s) && Addressed(s, e) && e.kind.CognitionReflected?
    requires Cognition.ParseReflection(e.payload) == Some(r)
    requires forall i :: 0 <= i < |r.alternatives| ==> Cognition.ValidBranch(Cognition.Branch(r, r.alternatives[i]))
    ensures ReduceState(s, e).Ok?
    ensures var d := ReduceState(s, e).value; SameSources(s, d) && d.workspace == s.workspace
  {
    ValidFits(s);
    QuietCommon(s, e);
    assert W.ReduceWorkspace(s.workspace, e) == Ok(s.workspace);
    ReflectionTail(Common(s, e).value, e, r);
    hide Valid, Common, WorldOk, W.ValidWorkspace, Personality.ValidValues, Addressed, ApplySpecific,
         W.ReduceWorkspace, Cognition.ParseReflection, Cognition.ValidBranch, Cognition.Branch;
  }

  lemma ReflectedBranches(s: BrainState, h: Hashes)
    requires Readable(h) && W.ValidWorkspace(s.workspace)
    requires forall i :: 0 <= i < |s.workspace.broadcast| ==> !Blank(s.workspace.broadcast[i].candidateId)
    ensures var r := ReflectionOf(s, h);
            && Cognition.ValidResult(r)
            && forall i :: 0 <= i < |r.alternatives| ==> Cognition.ValidBranch(Cognition.Branch(r, r.alternatives[i]))
  {
    var content := Ignited(s);
    var ids := PriorIds(s.workspace.broadcast);
    assert !Empty(h.fingerprint(content));
    Cognition.ReflectIsValid(content, TextSet(ids), h.fingerprint(content), h.seed(content));
    assert W.SourceIdsOk(Sorted(TextSet(ids))) by {
      BroadcastSources(s);
    }
    hide Ignited, Readable, W.ValidWorkspace, Blank;
    LocalBranches(content, TextSet(ids), h.fingerprint(content), h.seed(content));
    hide Cognition.Reflect, Cognition.Branch, Cognition.ValidBranch, Cognition.ValidResult;
  }

  lemma BroadcastSources(s: BrainState)
    requires W.ValidWorkspace(s.workspace)
    requires forall i :: 0 <= i < |s.workspace.broadcast| ==> !Blank(s.workspace.broadcast[i].candidateId)
    ensures W.SourceIdsOk(Sorted(TextSet(PriorIds(s.workspace.broadcast))))
  {
    var ids := PriorIds(s.workspace.broadcast);
    var sources := Sorted(TextSet(ids));
    hide Blank, W.ValidCandidate;
    forall i | 0 <= i < |sources| ensures !Blank(sources[i]) {
      assert sources[i] in ids;
    }
  }

  lemma LocalBranches(content: Payload, sources: set<Text>, fingerprint: Text, seed: nat)
    requires W.SourceIdsOk(Sorted(sources))
    ensures var r := Cognition.Reflect(content, sources, fingerprint, seed);
            forall i :: 0 <= i < |r.alternatives| ==> Cognition.ValidBranch(Cognition.Branch(r, r.alternatives[i]))
  {
    hide W.SourceIdsOk, Sorted;
  }

  lemma ReflectionAccepted(s: BrainState, eventId: Text, h: Hashes)
    requires Valid(s) && Readable(h)
    requires forall i :: 0 <= i < |s.workspace.broadcast| ==> !Blank(s.workspace.broadcast[i].candidateId)
    ensures var e := ReflectionEvent(s, eventId, h);
            ReduceState(s, e).Ok? &&
            (var d := ReduceState(s, e).value; SameSources(s, d) && d.workspace == s.workspace)
  {
    var e := ReflectionEvent(s, eventId, h);
    assert e.kind.CognitionReflected? && Addressed(s, e) && e.payload == Cognition.ResultPayload(ReflectionOf(s, h));
    hide *;
    ValidFits(s);
    ReflectedBranches(s, h);
    Cognition.ReflectionRoundTrip(ReflectionOf(s, h));
    AnyReflectionAccepted(s, e, ReflectionOf(s, h));
  }

  /* ---------------- the whole cycle ---------------- */

  predicate GoodBid(c: W.WorkspaceCandidate, cycle: nat) {
    W.ValidCandidate(c) && c.cycle == cycle && !Blank(c.candidateId)
  }

  lemma BidIsGood(c: W.WorkspaceCandidate, h: Hashes, cycle: nat)
    requires Readable(h) && IsBid(c, h, cycle)
    ensures GoodBid(c, cycle)
  {
    hide W.ValidCandidate, Blank;
  }

  // Selection only ever picks among the bids.
  lemma ChosenGood(bids: seq<W.WorkspaceCandidate>, capacity: nat, cycle: nat)
    requires forall i :: 0 <= i < |bids| ==> GoodBid(bids[i], cycle)
    ensures forall i :: 0 <= i < |W.Chosen(bids, capacity)| ==> GoodBid(W.Chosen(bids, capacity)[i], cycle)
  {
    W.BroadcastMeaning(bids, capacity);
    var chosen := W.Chosen(bids, capacity);
    hide GoodBid, W.Chosen;
    forall i | 0 <= i < |chosen| ensures GoodBid(chosen[i], cycle) {
      assert chosen[i] in chosen && W.BestOf(chosen[i], bids);
    }
  }

  lemma DerivedAreGood(s: BrainState, h: Hashes)
    requires Readable(h) && Derive(s, h).Some?
    ensures forall i :: 0 <= i < |Derive(s, h).value| ==> GoodBid(Derive(s, h).value[i], s.workspace.cycle + 1)
  {
    DerivedAreBids(s, h);
    hide *;
    var bids := Derive(s, h).value;
    forall i | 0 <= i < |bids| ensures GoodBid(bids[i], s.workspace.cycle + 1) {
      BidIsGood(bids[i], h, s.workspace.cycle + 1);
    }
  }

  lemma GoodIsSelected(s: BrainState, chosen: seq<W.WorkspaceCandidate>)
    requires forall i :: 0 <= i < |chosen| ==> GoodBid(chosen[i], s.workspace.cycle + 1)
    requires W.Chosen(chosen, s.workspace.capacity) == chosen
    ensures Selected(s, chosen) && forall i :: 0 <= i < |chosen| ==> !Blank(chosen[i].candidateId)
  {
    hide W.Chosen, Blank, W.ValidCandidate;
  }

  lemma ChosenSelected(s: BrainState, h: Hashes)
    requires Readable(h) && Derive(s, h).Some?
    ensures var chosen := W.Chosen(Derive(s, h).value, s.workspace.capacity);
            && Selected(s, chosen)
            && forall i :: 0 <= i < |chosen| ==> !Blank(chosen[i].candidateId)
  {
    hide *;
    var bids := Derive(s, h).value;
    DerivedAreGood(s, h);
    ChosenGood(bids, s.workspace.capacity, s.workspace.cycle + 1);
    W.BroadcastIdempotent(bids, s.workspace.capacity);
    GoodIsSelected(s, W.Chosen(bids, s.workspace.capacity));
  }

  lemma SameReady(s: BrainState, r: BrainState)
    requires SameSources(s, r)
    ensures r.workspace.broadcast == s.workspace.broadcast ==> (Ready(r) <==> Ready(s))
    ensures Ready(s) && (forall i :: 0 <= i < |r.workspace.broadcast| ==> !Blank(r.workspace.broadcast[i].candidateId))
            ==> Ready(r)
  {
    hide Blank, ObservedKeys, Top;
  }

  lemma DeriveReady(s: BrainState, h: Hashes)
    requires Valid(s) && Readable(h)
    ensures Derive(s, h).Some? <==> Ready(s)
  {
    hide Valid, Derive, Readable, Ready, World.ValidLayer, Personality.ValidValues;
    ValidFits(s);
    WorldLayers(s);
    DeriveExact(s, h);
  }

  lemma WorldLayers(s: BrainState)
    requires WorldOk(s.world, s.workingSet.world)
    ensures World.ValidLayer(s.world.believed)
  {
    hide World.ValidLayer;
  }

  // The state after the tick: the same sources, so the same readiness.
  lemma Ticked(s: BrainState, eventId: Text, elapsed: real) returns (t: BrainState)
    requires Inv(s) && elapsed >= 0.0
    ensures ReduceState(s, TickEvent(s, eventId, elapsed)) == Ok(t)
    ensures Inv(t) && SameSources(s, t) && t.workspace == s.workspace
  {
    hide *;
    InvIsValid(s);
    TickAccepted(s, eventId, elapsed);
    ReductionKeepsInv(s, TickEvent(s, eventId, elapsed));
    t := ReduceState(s, TickEvent(s, eventId, elapsed)).value;
  }

  lemma Cast(s: BrainState, eventId: Text, h: Hashes) returns (t: BrainState)
    requires Inv(s) && Readable(h) && Derive(s, h).Some?
    ensures ReduceState(s, BroadcastEvent(s, eventId, W.Chosen(Derive(s, h).value, s.workspace.capacity))) == Ok(t)
    ensures Inv(t) && SameSources(s, t)
    ensures t.workspace == s.workspace.(cycle := s.workspace.cycle + 1,
                                        broadcast := W.Chosen(Derive(s, h).value, s.workspace.capacity))
    ensures forall i :: 0 <= i < |t.workspace.broadcast| ==> !Blank(t.workspace.broadcast[i].candidateId)
  {
    hide *;
    var chosen := W.Chosen(Derive(s, h).value, s.workspace.capacity);
    InvIsValid(s);
    ChosenSelected(s, h);
    BroadcastAccepted(s, eventId, chosen);
    ReductionKeepsInv(s, BroadcastEvent(s, eventId, chosen));
    t := ReduceState(s, BroadcastEvent(s, eventId, chosen)).value;
  }

  lemma Reflected(s: BrainState, eventId: Text, h: Hashes) returns (t: BrainState)
    requires Inv(s) && Readable(h)
    requires forall i :: 0 <= i < |s.workspace.broadcast| ==> !Blank(s.workspace.broadcast[i].candidateId)
    ensures ReduceState(s, ReflectionEvent(s, eventId, h)) == Ok(t)
    ensures Inv(t) && SameSources(s, t) && t.workspace == s.workspace
  {
    hide *;
    InvIsValid(s);
    ReflectionAccepted(s, eventId, h);
    ReductionKeepsInv(s, ReflectionEvent(s, eventId, h));
    t := ReduceState(s, ReflectionEvent(s, eventId, h)).value;
  }

  lemma SourcesCompose(a: BrainState, b: BrainState, c: BrainState)
    requires SameSources(a, b) && SameSources(b, c)
    ensures SameSources(a, c)
  {
  }

  lemma SameBids(s: BrainState, t: BrainState, h: Hashes)
    requires SameSources(s, t) && t.workspace == s.workspace
    ensures Derive(t, h) == Derive(s, h)
  {
    hide PredictionError, Drives, IncompleteAction, SelfWorldConflict, MemoryBid, IsBid;
  }

  // A pulse succeeds exactly from a ready state; then it broadcasts the
  // selection from the five bids, touches nothing that the specialists read
  // but the workspace, and leaves a state that is ready again.
  lemma PulseExact(s: BrainState, h: Hashes, elapsed: real, ids: EventIds)
    requires Inv(s) && Readable(h) && elapsed >= 0.0
    ensures Pulsed(s, h, elapsed, ids).Ok? <==> Ready(s)
    ensures Pulsed(s, h, elapsed, ids).Ok? ==>
              var r := Pulsed(s, h, elapsed, ids).value;
              && Inv(r) && Ready(r) && SameSources(s, r) && Derive(s, h).Some?
              && r.workspace == s.workspace.(
                   cycle := s.workspace.cycle + 1,
                   broadcast := W.Chosen(Derive(s, h).value, s.workspace.capacity))
  {
    hide Inv, Readable, ReduceState, TickEvent, BroadcastEvent, ReflectionEvent, Derive, SameSources, Ready, W.Chosen, Blank;
    InvIsValid(s);
    DeriveReady(s, h);
    var t := Ticked(s, ids.tick, elapsed);
    SameBids(s, t, h);
    if Ready(s) {
      var c := Cast(t, ids.broadcast, h);
      var r := Reflected(c, ids.reflection, h);
      SourcesCompose(s, t, c);
      SourcesCompose(s, c, r);
      SameReady(s, r);
      assert Pulsed(s, h, elapsed, ids) == Ok(r);
    }
  }

  // Any number of pulses: a ready state stays ready for ever.
  function PulsedTimes(s: BrainState, h: Hashes, beats: seq<(real, EventIds)>): Result<BrainState>
    decreases |beats|
  {
    if beats == [] then Ok(s)
    else
      var next :- Pulsed(s, h, beats[0].0, beats[0].1);
      PulsedTimes(next, h, beats[1..])
  }

  lemma {:induction false} PulsesNeverStop(s: BrainState, h: Hashes, beats: seq<(real, EventIds)>)
    requires Inv(s) && Ready(s) && Readable(h)
    requires forall i :: 0 <= i < |beats| ==> beats[i].0 >= 0.0
    ensures PulsedTimes(s, h, beats).Ok?
    decreases |beats|
  {
    hide Inv, Ready, Readable, Pulsed, SameSources, Derive;
    if beats != [] {
      PulseExact(s, h, beats[0].0, beats[0].1);
      PulsesNeverStop(Pulsed(s, h, beats[0].0, beats[0].1).value, h, beats[1..]);
    }
  }

  /* ---------------- reachable states ---------------- */

  ghost predicate Named(actions: seq<Actions.ActionRecord>) {
    forall a :: a in actions ==> !Blank(a.actionId)
  }

  lemma ActedNamed(actions: seq<Actions.ActionRecord>, e: Event, trusted: bool)
    requires Named(actions) && Actions.ReduceActions(actions, e, trusted).Ok?
    ensures Named(Actions.ReduceActions(actions, e, trusted).value.0)
  {
    hide Blank, Actions.Step, Keyed.Upsert, Keyed.Has, Actions.Propose;
    if Actions.IsLifecycle(e.kind) {
      var id := Actions.ActionIdOf(e).value;
      if e.kind.ActionProposed? {
        Actions.ProposedId(id, e);
      } else {
        var a := Keyed.Find(Actions.Id, actions, id);
        StepValid(a, e, trusted);
        Keyed.UpsertElements(Actions.Id, actions, Actions.Step(a, e, trusted).value.0);
      }
    }
  }

  lemma RetainedNamed(acted: seq<Actions.ActionRecord>)
    requires Named(acted)
    ensures Named(Retained(acted))
  {
    hide Blank, FirstTerminal;
  }

  lemma ReducedNamed(s: BrainState, e: Event)
    requires Named(s.actions) && ReduceState(s, e).Ok?
    ensures Named(ReduceState(s, e).value.actions)
  {
    hide *;
    ReducedActions(s, e);
    ActedNamed(s.actions, e, Trusted(s, e));
    RetainedNamed(Actions.ReduceActions(s.actions, e, Trusted(s, e)).value.0);
  }

  lemma {:induction false} RunNamed(s: BrainState, events: seq<Event>)
    requires Named(s.actions) && ReduceMany(s, events).Ok?
    ensures Named(ReduceMany(s, events).value.actions)
    decreases |events|
  {
    hide Named, ReduceState;
    if events != [] {
      ReducedNamed(s, events[0]);
      RunNamed(ReduceState(s, events[0]).value, events[1..]);
    }
  }

  // What is left of readiness once every action has a proper name.
  predicate PulseCondition(s: BrainState) {
    && |Unmatched(s.personality.values.narrativeIdeal, s.world.observed)| <= MAX_SOURCE_IDS
    && NamedMemory(s.memories, s.workspace.broadcast)
  }

  lemma EnergiesNamed(s: BrainState, v: Personality.EnergyVector)
    requires Named(s.actions) && EnergiesOk(s.energies, s.actions, s.workingSet.energies) && v in s.energies
    ensures !Blank(v.actionId)
  {
    hide Blank;
    Keyed.HasIn(Personality.EnergyId, s.energies, v);
    assert v.actionId in Keyed.Keys(Actions.Id, s.actions);
    var i :| 0 <= i < |s.actions| && Actions.Id(s.actions[i]) == v.actionId;
    assert s.actions[i] in s.actions;
  }

  lemma ValidEnergies(s: BrainState)
    requires Valid(s)
    ensures EnergiesOk(s.energies, s.actions, s.workingSet.energies)
  {
    hide IdentityOk, PersonalityOk, ActionsOk, EnergiesOk, ThoughtsOk, ReflectionsOk, WorldOk, NameOk,
         W.ValidWorkspace, MemoriesOk, CapabilitiesOk, RawCountsOk;
  }

  lemma NamedReady(s: BrainState)
    requires Valid(s) && Named(s.actions)
    ensures Ready(s) <==> PulseCondition(s)
  {
    hide *;
    ValidEnergies(s);
    if Top(s.energies).Some? {
      EnergiesNamed(s, Top(s.energies).value);
    }
    NamedReadiness(s);
  }

  lemma NamedReadiness(s: BrainState)
    requires Named(s.actions) && (Top(s.energies).Some? ==> !Blank(Top(s.energies).value.actionId))
    ensures Ready(s) <==> PulseCondition(s)
  {
    hide Blank, Unmatched, Top;
    forall i | 0 <= i < |s.actions| ensures !Blank(s.actions[i].actionId) {
      assert s.actions[i] in s.actions;
    }
  }

  // After any accepted history, a pulse succeeds exactly when at most 256
  // narrative keys are unmatched, the newest memory has a non-blank id, and so
  // has every candidate of the previous broadcast.
  lemma ReachablePulse(brainId: Text, events: seq<Event>, h: Hashes, elapsed: real, ids: EventIds)
    requires ReduceMany(Genesis(brainId), events).Ok? && Readable(h) && elapsed >= 0.0
    ensures var s := ReduceMany(Genesis(brainId), events).value;
            Pulsed(s, h, elapsed, ids).Ok? <==> PulseCondition(s)
  {
    hide ReduceMany, Readable, Inv, Pulsed, PulseCondition, Ready, Named;
    var s := ReduceMany(Genesis(brainId), events).value;
    ReachableInv(brainId, events);
    NothingNamed();
    RunNamed(Genesis(brainId), events);
    InvIsValid(s);
    NamedReady(s);
    PulseExact(s, h, elapsed, ids);
  }

  lemma NothingNamed()
    ensures Named([])
  {
  }

  /* ---------------- a broadcast that stops the pulse ---------------- */

  // A candidate whose id is one space passes the reducer, but the memory
  // specialist may not cite it.
  const BLANK_BID := W.WorkspaceCandidate(Raw(" "), W.Drives, 0.5, map[], [], 1)

  lemma BlankBidSelected(brainId: Text)
    ensures Selected(Genesis(brainId), [BLANK_BID]) && Blank(BLANK_BID.candidateId)
  {
    assert W.UniqueContent([BLANK_BID]);
    W.BroadcastFixedPoint([BLANK_BID], W.DEFAULT_WORKSPACE_CAPACITY);
    assert |Raw(" ").chars| == 1;
    hide W.Chosen;
  }

  lemma BlankBidStopsThePulse(brainId: Text, eventId: Text, h: Hashes, elapsed: real, ids: EventIds)
    requires Readable(h) && elapsed >= 0.0
    ensures var e := BroadcastEvent(Genesis(brainId), eventId, [BLANK_BID]);
            && ReduceState(Genesis(brainId), e).Ok?
            && Pulsed(ReduceState(Genesis(brainId), e).value, h, elapsed, ids).Err?
  {
    hide *;
    var g := Genesis(brainId);
    var e := BroadcastEvent(g, eventId, [BLANK_BID]);
    GenesisInv(brainId);
    InvIsValid(g);
    BlankBidSelected(brainId);
    BroadcastAccepted(g, eventId, [BLANK_BID]);
    ReductionKeepsInv(g, e);
    var r := ReduceState(g, e).value;
    assert r.workspace.broadcast[0] == BLANK_BID;
    NotReady(r);
    PulseExact(r, h, elapsed, ids);
  }

  lemma NotReady(r: BrainState)
    requires r.workspace.broadcast != [] && Blank(r.workspace.broadcast[0].candidateId)
    ensures !Ready(r)
  {
    hide Blank, ObservedKeys, Top;
  }
}
