// Which recording events the reducer accepts, in terms of what they carry
// (core/reducer.py, core/world.py, core/workspace.py, core/identity.py).
module Acceptance {
  import opened Prelude
  import opened Values
  import opened Limits
  import opened State
  import opened Reducer
  import opened ReducerInvariant
  import opened ReducerAcceptance
  import opened ActionRuns
  import Keyed
  import Actions
  import Identity
  import Personality
  import World
  import Workspace
  import Cognition
  import RateLimit
  import RunTotals

  /* ---------------- events that concern one component ---------------- */

  // Kinds of events that only the tail reads.
  predicate TailOnly(kind: EventType) {
    kind.BrainCreated? || kind.ClockTick? || kind.CapabilitiesReported? || kind.SemanticGap? || kind.TraceGap? ||
    kind.CognitionReflected? || kind.RuntimeFailed? || kind.RuntimeRecovered?
  }

  lemma TailDecides(s: BrainState, e: Event)
    requires Addressed(s, e) && TailOnly(e.kind) && |s.actions| <= MAX_ACTION_RECORDS
    ensures Common(s, e).Ok? && ReduceState(s, e) == ApplySpecific(Common(s, e).value, e)
  {
    hide *;
    CommonExact(s, e);
    TailAcceptable(s, e);
    ReducedIs(s, e);
  }

  lemma ReducedIs(s: BrainState, e: Event)
    requires Addressed(s, e)
    ensures ReduceState(s, e).Ok? <==> Common(s, e).Ok? && ApplySpecific(Common(s, e).value, e).Ok?
    ensures Common(s, e).Ok? ==> ReduceState(s, e) == ApplySpecific(Common(s, e).value, e)
  {
    hide Common, ApplySpecific, Addressed;
  }

  // What the tail demands of its own events.
  lemma TailIs(c: BrainState, e: Event)
    ensures e.kind.CapabilitiesReported? ==>
              (ApplySpecific(c, e).Ok? <==>
               Get(e.payload, CAPABILITIES).Obj? && |Get(e.payload, CAPABILITIES).fields| <= MAX_CAPABILITIES)
    ensures e.kind.BrainCreated? ==>
              (ApplySpecific(c, e).Ok? <==>
               Get(e.payload, NAME).Null? || (Get(e.payload, NAME).Str? && !Blank(Get(e.payload, NAME).t)))
    ensures e.kind.RuntimeFailed? ==>
              (ApplySpecific(c, e).Ok? <==>
               GetText(e.payload, ERROR_TYPE).Some? && GetText(e.payload, MESSAGE).Some? && GetText(e.payload, PHASE).Some?)
    ensures (e.kind.RuntimeRecovered? || e.kind.SemanticGap? || e.kind.TraceGap? || e.kind.MemoryRecorded? ||
             e.kind.ObservationRecorded? || e.kind.BeliefUpdated? || e.kind.IdealUpdated? || e.kind.ActorRegistered? ||
             e.kind.ProvenanceAuthorized? || e.kind.WorkspaceBroadcast?) ==> ApplySpecific(c, e).Ok?
  {
    hide Get, GetText, Blank;
  }

  lemma TailKinds(e: Event)
    ensures (e.kind.CapabilitiesReported? || e.kind.BrainCreated? || e.kind.RuntimeFailed? || e.kind.RuntimeRecovered? ||
             e.kind.SemanticGap? || e.kind.TraceGap?) ==> TailOnly(e.kind)
  {
  }

  lemma TailAcceptable(s: BrainState, e: Event)
    requires TailOnly(e.kind) && |s.actions| <= MAX_ACTION_RECORDS
    ensures Acceptable(s, e)
  {
    hide Trusted, FirstTerminal;
  }

  // Capabilities are an object with room for its fields.
  lemma CapabilitiesAccepted(s: BrainState, e: Event)
    requires Addressed(s, e) && e.kind.CapabilitiesReported? && |s.actions| <= MAX_ACTION_RECORDS
    ensures ReduceState(s, e).Ok? <==>
            Get(e.payload, CAPABILITIES).Obj? && |Get(e.payload, CAPABILITIES).fields| <= MAX_CAPABILITIES
  {
    hide *;
    TailKinds(e);
    TailDecides(s, e);
    TailIs(Common(s, e).value, e);
  }

  // A name is absent or a text with something in it.
  lemma CreationAccepted(s: BrainState, e: Event)
    requires Addressed(s, e) && e.kind.BrainCreated? && |s.actions| <= MAX_ACTION_RECORDS
    ensures ReduceState(s, e).Ok? <==>
            Get(e.payload, NAME).Null? || (Get(e.payload, NAME).Str? && !Blank(Get(e.payload, NAME).t))
  {
    hide *;
    TailKinds(e);
    TailDecides(s, e);
    TailIs(Common(s, e).value, e);
  }

  // A failure names its error, its message and its phase.
  lemma FailureAccepted(s: BrainState, e: Event)
    requires Addressed(s, e) && e.kind.RuntimeFailed? && |s.actions| <= MAX_ACTION_RECORDS
    ensures ReduceState(s, e).Ok? <==>
            GetText(e.payload, ERROR_TYPE).Some? && GetText(e.payload, MESSAGE).Some? && GetText(e.payload, PHASE).Some?
  {
    hide *;
    TailKinds(e);
    TailDecides(s, e);
    TailIs(Common(s, e).value, e);
  }

  // A tick brings a number that is not negative.
  lemma TickAccepted(s: BrainState, e: Event)
    requires Inv(s) && Addressed(s, e) && e.kind.ClockTick?
    ensures ReduceState(s, e).Ok? <==>
            IsNumber(Get(e.payload, ELAPSED_SECONDS)) && Number(Get(e.payload, ELAPSED_SECONDS)) >= 0.0
  {
    hide *;
    InvIsValid(s);
    InvParts(s);
    TailIsTick(e);
    TailDecides(s, e);
    CommonFrame(s, e);
    RateLimit.CommonPersonality(s, e);
    SameControl(s, e);
    TickTail(s, Common(s, e).value, e);
  }

  lemma TailIsTick(e: Event)
    requires e.kind.ClockTick?
    ensures TailOnly(e.kind)
  {
  }

  lemma SameControl(s: BrainState, e: Event)
    requires !e.kind.PersonalityRevised?
    ensures Personality.ReducePersonality(s.personality, e, s.logicalClock) == Ok(s.personality)
    ensures e.kind.ClockTick? ==> !e.kind.PersonalityRevised?
  {
  }

  lemma InvParts(s: BrainState)
    requires Inv(s)
    ensures |s.actions| <= MAX_ACTION_RECORDS
    ensures forall at: Personality.Layer :: s.personality.rates.Get(at).clock == s.logicalClock
  {
    forall at: Personality.Layer ensures s.personality.rates.Get(at).clock == s.logicalClock {
      InvIsValid(s);
      RateLimit.ValidLayerBucket(s, at);
    }
    hide IdentityOk, PersonalityOk, EnergiesOk, ThoughtsOk, ReflectionsOk, WorldOk, NameOk, Workspace.ValidWorkspace,
         MemoriesOk, CapabilitiesOk, RawCountsOk;
  }

  lemma TickTail(s: BrainState, c: BrainState, e: Event)
    requires e.kind.ClockTick? && c.logicalClock == s.logicalClock && c.personality == s.personality
    requires forall at: Personality.Layer :: s.personality.rates.Get(at).clock == s.logicalClock
    ensures ApplySpecific(c, e).Ok? <==>
            IsNumber(Get(e.payload, ELAPSED_SECONDS)) && Number(Get(e.payload, ELAPSED_SECONDS)) >= 0.0
  {
    assert s.personality.rates.Get(Personality.Traits).clock == s.logicalClock &&
           s.personality.rates.Get(Personality.Adaptations).clock == s.logicalClock &&
           s.personality.rates.Get(Personality.NarrativeIdeal).clock == s.logicalClock;
    hide Get;
  }

  // A recovery, a gap, and an event of an uninterpreted type are always
  // accepted.
  lemma AlwaysAccepted(s: BrainState, e: Event)
    requires Addressed(s, e) && |s.actions| <= MAX_ACTION_RECORDS
    requires e.kind.RuntimeRecovered? || e.kind.SemanticGap? || e.kind.TraceGap?
    ensures ReduceState(s, e).Ok?
  {
    hide *;
    TailKinds(e);
    TailDecides(s, e);
    TailIs(Common(s, e).value, e);
  }

  /* ---------------- identity ---------------- */

  predicate IdentityOnly(kind: EventType) {
    kind.IdentityNamed? || kind.ActorRegistered? || kind.ProvenanceAuthorized?
  }

  lemma IdentityAcceptable(s: BrainState, e: Event)
    requires IdentityOnly(e.kind) && |s.actions| <= MAX_ACTION_RECORDS
    ensures Acceptable(s, e) <==> Identity.ReduceIdentity(s.identity, e).Ok?
  {
    hide Trusted, FirstTerminal, Identity.ReduceIdentity;
  }

  lemma IdentityTail(c: BrainState, e: Event)
    requires IdentityOnly(e.kind)
    ensures e.kind.IdentityNamed? ==>
              (ApplySpecific(c, e).Ok? <==>
               Get(e.payload, NAME).Null? || (Get(e.payload, NAME).Str? && !Blank(Get(e.payload, NAME).t)))
    ensures !e.kind.IdentityNamed? ==> ApplySpecific(c, e).Ok?
  {
    hide Get, Blank;
  }

  lemma NameIsGiven(e: Event)
    ensures NameGiven(e) <==> Get(e.payload, NAME).Str? && !Blank(Get(e.payload, NAME).t)
  {
    hide Get, Blank;
  }

  lemma IdentityDecides(s: BrainState, e: Event)
    requires Addressed(s, e) && IdentityOnly(e.kind) && |s.actions| <= MAX_ACTION_RECORDS
    ensures ReduceState(s, e).Ok? ==> Identity.ReduceIdentity(s.identity, e).Ok?
    ensures Identity.ReduceIdentity(s.identity, e).Ok? && (e.kind.IdentityNamed? ==> NameGiven(e)) ==> ReduceState(s, e).Ok?
  {
    hide *;
    CommonExact(s, e);
    IdentityAcceptable(s, e);
    ReducedIs(s, e);
    if Common(s, e).Ok? {
      IdentityTail(Common(s, e).value, e);
    }
    NameIsGiven(e);
  }

  // A text with something in it.
  predicate NameGiven(e: Event) {
    Get(e.payload, NAME).Str? && !Blank(Get(e.payload, NAME).t)
  }

  lemma NamingIsIdentity(s: BrainState, e: Event)
    requires e.kind.IdentityNamed?
    ensures IdentityOnly(e.kind) && (Identity.ReduceIdentity(s.identity, e).Ok? <==> NameGiven(e))
  {
    hide Get, Blank;
  }

  lemma NamingAccepted(s: BrainState, e: Event)
    requires Addressed(s, e) && e.kind.IdentityNamed? && |s.actions| <= MAX_ACTION_RECORDS
    ensures ReduceState(s, e).Ok? <==> NameGiven(e)
  {
    hide *;
    NamingIsIdentity(s, e);
    IdentityDecides(s, e);
  }

  // An actor that can be read and keeps the self boundary: the self id goes
  // with the self kind, and no actor is its own parent.
  predicate ActorGiven(s: BrainState, e: Event) {
    var p, self := e.payload, s.identity.selfActorId;
    var id, kind := GetText(p, ACTOR_ID), Get(p, KIND);
    && id.Some?
    && kind in {Str(SELF), Str(HUMAN), Str(EXTERNAL_AGENT), Str(TOOL_ADAPTER), Str(SYSTEM)}
    && (Get(p, DISPLAY_NAME).Null? || (Get(p, DISPLAY_NAME).Str? && !Blank(Get(p, DISPLAY_NAME).t)))
    && (Get(p, PARENT_ACTOR_ID).Null? || Get(p, PARENT_ACTOR_ID).Str?)
    && (ATTRIBUTES in p ==> p[ATTRIBUTES].Obj?)
    && (id.value == self <==> kind == Str(SELF))
    && Get(p, PARENT_ACTOR_ID) != Str(id.value)
  }

  lemma ActorIsIdentity(s: BrainState, e: Event)
    requires e.kind.ActorRegistered?
    ensures IdentityOnly(e.kind) && !e.kind.IdentityNamed?
    ensures Identity.ReduceIdentity(s.identity, e).Ok? <==>
            && ActorGiven(s, e)
            && (Keyed.Has(Identity.Id, s.identity.actors, GetText(e.payload, ACTOR_ID).value) ||
                |s.identity.actors| < MAX_IDENTITY_ACTORS)
    ensures ActorGiven(s, e) ==> GetText(e.payload, ACTOR_ID).Some?
  {
    hide Blank, Keyed.Has, Keyed.Upsert;
  }

  // The reducer registers it if it is known or there is room.
  lemma ActorAccepted(s: BrainState, e: Event)
    requires Addressed(s, e) && e.kind.ActorRegistered? && |s.actions| <= MAX_ACTION_RECORDS
    ensures ReduceState(s, e).Ok? <==>
            && ActorGiven(s, e)
            && (Keyed.Has(Identity.Id, s.identity.actors, GetText(e.payload, ACTOR_ID).value) ||
                |s.identity.actors| < MAX_IDENTITY_ACTORS)
  {
    hide *;
    ActorIsIdentity(s, e);
    IdentityDecides(s, e);
  }

  lemma AuthorizationIsIdentity(s: BrainState, e: Event)
    requires e.kind.ProvenanceAuthorized?
    ensures IdentityOnly(e.kind) && !e.kind.IdentityNamed?
    ensures Identity.ReduceIdentity(s.identity, e).Ok? <==>
            && e.actorId == s.identity.selfActorId && GetText(e.payload, ACTOR_ID).Some?
            && (Get(e.payload, ADAPTER_ID).Null? || (Get(e.payload, ADAPTER_ID).Str? && !Empty(Get(e.payload, ADAPTER_ID).t)))
            && (Identity.Authorization(GetText(e.payload, ACTOR_ID).value, AsOption(Get(e.payload, ADAPTER_ID)))
                  in s.identity.authorizations ||
                |s.identity.authorizations| < MAX_PROVENANCE_AUTHORIZATIONS)
  {
  }

  // The self actor may authorize a named pair, if it is known or there is room.
  lemma AuthorizationAccepted(s: BrainState, e: Event)
    requires Addressed(s, e) && e.kind.ProvenanceAuthorized? && |s.actions| <= MAX_ACTION_RECORDS
    ensures ReduceState(s, e).Ok? <==>
            && e.actorId == s.identity.selfActorId && GetText(e.payload, ACTOR_ID).Some?
            && (Get(e.payload, ADAPTER_ID).Null? || (Get(e.payload, ADAPTER_ID).Str? && !Empty(Get(e.payload, ADAPTER_ID).t)))
            && (Identity.Authorization(GetText(e.payload, ACTOR_ID).value, AsOption(Get(e.payload, ADAPTER_ID)))
                  in s.identity.authorizations ||
                |s.identity.authorizations| < MAX_PROVENANCE_AUTHORIZATIONS)
  {
    hide *;
    AuthorizationIsIdentity(s, e);
    IdentityDecides(s, e);
  }

  /* ---------------- the world and the memories ---------------- */

  // A proposition that can be read: a non-blank id, an object, and a
  // confidence between zero and one.
  predicate PropositionGiven(p: Payload) {
    && Get(p, PROPOSITION_ID).Str? && !Blank(Get(p, PROPOSITION_ID).t) && Get(p, CONTENT).Obj?
    && IsNumber(GetOr(p, CONFIDENCE, Float(1.0))) && 0.0 <= Number(GetOr(p, CONFIDENCE, Float(1.0))) <= 1.0
  }

  lemma PropositionExact(e: Event, p: Payload, layer: World.WorldLayer, actionId: Option<Text>)
    ensures World.Proposition(e, p, layer, actionId).Ok? <==> PropositionGiven(p)
  {
  }

  lemma PlacingAcceptable(s: BrainState, e: Event, layer: World.WorldLayer)
    requires World.LayerOf(e.kind) == Some(layer) && |s.actions| <= MAX_ACTION_RECORDS
    ensures Acceptable(s, e) <==> (layer.Observed? && !Trusted(s, e)) || PropositionGiven(e.payload)
  {
    PropositionExact(e, e.payload, layer, None);
    hide Trusted, FirstTerminal, World.Proposition, PropositionGiven, World.Upsert;
  }

  lemma PlacingLayer(e: Event)
    requires e.kind.ObservationRecorded? || e.kind.BeliefUpdated? || e.kind.IdealUpdated?
    ensures World.LayerOf(e.kind).Some? && (World.LayerOf(e.kind).value.Observed? <==> e.kind.ObservationRecorded?)
  {
  }

  // An observation, belief or ideal must carry a proposition; an untrusted
  // observation is accepted whatever it carries, since it goes nowhere.
  lemma PlacingAccepted(s: BrainState, e: Event)
    requires Addressed(s, e) && |s.actions| <= MAX_ACTION_RECORDS
    requires e.kind.ObservationRecorded? || e.kind.BeliefUpdated? || e.kind.IdealUpdated?
    ensures ReduceState(s, e).Ok? <==> (e.kind.ObservationRecorded? && !Trusted(s, e)) || PropositionGiven(e.payload)
  {
    hide *;
    CommonExact(s, e);
    PlacingLayer(e);
    PlacingAcceptable(s, e, World.LayerOf(e.kind).value);
    ReducedIs(s, e);
    if Common(s, e).Ok? {
      TailIs(Common(s, e).value, e);
    }
  }

  // A memory that can be read.
  predicate MemoryGiven(p: Payload) {
    && GetText(p, MEMORY_ID).Some? && Get(p, CONTENT).Obj?
    && ToFloat(GetOr(p, SALIENCE, Float(0.5))).Some? && 0.0 <= ToFloat(GetOr(p, SALIENCE, Float(0.5))).value <= 1.0
    && (SOURCE_IDS in p ==> IsTextArray(p[SOURCE_IDS]))
  }

  lemma MemoryAcceptable(s: BrainState, e: Event)
    requires e.kind.MemoryRecorded? && |s.actions| <= MAX_ACTION_RECORDS
    ensures Acceptable(s, e) <==> MemoryGiven(e.payload)
  {
    hide Trusted, FirstTerminal, ToFloat;
  }

  lemma MemoryAccepted(s: BrainState, e: Event)
    requires Addressed(s, e) && e.kind.MemoryRecorded? && |s.actions| <= MAX_ACTION_RECORDS
    ensures ReduceState(s, e).Ok? <==> MemoryGiven(e.payload)
  {
    hide *;
    CommonExact(s, e);
    MemoryAcceptable(s, e);
    ReducedIs(s, e);
    if Common(s, e).Ok? {
      TailIs(Common(s, e).value, e);
    }
  }

  // A simulation must carry a proposition that also reads as a branch.
  predicate BranchGiven(p: Payload) {
    var branch, sources := GetOr(p, BRANCH_ID, Get(p, PROPOSITION_ID)), GetOr(p, SOURCE_IDS, Arr([]));
    && branch.Str? && !Empty(branch.t) && TextGiven(p, STANCE) && TextGiven(p, COGNITION_MODE)
    && TextGiven(p, ALGORITHM_VERSION) && TextGiven(p, CONFIG_VERSION)
    && ToFloat(GetOr(p, UNCERTAINTY, Float(0.5))).Some? && 0.0 <= ToFloat(GetOr(p, UNCERTAINTY, Float(0.5))).value <= 1.0
    && IsTextArray(sources) && |sources.items| <= MAX_SOURCE_IDS
    && (forall i :: 0 <= i < |sources.items| ==> !Blank(sources.items[i].t))
    && (EXPECTED_CONSEQUENCES in p ==>
          p[EXPECTED_CONSEQUENCES].Arr? &&
          forall i :: 0 <= i < |p[EXPECTED_CONSEQUENCES].items| ==> p[EXPECTED_CONSEQUENCES].items[i].Obj?)
  }

  predicate TextGiven(p: Payload, key: Text) {
    key in p ==> p[key].Str? && !Empty(p[key].t)
  }

  lemma BranchExact(p: Payload)
    requires PropositionGiven(p)
    ensures Cognition.SimulationBranch(p).Ok? <==> BranchGiven(p)
  {
    hide ToFloat;
    assert Cognition.DEFAULT_CONSEQUENCES.Arr? && Cognition.AllObjects(Cognition.DEFAULT_CONSEQUENCES.items);
  }

  lemma SimulationAccepted(s: BrainState, e: Event)
    requires Addressed(s, e) && e.kind.SimulationCreated? && |s.actions| <= MAX_ACTION_RECORDS
    ensures ReduceState(s, e).Ok? <==> PropositionGiven(e.payload) && BranchGiven(e.payload)
  {
    hide *;
    CommonExact(s, e);
    SimulationLayer(e);
    PlacingAcceptable(s, e, World.WorldLayer.Simulated);
    ReducedIs(s, e);
    if Common(s, e).Ok? {
      SimulationTail(Common(s, e).value, e);
      BranchExact(e.payload);
    }
  }

  lemma SimulationLayer(e: Event)
    requires e.kind.SimulationCreated?
    ensures World.LayerOf(e.kind) == Some(World.WorldLayer.Simulated) && !World.WorldLayer.Simulated.Observed?
  {
  }

  lemma SimulationTail(c: BrainState, e: Event)
    requires e.kind.SimulationCreated?
    ensures ApplySpecific(c, e).Ok? <==> Cognition.SimulationBranch(e.payload).Ok?
  {
    hide Cognition.SimulationBranch;
  }

  /* ---------------- broadcasts ---------------- */

  // Candidates of the next cycle that can be read, no more than the capacity,
  // none worse than a later one and no two of one content.
  ghost predicate BroadcastGiven(w: Workspace.WorkspaceState, p: Payload, c: seq<Workspace.WorkspaceCandidate>) {
    && Get(p, CYCLE) == Int(w.cycle + 1) && Get(p, CANDIDATES).Arr?
    && Workspace.ParseCandidates(Get(p, CANDIDATES).items) == Some(c) && |c| <= w.capacity
    && (forall i :: 0 <= i < |c| ==> c[i].cycle == w.cycle + 1)
    && (forall i, j :: 0 <= i < j < |c| ==> Workspace.NoWorse(c[i], c[j]) && c[i].content != c[j].content)
  }

  lemma ChosenExact(c: seq<Workspace.WorkspaceCandidate>, capacity: nat)
    ensures Workspace.Chosen(c, capacity) == c <==>
            |c| <= capacity &&
            forall i, j :: 0 <= i < j < |c| ==> Workspace.NoWorse(c[i], c[j]) && c[i].content != c[j].content
  {
    Workspace.BroadcastFixedPoint(c, capacity);
    forall i, j | 0 <= i < j < |c| ensures Workspace.NoWorse(c[i], c[j]) <==> !Workspace.RanksBefore(c[j], c[i]) {
      Workspace.RanksByScore(c[i], c[j]);
    }
    hide Workspace.Chosen, Workspace.NoWorse, Workspace.RanksBefore;
  }

  lemma WorkspaceExact(w: Workspace.WorkspaceState, e: Event)
    requires e.kind.WorkspaceBroadcast?
    ensures Workspace.ReduceWorkspace(w, e).Ok? <==> exists c :: BroadcastGiven(w, e.payload, c)
    ensures forall c :: BroadcastGiven(w, e.payload, c) ==>
              Workspace.ReduceWorkspace(w, e) == Ok(w.(cycle := w.cycle + 1, broadcast := c))
  {
    hide Workspace.ParseCandidates, Workspace.Chosen, Workspace.NoWorse, Get;
    var raw := Get(e.payload, CANDIDATES);
    if raw.Arr? && Workspace.ParseCandidates(raw.items).Some? {
      var c := Workspace.ParseCandidates(raw.items).value;
      ChosenExact(c, w.capacity);
      if Workspace.ReduceWorkspace(w, e).Ok? {
        assert BroadcastGiven(w, e.payload, c);
      }
    }
  }

  lemma BroadcastAcceptable(s: BrainState, e: Event)
    requires e.kind.WorkspaceBroadcast? && |s.actions| <= MAX_ACTION_RECORDS
    ensures Acceptable(s, e) <==> Workspace.ReduceWorkspace(s.workspace, e).Ok?
  {
    hide Trusted, FirstTerminal, Workspace.ReduceWorkspace;
  }

  // A broadcast is accepted exactly when it is given so, and then it is what
  // the workspace holds, a cycle later.
  lemma BroadcastAccepted(s: BrainState, e: Event)
    requires Addressed(s, e) && e.kind.WorkspaceBroadcast? && |s.actions| <= MAX_ACTION_RECORDS
    ensures ReduceState(s, e).Ok? <==> exists c :: BroadcastGiven(s.workspace, e.payload, c)
    ensures forall c :: BroadcastGiven(s.workspace, e.payload, c) ==>
              ReduceState(s, e).Ok? &&
              ReduceState(s, e).value.workspace == s.workspace.(cycle := s.workspace.cycle + 1, broadcast := c)
  {
    hide *;
    CommonExact(s, e);
    BroadcastAcceptable(s, e);
    WorkspaceExact(s.workspace, e);
    ReducedIs(s, e);
    if Common(s, e).Ok? {
      TailIs(Common(s, e).value, e);
      RunTotals.CommonTotals(s, e);
      BroadcastTail(Common(s, e).value, e);
    }
  }

  lemma BroadcastTail(c: BrainState, e: Event)
    requires e.kind.WorkspaceBroadcast?
    ensures ApplySpecific(c, e) == Ok(c)
  {
  }
}
