// What a whole run adds up to, and what an event can be read back from: the
// counters of the state are sums over the run, and each recording event is
// found where it belongs, with everything else left alone.
module RunTotals {
  import opened Prelude
  import opened Values
  import opened Limits
  import opened State
  import opened Reducer
  import opened ReducerInvariant
  import Actions
  import Identity
  import World
  import Workspace
  import Keyed
  import AR = ActionRuns
  import RateLimit

  /* ---------------- totals ---------------- */

  datatype Totals = Totals(
    events: nat,
    ticks: nat,
    failures: nat,
    streak: nat,
    healthy: bool,
    clock: real,
    complete: bool,
    cycles: nat)

  function TotalsOf(s: BrainState): Totals {
    Totals(s.workingSet.reducedEvents, s.runtime.tickCount, s.runtime.failureCount, s.runtime.consecutiveFailures,
           s.runtime.healthy, s.logicalClock, s.traceComplete, s.workspace.cycle)
  }

  // How many events of a kind a run has.
  function Many(events: seq<Event>, kind: Event -> bool): nat {
    if events == [] then 0 else (if kind(events[0]) then 1 else 0) + Many(events[1..], kind)
  }

  // Failures since the last recovery, or on top of `before` if there was none.
  function Streak(events: seq<Event>, before: nat): nat {
    if events == [] then before
    else Streak(events[1..], if events[0].kind.RuntimeFailed? then before + 1
                             else if events[0].kind.RuntimeRecovered? then 0 else before)
  }

  // What the last failure or recovery says, or `before` if there was none.
  function HealthyAfter(events: seq<Event>, before: bool): bool {
    if events == [] then before
    else HealthyAfter(events[1..], if events[0].kind.RuntimeFailed? then false
                                   else events[0].kind.RuntimeRecovered? || before)
  }

  function IsTick(e: Event): bool { e.kind.ClockTick? }
  function IsFailure(e: Event): bool { e.kind.RuntimeFailed? }
  function IsGap(e: Event): bool { e.kind.SemanticGap? || e.kind.TraceGap? }
  function IsBroadcast(e: Event): bool { e.kind.WorkspaceBroadcast? }

  function Added(t: Totals, events: seq<Event>): Totals {
    Totals(t.events + |events|, t.ticks + Many(events, IsTick), t.failures + Many(events, IsFailure),
           Streak(events, t.streak), HealthyAfter(events, t.healthy), t.clock + RateLimit.ElapsedOver(events),
           t.complete && Many(events, IsGap) == 0, t.cycles + Many(events, IsBroadcast))
  }

  lemma CommonTotals(s: BrainState, e: Event)
    requires Common(s, e).Ok?
    ensures var r := Common(s, e).value;
            && r.runtime == s.runtime && r.logicalClock == s.logicalClock && r.traceComplete == s.traceComplete
            && r.workingSet.reducedEvents == s.workingSet.reducedEvents + 1
            && Workspace.ReduceWorkspace(s.workspace, e) == Ok(r.workspace)
  {
    hide CountEvent, ApplyIdentity, ApplyPersonality, ApplyActions, ApplyWorld, ApplyWorkspace, ApplyMemory, Trusted,
         Workspace.ReduceWorkspace;
    CountEventFrame(s, e);
    CountedOnce(s, e);
    var s0 := CountEvent(s, e);
    IdentityFrame(s0, e);
    var s1 := ApplyIdentity(s0, e).value;
    PersonalityFrame(s1, e);
    var s2 := ApplyPersonality(s1, e).value;
    ActionsFrame(s2, e, Trusted(s, e));
    var (s3, grounded) := ApplyActions(s2, e, Trusted(s, e)).value;
    WorldFrame(s3, e, Trusted(s, e), grounded);
    var s4 := ApplyWorld(s3, e, Trusted(s, e), grounded).value;
    WorkspaceFrame(s4, e);
    WorkspaceResult(s4, e);
    MemoryFrame(ApplyWorkspace(s4, e).value, e);
  }

  lemma CountedOnce(s: BrainState, e: Event)
    ensures CountEvent(s, e).workingSet.reducedEvents == s.workingSet.reducedEvents + 1
    ensures CountEvent(s, e).workspace == s.workspace
  {
    hide InsertCount, Increment;
  }

  lemma WorkspaceResult(s: BrainState, e: Event)
    requires ApplyWorkspace(s, e).Ok?
    ensures Workspace.ReduceWorkspace(s.workspace, e) == Ok(ApplyWorkspace(s, e).value.workspace)
  {
    hide Workspace.ReduceWorkspace;
  }

  lemma CycleAdvances(w: Workspace.WorkspaceState, e: Event)
    requires Workspace.ReduceWorkspace(w, e).Ok?
    ensures Workspace.ReduceWorkspace(w, e).value.cycle == w.cycle + if e.kind.WorkspaceBroadcast? then 1 else 0
  {
    hide Workspace.ParseCandidates, Workspace.Chosen, Get;
  }

  lemma SpecificTotals(c: BrainState, e: Event)
    requires ApplySpecific(c, e).Ok?
    ensures var r := ApplySpecific(c, e).value;
            && r.workingSet.reducedEvents == c.workingSet.reducedEvents && r.workspace == c.workspace
            && r.runtime.tickCount == c.runtime.tickCount + (if e.kind.ClockTick? then 1 else 0)
            && r.runtime.failureCount == c.runtime.failureCount + (if e.kind.RuntimeFailed? then 1 else 0)
            && r.runtime.consecutiveFailures == Streak([e], c.runtime.consecutiveFailures)
            && r.runtime.healthy == HealthyAfter([e], c.runtime.healthy)
            && r.logicalClock == c.logicalClock + RateLimit.Elapsed(e)
            && r.traceComplete == (c.traceComplete && !IsGap(e))
  {
    hide ApplyCapabilities, ApplyReassessment, ApplyAssessment, ApplySimulation, ApplyReflection, ApplyName,
         Get, GetText, Blank;
    assert [e][1..] == [];
    RateLimit.SpecificPersonality(c, e);
    match e.kind
    case BrainCreated => NameFrame(c, e);
    case IdentityNamed => NameFrame(c, e);
    case CapabilitiesReported => CapabilitiesFrame(c, e);
    case EnergyRequested => if ApplySpecific(c, e) != Ok(c) { ReassessmentFrame(c, e); }
    case EnergyAssessed => AssessmentFrame(c, e);
    case SimulationCreated => SimulationFrame(c, e);
    case CognitionReflected => ReflectionFrame(c, e);
    case _ =>
  }

  lemma StepTotals(s: BrainState, e: Event)
    requires ReduceState(s, e).Ok?
    ensures TotalsOf(ReduceState(s, e).value) == Added(TotalsOf(s), [e])
  {
    CommonTotals(s, e);
    SpecificTotals(Common(s, e).value, e);
    CycleAdvances(s.workspace, e);
    OneEvent(e);
    hide Common, ApplySpecific, Workspace.ReduceWorkspace, Streak, HealthyAfter, RateLimit.Elapsed, Many, RateLimit.ElapsedOver;
  }

  lemma OneEvent(e: Event)
    ensures Many([e], IsTick) == (if IsTick(e) then 1 else 0) && Many([e], IsFailure) == (if IsFailure(e) then 1 else 0)
    ensures Many([e], IsGap) == (if IsGap(e) then 1 else 0) && Many([e], IsBroadcast) == (if IsBroadcast(e) then 1 else 0)
    ensures RateLimit.ElapsedOver([e]) == RateLimit.Elapsed(e)
  {
    assert [e][1..] == [];
  }

  lemma AddedTwice(t: Totals, e: Event, rest: seq<Event>)
    ensures Added(Added(t, [e]), rest) == Added(t, [e] + rest)
  {
    OneMore(e, rest, IsTick);
    OneMore(e, rest, IsFailure);
    OneMore(e, rest, IsGap);
    OneMore(e, rest, IsBroadcast);
    assert ([e] + rest)[1..] == rest && ([e] + rest)[0] == e && [e][1..] == [];
    HealthAfterMore(e, rest, t.streak, t.healthy);
    assert RateLimit.ElapsedOver([e]) == RateLimit.Elapsed(e);
    assert RateLimit.ElapsedOver([e] + rest) == RateLimit.Elapsed(e) + RateLimit.ElapsedOver(rest);
    hide Streak, HealthyAfter, Many, RateLimit.ElapsedOver, RateLimit.Elapsed;
  }

  lemma HealthAfterMore(e: Event, rest: seq<Event>, streak: nat, healthy: bool)
    ensures Streak([e] + rest, streak) == Streak(rest, Streak([e], streak))
    ensures HealthyAfter([e] + rest, healthy) == HealthyAfter(rest, HealthyAfter([e], healthy))
  {
    assert ([e] + rest)[1..] == rest && ([e] + rest)[0] == e && [e][1..] == [];
    var n := if e.kind.RuntimeFailed? then streak + 1 else if e.kind.RuntimeRecovered? then 0 else streak;
    assert Streak([], n) == n && Streak([e], streak) == n;
    var h := if e.kind.RuntimeFailed? then false else e.kind.RuntimeRecovered? || healthy;
    assert HealthyAfter([], h) == h && HealthyAfter([e], healthy) == h;
  }

  lemma OneMore(e: Event, rest: seq<Event>, kind: Event -> bool)
    ensures Many([e] + rest, kind) == Many([e], kind) + Many(rest, kind)
  {
    assert ([e] + rest)[1..] == rest && [e][1..] == [];
    assert Many([e], kind) == (if kind(e) then 1 else 0);
  }

  // Over every run: the counters are the numbers of events of their kind, the
  // clock is the sum of the ticks, the streak counts the failures since the
  // last recovery, and the trace is complete exactly if it was and no gap came.
  lemma {:induction false} RunAddsUp(s: BrainState, events: seq<Event>)
    requires ReduceMany(s, events).Ok?
    ensures TotalsOf(ReduceMany(s, events).value) == Added(TotalsOf(s), events)
    decreases |events|
  {
    hide ReduceState, Added, TotalsOf;
    if events == [] {
      NothingAdded(TotalsOf(s));
    } else {
      var next := ReduceState(s, events[0]).value;
      StepTotals(s, events[0]);
      RunAddsUp(next, events[1..]);
      AddedTwice(TotalsOf(s), events[0], events[1..]);
      assert [events[0]] + events[1..] == events;
    }
  }

  lemma NothingAdded(t: Totals)
    ensures Added(t, []) == t
  {
  }

  /* ---------------- reading back: authority and actors ---------------- */

  // The pair that an accepted provenance event grants.
  predicate Names(e: Event, actorId: Text, adapterId: Option<Text>) {
    e.kind.ProvenanceAuthorized? && GetText(e.payload, ACTOR_ID) == Some(actorId) &&
    Get(e.payload, ADAPTER_ID) == FromOption(adapterId)
  }

  lemma AuthorityExact(i: Identity.IdentityState, e: Event, actorId: Text, adapterId: Option<Text>)
    requires Identity.ReduceIdentity(i, e).Ok?
    ensures Identity.IsAuthorized(Identity.ReduceIdentity(i, e).value, actorId, adapterId) <==>
            Identity.IsAuthorized(i, actorId, adapterId) || Names(e, actorId, adapterId)
  {
    hide Identity.RegisterActor, Get, GetText, Blank, Empty;
    if e.kind.ActorRegistered? {
      RegistrationKeepsAuthority(i, e);
    }
  }

  lemma RegistrationKeepsAuthority(i: Identity.IdentityState, e: Event)
    requires Identity.RegisterActor(i, e).Ok?
    ensures var r := Identity.RegisterActor(i, e).value;
            r.selfActorId == i.selfActorId && r.authorizations == i.authorizations
  {
    hide Identity.ParseActor, Keyed.Upsert, Keyed.Has;
  }

  // After an event, another event is trusted exactly if it was before or its
  // actor and adapter are the pair that the event granted.
  lemma TrustExact(s: BrainState, e: Event, x: Event)
    requires ReduceState(s, e).Ok?
    ensures Trusted(ReduceState(s, e).value, x) <==> Trusted(s, x) || Names(e, x.actorId, x.adapterId)
  {
    CommonFrame(s, e);
    AuthorityExact(s.identity, e, x.actorId, x.adapterId);
    SpecificActors(Common(s, e).value, e);
    hide Common, ApplySpecific, Identity.ReduceIdentity, Names, SameTail;
  }

  // A registered actor is found with what was registered; the others stay.
  lemma ActorsExact(s: BrainState, e: Event, y: Identity.ActorRecord)
    requires ReduceState(s, e).Ok?
    ensures var r := ReduceState(s, e).value;
            if e.kind.ActorRegistered? then
              Identity.ParseActor(e.payload).Some? &&
              (var x := Identity.ParseActor(e.payload).value;
               y in r.identity.actors <==> y == x || (y in s.identity.actors && y.actorId != x.actorId))
            else r.identity.actors == s.identity.actors
  {
    CommonFrame(s, e);
    SpecificActors(Common(s, e).value, e);
    ActorsReduced(s.identity, e, y);
    hide Common, ApplySpecific, Identity.ReduceIdentity, SameTail, Identity.ParseActor;
  }

  lemma ActorsReduced(i: Identity.IdentityState, e: Event, y: Identity.ActorRecord)
    requires Identity.ReduceIdentity(i, e).Ok?
    ensures var r := Identity.ReduceIdentity(i, e).value;
            if e.kind.ActorRegistered? then
              Identity.ParseActor(e.payload).Some? &&
              (var x := Identity.ParseActor(e.payload).value;
               y in r.actors <==> y == x || (y in i.actors && y.actorId != x.actorId))
            else r.actors == i.actors
  {
    hide Identity.ParseActor, Get, Blank;
    if e.kind.ActorRegistered? {
      Keyed.UpsertElements(Identity.Id, i.actors, Identity.ParseActor(e.payload).value);
      hide Keyed.Upsert, Keyed.Has;
    }
  }

  /* ---------------- reading back: the world ---------------- */

  // The proposition that a placing event carries, field by field.
  predicate Carries(e: Event, p: World.WorldProposition, layer: World.WorldLayer) {
    && GetText(e.payload, PROPOSITION_ID) == Some(p.propositionId)
    && GetObj(e.payload, CONTENT) == Some(p.content)
    && p.layer == layer && p.sourceEventId == e.eventId && p.sourceActorId == e.actorId && p.actionId.None?
  }

  // `now` is `before` with p at the end, in place of whatever bore its id, cut to
  // the newest n.
  ghost predicate Newest(before: World.Propositions, now: World.Propositions, p: World.WorldProposition, n: nat) {
    && now != [] && now[|now| - 1] == p
    && (forall x :: x in now ==> x == p || (x in before && x.propositionId != p.propositionId))
    && (|before| < n ==> forall x :: x in before && x.propositionId != p.propositionId ==> x in now)
  }

  lemma UpsertedNewest(before: World.Propositions, p: World.WorldProposition)
    ensures Newest(before, World.Upsert(before, p), p, MAX_WORLD_PROPOSITIONS_PER_LAYER)
  {
    Keyed.UpsertElements(World.Id, before, p);
    var all := Keyed.Upsert(World.Id, before, p);
    assert all[|all| - 1] == p;
    hide Keyed.Upsert;
  }

  // An event that fixes a layer puts its proposition there and nowhere else;
  // an untrusted observation puts it nowhere.
  lemma PlacedWhereItBelongs(s: BrainState, e: Event, at: World.WorldLayer)
    requires ReduceState(s, e).Ok? && World.LayerOf(e.kind).Some?
    ensures var r, layer := ReduceState(s, e).value, World.LayerOf(e.kind).value;
            && (at != layer ==> r.world.Get(at) == s.world.Get(at))
            && (at == layer ==>
                  if layer.Observed? && !Trusted(s, e) then r.world.Get(at) == s.world.Get(at)
                  else exists p :: Carries(e, p, layer) &&
                         Newest(s.world.Get(at), r.world.Get(at), p, MAX_WORLD_PROPOSITIONS_PER_LAYER))
  {
    AR.ReducedActions(s, e);
    var (acted, grounded) := Actions.ReduceActions(s.actions, e, Trusted(s, e)).value;
    PlaceExact(s.world, e, Trusted(s, e), grounded, at);
    hide *;
  }

  lemma PlaceExact(w: World.WorldModel, e: Event, trusted: bool, grounded: set<Text>, at: World.WorldLayer)
    requires World.ReduceWorld(w, e, trusted, grounded).Ok? && World.LayerOf(e.kind).Some?
    ensures var r, layer := World.ReduceWorld(w, e, trusted, grounded).value, World.LayerOf(e.kind).value;
            && (at != layer ==> r.Get(at) == w.Get(at))
            && (at == layer ==>
                  if layer.Observed? && !trusted then r.Get(at) == w.Get(at)
                  else exists p :: Carries(e, p, layer) &&
                         Newest(w.Get(at), r.Get(at), p, MAX_WORLD_PROPOSITIONS_PER_LAYER))
  {
    hide Newest, World.Upsert, Get, GetText, GetObj, Blank, IsNumber, Number;
    var layer := World.LayerOf(e.kind).value;
    if !(layer.Observed? && !trusted) {
      var p := World.Proposition(e, e.payload, layer, None).value;
      assert Carries(e, p, layer);
      UpsertedNewest(w.Get(layer), p);
    }
  }

  /* ---------------- reading back: memories ---------------- */

  // A recorded memory is the newest one and takes the place of its namesake.
  lemma MemoryIsNewest(s: BrainState, e: Event)
    requires ApplyMemory(s, e).Ok? && e.kind.MemoryRecorded?
    ensures var r := ApplyMemory(s, e).value;
            Workspace.ParseMemory(e.payload).Some? &&
            (var m := Workspace.ParseMemory(e.payload).value;
             && r.memories != [] && r.memories[|r.memories| - 1] == m
             && (forall x :: x in r.memories ==> x == m || (x in s.memories && x.memoryId != m.memoryId))
             && (|s.memories| < MAX_MEMORY_RECORDS ==>
                   forall x :: x in s.memories && x.memoryId != m.memoryId ==> x in r.memories))
  {
    hide Workspace.ParseMemory, Keyed.Has, UpsertCounter;
    var m := Workspace.ParseMemory(e.payload).value;
    Keyed.UpsertElements(Workspace.MemoryId, s.memories, m);
    var all := Keyed.Upsert(Workspace.MemoryId, s.memories, m);
    assert all[|all| - 1] == m;
    hide Keyed.Upsert;
  }
}
