// Runs of the reducer seen from its actions: receipts, energy assessments,
// observations and the authority behind them.
module ActionRuns {
  import opened Prelude
  import opened Values
  import opened Limits
  import opened State
  import opened Reducer
  import opened ReducerInvariant
  import Keyed
  import Actions
  import Identity
  import Personality
  import World
  import Workspace
  import H = ActionHistory

  /* ---------------- the stages, as one step ---------------- */

  // The position of the action that leaves when there are too many.
  function Evictee(acted: seq<Actions.ActionRecord>): (r: Option<nat>)
    ensures r.Some? ==> r.value < |acted|
  {
    if |acted| <= MAX_ACTION_RECORDS then None else FirstTerminal(acted)
  }

  function Retained(acted: seq<Actions.ActionRecord>): seq<Actions.ActionRecord> {
    if Evictee(acted).None? then acted else Keyed.RemoveAt(acted, Evictee(acted).value)
  }

  function RetainedEnergies(energies: seq<Personality.EnergyVector>, acted: seq<Actions.ActionRecord>)
    : seq<Personality.EnergyVector>
  {
    if Evictee(acted).None? then energies
    else Keyed.Without(Personality.EnergyId, energies, acted[Evictee(acted).value].actionId)
  }

  lemma ActedResult(s: BrainState, e: Event, trusted: bool)
    requires ApplyActions(s, e, trusted).Ok?
    ensures Actions.ReduceActions(s.actions, e, trusted).Ok?
    ensures var (acted, grounded) := Actions.ReduceActions(s.actions, e, trusted).value;
            var r := ApplyActions(s, e, trusted).value;
            r.0.actions == Retained(acted) && r.0.energies == RetainedEnergies(s.energies, acted) && r.1 == grounded
  {
    hide Actions.ReduceActions, FirstTerminal, Keyed.CountNew, Keyed.RemoveAt, Keyed.Without;
  }

  lemma WorldResult(s: BrainState, e: Event, trusted: bool, grounded: set<Text>)
    requires ApplyWorld(s, e, trusted, grounded).Ok?
    ensures World.ReduceWorld(s.world, e, trusted, grounded) == Ok(ApplyWorld(s, e, trusted, grounded).value.world)
  {
    hide World.ReduceWorld, WorldCounter;
  }

  // The common part acts on actions, energies and world as their own reducers
  // do, from the state before the event.
  lemma CommonActed(s: BrainState, e: Event)
    requires Common(s, e).Ok?
    ensures Actions.ReduceActions(s.actions, e, Trusted(s, e)).Ok?
    ensures var (acted, grounded) := Actions.ReduceActions(s.actions, e, Trusted(s, e)).value;
            var r := Common(s, e).value;
            && r.actions == Retained(acted) && r.energies == RetainedEnergies(s.energies, acted)
            && World.ReduceWorld(s.world, e, Trusted(s, e), grounded) == Ok(r.world)
  {
    hide CountEvent, ApplyIdentity, ApplyPersonality, ApplyActions, ApplyWorld, ApplyWorkspace, ApplyMemory, Trusted,
         Actions.ReduceActions, World.ReduceWorld, Retained, RetainedEnergies;
    CountEventFrame(s, e);
    var s0 := CountEvent(s, e);
    IdentityFrame(s0, e);
    var s1 := ApplyIdentity(s0, e).value;
    PersonalityFrame(s1, e);
    var s2 := ApplyPersonality(s1, e).value;
    ActionsFrame(s2, e, Trusted(s, e));
    ActedResult(s2, e, Trusted(s, e));
    var (s3, grounded) := ApplyActions(s2, e, Trusted(s, e)).value;
    WorldFrame(s3, e, Trusted(s, e), grounded);
    WorldResult(s3, e, Trusted(s, e), grounded);
    var s4 := ApplyWorld(s3, e, Trusted(s, e), grounded).value;
    WorkspaceFrame(s4, e);
    MemoryFrame(ApplyWorkspace(s4, e).value, e);
  }

  // The tail leaves the actions and the world alone, and touches the energy
  // vectors only for an assessment or a legacy reassessment.
  lemma SpecificActed(c: BrainState, e: Event)
    requires ApplySpecific(c, e).Ok?
    ensures var r := ApplySpecific(c, e).value;
            && r.actions == c.actions && r.world == c.world
            && (r.energies != c.energies ==> e.kind.EnergyAssessed? || e.kind.EnergyRequested?)
  {
    hide ApplyTick, ApplyCapabilities, ApplyReassessment, ApplyAssessment, ApplySimulation, ApplyReflection,
         ApplyFailure, Get, Blank;
    match e.kind
    case ClockTick => TickFrame(c, e);
    case CapabilitiesReported => CapabilitiesFrame(c, e);
    case EnergyRequested => if ApplySpecific(c, e) != Ok(c) { ReassessmentFrame(c, e); }
    case EnergyAssessed => AssessmentFrame(c, e);
    case SimulationCreated => SimulationFrame(c, e);
    case CognitionReflected => ReflectionFrame(c, e);
    case RuntimeFailed => FailureFrame(c, e);
    case _ =>
  }

  lemma ReducedActions(s: BrainState, e: Event)
    requires ReduceState(s, e).Ok?
    ensures Actions.ReduceActions(s.actions, e, Trusted(s, e)).Ok?
    ensures var (acted, grounded) := Actions.ReduceActions(s.actions, e, Trusted(s, e)).value;
            var r := ReduceState(s, e).value;
            && r.actions == Retained(acted)
            && World.ReduceWorld(s.world, e, Trusted(s, e), grounded) == Ok(r.world)
  {
    hide Common, ApplySpecific, Trusted, Actions.ReduceActions, World.ReduceWorld, Retained, RetainedEnergies;
    CommonActed(s, e);
    SpecificActed(Common(s, e).value, e);
  }

  /* ---------------- receipts over a run ---------------- */

  // For every action id, the receipts accepted since the action was last
  // proposed, each with the trust its provenance had at that time.
  type Logs = map<Text, seq<H.Evidence>>

  function Track(logs: Logs, s: BrainState, e: Event): Logs {
    var id := Actions.ActionIdOf(e);
    if id.Err? then logs
    else if e.kind.ActionProposed? then logs[id.value := []]
    else if e.kind.ActionReceipt? && id.value in logs then
      logs[id.value := logs[id.value] + [H.Evidence(e, Trusted(s, e))]]
    else logs
  }

  function TrackMany(logs: Logs, s: BrainState, events: seq<Event>): Logs
    requires ReduceMany(s, events).Ok?
    decreases |events|
  {
    if events == [] then logs
    else TrackMany(Track(logs, s, events[0]), ReduceState(s, events[0]).value, events[1..])
  }

  ghost predicate Follows(a: Actions.ActionRecord, logs: Logs) {
    a.actionId in logs && H.Lifecycle(a) && H.Accounts(a, logs[a.actionId])
  }

  ghost predicate Tracked(actions: seq<Actions.ActionRecord>, logs: Logs) {
    && Keyed.Unique(Actions.Id, actions)
    && forall i :: 0 <= i < |actions| ==> Follows(actions[i], logs)
  }

  lemma RetainedTracked(acted: seq<Actions.ActionRecord>, logs: Logs)
    requires Tracked(acted, logs)
    ensures Tracked(Retained(acted), logs)
  {
    hide Follows, Keyed.Unique, Keyed.RemoveAt, FirstTerminal, Keyed.Has;
    if Evictee(acted).Some? {
      var i := Evictee(acted).value;
      Keyed.RemoveAtUnique(Actions.Id, acted, i);
      var r := Keyed.RemoveAt(acted, i);
      forall j | 0 <= j < |r| ensures Follows(r[j], logs) {
        assert r[j] in r;
      }
    }
  }

  lemma ProposedTracked(actions: seq<Actions.ActionRecord>, a: Actions.ActionRecord, logs: Logs)
    requires Tracked(actions, logs) && !Keyed.Has(Actions.Id, actions, a.actionId)
    requires H.Lifecycle(a) && H.Accounts(a, [])
    ensures Tracked(actions + [a], logs[a.actionId := []])
  {
    hide H.Lifecycle, H.Accounts;
    var after := logs[a.actionId := []];
    var r := actions + [a];
    forall i | 0 <= i < |r| ensures Follows(r[i], after) {
      if i < |actions| {
        assert Actions.Id(actions[i]) != a.actionId;
        assert Follows(actions[i], logs);
      }
    }
  }

  lemma UpsertTracked(actions: seq<Actions.ActionRecord>, b: Actions.ActionRecord, logs: Logs, log: seq<H.Evidence>)
    requires Tracked(actions, logs) && H.Lifecycle(b) && H.Accounts(b, log)
    ensures Tracked(Keyed.Upsert(Actions.Id, actions, b), logs[b.actionId := log])
  {
    hide H.Lifecycle, H.Accounts, Keyed.Upsert, Keyed.Unique, Keyed.Has;
    Keyed.UpsertUnique(Actions.Id, actions, b);
    Keyed.UpsertElements(Actions.Id, actions, b);
    var r := Keyed.Upsert(Actions.Id, actions, b);
    forall i | 0 <= i < |r| ensures Follows(r[i], logs[b.actionId := log]) {
      assert r[i] in r;
      if r[i] != b {
        var k :| 0 <= k < |actions| && actions[k] == r[i];
        assert Follows(actions[k], logs) && Actions.Id(r[i]) != Actions.Id(b);
      }
    }
  }

  // What the action a lifecycle event names looks like afterwards.
  lemma StepTracked(actions: seq<Actions.ActionRecord>, e: Event, trusted: bool, logs: Logs)
    requires Tracked(actions, logs) && Actions.IsLifecycle(e.kind) && !e.kind.ActionProposed?
    requires Actions.ReduceActions(actions, e, trusted).Ok?
    ensures var id := Actions.ActionIdOf(e).value;
            && id in logs
            && Tracked(Actions.ReduceActions(actions, e, trusted).value.0,
                       logs[id := H.Extended(logs[id], e, trusted)])
  {
    hide Actions.ActionIdOf, Actions.Step, Keyed.Upsert, H.Extended, Follows, Tracked;
    var id := Actions.ActionIdOf(e).value;
    var a := Keyed.Find(Actions.Id, actions, id);
    NamedFollows(actions, a, logs);
    H.StepExact(a, e, trusted, logs[id]);
    StepValid(a, e, trusted);
    UpsertTracked(actions, Actions.Step(a, e, trusted).value.0, logs, H.Extended(logs[id], e, trusted));
  }

  lemma NamedFollows(actions: seq<Actions.ActionRecord>, a: Actions.ActionRecord, logs: Logs)
    requires Tracked(actions, logs) && a in actions
    ensures a.actionId in logs && H.Lifecycle(a) && H.Accounts(a, logs[a.actionId])
  {
    hide H.Lifecycle, H.Accounts;
    var i :| 0 <= i < |actions| && actions[i] == a;
    assert Follows(actions[i], logs);
  }

  lemma ActedTracked(s: BrainState, e: Event, logs: Logs)
    requires Tracked(s.actions, logs) && Actions.ReduceActions(s.actions, e, Trusted(s, e)).Ok?
    ensures Tracked(Actions.ReduceActions(s.actions, e, Trusted(s, e)).value.0, Track(logs, s, e))
  {
    hide Actions.ActionIdOf, Actions.Step, Actions.Propose, Keyed.Upsert, Keyed.Has, Keyed.Find, Tracked, Trusted;
    if e.kind.ActionProposed? {
      var id := Actions.ActionIdOf(e).value;
      H.ProposalAccepted(id, e);
      ProposedTracked(s.actions, Actions.Propose(id, e).value, logs);
    } else if Actions.IsLifecycle(e.kind) {
      var id := Actions.ActionIdOf(e).value;
      StepTracked(s.actions, e, Trusted(s, e), logs);
      hide Actions.ReduceActions;
      if !e.kind.ActionReceipt? {
        assert logs[id := logs[id]] == logs;
      }
    }
  }

  lemma ReducedTracked(s: BrainState, e: Event, logs: Logs)
    requires Tracked(s.actions, logs) && ReduceState(s, e).Ok?
    ensures Tracked(ReduceState(s, e).value.actions, Track(logs, s, e))
  {
    ReducedActions(s, e);
    ActedTracked(s, e, logs);
    RetainedTracked(Actions.ReduceActions(s.actions, e, Trusted(s, e)).value.0, Track(logs, s, e));
    hide Tracked, Track, ReduceState, Actions.ReduceActions, Retained, Trusted;
  }

  // Over every run, every retained action agrees with its whole receipt log:
  // its outcome is that of the first receipt with a known status, its
  // canonical receipt is that receipt or else the first, its history is the
  // newest part of the log, and its counters count the rest.
  lemma {:induction false} RunTracked(s: BrainState, events: seq<Event>, logs: Logs)
    requires Tracked(s.actions, logs) && ReduceMany(s, events).Ok?
    ensures Tracked(ReduceMany(s, events).value.actions, TrackMany(logs, s, events))
    decreases |events|
  {
    hide Tracked, Track, ReduceState;
    if events != [] {
      ReducedTracked(s, events[0], logs);
      RunTracked(ReduceState(s, events[0]).value, events[1..], Track(logs, s, events[0]));
    }
  }

  lemma ReachableTracked(brainId: Text, events: seq<Event>)
    requires ReduceMany(Genesis(brainId), events).Ok?
    ensures Tracked(ReduceMany(Genesis(brainId), events).value.actions, TrackMany(map[], Genesis(brainId), events))
  {
    RunTracked(Genesis(brainId), events, map[]);
  }

  // The same, spelled out.
  ghost predicate AddsUp(a: Actions.ActionRecord, log: seq<H.Evidence>) {
    && a.outcome == H.Verdict(log) && a.receipt == H.Canonical(log)
    && a.receiptHistory == KeepLast(H.Records(log), MAX_ACTION_RECEIPT_HISTORY)
    && a.receiptHistoryEvicted + |a.receiptHistory| == |log|
    && H.Definitive(log) == (if a.outcome.Some? then 1 else 0) + a.corroborations + a.conflicts
    && !(Actions.Blocked in a.phaseHistory && Actions.Dispatched in a.phaseHistory)
    && (a.receipt.Some? ==> Actions.Dispatched in a.phaseHistory)
  }

  lemma FollowedAddsUp(a: Actions.ActionRecord, logs: Logs)
    requires Follows(a, logs)
    ensures AddsUp(a, logs[a.actionId])
  {
    H.DefinitiveSplit(logs[a.actionId]);
    H.PhaseFacts(a);
    hide H.Verdict, H.Canonical, H.Records, H.Corroborations, H.Conflicts, H.Definitive, H.PhasesOk,
         Actions.ValidAction, KeepLast;
  }

  lemma ReachableAction(brainId: Text, events: seq<Event>, i: nat)
    requires ReduceMany(Genesis(brainId), events).Ok?
    requires i < |ReduceMany(Genesis(brainId), events).value.actions|
    ensures var a := ReduceMany(Genesis(brainId), events).value.actions[i];
            var logs := TrackMany(map[], Genesis(brainId), events);
            a.actionId in logs && AddsUp(a, logs[a.actionId])
  {
    ReachableTracked(brainId, events);
    hide ReduceMany, TrackMany, Follows, AddsUp;
    var a := ReduceMany(Genesis(brainId), events).value.actions[i];
    var logs := TrackMany(map[], Genesis(brainId), events);
    assert Follows(a, logs);
    FollowedIsLogged(a, logs);
    FollowedAddsUp(a, logs);
  }

  lemma FollowedIsLogged(a: Actions.ActionRecord, logs: Logs)
    requires Follows(a, logs)
    ensures a.actionId in logs
  {
  }
}
