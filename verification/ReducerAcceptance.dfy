// Which events the reducer accepts, stage by stage, and what it leaves of the
// fields that later stages read.
module ReducerAcceptance {
  import opened Prelude
  import opened Values
  import opened Limits
  import opened State
  import opened Reducer
  import opened ReducerInvariant
  import opened ActionRuns
  import Keyed
  import Actions
  import Identity
  import Personality
  import World
  import Workspace
  import Cognition

  predicate Admits(acted: seq<Actions.ActionRecord>) {
    |acted| <= MAX_ACTION_RECORDS || FirstTerminal(acted).Some?
  }

  lemma ActsExact(s: BrainState, e: Event, trusted: bool)
    ensures var acted := Actions.ReduceActions(s.actions, e, trusted);
            ApplyActions(s, e, trusted).Ok? <==> acted.Ok? && Admits(acted.value.0)
    ensures var acted := Actions.ReduceActions(s.actions, e, trusted);
            acted.Ok? && !Admits(acted.value.0) ==> ApplyActions(s, e, trusted) == Err(Capacity)
  {
    hide Actions.ReduceActions, Keyed.CountNew, FirstTerminal, Keyed.RemoveAt, Keyed.Without;
  }

  lemma WorldExact(s: BrainState, e: Event, trusted: bool, grounded: set<Text>)
    ensures ApplyWorld(s, e, trusted, grounded).Ok? <==> World.ReduceWorld(s.world, e, trusted, grounded).Ok?
  {
    hide World.ReduceWorld, WorldCounter;
  }

  lemma FrontExact(s: BrainState, e: Event)
    ensures ApplyIdentity(s, e).Ok? <==> Identity.ReduceIdentity(s.identity, e).Ok?
    ensures ApplyPersonality(s, e).Ok? <==> Personality.ReducePersonality(s.personality, e, s.logicalClock).Ok?
    ensures ApplyWorkspace(s, e).Ok? <==> Workspace.ReduceWorkspace(s.workspace, e).Ok?
    ensures ApplyMemory(s, e).Ok? <==> (e.kind.MemoryRecorded? ==> Workspace.ParseMemory(e.payload).Some?)
  {
    hide Identity.ReduceIdentity, Personality.ReducePersonality, Workspace.ReduceWorkspace, Workspace.ParseMemory,
         Keyed.Upsert, Keyed.Has, UpsertCounter;
  }

  // Every component reducer accepts the event.
  predicate Acceptable(s: BrainState, e: Event) {
    var acted := Actions.ReduceActions(s.actions, e, Trusted(s, e));
    && Identity.ReduceIdentity(s.identity, e).Ok?
    && Personality.ReducePersonality(s.personality, e, s.logicalClock).Ok?
    && acted.Ok? && Admits(acted.value.0)
    && World.ReduceWorld(s.world, e, Trusted(s, e), acted.value.1).Ok?
    && Workspace.ReduceWorkspace(s.workspace, e).Ok?
    && (e.kind.MemoryRecorded? ==> Workspace.ParseMemory(e.payload).Some?)
  }

  // The common part accepts exactly what all the component reducers accept on
  // the components of the state before the event.
  lemma CommonExact(s: BrainState, e: Event)
    ensures Common(s, e).Ok? <==> Acceptable(s, e)
  {
    hide Identity.ReduceIdentity, Personality.ReducePersonality, Actions.ReduceActions, Admits, World.ReduceWorld,
         Workspace.ReduceWorkspace, Workspace.ParseMemory, Trusted, CountEvent, ApplyIdentity, ApplyPersonality,
         ApplyActions, ApplyWorld, ApplyWorkspace, ApplyMemory;
    CountEventFrame(s, e);
    var s0 := CountEvent(s, e);
    FrontExact(s0, e);
    if ApplyIdentity(s0, e).Ok? {
      IdentityFrame(s0, e);
      var s1 := ApplyIdentity(s0, e).value;
      FrontExact(s1, e);
      if ApplyPersonality(s1, e).Ok? {
        PersonalityFrame(s1, e);
        BackExact(s, ApplyPersonality(s1, e).value, e);
      }
    }
  }

  lemma BackExact(s: BrainState, s2: BrainState, e: Event)
    requires s2.actions == s.actions && s2.world == s.world && s2.workspace == s.workspace
    ensures
      var acted := Actions.ReduceActions(s.actions, e, Trusted(s, e));
      var back := (var (s3, grounded) :- ApplyActions(s2, e, Trusted(s, e));
                   var s4 :- ApplyWorld(s3, e, Trusted(s, e), grounded);
                   var s5 :- ApplyWorkspace(s4, e);
                   ApplyMemory(s5, e));
      back.Ok? <==>
        && acted.Ok? && Admits(acted.value.0)
        && World.ReduceWorld(s.world, e, Trusted(s, e), acted.value.1).Ok?
        && Workspace.ReduceWorkspace(s.workspace, e).Ok?
        && (e.kind.MemoryRecorded? ==> Workspace.ParseMemory(e.payload).Some?)
  {
    hide Actions.ReduceActions, Admits, World.ReduceWorld, Workspace.ReduceWorkspace, Workspace.ParseMemory, Trusted,
         ApplyActions, ApplyWorld, ApplyWorkspace, ApplyMemory;
    ActsExact(s2, e, Trusted(s, e));
    if ApplyActions(s2, e, Trusted(s, e)).Ok? {
      ActionsFrame(s2, e, Trusted(s, e));
      ActedResult(s2, e, Trusted(s, e));
      var (s3, grounded) := ApplyActions(s2, e, Trusted(s, e)).value;
      WorldExact(s3, e, Trusted(s, e), grounded);
      if ApplyWorld(s3, e, Trusted(s, e), grounded).Ok? {
        WorldFrame(s3, e, Trusted(s, e), grounded);
        var s4 := ApplyWorld(s3, e, Trusted(s, e), grounded).value;
        FrontExact(s4, e);
        if ApplyWorkspace(s4, e).Ok? {
          FrontExact(ApplyWorkspace(s4, e).value, e);
        }
      }
    }
  }
}
