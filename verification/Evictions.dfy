// Which records a reduction keeps, and in which order: the actions as a
// sequence, and the one that leaves when the table is full (core/reducer.py,
// core/action.py).
module Evictions {
  import opened Prelude
  import opened Values
  import opened Limits
  import opened State
  import opened Reducer
  import opened ActionRuns
  import opened ReducerInvariant
  import opened ReducerAcceptance
  import Keyed
  import Actions
  import Identity
  import Personality
  import World
  import Workspace

  // At its end, blocked or reconstructed, and not waiting for an assessment.
  predicate MayLeave(a: Actions.ActionRecord) {
    (a.phase == Actions.Blocked || a.phase == Actions.Reconstructed) && a.energyStatus != Actions.EnergyPending
  }

  // The oldest action that may leave.
  predicate Oldest(actions: seq<Actions.ActionRecord>, k: nat) {
    k < |actions| && MayLeave(actions[k]) && forall i :: 0 <= i < k ==> !MayLeave(actions[i])
  }

  // A new action, as the event proposes it.
  predicate ProposedBy(a: Actions.ActionRecord, e: Event) {
    && GetText(e.payload, ACTION_ID) == Some(a.actionId) && GetObj(e.payload, INTENT) == Some(a.intent)
    && a.phase == Actions.Proposed && a.phaseHistory == [Actions.Proposed] && a.rdPhase == Actions.Simulate
    && a.preparedBranchId.None? && a.receipt.None? && a.outcome.None? && a.executionConfirmed.None?
    && a.effectConfirmed.None? && a.energyStatus == Actions.Unrequested
    && a.proposedEventId == e.eventId && a.lastEventId == e.eventId
  }

  // The new action last; when the table was full, the oldest action that may
  // leave is gone, and the others keep their order.
  ghost predicate Admitted(before: seq<Actions.ActionRecord>, after: seq<Actions.ActionRecord>, e: Event) {
    && after != [] && ProposedBy(after[|after| - 1], e)
    && (|before| < MAX_ACTION_RECORDS ==> after == before + [after[|after| - 1]])
    && (|before| >= MAX_ACTION_RECORDS ==>
          exists k: nat :: Oldest(before, k) && after == before[..k] + before[k + 1..] + [after[|after| - 1]])
  }

  lemma ProposedActs(actions: seq<Actions.ActionRecord>, e: Event, trusted: bool)
    requires e.kind.ActionProposed? && Actions.ReduceActions(actions, e, trusted).Ok?
    ensures var acted := Actions.ReduceActions(actions, e, trusted).value.0;
            && |acted| == |actions| + 1 && acted[..|actions|] == actions
            && ProposedBy(acted[|actions|], e) && !Keyed.Has(Actions.Id, actions, acted[|actions|].actionId)
  {
    var id := Actions.ActionIdOf(e).value;
    var a := Actions.Propose(id, e).value;
    Actions.ProposedId(id, e);
    assert ProposedBy(a, e);
    hide Actions.ValidAction, Actions.ActionIdOf, Actions.Propose, ProposedBy, Blank;
    assert (actions + [a])[..|actions|] == actions;
  }

  // What is left of the retained actions and the new last one.
  lemma RetainedOrder(acted: seq<Actions.ActionRecord>)
    ensures |acted| <= MAX_ACTION_RECORDS ==> Evictee(acted).None?
    ensures |acted| > MAX_ACTION_RECORDS && Evictee(acted).Some? ==>
              var k := Evictee(acted).value;
              Oldest(acted, k) && Retained(acted) == acted[..k] + acted[k + 1..]
    ensures Evictee(acted).None? ==> Retained(acted) == acted
  {
    if |acted| > MAX_ACTION_RECORDS && Evictee(acted).Some? {
      var k := Evictee(acted).value;
      assert Terminal(acted[k]) && forall i :: 0 <= i < k ==> !Terminal(acted[i]);
      assert forall i :: 0 <= i < |acted| ==> (Terminal(acted[i]) <==> MayLeave(acted[i]));
    }
    hide FirstTerminal;
  }

  lemma ReducedAdmits(s: BrainState, e: Event)
    requires ReduceState(s, e).Ok?
    ensures var acted := Actions.ReduceActions(s.actions, e, Trusted(s, e));
            acted.Ok? && (|acted.value.0| <= MAX_ACTION_RECORDS || Evictee(acted.value.0).Some?)
  {
    CommonExact(s, e);
    hide Common, ApplySpecific, Actions.ReduceActions, FirstTerminal, Trusted, Identity.ReduceIdentity,
         Personality.ReducePersonality, World.ReduceWorld, Workspace.ReduceWorkspace, Workspace.ParseMemory;
  }

  // An accepted proposal admits its action so.
  lemma ProposalRetains(s: BrainState, e: Event)
    requires e.kind.ActionProposed? && ReduceState(s, e).Ok?
    ensures Admitted(s.actions, ReduceState(s, e).value.actions, e)
  {
    hide *;
    ReducedAdmits(s, e);
    ReducedActions(s, e);
    ProposedActs(s.actions, e, Trusted(s, e));
    ActedAdmits(s.actions, Actions.ReduceActions(s.actions, e, Trusted(s, e)).value.0, e);
  }

  lemma ActedAdmits(before: seq<Actions.ActionRecord>, acted: seq<Actions.ActionRecord>, e: Event)
    requires |acted| == |before| + 1 && acted[..|before|] == before && ProposedBy(acted[|before|], e)
    requires |acted| <= MAX_ACTION_RECORDS || Evictee(acted).Some?
    ensures Admitted(before, Retained(acted), e)
  {
    RetainedOrder(acted);
    NewStays(before, acted, e);
    hide Retained, Evictee, ProposedBy, Oldest;
    assert acted == before + [acted[|before|]];
    if |before| >= MAX_ACTION_RECORDS {
      var k := Evictee(acted).value;
      assert acted[..k] == before[..k] && acted[k + 1..] == before[k + 1..] + [acted[|before|]];
      assert Retained(acted) == before[..k] + before[k + 1..] + [acted[|before|]];
    }
  }

  // The action just proposed is not the one to leave.
  lemma NewStays(before: seq<Actions.ActionRecord>, acted: seq<Actions.ActionRecord>, e: Event)
    requires |acted| == |before| + 1 && acted[..|before|] == before && ProposedBy(acted[|before|], e)
    ensures forall k: nat :: Oldest(acted, k) ==> k < |before| && Oldest(before, k)
  {
    assert forall i :: 0 <= i < |before| ==> acted[i] == before[i];
    assert !MayLeave(acted[|before|]);
    hide MayLeave;
  }

  lemma StepActs(actions: seq<Actions.ActionRecord>, e: Event, trusted: bool)
    requires Actions.IsLifecycle(e.kind) && !e.kind.ActionProposed? && Keyed.Unique(Actions.Id, actions)
    requires Actions.ReduceActions(actions, e, trusted).Ok?
    ensures var acted := Actions.ReduceActions(actions, e, trusted).value.0;
            && |acted| == |actions| && acted != []
            && exists k :: StepAt(actions, acted, e, trusted, k)
  {
    var id := Actions.ActionIdOf(e).value;
    var a := Keyed.Find(Actions.Id, actions, id);
    var b := Actions.Step(a, e, trusted).value.0;
    StepValid(a, e, trusted);
    Keyed.UpsertOrder(Actions.Id, actions, b);
    Keyed.UpsertUnique(Actions.Id, actions, b);
    var k :| 0 <= k < |actions| && actions[k] == a;
    assert Keyed.Sole(Actions.Id, actions, id, k);
    hide Actions.Step, Keyed.Upsert, Actions.ActionIdOf;
    assert StepAt(actions, Keyed.Upsert(Actions.Id, actions, b), e, trusted, k);
  }

  // The named action, stepped, moves to the end; the others keep their order.
  ghost predicate StepAt(before: seq<Actions.ActionRecord>, after: seq<Actions.ActionRecord>, e: Event, trusted: bool,
                         k: nat) {
    && k < |before| && after != []
    && GetText(e.payload, ACTION_ID) == Some(before[k].actionId)
    && after == before[..k] + before[k + 1..] + [after[|after| - 1]]
    && Actions.Step(before[k], e, trusted).Ok? && Actions.Step(before[k], e, trusted).value.0 == after[|after| - 1]
  }

  // Any other lifecycle event steps one action, which becomes the newest;
  // other events leave the sequence as it is.
  lemma StepRetains(s: BrainState, e: Event)
    requires Inv(s) && !e.kind.ActionProposed? && ReduceState(s, e).Ok?
    ensures var r := ReduceState(s, e).value.actions;
            if Actions.IsLifecycle(e.kind) then exists k :: StepAt(s.actions, r, e, Trusted(s, e), k)
            else r == s.actions
  {
    ActionsOfInv(s);
    ReducedActions(s, e);
    var acted := Actions.ReduceActions(s.actions, e, Trusted(s, e)).value.0;
    hide Inv, ReduceState, Retained, Evictee, StepAt, Trusted, Keyed.Unique;
    RetainedOrder(acted);
    if Actions.IsLifecycle(e.kind) {
      StepActs(s.actions, e, Trusted(s, e));
    }
  }

  lemma ActionsOfInv(s: BrainState)
    requires Inv(s)
    ensures Keyed.Unique(Actions.Id, s.actions) && |s.actions| <= MAX_ACTION_RECORDS
  {
    hide IdentityOk, PersonalityOk, EnergiesOk, ThoughtsOk, ReflectionsOk, WorldOk, Workspace.ValidWorkspace,
         MemoriesOk, RawCountsOk, CapabilitiesOk, NameOk;
  }

  // A full table in which no action may leave refuses every proposal.
  lemma NoRoom(s: BrainState, e: Event)
    requires e.kind.ActionProposed? && |s.actions| >= MAX_ACTION_RECORDS
    requires forall i :: 0 <= i < |s.actions| ==> !MayLeave(s.actions[i])
    ensures ReduceState(s, e).Err?
  {
    hide ReduceState;
    if ReduceState(s, e).Ok? {
      ProposalRetains(s, e);
      NobodyLeaves(s.actions, ReduceState(s, e).value.actions, e);
      assert false;
    }
  }

  lemma NobodyLeaves(before: seq<Actions.ActionRecord>, after: seq<Actions.ActionRecord>, e: Event)
    requires |before| >= MAX_ACTION_RECORDS && forall i :: 0 <= i < |before| ==> !MayLeave(before[i])
    ensures !Admitted(before, after, e)
  {
    hide MayLeave, ProposedBy;
  }
}
