// The reducer accepts what the compiler derives.
module PlanAcceptance {
  import opened Prelude
  import opened Values
  import opened Limits
  import opened State
  import opened Reducer
  import opened ReducerInvariant
  import opened ActionRuns
  import opened ReducerAcceptance
  import opened SemanticIngest
  import Keyed
  import Actions
  import Identity
  import Personality
  import World
  import Workspace
  import Cognition
  import H = ActionHistory

  // A state that the reducer could have reached: the invariant, and every
  // action in agreement with some receipt log.
  ghost predicate Sound(s: BrainState) {
    Inv(s) && exists logs: Logs :: Tracked(s.actions, logs)
  }

  lemma ReachableSound(brainId: Text, events: seq<Event>)
    requires ReduceMany(Genesis(brainId), events).Ok?
    ensures Sound(ReduceMany(Genesis(brainId), events).value)
  {
    hide Inv, Tracked, ReduceMany;
    ReachableInv(brainId, events);
    ReachableTracked(brainId, events);
  }

  lemma SoundKept(s: BrainState, e: Event)
    requires Sound(s) && ReduceState(s, e).Ok?
    ensures Sound(ReduceState(s, e).value)
  {
    hide Inv, Tracked, ReduceState;
    var logs: Logs :| Tracked(s.actions, logs);
    ReductionKeepsInv(s, e);
    ReducedTracked(s, e, logs);
  }

  lemma SoundParts(s: BrainState)
    requires Sound(s)
    ensures Inv(s) && Keyed.Unique(Actions.Id, s.actions) && |s.actions| <= MAX_ACTION_RECORDS
    ensures forall a :: a in s.actions ==> H.Lifecycle(a)
  {
    hide H.Lifecycle, H.Accounts, Keyed.Unique;
    var logs: Logs :| Tracked(s.actions, logs);
    forall a | a in s.actions ensures H.Lifecycle(a) {
      NamedFollows(s.actions, a, logs);
    }
    InvFits(s);
  }

  lemma InvFits(s: BrainState)
    requires Inv(s)
    ensures |s.actions| <= MAX_ACTION_RECORDS && s.identity.selfActorId == s.brainId
    ensures Identity.SelfBoundary(s.identity)
  {
    hide Valid, Keyed.Unique, IdentityOk, Identity.SelfBoundary;
    ValidActionsFit(s);
    ValidIdentity(s);
    SelfHolds(s);
  }

  /* ---------------- events that no reducer interprets ---------------- */

  predicate Plain(kind: EventType) {
    kind.HookObserved? || kind.AttributedTo? || kind.ControlSampled? || kind.SemanticGap? || kind.TraceGap?
  }

  lemma PlainAcceptable(s: BrainState, e: Event)
    requires Plain(e.kind) && |s.actions| <= MAX_ACTION_RECORDS
    ensures Acceptable(s, e)
    ensures Actions.ReduceActions(s.actions, e, Trusted(s, e)) == Ok((s.actions, {}))
  {
    hide Trusted, FirstTerminal;
  }

  lemma PlainTail(c: BrainState, e: Event)
    requires Plain(e.kind)
    ensures ApplySpecific(c, e).Ok?
  {
  }

  lemma PlainAccepted(s: BrainState, e: Event)
    requires Sound(s) && Addressed(s, e) && Plain(e.kind)
    ensures ReduceState(s, e).Ok?
    ensures ReduceState(s, e).value.actions == s.actions && Sound(ReduceState(s, e).value)
  {
    hide Sound, Acceptable, Common, ApplySpecific, Addressed, Plain, Actions.ReduceActions, Trusted;
    SoundParts(s);
    PlainAcceptable(s, e);
    CommonExact(s, e);
    PlainTail(Common(s, e).value, e);
    ReducedActions(s, e);
    SoundKept(s, e);
  }

  /* ---------------- lifecycle events of a known action ---------------- */

  // The lifecycle events that plans contain after the proposal.
  predicate Steps(e: Event) {
    && (e.kind.ActionPrepared? || e.kind.ActionBlocked? || e.kind.ActionDispatched? || e.kind.ActionReceipt? ||
        e.kind.ActionReconstructed? || e.kind.EnergyRequested?)
    && EFFECT_EVIDENCE !in e.payload && REASSESSMENT_REASON !in e.payload
  }

  lemma StepReduces(actions: seq<Actions.ActionRecord>, e: Event, trusted: bool, a: Actions.ActionRecord)
    requires Keyed.Unique(Actions.Id, actions) && a in actions && H.Lifecycle(a) && Steps(e)
    requires Actions.ActionIdOf(e) == Ok(a.actionId)
    requires Actions.Step(a, e, trusted).Ok?
    ensures var b := Actions.Step(a, e, trusted).value.0;
            && Actions.ReduceActions(actions, e, trusted) == Ok((Keyed.Upsert(Actions.Id, actions, b), {}))
            && |Keyed.Upsert(Actions.Id, actions, b)| == |actions|
            && b in Keyed.Upsert(Actions.Id, actions, b)
  {
    Keyed.FindUnique(Actions.Id, actions, a);
    StepGrounded(a, e, trusted);
    StepValid(a, e, trusted);
    NoEvidence(e.payload, trusted);
    var b := Actions.Step(a, e, trusted).value.0;
    Keyed.UpsertUnique(Actions.Id, actions, b);
    Keyed.UpsertElements(Actions.Id, actions, b);
    hide Actions.Step, Actions.ActionIdOf, Keyed.Find, Keyed.Has, Keyed.Upsert, H.Lifecycle, Keyed.Unique,
         Actions.GroundedIds, Actions.ValidAction;
  }

  lemma NoEvidence(p: Payload, trusted: bool)
    requires EFFECT_EVIDENCE !in p
    ensures Actions.GroundedIds(p, trusted) == Ok({})
  {
    assert Get(p, EFFECT_EVIDENCE) == Null;
  }

  lemma StepAcceptable(s: BrainState, e: Event, acted: seq<Actions.ActionRecord>)
    requires Steps(e) && |acted| <= MAX_ACTION_RECORDS
    requires Actions.ReduceActions(s.actions, e, Trusted(s, e)) == Ok((acted, {}))
    ensures Acceptable(s, e)
  {
    hide Trusted, Actions.ReduceActions, FirstTerminal;
  }

  lemma StepTail(c: BrainState, e: Event)
    requires Steps(e)
    ensures ApplySpecific(c, e).Ok?
  {
    if e.kind.EnergyRequested? {
      assert Get(e.payload, REASSESSMENT_REASON) == Null;
    }
  }

  // A lifecycle event whose guards hold for its action is accepted, and
  // changes that action only.
  lemma StepAccepted(s: BrainState, e: Event, a: Actions.ActionRecord)
    requires Sound(s) && Addressed(s, e) && Steps(e) && a in s.actions
    requires Actions.ActionIdOf(e) == Ok(a.actionId) && H.Guards(a, e, Trusted(s, e))
    ensures Actions.Step(a, e, Trusted(s, e)).Ok? && ReduceState(s, e).Ok?
    ensures var b := Actions.Step(a, e, Trusted(s, e)).value.0;
            var r := ReduceState(s, e).value;
            && r.actions == Keyed.Upsert(Actions.Id, s.actions, b) && b in r.actions
            && b.actionId == a.actionId && Sound(r)
  {
    hide *;
    SoundParts(s);
    FollowedStep(s, e, a);
    StepValid(a, e, Trusted(s, e));
    StepReduces(s.actions, e, Trusted(s, e), a);
    var b := Actions.Step(a, e, Trusted(s, e)).value.0;
    StepAcceptable(s, e, Keyed.Upsert(Actions.Id, s.actions, b));
    CommonExact(s, e);
    StepTail(Common(s, e).value, e);
    ReducedByTail(s, e);
    ReducedActions(s, e);
    RetainedAll(Keyed.Upsert(Actions.Id, s.actions, b));
    SoundKept(s, e);
  }

  lemma ReducedByTail(s: BrainState, e: Event)
    requires Addressed(s, e) && Common(s, e).Ok?
    ensures ReduceState(s, e) == ApplySpecific(Common(s, e).value, e)
  {
    hide Common, ApplySpecific, Addressed;
  }

  lemma RetainedAll(acted: seq<Actions.ActionRecord>)
    requires |acted| <= MAX_ACTION_RECORDS
    ensures Retained(acted) == acted
  {
  }

  lemma FollowedStep(s: BrainState, e: Event, a: Actions.ActionRecord)
    requires Sound(s) && a in s.actions && H.Guards(a, e, Trusted(s, e))
    ensures Actions.Step(a, e, Trusted(s, e)).Ok?
  {
    hide Inv, H.Lifecycle, H.Accounts, H.Guards, Trusted, Tracked, Actions.Step;
    var logs: Logs :| Tracked(s.actions, logs);
    NamedFollows(s.actions, a, logs);
    H.StepExact(a, e, Trusted(s, e), logs[a.actionId]);
  }

  // Where a step takes an action.
  function PhaseAfter(before: Actions.Phase, kind: EventType): Actions.Phase {
    match kind
    case ActionPrepared => Actions.Prepared
    case ActionBlocked => Actions.Blocked
    case ActionDispatched => Actions.Dispatched
    case ActionReceipt => Actions.Receipt
    case ActionReconstructed => Actions.Reconstructed
    case _ => before
  }

  lemma StepOutcome(a: Actions.ActionRecord, e: Event, trusted: bool)
    requires Actions.Step(a, e, trusted).Ok? && Steps(e)
    ensures var b := Actions.Step(a, e, trusted).value.0;
            && b.phase == PhaseAfter(a.phase, e.kind)
            && b.energyStatus == (if e.kind.EnergyRequested? then Actions.EnergyPending else a.energyStatus)
            && (e.kind.ActionPrepared? ==> FromOption(b.preparedBranchId) == Get(e.payload, BRANCH_ID))
            && (!e.kind.ActionPrepared? ==> b.preparedBranchId == a.preparedBranchId)
            && (e.kind.ActionReceipt? ==>
                  var status := Actions.StatusOf(Get(e.payload, STATUS));
                  status.Some? && b.outcome == (if a.outcome.None? then Actions.OutcomeOf(status.value) else a.outcome))
            && (!e.kind.ActionReceipt? ==> b.outcome == a.outcome)
            && (e.kind.ActionBlocked? ==> b.executionConfirmed == Some(false))
  {
    hide Actions.ValidAction, Actions.ReceiptSourceOk, Actions.ValidReceipt, Actions.GroundedIds, Actions.LateFlagOk,
         Actions.BlockedSourceOk, Get, GetOr, Actions.Advance, Actions.DispositionOf, KeepLast, Sorted;
  }

  /* ---------------- proposals ---------------- */

  lemma NewestStays(acted: seq<Actions.ActionRecord>, a: Actions.ActionRecord)
    requires !Terminal(a)
    ensures Admits(acted + [a]) <==> |acted| < MAX_ACTION_RECORDS || FirstTerminal(acted).Some?
    ensures Admits(acted + [a]) ==> a in Retained(acted + [a])
  {
    var all := acted + [a];
    hide Terminal;
    assert all[|acted|] == a;
    forall i | 0 <= i < |acted| ensures all[i] == acted[i] {
    }
    if Evictee(all).Some? {
      var i := Evictee(all).value;
      assert i < |acted|;
      assert Keyed.RemoveAt(all, i)[|acted| - 1] == a;
    }
  }

  lemma ProposalReduces(actions: seq<Actions.ActionRecord>, e: Event, trusted: bool, id: Text)
    requires e.kind.ActionProposed? && Actions.ActionIdOf(e) == Ok(id) && Get(e.payload, INTENT).Obj?
    requires !Keyed.Has(Actions.Id, actions, id)
    ensures Actions.Propose(id, e).Ok?
    ensures var a := Actions.Propose(id, e).value;
            && Actions.ReduceActions(actions, e, trusted) == Ok((actions + [a], {}))
            && a.actionId == id && a.phase == Actions.Proposed && a.energyStatus.Unrequested? && !Terminal(a)
  {
    H.ProposalAccepted(id, e);
    hide Actions.Propose, Actions.ActionIdOf, Keyed.Has, H.Lifecycle, H.Accounts;
  }

  lemma ProposalRest(s: BrainState, e: Event)
    requires e.kind.ActionProposed? && Actions.ReduceActions(s.actions, e, Trusted(s, e)).Ok?
    requires Actions.ReduceActions(s.actions, e, Trusted(s, e)).value.1 == {}
    ensures Acceptable(s, e) <==> Admits(Actions.ReduceActions(s.actions, e, Trusted(s, e)).value.0)
  {
    hide Trusted, Actions.ReduceActions, Admits;
  }

  lemma ProposalTail(c: BrainState, e: Event)
    requires e.kind.ActionProposed?
    ensures ApplySpecific(c, e) == Ok(c)
  {
  }

  // When the only refusal is that no action can leave, the error is the
  // capacity error.
  lemma FullRefusal(s: BrainState, e: Event)
    requires e.kind.ActionProposed? && Addressed(s, e)
    requires var acted := Actions.ReduceActions(s.actions, e, Trusted(s, e)); acted.Ok? && !Admits(acted.value.0)
    ensures ReduceState(s, e) == Err(Capacity)
  {
    CountEventFrame(s, e);
    var s0 := CountEvent(s, e);
    hide CountEvent, Trusted, Actions.ReduceActions, Admits, Addressed, ApplySpecific, ApplyActions;
    assert ApplyIdentity(s0, e) == Ok(s0) && ApplyPersonality(s0, e).Ok? by { ProposalFront(s0, e); }
    PersonalityFrame(s0, e);
    ActsExact(ApplyPersonality(s0, e).value, e, Trusted(s, e));
    hide ApplyIdentity, ApplyPersonality, ApplyWorld, ApplyWorkspace, ApplyMemory;
  }

  lemma ProposalFront(s: BrainState, e: Event)
    requires e.kind.ActionProposed?
    ensures ApplyIdentity(s, e) == Ok(s) && ApplyPersonality(s, e).Ok?
  {
  }

  predicate Room(actions: seq<Actions.ActionRecord>) {
    |actions| < MAX_ACTION_RECORDS || FirstTerminal(actions).Some?
  }

  lemma ProposalDecided(s: BrainState, e: Event, id: Text)
    requires Sound(s) && Addressed(s, e) && e.kind.ActionProposed? && Actions.ActionIdOf(e) == Ok(id)
    requires Get(e.payload, INTENT).Obj? && !Keyed.Has(Actions.Id, s.actions, id)
    ensures Actions.Propose(id, e).Ok?
    ensures var a := Actions.Propose(id, e).value;
            a.actionId == id && a.phase == Actions.Proposed && a.energyStatus.Unrequested?
    ensures !Room(s.actions) ==> ReduceState(s, e) == Err(Capacity)
    ensures Room(s.actions) ==>
              && ReduceState(s, e).Ok? && Sound(ReduceState(s, e).value)
              && Actions.Propose(id, e).value in ReduceState(s, e).value.actions
  {
    ProposalReduces(s.actions, e, Trusted(s, e), id);
    var a := Actions.Propose(id, e).value;
    NewestStays(s.actions, a);
    ProposalRest(s, e);
    CommonExact(s, e);
    hide Sound, Acceptable, Addressed, Common, ApplySpecific, Actions.ReduceActions, Admits, Trusted, Terminal, FirstTerminal,
         Actions.Propose, Actions.ActionIdOf, Keyed.Has, Get, Retained;
    if Room(s.actions) {
      ProposalTail(Common(s, e).value, e);
      ReducedByTail(s, e);
      hide ReduceState;
      ReducedActions(s, e);
      SoundKept(s, e);
    } else {
      FullRefusal(s, e);
    }
  }
}
