// In every reachable state the energy vectors are exactly those of the
// actions whose assessment status is ASSESSED.
module EnergyRuns {
  import opened Prelude
  import opened Values
  import opened Limits
  import opened State
  import opened Reducer
  import opened ReducerInvariant
  import opened ActionRuns
  import Keyed
  import Actions
  import Identity
  import Personality
  import Workspace

  predicate AssessedIn(actions: seq<Actions.ActionRecord>, id: Text) {
    exists i :: 0 <= i < |actions| && actions[i].actionId == id && actions[i].energyStatus.Assessed?
  }

  ghost predicate EnergyExact(actions: seq<Actions.ActionRecord>, energies: seq<Personality.EnergyVector>) {
    forall id :: Keyed.Has(Personality.EnergyId, energies, id) <==> AssessedIn(actions, id)
  }

  // What a lifecycle step does to the assessment status, and from where.
  function StatusAfter(before: Actions.EnergyStatus, kind: EventType): Actions.EnergyStatus {
    match kind
    case EnergyRequested => Actions.EnergyPending
    case EnergyAssessed => Actions.Assessed
    case EnergyAssessmentFailed => Actions.AssessmentFailed
    case _ => before
  }

  lemma StepStatus(a: Actions.ActionRecord, e: Event, trusted: bool)
    requires Actions.Step(a, e, trusted).Ok?
    ensures Actions.Step(a, e, trusted).value.0.energyStatus == StatusAfter(a.energyStatus, e.kind)
    ensures e.kind.EnergyRequested? && a.energyStatus.Assessed? ==>
              Get(e.payload, REASSESSMENT_REASON) == Str(LEGACY_NEUTRAL_DEFAULT)
    ensures e.kind.EnergyRequested? && !a.energyStatus.Assessed? ==> a.energyStatus.Unrequested?
    ensures e.kind.EnergyAssessed? || e.kind.EnergyAssessmentFailed? ==> !a.energyStatus.Assessed?
  {
    hide Actions.ValidAction, Actions.ReceiptSourceOk, Actions.ValidReceipt, Actions.GroundedIds, Actions.LateFlagOk,
         Actions.BlockedSourceOk, Actions.NewReceipt, Get, GetOr;
  }

  // The assessed ids after the event's own action has moved to status `now`.
  lemma UpsertAssessed(actions: seq<Actions.ActionRecord>, b: Actions.ActionRecord, id: Text)
    ensures AssessedIn(Keyed.Upsert(Actions.Id, actions, b), id) <==>
            if id == b.actionId then b.energyStatus.Assessed? else AssessedIn(actions, id)
  {
    Keyed.UpsertElements(Actions.Id, actions, b);
    var r := Keyed.Upsert(Actions.Id, actions, b);
    hide Keyed.Upsert;
    if i :| 0 <= i < |r| && r[i].actionId == id && r[i].energyStatus.Assessed? {
      assert r[i] in r;
      if id != b.actionId {
        var k :| 0 <= k < |actions| && actions[k] == r[i];
      }
    }
    if id == b.actionId && b.energyStatus.Assessed? {
      assert b in r;
      var k :| 0 <= k < |r| && r[k] == b;
    }
    if id != b.actionId && AssessedIn(actions, id) {
      var k :| 0 <= k < |actions| && actions[k].actionId == id && actions[k].energyStatus.Assessed?;
      assert actions[k] in r;
      var j :| 0 <= j < |r| && r[j] == actions[k];
    }
  }

  lemma AppendAssessed(actions: seq<Actions.ActionRecord>, a: Actions.ActionRecord, id: Text)
    requires !a.energyStatus.Assessed?
    ensures AssessedIn(actions + [a], id) <==> AssessedIn(actions, id)
  {
    var r := actions + [a];
    if AssessedIn(actions, id) {
      var k :| 0 <= k < |actions| && actions[k].actionId == id && actions[k].energyStatus.Assessed?;
      assert r[k] == actions[k];
    }
  }

  lemma RemoveAssessed(actions: seq<Actions.ActionRecord>, i: nat, id: Text)
    requires Keyed.Unique(Actions.Id, actions) && i < |actions|
    ensures AssessedIn(Keyed.RemoveAt(actions, i), id) <==> AssessedIn(actions, id) && id != actions[i].actionId
  {
    Keyed.RemoveAtUnique(Actions.Id, actions, i);
    var r := Keyed.RemoveAt(actions, i);
    hide Keyed.RemoveAt;
    if k :| 0 <= k < |r| && r[k].actionId == id && r[k].energyStatus.Assessed? {
      assert r[k] in r;
      var j :| 0 <= j < |actions| && actions[j] == r[k];
      assert Actions.Id(actions[j]) != Actions.Id(actions[i]);
    }
    if AssessedIn(actions, id) && id != actions[i].actionId {
      var k :| 0 <= k < |actions| && actions[k].actionId == id && actions[k].energyStatus.Assessed?;
      assert actions[k] in r;
      var j :| 0 <= j < |r| && r[j] == actions[k];
    }
  }

  lemma UniqueAssessed(actions: seq<Actions.ActionRecord>, a: Actions.ActionRecord)
    requires Keyed.Unique(Actions.Id, actions) && a in actions
    ensures AssessedIn(actions, a.actionId) <==> a.energyStatus.Assessed?
  {
    var i :| 0 <= i < |actions| && actions[i] == a;
    if AssessedIn(actions, a.actionId) {
      var k :| 0 <= k < |actions| && actions[k].actionId == a.actionId && actions[k].energyStatus.Assessed?;
      assert Actions.Id(actions[k]) == Actions.Id(actions[i]);
    }
  }

  lemma WithoutHas(energies: seq<Personality.EnergyVector>, gone: Text, id: Text)
    ensures Keyed.Has(Personality.EnergyId, Keyed.Without(Personality.EnergyId, energies, gone), id) <==>
            Keyed.Has(Personality.EnergyId, energies, id) && id != gone
  {
    Keyed.WithoutElements(Personality.EnergyId, energies, gone);
    var r := Keyed.Without(Personality.EnergyId, energies, gone);
    if Keyed.Has(Personality.EnergyId, energies, id) && id != gone {
      var k :| 0 <= k < |energies| && Personality.EnergyId(energies[k]) == id;
      assert energies[k] in r;
    }
    if Keyed.Has(Personality.EnergyId, r, id) {
      var k :| 0 <= k < |r| && Personality.EnergyId(r[k]) == id;
      assert r[k] in r;
    }
  }

  // Evicting an action takes its vector along.
  lemma RetainedExact(acted: seq<Actions.ActionRecord>, energies: seq<Personality.EnergyVector>)
    requires Keyed.Unique(Actions.Id, acted) && EnergyExact(acted, energies)
    ensures EnergyExact(Retained(acted), RetainedEnergies(energies, acted))
  {
    hide Keyed.RemoveAt, Keyed.Without, Keyed.Unique, Keyed.Has, AssessedIn, FirstTerminal;
    if Evictee(acted).Some? {
      var i := Evictee(acted).value;
      forall id ensures Keyed.Has(Personality.EnergyId, RetainedEnergies(energies, acted), id) <==>
                        AssessedIn(Retained(acted), id)
      {
        RemoveAssessed(acted, i, id);
        WithoutHas(energies, acted[i].actionId, id);
      }
    }
  }

  // The event's own step, on the ids that it does not concern and on its own.
  lemma ActedAssessed(actions: seq<Actions.ActionRecord>, e: Event, trusted: bool, id: Text)
    requires Keyed.Unique(Actions.Id, actions) && Actions.ReduceActions(actions, e, trusted).Ok?
    ensures var acted := Actions.ReduceActions(actions, e, trusted).value.0;
            AssessedIn(acted, id) <==>
            if e.kind.EnergyAssessed? then AssessedIn(actions, id) || Actions.ActionIdOf(e) == Ok(id)
            else if e.kind.EnergyRequested? then AssessedIn(actions, id) && Actions.ActionIdOf(e) != Ok(id)
            else AssessedIn(actions, id)
  {
    hide Actions.Step, Actions.ActionIdOf, AssessedIn, Keyed.Upsert, Keyed.Has, Keyed.Unique;
    if Actions.IsLifecycle(e.kind) {
      var named := Actions.ActionIdOf(e).value;
      if e.kind.ActionProposed? {
        var a := Actions.Propose(named, e).value;
        assert !a.energyStatus.Assessed? by { ProposedUnassessed(named, e); }
        hide Actions.Propose;
        AppendAssessed(actions, a, id);
      } else {
        hide Actions.Propose;
        var a := Keyed.Find(Actions.Id, actions, named);
        StepStatus(a, e, trusted);
        StepValid(a, e, trusted);
        UniqueAssessed(actions, a);
        UpsertAssessed(actions, Actions.Step(a, e, trusted).value.0, id);
      }
    }
  }

  lemma ProposedUnassessed(id: Text, e: Event)
    requires Actions.Propose(id, e).Ok?
    ensures Actions.Propose(id, e).value.energyStatus.Unrequested?
  {
    hide Actions.ValidAction;
  }

  // An accepted request for an action already assessed is a legacy
  // reassessment, and takes the vector away.
  lemma RequestedVector(s: BrainState, c: BrainState, e: Event)
    requires e.kind.EnergyRequested? && Keyed.Unique(Actions.Id, s.actions) && EnergyExact(s.actions, s.energies)
    requires Actions.ReduceActions(s.actions, e, Trusted(s, e)).Ok?
    requires c.energies == s.energies && ApplySpecific(c, e).Ok?
    ensures forall id :: Keyed.Has(Personality.EnergyId, ApplySpecific(c, e).value.energies, id) <==>
                         Keyed.Has(Personality.EnergyId, s.energies, id) && Actions.ActionIdOf(e) != Ok(id)
  {
    var named := Actions.ActionIdOf(e).value;
    var a := Keyed.Find(Actions.Id, s.actions, named);
    assert Actions.Step(a, e, Trusted(s, e)).Ok?;
    StepStatus(a, e, Trusted(s, e));
    UniqueAssessed(s.actions, a);
    hide Actions.ActionIdOf, Actions.Step, Keyed.Find, Trusted, AssessedIn, Keyed.Has, Keyed.Unique, Keyed.Without,
         Get, Actions.ReduceActions, Personality.LegacyNeutral;
    var r := ApplySpecific(c, e).value;
    forall id ensures Keyed.Has(Personality.EnergyId, r.energies, id) <==>
                      Keyed.Has(Personality.EnergyId, s.energies, id) && named != id
    {
      WithoutHas(s.energies, named, id);
    }
  }

  lemma AssessedVector(c: BrainState, e: Event)
    requires e.kind.EnergyAssessed? && ActedOk(c) && ApplySpecific(c, e).Ok?
    ensures forall id :: Keyed.Has(Personality.EnergyId, ApplySpecific(c, e).value.energies, id) <==>
                         Keyed.Has(Personality.EnergyId, c.energies, id) || Actions.ActionIdOf(e) == Ok(id)
  {
    hide ActedOk, Keyed.Within, Keyed.Unique, Actions.ActionIdOf, ApplyAssessment, Keyed.Has, Keyed.Upsert,
         Personality.EnergyFromEvent;
    AssessmentResult(c, e);
    AssessmentFits(c, e);
    AddedVector(c.energies, Personality.EnergyFromEvent(e).value);
  }

  lemma AddedVector(energies: seq<Personality.EnergyVector>, v: Personality.EnergyVector)
    ensures forall id :: Keyed.Has(Personality.EnergyId, Keyed.Upsert(Personality.EnergyId, energies, v), id) <==>
                         Keyed.Has(Personality.EnergyId, energies, id) || v.actionId == id
  {
    Keyed.UpsertElements(Personality.EnergyId, energies, v);
  }

  lemma CommonActedOk(s: BrainState, e: Event)
    requires Inv(s) && Addressed(s, e) && Common(s, e).Ok?
    ensures ActedOk(Common(s, e).value) && ActedOk(s)
  {
    UniqueReplacesOne(s.identity, e);
    CommonCore(s, e);
    CoreActed(s);
    CoreActed(Common(s, e).value);
    hide Core, Common, ActedOk, Identity.Replaced;
  }

  lemma CoreActed(s: BrainState)
    requires Core(s)
    ensures ActedOk(s) && Keyed.Unique(Actions.Id, s.actions) && |s.actions| <= MAX_ACTION_RECORDS
  {
    hide IdentityOk, PersonalityOk, EnergiesOk, ThoughtsOk, ReflectionsOk, WorldOk, Keyed.Unique,
         Workspace.ValidWorkspace, MemoriesOk, CapabilitiesOk, RawCountsOk, Actions.ValidAction;
  }

  lemma ActedCount(actions: seq<Actions.ActionRecord>, e: Event, trusted: bool)
    requires Keyed.Unique(Actions.Id, actions) && Actions.ReduceActions(actions, e, trusted).Ok?
    ensures var acted := Actions.ReduceActions(actions, e, trusted).value.0;
            Keyed.Unique(Actions.Id, acted) && (!e.kind.ActionProposed? ==> |acted| == |actions|)
  {
    hide Actions.Step, Actions.ActionIdOf, Keyed.Upsert, Actions.Propose;
    if Actions.IsLifecycle(e.kind) {
      var named := Actions.ActionIdOf(e).value;
      if e.kind.ActionProposed? {
        assert Actions.Propose(named, e).value.actionId == named by { Actions.ProposedId(named, e); }
      } else {
        var a := Keyed.Find(Actions.Id, actions, named);
        StepValid(a, e, trusted);
        Keyed.UpsertUnique(Actions.Id, actions, Actions.Step(a, e, trusted).value.0);
      }
    }
  }

  lemma EnergyKept(s: BrainState, e: Event)
    requires Inv(s) && EnergyExact(s.actions, s.energies) && ReduceState(s, e).Ok?
    ensures EnergyExact(ReduceState(s, e).value.actions, ReduceState(s, e).value.energies)
  {
    var c := Common(s, e).value;
    assert ReduceState(s, e) == ApplySpecific(c, e);
    CommonActed(s, e);
    CommonActedOk(s, e);
    SpecificActed(c, e);
    hide Inv, Common, ApplySpecific, Trusted, Actions.ReduceActions, AssessedIn, Keyed.Unique, Keyed.Has,
         Retained, RetainedEnergies, ActedOk, ReduceState;
    var acted := Actions.ReduceActions(s.actions, e, Trusted(s, e)).value.0;
    ActedKept(s, c, e, acted);
  }

  lemma UniqueIds(s: BrainState)
    requires ActedOk(s)
    ensures Keyed.Unique(Actions.Id, s.actions) && |s.actions| <= MAX_ACTION_RECORDS
  {
    hide Keyed.Unique, Actions.ValidAction, EnergiesOk;
  }

  lemma ActedKept(s: BrainState, c: BrainState, e: Event, acted: seq<Actions.ActionRecord>)
    requires ActedOk(s) && ActedOk(c) && EnergyExact(s.actions, s.energies) && ApplySpecific(c, e).Ok?
    requires Actions.ReduceActions(s.actions, e, Trusted(s, e)).Ok?
    requires acted == Actions.ReduceActions(s.actions, e, Trusted(s, e)).value.0
    requires c.actions == Retained(acted) && c.energies == RetainedEnergies(s.energies, acted)
    ensures EnergyExact(ApplySpecific(c, e).value.actions, ApplySpecific(c, e).value.energies)
  {
    hide *;
    UniqueIds(s);
    SpecificActed(c, e);
    ActedCount(s.actions, e, Trusted(s, e));
    ActedAfter(s.actions, e, Trusted(s, e));
    if e.kind.EnergyAssessed? {
      AssessedVector(c, e);
      SameCount(s.energies, acted);
      GainedVector(s.actions, s.energies, acted, e, ApplySpecific(c, e).value.energies);
    } else if e.kind.EnergyRequested? {
      SameCount(s.energies, acted);
      RequestedVector(s, c, e);
      LostVector(s.actions, s.energies, acted, e, ApplySpecific(c, e).value.energies);
    } else {
      UnchangedAssessed(s.actions, s.energies, acted, e);
      RetainedExact(acted, s.energies);
    }
  }

  lemma SameCount(energies: seq<Personality.EnergyVector>, acted: seq<Actions.ActionRecord>)
    requires |acted| <= MAX_ACTION_RECORDS
    ensures Retained(acted) == acted && RetainedEnergies(energies, acted) == energies
  {
  }

  lemma GainedVector(actions: seq<Actions.ActionRecord>, energies: seq<Personality.EnergyVector>,
                     acted: seq<Actions.ActionRecord>, e: Event, after: seq<Personality.EnergyVector>)
    requires EnergyExact(actions, energies) && AssessedAfter(actions, e, acted) && e.kind.EnergyAssessed?
    requires forall id :: Keyed.Has(Personality.EnergyId, after, id) <==>
                          Keyed.Has(Personality.EnergyId, energies, id) || Actions.ActionIdOf(e) == Ok(id)
    ensures EnergyExact(acted, after)
  {
    hide AssessedIn, Keyed.Has, Actions.ActionIdOf;
  }

  lemma LostVector(actions: seq<Actions.ActionRecord>, energies: seq<Personality.EnergyVector>,
                   acted: seq<Actions.ActionRecord>, e: Event, after: seq<Personality.EnergyVector>)
    requires EnergyExact(actions, energies) && AssessedAfter(actions, e, acted) && e.kind.EnergyRequested?
    requires forall id :: Keyed.Has(Personality.EnergyId, after, id) <==>
                          Keyed.Has(Personality.EnergyId, energies, id) && Actions.ActionIdOf(e) != Ok(id)
    ensures EnergyExact(acted, after)
  {
    hide AssessedIn, Keyed.Has, Actions.ActionIdOf;
  }

  ghost predicate AssessedAfter(actions: seq<Actions.ActionRecord>, e: Event, acted: seq<Actions.ActionRecord>) {
    forall id :: AssessedIn(acted, id) <==>
      if e.kind.EnergyAssessed? then AssessedIn(actions, id) || Actions.ActionIdOf(e) == Ok(id)
      else if e.kind.EnergyRequested? then AssessedIn(actions, id) && Actions.ActionIdOf(e) != Ok(id)
      else AssessedIn(actions, id)
  }

  lemma ActedAfter(actions: seq<Actions.ActionRecord>, e: Event, trusted: bool)
    requires Keyed.Unique(Actions.Id, actions) && Actions.ReduceActions(actions, e, trusted).Ok?
    ensures AssessedAfter(actions, e, Actions.ReduceActions(actions, e, trusted).value.0)
  {
    hide AssessedIn, Actions.ReduceActions, Actions.ActionIdOf, Keyed.Unique;
    var acted := Actions.ReduceActions(actions, e, trusted).value.0;
    forall id ensures AssessedIn(acted, id) <==>
        if e.kind.EnergyAssessed? then AssessedIn(actions, id) || Actions.ActionIdOf(e) == Ok(id)
        else if e.kind.EnergyRequested? then AssessedIn(actions, id) && Actions.ActionIdOf(e) != Ok(id)
        else AssessedIn(actions, id)
    {
      ActedAssessed(actions, e, trusted, id);
    }
  }

  lemma UnchangedAssessed(actions: seq<Actions.ActionRecord>, energies: seq<Personality.EnergyVector>,
                          acted: seq<Actions.ActionRecord>, e: Event)
    requires EnergyExact(actions, energies) && AssessedAfter(actions, e, acted)
    requires !e.kind.EnergyAssessed? && !e.kind.EnergyRequested?
    ensures EnergyExact(acted, energies)
  {
    hide AssessedIn, Keyed.Has;
  }

  // Energy vectors and assessed actions name each other exactly, after every
  // run; in particular no vector is ever dropped for want of room.
  lemma {:induction false} RunEnergyExact(s: BrainState, events: seq<Event>)
    requires Inv(s) && EnergyExact(s.actions, s.energies) && ReduceMany(s, events).Ok?
    ensures var r := ReduceMany(s, events).value; EnergyExact(r.actions, r.energies)
    decreases |events|
  {
    hide Inv, ReduceState, EnergyExact;
    if events != [] {
      EnergyKept(s, events[0]);
      ReductionKeepsInv(s, events[0]);
      RunEnergyExact(ReduceState(s, events[0]).value, events[1..]);
    }
  }

  lemma ReachableEnergyExact(brainId: Text, events: seq<Event>)
    requires ReduceMany(Genesis(brainId), events).Ok?
    ensures var r := ReduceMany(Genesis(brainId), events).value; EnergyExact(r.actions, r.energies)
  {
    hide Inv, ReduceMany, EnergyExact;
    GenesisInv(brainId);
    NothingAssessed();
    RunEnergyExact(Genesis(brainId), events);
  }

  lemma NothingAssessed()
    ensures EnergyExact([], [])
  {
  }

  // The branch that would drop the oldest vector is dead: in every state that
  // satisfies the invariant, an accepted assessment keeps them all.
  lemma OverflowNeverTaken(s: BrainState, e: Event)
    requires Inv(s) && Addressed(s, e) && e.kind.EnergyAssessed? && Common(s, e).Ok?
    requires ApplyAssessment(Common(s, e).value, e).Ok?
    ensures |Keyed.Upsert(Personality.EnergyId, Common(s, e).value.energies,
                          Personality.EnergyFromEvent(e).value)| <= MAX_ENERGY_RECORDS
  {
    CommonActedOk(s, e);
    AssessmentFits(Common(s, e).value, e);
    hide Inv, Common, ActedOk, Keyed.Upsert, Keyed.Within, Keyed.Unique, Keyed.Has;
  }
}
