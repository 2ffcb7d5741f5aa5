// Every accepted event keeps the whole state invariant, so the validator that
// closes reduce_state in the source never has anything to reject.
module ReducerInvariant {
  import opened Prelude
  import opened Values
  import opened Limits
  import opened State
  import opened Reducer
  import Keyed
  import Actions
  import Identity
  import Personality
  import World
  import Workspace
  import Cognition

  /* ---------------- raw counts ---------------- */

  lemma {:induction false} IncrementSum(counts: seq<RawCount>, name: string)
    requires Counted(counts, name)
    ensures SumCounts(Increment(counts, name)) == SumCounts(counts) + 1
  {
    if counts[0].name != name {
      var i :| 0 <= i < |counts| && counts[i].name == name;
      assert counts[1..][i - 1].name == name;
      IncrementSum(counts[1..], name);
    }
  }

  lemma {:induction false} InsertSum(counts: seq<RawCount>, name: string)
    ensures SumCounts(InsertCount(counts, name)) == SumCounts(counts) + 1
  {
    hide StringLe;
    if counts != [] && !StringLe(name, counts[0].name) {
      InsertSum(counts[1..], name);
    }
  }

  ghost predicate CountsInv(s: BrainState) {
    RawCountsOk(s.rawCounts, s.workingSet.rawKeys, s.workingSet.rawEventsEvicted,
                s.workingSet.reducedEvents, s.lastSequence)
  }

  lemma CountEventKept(s: BrainState, e: Event)
    requires CountsInv(s) && Addressed(s, e)
    ensures CountsInv(CountEvent(s, e))
  {
    hide InsertCount, Increment, EventName;
    if Counted(s.rawCounts, EventName(e.kind)) {
      IncrementSum(s.rawCounts, EventName(e.kind));
    } else if |s.rawCounts| >= MAX_RAW_LIFECYCLE_KEYS {
      InsertSum(s.rawCounts[1..], EventName(e.kind));
    } else {
      InsertSum(s.rawCounts, EventName(e.kind));
    }
  }

  // Only the counters move.
  lemma CountEventFrame(s: BrainState, e: Event)
    ensures var r := CountEvent(s, e);
            r == s.(rawCounts := r.rawCounts, lastSequence := r.lastSequence,
                    workingSet := s.workingSet.(rawKeys := r.workingSet.rawKeys,
                                                rawEventsEvicted := r.workingSet.rawEventsEvicted,
                                                reducedEvents := r.workingSet.reducedEvents))
  {
    hide CountName, EventName;
  }

  lemma CountEventCore(s: BrainState, e: Event)
    requires Core(s) && Addressed(s, e)
    ensures Core(CountEvent(s, e))
  {
    CountEventKept(s, e);
    CountEventFrame(s, e);
    hide IdentityOk, PersonalityOk, ActionsOk, EnergiesOk, ThoughtsOk, ReflectionsOk, WorldOk,
         Workspace.ValidWorkspace, MemoriesOk, CapabilitiesOk, RawCountsOk, CountEvent;
  }

  /* ---------------- identity ---------------- */

  // Re-registering an actor id that two records share would shrink the table
  // under a counter that does not move.
  predicate ReplacesOne(s: BrainState, e: Event) {
    Identity.Replaced(s.identity, e) <= 1
  }

  lemma IdentityCounts(i: Identity.IdentityState, r: Identity.IdentityState, replaced: nat, registered: bool,
                       brainId: Text, actors: Counter, authorizations: Counter)
    requires IdentityOk(i, brainId, actors, authorizations) && Identity.SelfBoundary(r)
    requires r.selfActorId == i.selfActorId && (replaced > 0 ==> registered)
    requires |r.actors| == if registered then |i.actors| - replaced + 1 else |i.actors|
    requires |r.actors| <= MAX_IDENTITY_ACTORS && |r.authorizations| <= MAX_PROVENANCE_AUTHORIZATIONS
    requires |i.authorizations| <= |r.authorizations| <= |i.authorizations| + 1
    ensures IdentityOk(r, brainId,
                       if |r.actors| > |i.actors| then actors.Advance(1, 0) else actors,
                       if |r.authorizations| > |i.authorizations| then authorizations.Advance(1, 0) else authorizations)
            <==> replaced <= 1
  {
    hide Identity.SelfBoundary;
  }

  lemma IdentityPart(s: BrainState, e: Event)
    requires IdentityOk(s.identity, s.brainId, s.workingSet.actors, s.workingSet.authorizations)
    requires ApplyIdentity(s, e).Ok?
    ensures var r := ApplyIdentity(s, e).value;
            IdentityOk(r.identity, r.brainId, r.workingSet.actors, r.workingSet.authorizations)
            <==> ReplacesOne(s, e)
  {
    Identity.IdentityKept(s.identity, e);
    var r := Identity.ReduceIdentity(s.identity, e).value;
    assert Identity.Replaced(s.identity, e) > 0 ==> e.kind.ActorRegistered?;
    hide Identity.ReduceIdentity, Identity.SelfBoundary, Identity.Replaced, Keyed.Unique;
    IdentityCounts(s.identity, r, Identity.Replaced(s.identity, e), e.kind.ActorRegistered?, s.brainId,
                   s.workingSet.actors, s.workingSet.authorizations);
    hide IdentityOk;
  }

  lemma IdentityFrame(s: BrainState, e: Event)
    requires ApplyIdentity(s, e).Ok?
    ensures var r := ApplyIdentity(s, e).value;
            r == s.(identity := r.identity,
                    workingSet := s.workingSet.(actors := r.workingSet.actors,
                                                authorizations := r.workingSet.authorizations))
  {
    hide Identity.ReduceIdentity;
  }

  lemma IdentityCore(s: BrainState, e: Event)
    requires Core(s) && ApplyIdentity(s, e).Ok?
    ensures Core(ApplyIdentity(s, e).value) <==> ReplacesOne(s, e)
  {
    IdentityPart(s, e);
    IdentityFrame(s, e);
    hide IdentityOk, PersonalityOk, ActionsOk, EnergiesOk, ThoughtsOk, ReflectionsOk, WorldOk,
         Workspace.ValidWorkspace, MemoriesOk, CapabilitiesOk, RawCountsOk, ApplyIdentity, ReplacesOne;
  }

  /* ---------------- personality ---------------- */

  lemma MergedSize(current: Personality.LayerValues, updates: Payload)
    requires Personality.RevisionValuesOk(updates)
    ensures Personality.Merged(current, updates).Keys == current.Keys + updates.Keys
    ensures Personality.Size(current) <= Personality.Size(Personality.Merged(current, updates)) <= |current.Keys + updates.Keys|
  {
    var all := current.Keys + updates.Keys;
    assert Personality.Merged(current, updates).Keys == all;
    hide *;
    KeptBound(current.Keys, all);
    assert current.Keys * all == current.Keys;
  }

  lemma MergedValues(current: Personality.LayerValues, updates: Payload)
    requires Personality.ValidValues(current) && Personality.RevisionValuesOk(updates)
    requires !exists k :: k in Personality.Merged(current, updates) && Blank(k)
    ensures Personality.ValidValues(Personality.Merged(current, updates))
  {
    hide Blank;
  }

  lemma GrownAccounts(c: Counter, before: nat, after: nat)
    requires c.Accounts(before) && c.evicted == 0 && before <= after
    ensures Grown(c, before, after).Accounts(after) && Grown(c, before, after).evicted == 0
  {
  }

  lemma ValidCurrent(current: Personality.LayerValues, counter: Counter)
    requires ValuesOk(current, counter)
    ensures Personality.ValidValues(current)
  {
    hide Personality.ValidValues;
  }

  lemma ValuesStay(current: Personality.LayerValues, counter: Counter, merged: Personality.LayerValues)
    requires ValuesOk(current, counter) && Personality.ValidValues(merged)
    requires Personality.Size(current) <= Personality.Size(merged) <= MAX_PERSONALITY_VALUES_PER_LAYER
    ensures ValuesOk(merged, Grown(counter, Personality.Size(current), Personality.Size(merged)))
  {
    hide Personality.ValidValues, Personality.Size, Grown;
    GrownAccounts(counter, Personality.Size(current), Personality.Size(merged));
  }

  lemma RevisedBucketOk(layer: Personality.Layer, b: Personality.Bucket, clock: real, amount: real)
    requires BucketOk(layer, b, clock) && Personality.AdvancedTo(b, clock).Ok?
    requires Personality.Consumed(Personality.AdvancedTo(b, clock).value, amount).Ok?
    ensures BucketOk(layer, Personality.Consumed(Personality.AdvancedTo(b, clock).value, amount).value, clock)
  {
    Personality.RevisedBucket(b, clock, amount);
    hide Personality.AdvancedTo, Personality.Consumed, Personality.ValidBucket,
         Personality.PolicyCapacity, Personality.PolicyRefill;
  }

  // The revised layer after a revision.
  lemma RevisedLayer(layer: Personality.Layer, current: Personality.LayerValues, b: Personality.Bucket,
                     counter: Counter, clock: real, updates: Payload)
    requires LayerOk(layer, current, b, counter, clock)
    requires |current.Keys + updates.Keys| <= MAX_PERSONALITY_VALUES_PER_LAYER
    requires Personality.RevisionValuesOk(updates)
    requires !exists k :: k in Personality.Merged(current, updates) && Blank(k)
    requires Personality.AdvancedTo(b, clock).Ok?
    requires Personality.Consumed(Personality.AdvancedTo(b, clock).value,
                                  Personality.RevisionCost(current, updates)).Ok?
    ensures var merged := Personality.Merged(current, updates);
            var revised := Personality.Consumed(Personality.AdvancedTo(b, clock).value,
                                                Personality.RevisionCost(current, updates)).value;
            LayerOk(layer, merged, revised, Grown(counter, Personality.Size(current), Personality.Size(merged)), clock)
  {
    hide ValuesOk, BucketOk, Personality.AdvancedTo, Personality.Consumed, Personality.RevisionCost,
         Personality.Merged, Personality.RevisionValuesOk, Grown, Blank, Personality.Size;
    MergedSize(current, updates);
    assert Personality.ValidValues(Personality.Merged(current, updates)) by {
      ValidCurrent(current, counter);
      MergedValues(current, updates);
    }
    ValuesStay(current, counter, Personality.Merged(current, updates));
    RevisedBucketOk(layer, b, clock, Personality.RevisionCost(current, updates));
  }

  lemma UnrevisedLayer(values: Personality.LayerValues, counter: Counter)
    requires ValuesOk(values, counter)
    ensures Grown(counter, Personality.Size(values), Personality.Size(values)) == counter
  {
  }

  // Any layer after any personality event.
  lemma LayerReduced(p: Personality.PersonalityControl, e: Event, clock: real, at: Personality.Layer,
                     counter: Counter)
    requires Personality.ReducePersonality(p, e, clock).Ok?
    requires LayerOk(at, p.values.Get(at), p.rates.Get(at), counter, clock)
    ensures var r := Personality.ReducePersonality(p, e, clock).value;
            LayerOk(at, r.values.Get(at), r.rates.Get(at),
                    Grown(counter, Personality.Size(p.values.Get(at)), Personality.Size(r.values.Get(at))), clock)
  {
    hide Personality.RevisionValuesOk, Personality.Merged, Personality.Consumed, Personality.AdvancedTo,
         Personality.RevisionCost, Get, Blank, Personality.Size, ValuesOk, BucketOk, Grown;
    UnrevisedLayer(p.values.Get(at), counter);
    if e.kind.PersonalityRevised? && Personality.LayerOf(Get(e.payload, LAYER)) == Some(at) {
      var updates := Get(e.payload, VALUES).fields;
      RevisedLayer(at, p.values.Get(at), p.rates.Get(at), counter, clock, updates);
    }
  }

  lemma PersonalityPart(s: BrainState, e: Event)
    requires PersonalityOk(s.personality, s.workingSet.personality, s.logicalClock)
    requires ApplyPersonality(s, e).Ok?
    ensures var r := ApplyPersonality(s, e).value;
            PersonalityOk(r.personality, r.workingSet.personality, r.logicalClock)
  {
    hide LayerOk, Personality.ReducePersonality, Personality.Size, Grown;
    var counters := s.workingSet.personality;
    LayerReduced(s.personality, e, s.logicalClock, Personality.Traits, counters.traits);
    LayerReduced(s.personality, e, s.logicalClock, Personality.Adaptations, counters.adaptations);
    LayerReduced(s.personality, e, s.logicalClock, Personality.NarrativeIdeal, counters.narrativeIdeal);
  }

  lemma PersonalityFrame(s: BrainState, e: Event)
    requires ApplyPersonality(s, e).Ok?
    ensures var r := ApplyPersonality(s, e).value;
            r == s.(personality := r.personality,
                    workingSet := s.workingSet.(personality := r.workingSet.personality))
  {
    hide Personality.ReducePersonality;
  }

  lemma PersonalityCore(s: BrainState, e: Event)
    requires Core(s) && ApplyPersonality(s, e).Ok?
    ensures Core(ApplyPersonality(s, e).value)
  {
    PersonalityPart(s, e);
    PersonalityFrame(s, e);
    hide IdentityOk, PersonalityOk, ActionsOk, EnergiesOk, ThoughtsOk, ReflectionsOk, WorldOk,
         Workspace.ValidWorkspace, MemoriesOk, CapabilitiesOk, RawCountsOk, ApplyPersonality;
  }


  /* ---------------- actions ---------------- */

  lemma TransitionValid(a: Actions.ActionRecord, e: Event, required: Actions.Phase, phase: Actions.Phase,
                        rd: Actions.RDPhase, updated: Actions.ActionRecord)
    requires Actions.Transition(a, e, required, phase, rd, updated).Ok?
    ensures var r := Actions.Transition(a, e, required, phase, rd, updated).value;
            r.actionId == updated.actionId && Actions.ValidAction(r)
  {
    hide Actions.ValidAction;
  }

  // One lifecycle step keeps the id and yields a validated record.
  lemma StepValid(a: Actions.ActionRecord, e: Event, trusted: bool)
    requires Actions.Step(a, e, trusted).Ok?
    ensures var r := Actions.Step(a, e, trusted).value;
            r.0.actionId == a.actionId && Actions.ValidAction(r.0)
  {
    hide Actions.ValidAction, Actions.ReceiptSourceOk, Actions.ValidReceipt, Actions.GroundedIds,
         Actions.LateFlagOk, Actions.BlockedSourceOk, Actions.NewReceipt, Actions.Transition, Get, GetOr;
    if e.kind.ActionReceipt? {
      var status := Actions.StatusOf(Get(e.payload, STATUS)).value;
      var r := Actions.NewReceipt(a, e, status, Actions.GroundedIds(e.payload, trusted).value);
      if a.phase != Actions.Receipt {
        TransitionValid(a, e, a.phase, Actions.Receipt, Actions.Prepare, Actions.WithReceipt(a, r));
      }
    } else {
      OtherStepValid(a, e, trusted);
    }
  }

  lemma OtherStepValid(a: Actions.ActionRecord, e: Event, trusted: bool)
    requires Actions.Step(a, e, trusted).Ok? && !e.kind.ActionReceipt?
    ensures var r := Actions.Step(a, e, trusted).value;
            r.0.actionId == a.actionId && Actions.ValidAction(r.0)
  {
    hide Actions.ValidAction, Actions.BlockedSourceOk, Get, GetOr;
  }

  ghost predicate ActionsGood(actions: seq<Actions.ActionRecord>) {
    && Keyed.Unique(Actions.Id, actions)
    && forall i :: 0 <= i < |actions| ==> Actions.ValidAction(actions[i])
  }

  // Reduction keeps ids unique and records valid, drops no id and admits at
  // most one.
  lemma ReduceActionsKept(actions: seq<Actions.ActionRecord>, e: Event, trusted: bool)
    requires ActionsGood(actions) && Actions.ReduceActions(actions, e, trusted).Ok?
    ensures var r := Actions.ReduceActions(actions, e, trusted).value.0;
            && ActionsGood(r)
            && |r| == |actions| + Keyed.CountNew(Actions.Id, actions, r)
            && |r| <= |actions| + 1
            && (forall id :: Keyed.Has(Actions.Id, actions, id) ==> Keyed.Has(Actions.Id, r, id))
  {
    hide Actions.ValidAction, Actions.Step, Actions.Propose, Actions.ActionIdOf, Keyed.CountNew, Keyed.Find, Keyed.Without;
    if !Actions.IsLifecycle(e.kind) {
      Keyed.CountNewNone(Actions.Id, actions, actions);
    } else if e.kind.ActionProposed? {
      AdmittedAction(actions, e);
    } else {
      UpdatedAction(actions, e, trusted);
    }
  }

  lemma AdmittedAction(actions: seq<Actions.ActionRecord>, e: Event)
    requires ActionsGood(actions) && e.kind.ActionProposed? && Actions.ReduceActions(actions, e, true).Ok?
    ensures var r := Actions.ReduceActions(actions, e, true).value.0;
            && ActionsGood(r)
            && |r| == |actions| + 1 && Keyed.CountNew(Actions.Id, actions, r) == 1
            && (forall id :: Keyed.Has(Actions.Id, actions, id) ==> Keyed.Has(Actions.Id, r, id))
  {
    hide Actions.ValidAction, Keyed.CountNew, Actions.ActionIdOf, Actions.Step;
    var id := Actions.ActionIdOf(e).value;
    var a := Actions.Propose(id, e).value;
    assert Actions.ValidAction(a) && a.actionId == id;
    hide Actions.Propose, Get;
    Keyed.CountNewNone(Actions.Id, actions, actions);
    Keyed.CountNewAppend(Actions.Id, actions, actions, a);
    forall k | Keyed.Has(Actions.Id, actions, k) ensures Keyed.Has(Actions.Id, actions + [a], k) {
      var i :| 0 <= i < |actions| && Actions.Id(actions[i]) == k;
      assert (actions + [a])[i] == actions[i];
    }
  }

  lemma UpsertGood(actions: seq<Actions.ActionRecord>, b: Actions.ActionRecord)
    requires ActionsGood(actions) && Actions.ValidAction(b) && Keyed.Has(Actions.Id, actions, Actions.Id(b))
    ensures ActionsGood(Keyed.Upsert(Actions.Id, actions, b))
    ensures |Keyed.Upsert(Actions.Id, actions, b)| == |actions|
  {
    hide Actions.ValidAction, Keyed.Upsert, Keyed.Unique, Keyed.Has;
    Keyed.UpsertUnique(Actions.Id, actions, b);
    Keyed.UpsertElements(Actions.Id, actions, b);
    var r := Keyed.Upsert(Actions.Id, actions, b);
    forall i | 0 <= i < |r| ensures Actions.ValidAction(r[i]) {
      assert r[i] in r;
    }
  }

  lemma UpdatedAction(actions: seq<Actions.ActionRecord>, e: Event, trusted: bool)
    requires ActionsGood(actions) && Actions.IsLifecycle(e.kind) && !e.kind.ActionProposed?
    requires Actions.ReduceActions(actions, e, trusted).Ok?
    ensures var r := Actions.ReduceActions(actions, e, trusted).value.0;
            && ActionsGood(r)
            && |r| == |actions| && Keyed.CountNew(Actions.Id, actions, r) == 0
            && (forall id :: Keyed.Has(Actions.Id, actions, id) ==> Keyed.Has(Actions.Id, r, id))
  {
    hide Actions.ValidAction, Keyed.CountNew, Actions.ActionIdOf, Actions.Propose, Actions.Step, Keyed.Upsert, Keyed.Has;
    var id := Actions.ActionIdOf(e).value;
    var a := Keyed.Find(Actions.Id, actions, id);
    StepValid(a, e, trusted);
    var b := Actions.Step(a, e, trusted).value.0;
    UpsertGood(actions, b);
    Keyed.CountNewUpsert(Actions.Id, actions, b);
    Keyed.UpsertElements(Actions.Id, actions, b);
  }

  // The two parts a lifecycle event touches.
  ghost predicate ActedOk(s: BrainState) {
    && ActionsOk(s.actions, s.workingSet.actions)
    && EnergiesOk(s.energies, s.actions, s.workingSet.energies)
  }

  lemma AdmittedWithin(s: BrainState, acted: seq<Actions.ActionRecord>)
    requires ActedOk(s) && ActionsGood(acted) && |acted| <= MAX_ACTION_RECORDS
    requires |acted| == |s.actions| + Keyed.CountNew(Actions.Id, s.actions, acted)
    requires Keyed.Within(Actions.Id, s.actions, Actions.Id, acted)
    ensures ActedOk(AdmitActions(s, acted).value)
  {
    hide Actions.ValidAction, Keyed.CountNew, Keyed.Unique, Keyed.Keys;
    Keyed.WithinKeys(Personality.EnergyId, s.energies, Actions.Id, s.actions);
    Keyed.WithinKeys(Personality.EnergyId, s.energies, Actions.Id, acted);
  }

  lemma EvictedActions(actions: seq<Actions.ActionRecord>, counter: Counter, acted: seq<Actions.ActionRecord>, i: nat)
    requires ActionsOk(actions, counter) && ActionsGood(acted) && i < |acted| == |actions| + 1
    ensures ActionsOk(Keyed.RemoveAt(acted, i), counter.Advance(1, 1))
  {
    hide Actions.ValidAction, Keyed.Unique, Keyed.Has;
    Keyed.RemoveAtUnique(Actions.Id, acted, i);
    var r := Keyed.RemoveAt(acted, i);
    forall j | 0 <= j < |r| ensures Actions.ValidAction(r[j]) {
      assert r[j] in r;
    }
  }

  lemma EvictedEnergies(energies: seq<Personality.EnergyVector>, actions: seq<Actions.ActionRecord>,
                        counter: Counter, acted: seq<Actions.ActionRecord>, i: nat)
    requires EnergiesOk(energies, actions, counter) && Keyed.Unique(Actions.Id, acted) && i < |acted|
    requires Keyed.Within(Actions.Id, actions, Actions.Id, acted)
    ensures var kept := Keyed.Without(Personality.EnergyId, energies, acted[i].actionId);
            EnergiesOk(kept, Keyed.RemoveAt(acted, i),
                       if |kept| != |energies| then counter.Advance(0, 1) else counter)
  {
    var id := acted[i].actionId;
    var kept := Keyed.Without(Personality.EnergyId, energies, id);
    Keyed.WithoutUnique(Personality.EnergyId, energies, id);
    Keyed.WithinKeys(Personality.EnergyId, energies, Actions.Id, actions);
    assert Keyed.Within(Personality.EnergyId, kept, Actions.Id, Keyed.RemoveAt(acted, i)) by {
      RemainingWithin(energies, acted, i);
    }
    Keyed.WithinKeys(Personality.EnergyId, kept, Actions.Id, Keyed.RemoveAt(acted, i));
    hide Keyed.Without, Keyed.Unique, Keyed.Keys, Keyed.Within, Keyed.RemoveAt;
  }

  lemma RemainingWithin(energies: seq<Personality.EnergyVector>, acted: seq<Actions.ActionRecord>, i: nat)
    requires Keyed.Unique(Actions.Id, acted) && i < |acted|
    requires Keyed.Within(Personality.EnergyId, energies, Actions.Id, acted)
    ensures Keyed.Within(Personality.EnergyId, Keyed.Without(Personality.EnergyId, energies, acted[i].actionId),
                         Actions.Id, Keyed.RemoveAt(acted, i))
  {
    var id := acted[i].actionId;
    Keyed.WithoutElements(Personality.EnergyId, energies, id);
    Keyed.RemoveAtUnique(Actions.Id, acted, i);
    hide Keyed.RemoveAt, Keyed.Unique;
    var kept := Keyed.Without(Personality.EnergyId, energies, id);
    forall k | Keyed.Has(Personality.EnergyId, kept, k) ensures Keyed.Has(Actions.Id, Keyed.RemoveAt(acted, i), k) {
      var j :| 0 <= j < |kept| && Personality.EnergyId(kept[j]) == k;
      assert kept[j] in kept;
      assert Keyed.Has(Personality.EnergyId, energies, k);
    }
  }

  lemma AdmitPart(s: BrainState, acted: seq<Actions.ActionRecord>)
    requires ActedOk(s) && ActionsGood(acted) && AdmitActions(s, acted).Ok?
    requires |acted| == |s.actions| + Keyed.CountNew(Actions.Id, s.actions, acted) <= |s.actions| + 1
    requires Keyed.Within(Actions.Id, s.actions, Actions.Id, acted)
    ensures ActedOk(AdmitActions(s, acted).value)
  {
    if |acted| <= MAX_ACTION_RECORDS {
      AdmittedWithin(s, acted);
    } else {
      hide Actions.ValidAction, Keyed.CountNew, Keyed.Unique, Keyed.Keys, Keyed.Without, Keyed.RemoveAt,
           Keyed.Within, Keyed.Has, EnergiesOk, FirstTerminal, Terminal;
      var i := FirstTerminal(acted).value;
      EvictedActions(s.actions, s.workingSet.actions, acted, i);
      EvictedEnergies(s.energies, s.actions, s.workingSet.energies, acted, i);
    }
  }

  lemma ActionsPart(s: BrainState, e: Event, trusted: bool)
    requires ActedOk(s) && ApplyActions(s, e, trusted).Ok?
    ensures ActedOk(ApplyActions(s, e, trusted).value.0)
  {
    hide Actions.ValidAction, AdmitActions, Actions.ReduceActions, EnergiesOk, Keyed.CountNew, Keyed.Unique, Keyed.Has;
    ReduceActionsKept(s.actions, e, trusted);
    AdmitPart(s, Actions.ReduceActions(s.actions, e, trusted).value.0);
  }

  lemma ActionsFrame(s: BrainState, e: Event, trusted: bool)
    requires ApplyActions(s, e, trusted).Ok?
    ensures var r := ApplyActions(s, e, trusted).value.0;
            r == s.(actions := r.actions, energies := r.energies,
                    workingSet := s.workingSet.(actions := r.workingSet.actions, energies := r.workingSet.energies))
  {
    hide Actions.ReduceActions, Keyed.CountNew, Keyed.RemoveAt, Keyed.Without, FirstTerminal;
  }

  lemma ActionsCore(s: BrainState, e: Event, trusted: bool)
    requires Core(s) && ApplyActions(s, e, trusted).Ok?
    ensures Core(ApplyActions(s, e, trusted).value.0)
  {
    ActionsPart(s, e, trusted);
    ActionsFrame(s, e, trusted);
    hide IdentityOk, PersonalityOk, ActionsOk, EnergiesOk, ThoughtsOk, ReflectionsOk, WorldOk,
         Workspace.ValidWorkspace, MemoriesOk, CapabilitiesOk, RawCountsOk, ApplyActions;
  }

  /* ---------------- world, workspace, memories ---------------- */

  // Only a trusted receipt grounds observations.
  lemma GroundedIsTrusted(actions: seq<Actions.ActionRecord>, e: Event, trusted: bool)
    requires Actions.ReduceActions(actions, e, trusted).Ok?
    ensures var grounded := Actions.ReduceActions(actions, e, trusted).value.1;
            grounded != {} ==> trusted && e.kind.ActionReceipt?
  {
    hide Actions.Propose, Actions.ActionIdOf, Keyed.Find, Keyed.Has, Keyed.Upsert;
    if Actions.IsLifecycle(e.kind) && !e.kind.ActionProposed? {
      StepGrounded(Keyed.Find(Actions.Id, actions, Actions.ActionIdOf(e).value), e, trusted);
      hide Actions.Step;
    }
  }

  lemma StepGrounded(a: Actions.ActionRecord, e: Event, trusted: bool)
    requires Actions.Step(a, e, trusted).Ok?
    ensures var grounded := Actions.Step(a, e, trusted).value.1;
            if e.kind.ActionReceipt? then Actions.GroundedIds(e.payload, trusted) == Ok(grounded)
            else grounded == {}
  {
    hide Actions.ValidAction, Actions.ReceiptSourceOk, Actions.ValidReceipt, Actions.GroundedIds, Actions.LateFlagOk,
         Actions.BlockedSourceOk, Actions.NewReceipt, Actions.WithReceipt, Actions.Transition, Actions.Validated,
         Get, GetOr;
  }

  lemma WorldCounterAccounts(c: Counter, before: World.Propositions, after: World.Propositions)
    requires c.Accounts(|before|)
    ensures WorldCounter(c, before, after).Accounts(|after|)
  {
    KeptBound(Keyed.Keys(World.Id, before), Keyed.Keys(World.Id, after));
  }

  lemma WorldLayerPart(w: World.WorldModel, c: Counter, e: Event, trusted: bool, grounded: set<Text>,
                       at: World.WorldLayer)
    requires WorldLayerOk(w.Get(at), c) && World.ReduceWorld(w, e, trusted, grounded).Ok?
    requires grounded != {} ==> trusted
    ensures var r := World.ReduceWorld(w, e, trusted, grounded).value;
            WorldLayerOk(r.Get(at), WorldCounter(c, w.Get(at), r.Get(at)))
  {
    hide World.ReduceWorld, World.ValidLayer, WorldCounter;
    World.WorldKept(w, e, trusted, grounded, at);
    WorldCounterAccounts(c, w.Get(at), World.ReduceWorld(w, e, trusted, grounded).value.Get(at));
  }

  lemma WorldPart(s: BrainState, e: Event, trusted: bool, grounded: set<Text>)
    requires WorldOk(s.world, s.workingSet.world) && ApplyWorld(s, e, trusted, grounded).Ok?
    requires grounded != {} ==> trusted
    ensures var r := ApplyWorld(s, e, trusted, grounded).value; WorldOk(r.world, r.workingSet.world)
  {
    hide World.ReduceWorld, WorldLayerOk, WorldCounter;
    var c := s.workingSet.world;
    WorldLayerPart(s.world, c.observed, e, trusted, grounded, World.Observed);
    WorldLayerPart(s.world, c.believed, e, trusted, grounded, World.Believed);
    WorldLayerPart(s.world, c.simulated, e, trusted, grounded, World.Simulated);
    WorldLayerPart(s.world, c.ideal, e, trusted, grounded, World.Ideal);
  }

  lemma WorldFrame(s: BrainState, e: Event, trusted: bool, grounded: set<Text>)
    requires ApplyWorld(s, e, trusted, grounded).Ok?
    ensures var r := ApplyWorld(s, e, trusted, grounded).value;
            r == s.(world := r.world, workingSet := s.workingSet.(world := r.workingSet.world))
  {
    hide World.ReduceWorld, WorldCounter;
  }

  lemma WorldCore(s: BrainState, e: Event, trusted: bool, grounded: set<Text>)
    requires Core(s) && ApplyWorld(s, e, trusted, grounded).Ok?
    requires grounded != {} ==> trusted
    ensures Core(ApplyWorld(s, e, trusted, grounded).value)
  {
    WorldPart(s, e, trusted, grounded);
    WorldFrame(s, e, trusted, grounded);
    hide IdentityOk, PersonalityOk, ActionsOk, EnergiesOk, ThoughtsOk, ReflectionsOk, WorldOk,
         Workspace.ValidWorkspace, MemoriesOk, CapabilitiesOk, RawCountsOk, ApplyWorld;
  }

  lemma WorkspaceCore(s: BrainState, e: Event)
    requires Core(s) && ApplyWorkspace(s, e).Ok?
    ensures Core(ApplyWorkspace(s, e).value)
  {
    assert Workspace.ValidWorkspace(s.workspace) by {
      hide IdentityOk, PersonalityOk, ActionsOk, EnergiesOk, ThoughtsOk, ReflectionsOk, WorldOk,
           Workspace.ValidWorkspace, MemoriesOk, CapabilitiesOk, RawCountsOk;
    }
    Workspace.WorkspaceKept(s.workspace, e);
    hide IdentityOk, PersonalityOk, ActionsOk, EnergiesOk, ThoughtsOk, ReflectionsOk, WorldOk,
         Workspace.ValidWorkspace, MemoriesOk, CapabilitiesOk, RawCountsOk, Workspace.ReduceWorkspace;
  }

  lemma UpsertCounterAccounts(c: Counter, before: nat, admitted: nat, after: nat)
    requires c.Accounts(before) && after <= before + admitted
    ensures UpsertCounter(c, before, admitted, after).Accounts(after)
  {
  }

  lemma MemoryPart(s: BrainState, e: Event)
    requires MemoriesOk(s.memories, s.workingSet.memories) && ApplyMemory(s, e).Ok?
    ensures var r := ApplyMemory(s, e).value; MemoriesOk(r.memories, r.workingSet.memories)
  {
    if e.kind.MemoryRecorded? {
      var m := Workspace.ParseMemory(e.payload).value;
      hide Workspace.ParseMemory, Workspace.ValidMemory, Keyed.Upsert, Keyed.Has, UpsertCounter;
      var all := Keyed.Upsert(Workspace.MemoryId, s.memories, m);
      Keyed.UpsertElements(Workspace.MemoryId, s.memories, m);
      Keyed.UpsertSize(Workspace.MemoryId, s.memories, m);
      var kept := KeepLast(all, MAX_MEMORY_RECORDS);
      forall i | 0 <= i < |kept| ensures Workspace.ValidMemory(kept[i]) {
        assert kept[i] in all;
      }
      var admitted := if Keyed.Has(Workspace.MemoryId, s.memories, m.memoryId) then 0 else 1;
      UpsertCounterAccounts(s.workingSet.memories, |s.memories|, admitted, |kept|);
    }
  }

  lemma MemoryFrame(s: BrainState, e: Event)
    requires ApplyMemory(s, e).Ok?
    ensures var r := ApplyMemory(s, e).value;
            r == s.(memories := r.memories, workingSet := s.workingSet.(memories := r.workingSet.memories))
  {
    hide Workspace.ParseMemory, Keyed.Upsert, Keyed.Has, UpsertCounter;
  }

  lemma MemoryCore(s: BrainState, e: Event)
    requires Core(s) && ApplyMemory(s, e).Ok?
    ensures Core(ApplyMemory(s, e).value)
  {
    MemoryPart(s, e);
    MemoryFrame(s, e);
    hide IdentityOk, PersonalityOk, ActionsOk, EnergiesOk, ThoughtsOk, ReflectionsOk, WorldOk,
         Workspace.ValidWorkspace, MemoriesOk, CapabilitiesOk, RawCountsOk, ApplyMemory;
  }

  /* ---------------- the common part ---------------- */

  lemma CommonCore(s: BrainState, e: Event)
    requires Core(s) && Addressed(s, e) && Common(s, e).Ok? && ReplacesOne(s, e)
    ensures Core(Common(s, e).value)
  {
    CountEventFrame(s, e);
    hide Core, Identity.Replaced, CountEvent, ApplyIdentity, ApplyPersonality, ApplyActions, ApplyWorld, ApplyWorkspace, ApplyMemory,
         Addressed, Trusted;
    CountEventCore(s, e);
    var s0 := CountEvent(s, e);
    IdentityCore(s0, e);
    var s1 := ApplyIdentity(s0, e).value;
    PersonalityCore(s1, e);
    var s2 := ApplyPersonality(s1, e).value;
    ActionsCore(s2, e, Trusted(s, e));
    ActionsGrounded(s2, e, Trusted(s, e));
    var (s3, grounded) := ApplyActions(s2, e, Trusted(s, e)).value;
    WorldCore(s3, e, Trusted(s, e), grounded);
    var s4 := ApplyWorld(s3, e, Trusted(s, e), grounded).value;
    WorkspaceCore(s4, e);
    MemoryCore(ApplyWorkspace(s4, e).value, e);
  }

  lemma ActionsGrounded(s: BrainState, e: Event, trusted: bool)
    requires ApplyActions(s, e, trusted).Ok?
    ensures ApplyActions(s, e, trusted).value.1 != {} ==> trusted && e.kind.ActionReceipt?
  {
    GroundedIsTrusted(s.actions, e, trusted);
    hide Actions.ReduceActions, AdmitActions;
  }

  /* ---------------- the event-specific tail ---------------- */

  lemma NameCore(s: BrainState, e: Event)
    requires Core(s) && ApplyName(s, e).Ok?
    ensures Core(ApplyName(s, e).value)
  {
    NamePart(s, e);
    NameFrame(s, e);
    hide IdentityOk, PersonalityOk, ActionsOk, EnergiesOk, ThoughtsOk, ReflectionsOk, WorldOk,
         Workspace.ValidWorkspace, MemoriesOk, CapabilitiesOk, RawCountsOk, ApplyName;
  }

  // Renaming moves nothing that the actor boundary speaks of.
  lemma NamePart(s: BrainState, e: Event)
    requires IdentityOk(s.identity, s.brainId, s.workingSet.actors, s.workingSet.authorizations)
    requires ApplyName(s, e).Ok?
    ensures var r := ApplyName(s, e).value;
            IdentityOk(r.identity, s.brainId, s.workingSet.actors, s.workingSet.authorizations)
  {
    var r := ApplyName(s, e).value;
    RenamedBoundary(s.identity, r.identity.name);
    assert r.identity == s.identity.(name := r.identity.name);
    hide Identity.SelfBoundary, ApplyName;
  }

  lemma RenamedBoundary(i: Identity.IdentityState, name: Option<Text>)
    requires Identity.SelfBoundary(i)
    ensures Identity.SelfBoundary(i.(name := name))
  {
    var k :| 0 <= k < |i.actors| && Identity.SoleSelf(i, k);
    assert Identity.SoleSelf(i.(name := name), k);
  }

  lemma NameFrame(s: BrainState, e: Event)
    requires ApplyName(s, e).Ok?
    ensures var r := ApplyName(s, e).value; r == s.(name := r.name, identity := r.identity)
  {
    hide Get, Blank;
  }

  lemma TickPart(s: BrainState, e: Event)
    requires PersonalityOk(s.personality, s.workingSet.personality, s.logicalClock) && ApplyTick(s, e).Ok?
    ensures var r := ApplyTick(s, e).value;
            PersonalityOk(r.personality, s.workingSet.personality, r.logicalClock)
  {
    var clock := ApplyTick(s, e).value.logicalClock;
    hide Get, ValuesOk, Personality.ValidBucket, Personality.AdvancedTo, Personality.PolicyCapacity, Personality.PolicyRefill;
    Personality.AdvancedBucket(s.personality.rates.traits, clock);
    Personality.AdvancedBucket(s.personality.rates.adaptations, clock);
    Personality.AdvancedBucket(s.personality.rates.narrativeIdeal, clock);
  }

  lemma TickCore(s: BrainState, e: Event)
    requires Core(s) && ApplyTick(s, e).Ok?
    ensures Core(ApplyTick(s, e).value)
  {
    TickPart(s, e);
    TickFrame(s, e);
    hide IdentityOk, PersonalityOk, ActionsOk, EnergiesOk, ThoughtsOk, ReflectionsOk, WorldOk,
         Workspace.ValidWorkspace, MemoriesOk, CapabilitiesOk, RawCountsOk, ApplyTick;
  }

  lemma TickFrame(s: BrainState, e: Event)
    requires ApplyTick(s, e).Ok?
    ensures var r := ApplyTick(s, e).value;
            r == s.(logicalClock := r.logicalClock, personality := r.personality, runtime := r.runtime)
  {
    hide Get, Personality.AdvanceClock;
  }

  lemma CapabilitiesCore(s: BrainState, e: Event)
    requires Core(s) && ApplyCapabilities(s, e).Ok?
    ensures Core(ApplyCapabilities(s, e).value)
  {
    var r := ApplyCapabilities(s, e).value;
    assert CapabilitiesOk(r.capabilities, r.workingSet.capabilities) by {
      hide Get;
    }
    hide Get;
    hide IdentityOk, PersonalityOk, ActionsOk, EnergiesOk, ThoughtsOk, ReflectionsOk, WorldOk,
         Workspace.ValidWorkspace, MemoriesOk, CapabilitiesOk, RawCountsOk;
  }

  lemma ReassessmentPart(s: BrainState, e: Event)
    requires ActedOk(s) && ApplyReassessment(s, e).Ok?
    ensures ActedOk(ApplyReassessment(s, e).value)
  {
    hide Actions.ValidAction, Actions.ActionIdOf, Keyed.Find, Personality.LegacyNeutral, Keyed.Unique, Keyed.Without,
         Keyed.Keys, Keyed.Has, ActionsOk;
    var id := Actions.ActionIdOf(e).value;
    var kept := Keyed.Without(Personality.EnergyId, s.energies, id);
    Keyed.WithoutUnique(Personality.EnergyId, s.energies, id);
    Keyed.WithinKeys(Personality.EnergyId, s.energies, Actions.Id, s.actions);
    Keyed.WithinKeys(Personality.EnergyId, kept, Actions.Id, s.actions);
    WithoutWithin(s.energies, id, s.actions);
    hide Keyed.Within;
  }

  lemma WithoutWithin(energies: seq<Personality.EnergyVector>, id: Text, actions: seq<Actions.ActionRecord>)
    requires Keyed.Within(Personality.EnergyId, energies, Actions.Id, actions)
    ensures Keyed.Within(Personality.EnergyId, Keyed.Without(Personality.EnergyId, energies, id), Actions.Id, actions)
  {
    var kept := Keyed.Without(Personality.EnergyId, energies, id);
    Keyed.WithoutElements(Personality.EnergyId, energies, id);
    forall k | Keyed.Has(Personality.EnergyId, kept, k) ensures Keyed.Has(Actions.Id, actions, k) {
      var j :| 0 <= j < |kept| && Personality.EnergyId(kept[j]) == k;
      assert kept[j] in kept;
      assert Keyed.Has(Personality.EnergyId, energies, k);
    }
  }

  lemma ReassessmentCore(s: BrainState, e: Event)
    requires Core(s) && ApplyReassessment(s, e).Ok?
    ensures Core(ApplyReassessment(s, e).value)
  {
    ReassessmentPart(s, e);
    hide IdentityOk, PersonalityOk, ActionsOk, EnergiesOk, ThoughtsOk, ReflectionsOk, WorldOk,
         Workspace.ValidWorkspace, MemoriesOk, CapabilitiesOk, RawCountsOk, Keyed.Find, Keyed.Without, Actions.ActionIdOf, Personality.LegacyNeutral;
  }

  // An assessed action is among the retained ones, so there are never more
  // energy vectors than actions: the branch that drops the oldest vector is
  // never taken.
  lemma AssessmentFits(s: BrainState, e: Event)
    requires ActedOk(s) && ApplyAssessment(s, e).Ok?
    ensures Personality.EnergyFromEvent(e).Ok? && Actions.ActionIdOf(e).Ok?
    ensures var energy := Personality.EnergyFromEvent(e).value;
            var all := Keyed.Upsert(Personality.EnergyId, s.energies, energy);
            && energy.actionId == Actions.ActionIdOf(e).value
            && Keyed.Unique(Personality.EnergyId, all)
            && |all| == |s.energies| + (if Keyed.Has(Personality.EnergyId, s.energies, energy.actionId) then 0 else 1)
            && Keyed.Within(Personality.EnergyId, all, Actions.Id, s.actions)
            && |all| <= |s.actions| <= MAX_ENERGY_RECORDS
  {
    EnergyNamesAction(e);
    hide Actions.ValidAction, Actions.ActionIdOf, Personality.EnergyFromEvent, Keyed.Unique, Keyed.Upsert, Keyed.Keys;
    var energy := Personality.EnergyFromEvent(e).value;
    Keyed.UpsertUnique(Personality.EnergyId, s.energies, energy);
    Keyed.UpsertElements(Personality.EnergyId, s.energies, energy);
    Keyed.WithinKeys(Personality.EnergyId, s.energies, Actions.Id, s.actions);
    Keyed.WithinSize(Personality.EnergyId, Keyed.Upsert(Personality.EnergyId, s.energies, energy), Actions.Id, s.actions);
  }

  lemma EnergyNamesAction(e: Event)
    requires Actions.ActionIdOf(e).Ok? && Personality.EnergyFromEvent(e).Ok?
    ensures Personality.EnergyFromEvent(e).value.actionId == Actions.ActionIdOf(e).value
  {
    hide Personality.Bounded, Texts, Blank, LongerThan;
  }

  lemma AssessmentResult(s: BrainState, e: Event)
    requires ActedOk(s) && ApplyAssessment(s, e).Ok?
    ensures var r := ApplyAssessment(s, e).value;
            var energy := Personality.EnergyFromEvent(e).value;
            && r.energies == Keyed.Upsert(Personality.EnergyId, s.energies, energy)
            && r.workingSet.energies == s.workingSet.energies.Advance(
                 if Keyed.Has(Personality.EnergyId, s.energies, energy.actionId) then 0 else 1, 0)
  {
    AssessmentFits(s, e);
    hide Actions.ActionIdOf, Personality.EnergyFromEvent, Keyed.Unique, Keyed.Upsert, Keyed.Within,
         Keyed.Has, ActedOk, Keyed.Find;
  }

  lemma CounterAdmits(c: Counter, retained: nat, admitted: nat)
    requires c.Accounts(retained)
    ensures c.Advance(admitted, 0).Accounts(retained + admitted)
  {
  }

  lemma EnergiesGrow(energies: seq<Personality.EnergyVector>, actions: seq<Actions.ActionRecord>, counter: Counter,
                     all: seq<Personality.EnergyVector>, admitted: nat)
    requires EnergiesOk(energies, actions, counter) && Keyed.Unique(Personality.EnergyId, all)
    requires |all| == |energies| + admitted && |all| <= MAX_ENERGY_RECORDS
    requires Keyed.Within(Personality.EnergyId, all, Actions.Id, actions)
    ensures EnergiesOk(all, actions, counter.Advance(admitted, 0))
  {
    Keyed.WithinKeys(Personality.EnergyId, all, Actions.Id, actions);
    CounterAdmits(counter, |energies|, admitted);
    hide Keyed.Unique, Keyed.Keys, Keyed.Within;
  }

  lemma AssessmentPart(s: BrainState, e: Event)
    requires ActedOk(s) && ApplyAssessment(s, e).Ok?
    ensures var r := ApplyAssessment(s, e).value; EnergiesOk(r.energies, s.actions, r.workingSet.energies)
  {
    AssessmentFits(s, e);
    AssessmentResult(s, e);
    var energy := Personality.EnergyFromEvent(e).value;
    hide Personality.EnergyFromEvent, Keyed.Unique, Keyed.Upsert, Keyed.Keys, Keyed.Has, Keyed.Within, ActionsOk,
         ApplyAssessment, EnergiesOk, Actions.ActionIdOf;
    EnergiesGrow(s.energies, s.actions, s.workingSet.energies, Keyed.Upsert(Personality.EnergyId, s.energies, energy),
                 if Keyed.Has(Personality.EnergyId, s.energies, energy.actionId) then 0 else 1);
  }

  lemma AssessmentCore(s: BrainState, e: Event)
    requires Core(s) && ApplyAssessment(s, e).Ok?
    ensures Core(ApplyAssessment(s, e).value)
  {
    AssessmentPart(s, e);
    AssessmentFrame(s, e);
    hide IdentityOk, PersonalityOk, ActionsOk, EnergiesOk, ThoughtsOk, ReflectionsOk, WorldOk,
         Workspace.ValidWorkspace, MemoriesOk, CapabilitiesOk, RawCountsOk, ApplyAssessment;
  }

  lemma AssessmentFrame(s: BrainState, e: Event)
    requires ApplyAssessment(s, e).Ok?
    ensures var r := ApplyAssessment(s, e).value;
            r == s.(energies := r.energies, workingSet := s.workingSet.(energies := r.workingSet.energies))
  {
    hide Personality.EnergyFromEvent, Keyed.Upsert, Actions.ActionIdOf;
  }

  lemma SimulationPart(s: BrainState, e: Event)
    requires ThoughtsOk(s.thoughts, s.workingSet.thoughts) && ApplySimulation(s, e).Ok?
    ensures var r := ApplySimulation(s, e).value; ThoughtsOk(r.thoughts, r.workingSet.thoughts)
  {
    hide Cognition.SimulationBranch, Keyed.Upsert, Keyed.Has, UpsertCounter;
    var branch := Cognition.SimulationBranch(e.payload).value;
    Keyed.UpsertSize(Cognition.BranchKey, s.thoughts, branch);
    var kept := KeepLast(Keyed.Upsert(Cognition.BranchKey, s.thoughts, branch), MAX_THOUGHT_BRANCHES);
    var admitted := if Keyed.Has(Cognition.BranchKey, s.thoughts, branch.branchId) then 0 else 1;
    UpsertCounterAccounts(s.workingSet.thoughts, |s.thoughts|, admitted, |kept|);
  }

  lemma SimulationCore(s: BrainState, e: Event)
    requires Core(s) && ApplySimulation(s, e).Ok?
    ensures Core(ApplySimulation(s, e).value)
  {
    SimulationPart(s, e);
    SimulationFrame(s, e);
    hide IdentityOk, PersonalityOk, ActionsOk, EnergiesOk, ThoughtsOk, ReflectionsOk, WorldOk,
         Workspace.ValidWorkspace, MemoriesOk, CapabilitiesOk, RawCountsOk, ApplySimulation;
  }

  lemma SimulationFrame(s: BrainState, e: Event)
    requires ApplySimulation(s, e).Ok?
    ensures var r := ApplySimulation(s, e).value;
            r == s.(thoughts := r.thoughts, workingSet := s.workingSet.(thoughts := r.workingSet.thoughts))
  {
    hide Cognition.SimulationBranch, Keyed.Upsert, Keyed.Has, UpsertCounter;
  }

  lemma ReflectionPart(s: BrainState, e: Event)
    requires ThoughtsOk(s.thoughts, s.workingSet.thoughts) && ReflectionsOk(s.reflections, s.workingSet.reflections)
    requires ApplyReflection(s, e).Ok?
    ensures var r := ApplyReflection(s, e).value;
            ThoughtsOk(r.thoughts, r.workingSet.thoughts) && ReflectionsOk(r.reflections, r.workingSet.reflections)
  {
    hide Cognition.ParseReflection, Cognition.ValidBranch, Keyed.PutAll, Keyed.CountNew, UpsertCounter;
    var branches := Cognition.Branches(Cognition.ParseReflection(e.payload).value);
    hide Cognition.Branches;
    Keyed.MergedDictSize(Cognition.BranchKey, s.thoughts, branches);
    var kept := KeepLast(Keyed.PutAll(Cognition.BranchKey, [], s.thoughts + branches), MAX_THOUGHT_BRANCHES);
    UpsertCounterAccounts(s.workingSet.thoughts, |s.thoughts|,
                          Keyed.CountNew(Cognition.BranchKey, s.thoughts, branches), |kept|);
  }

  lemma ReflectionCore(s: BrainState, e: Event)
    requires Core(s) && ApplyReflection(s, e).Ok?
    ensures Core(ApplyReflection(s, e).value)
  {
    ReflectionPart(s, e);
    ReflectionFrame(s, e);
    hide IdentityOk, PersonalityOk, ActionsOk, EnergiesOk, ThoughtsOk, ReflectionsOk, WorldOk,
         Workspace.ValidWorkspace, MemoriesOk, CapabilitiesOk, RawCountsOk, ApplyReflection;
  }

  lemma ReflectionFrame(s: BrainState, e: Event)
    requires ApplyReflection(s, e).Ok?
    ensures var r := ApplyReflection(s, e).value;
            r == s.(thoughts := r.thoughts, reflections := r.reflections,
                    workingSet := s.workingSet.(thoughts := r.workingSet.thoughts,
                                                reflections := r.workingSet.reflections))
  {
    hide Cognition.ParseReflection, Cognition.Branches, Cognition.ValidBranch, Keyed.PutAll, Keyed.CountNew,
         UpsertCounter;
  }

  lemma RuntimeCore(s: BrainState, traceComplete: bool, runtime: RuntimeState)
    requires Core(s)
    ensures Core(s.(traceComplete := traceComplete, runtime := runtime))
  {
    hide IdentityOk, PersonalityOk, ActionsOk, EnergiesOk, ThoughtsOk, ReflectionsOk, WorldOk,
         Workspace.ValidWorkspace, MemoriesOk, CapabilitiesOk, RawCountsOk;
  }

  lemma FailureFrame(s: BrainState, e: Event)
    requires ApplyFailure(s, e).Ok?
    ensures var r := ApplyFailure(s, e).value; r == s.(traceComplete := s.traceComplete, runtime := r.runtime)
  {
    hide GetText;
  }

  lemma SpecificCore(s: BrainState, e: Event)
    requires Core(s) && ApplySpecific(s, e).Ok?
    ensures Core(ApplySpecific(s, e).value)
  {
    hide Core, ApplyName, ApplyTick, ApplyCapabilities, ApplyReassessment, ApplyAssessment, ApplySimulation,
         ApplyReflection, ApplyFailure, Get;
    match e.kind
    case BrainCreated => NameCore(s, e);
    case IdentityNamed => NameCore(s, e);
    case ClockTick => TickCore(s, e);
    case CapabilitiesReported => CapabilitiesCore(s, e);
    case SemanticGap => RuntimeCore(s, false, s.runtime);
    case TraceGap => RuntimeCore(s, false, s.runtime);
    case EnergyRequested =>
      if ApplySpecific(s, e) != Ok(s) {
        ReassessmentCore(s, e);
      }
    case EnergyAssessed => AssessmentCore(s, e);
    case SimulationCreated => SimulationCore(s, e);
    case CognitionReflected => ReflectionCore(s, e);
    case RuntimeFailed =>
      FailureFrame(s, e);
      RuntimeCore(s, s.traceComplete, ApplyFailure(s, e).value.runtime);
    case RuntimeRecovered => RuntimeCore(s, s.traceComplete, ApplySpecific(s, e).value.runtime);
    case _ =>
  }

  /* ---------------- what the common part leaves alone ---------------- */

  // Fields that only the event-specific tail writes.
  ghost predicate SameTail(s: BrainState, r: BrainState) {
    && r.brainId == s.brainId && r.name == s.name && r.thoughts == s.thoughts && r.reflections == s.reflections
    && r.runtime == s.runtime && r.capabilities == s.capabilities && r.logicalClock == s.logicalClock
    && r.traceComplete == s.traceComplete
  }

  lemma IdentityResult(s: BrainState, e: Event)
    requires ApplyIdentity(s, e).Ok?
    ensures Identity.ReduceIdentity(s.identity, e) == Ok(ApplyIdentity(s, e).value.identity)
  {
    hide Identity.ReduceIdentity;
  }

  lemma CommonFrame(s: BrainState, e: Event)
    requires Common(s, e).Ok?
    ensures SameTail(s, Common(s, e).value)
    ensures Identity.ReduceIdentity(s.identity, e) == Ok(Common(s, e).value.identity)
  {
    hide CountEvent, ApplyIdentity, ApplyPersonality, ApplyActions, ApplyWorld, ApplyWorkspace, ApplyMemory, Trusted,
         Identity.ReduceIdentity;
    CountEventFrame(s, e);
    var s0 := CountEvent(s, e);
    IdentityFrame(s0, e);
    IdentityResult(s0, e);
    var s1 := ApplyIdentity(s0, e).value;
    PersonalityFrame(s1, e);
    var s2 := ApplyPersonality(s1, e).value;
    ActionsFrame(s2, e, Trusted(s, e));
    var (s3, grounded) := ApplyActions(s2, e, Trusted(s, e)).value;
    WorldFrame(s3, e, Trusted(s, e), grounded);
    var s4 := ApplyWorld(s3, e, Trusted(s, e), grounded).value;
    WorkspaceFrame(s4, e);
    MemoryFrame(ApplyWorkspace(s4, e).value, e);
  }

  lemma WorkspaceFrame(s: BrainState, e: Event)
    requires ApplyWorkspace(s, e).Ok?
    ensures var r := ApplyWorkspace(s, e).value; r == s.(workspace := r.workspace)
  {
    hide Workspace.ReduceWorkspace;
  }

  /* ---------------- the name ---------------- */

  // The common part renames the identity on identity.named; the tail brings
  // the brain's own name in line.
  lemma NamesKept(s: BrainState, c: BrainState, e: Event)
    requires NameOk(s.identity, s.name) && c.name == s.name
    requires Identity.ReduceIdentity(s.identity, e) == Ok(c.identity) && ApplySpecific(c, e).Ok?
    ensures var r := ApplySpecific(c, e).value; NameOk(r.identity, r.name)
  {
    hide ApplyTick, ApplyCapabilities, ApplyReassessment, ApplyAssessment, ApplySimulation, ApplyReflection,
         ApplyFailure, Get, Blank, Identity.RegisterActor, Identity.AuthorizeProvenance;
    match e.kind
    case BrainCreated =>
    case IdentityNamed =>
    case ActorRegistered => RegistrationKeepsName(s.identity, e);
    case ProvenanceAuthorized => RegistrationKeepsName(s.identity, e);
    case ClockTick => TickFrame(c, e);
    case CapabilitiesReported => CapabilitiesFrame(c, e);
    case EnergyRequested => if ApplySpecific(c, e) != Ok(c) { ReassessmentFrame(c, e); }
    case EnergyAssessed => AssessmentFrame(c, e);
    case SimulationCreated => SimulationFrame(c, e);
    case CognitionReflected => ReflectionFrame(c, e);
    case RuntimeFailed => FailureFrame(c, e);
    case _ =>
  }

  lemma RegistrationKeepsName(i: Identity.IdentityState, e: Event)
    requires e.kind.ActorRegistered? || e.kind.ProvenanceAuthorized?
    requires Identity.ReduceIdentity(i, e).Ok?
    ensures Identity.ReduceIdentity(i, e).value.name == i.name
  {
    hide Identity.ParseActor, Keyed.Upsert, Keyed.Has, GetText, Get;
  }

  lemma CapabilitiesFrame(s: BrainState, e: Event)
    requires ApplyCapabilities(s, e).Ok?
    ensures var r := ApplyCapabilities(s, e).value;
            r == s.(capabilities := r.capabilities, workingSet := s.workingSet.(capabilities := r.workingSet.capabilities))
  {
    hide Get;
  }

  lemma ReassessmentFrame(s: BrainState, e: Event)
    requires ApplyReassessment(s, e).Ok?
    ensures var r := ApplyReassessment(s, e).value;
            r == s.(energies := r.energies, workingSet := s.workingSet.(energies := r.workingSet.energies))
  {
    hide Actions.ActionIdOf, Keyed.Find, Keyed.Has, Keyed.Without, Personality.LegacyNeutral;
  }

  /* ---------------- the invariant ---------------- */

  // The tail leaves the identity alone except for its name.
  lemma SpecificActors(c: BrainState, e: Event)
    requires ApplySpecific(c, e).Ok?
    ensures var r := ApplySpecific(c, e).value;
            r.brainId == c.brainId && r.identity == c.identity.(name := r.identity.name) &&
            r.workingSet.actors == c.workingSet.actors &&
            r.workingSet.authorizations == c.workingSet.authorizations
  {
    hide ApplyTick, ApplyCapabilities, ApplyReassessment, ApplyAssessment, ApplySimulation, ApplyReflection,
         ApplyFailure, Get, Blank;
    match e.kind
    case ClockTick => TickFrame(c, e);
    case CapabilitiesReported => CapabilitiesFrame(c, e);
    case EnergyRequested => if ApplySpecific(c, e) != Ok(c) { ReassessmentFrame(c, e); }
    case EnergyAssessed => AssessmentFrame(c, e);
    case SimulationCreated => SimulationFrame(c, e);
    case CognitionReflected => ReflectionFrame(c, e);
    case RuntimeFailed => FailureFrame(c, e);
    case _ =>
  }

  lemma ValidSplit(s: BrainState)
    ensures Valid(s) <==> Core(s) && NameOk(s.identity, s.name)
  {
    hide Core, NameOk;
  }

  // An accepted event from a valid state yields a valid state, as long as it
  // does not re-register an actor id that several records share.
  lemma ReductionKeepsValid(s: BrainState, e: Event)
    requires Valid(s) && ReduceState(s, e).Ok? && ReplacesOne(s, e)
    ensures Valid(ReduceState(s, e).value)
  {
    ValidSplit(s);
    ValidSplit(ReduceState(s, e).value);
    hide Valid, Core, NameOk, ReplacesOne, Common, ApplySpecific, Identity.ReduceIdentity, SameTail;
    CommonCore(s, e);
    CommonFrame(s, e);
    var c := Common(s, e).value;
    SpecificCore(c, e);
    NamesKept(s, c, e) by {
      assert c.name == s.name by { SameName(s, c); }
    }
  }

  lemma SameName(s: BrainState, c: BrainState)
    requires SameTail(s, c)
    ensures c.name == s.name && c.brainId == s.brainId
  {
  }

  lemma CommonActors(s: BrainState, e: Event)
    requires Common(s, e).Ok?
    ensures var r := Common(s, e).value;
            var i := ApplyIdentity(CountEvent(s, e), e);
            i.Ok? && r.identity == i.value.identity && r.brainId == s.brainId &&
            r.workingSet.actors == i.value.workingSet.actors &&
            r.workingSet.authorizations == i.value.workingSet.authorizations
  {
    hide CountEvent, ApplyIdentity, ApplyPersonality, ApplyActions, ApplyWorld, ApplyWorkspace, ApplyMemory, Trusted;
    CountEventFrame(s, e);
    var s0 := CountEvent(s, e);
    IdentityFrame(s0, e);
    var s1 := ApplyIdentity(s0, e).value;
    PersonalityFrame(s1, e);
    var s2 := ApplyPersonality(s1, e).value;
    ActionsFrame(s2, e, Trusted(s, e));
    var (s3, grounded) := ApplyActions(s2, e, Trusted(s, e)).value;
    WorldFrame(s3, e, Trusted(s, e), grounded);
    var s4 := ApplyWorld(s3, e, Trusted(s, e), grounded).value;
    WorkspaceFrame(s4, e);
    MemoryFrame(ApplyWorkspace(s4, e).value, e);
  }

  lemma CountEventIdentity(s: BrainState, e: Event)
    ensures var r := CountEvent(s, e);
            r.identity == s.identity && r.brainId == s.brainId &&
            r.workingSet.actors == s.workingSet.actors && r.workingSet.authorizations == s.workingSet.authorizations
  {
    CountEventFrame(s, e);
    hide CountEvent;
  }

  lemma SharedIdBreaks(s: BrainState, e: Event)
    requires IdentityOk(s.identity, s.brainId, s.workingSet.actors, s.workingSet.authorizations)
    requires ReduceState(s, e).Ok? && !ReplacesOne(s, e)
    ensures var r := ReduceState(s, e).value;
            !IdentityOk(r.identity, r.brainId, r.workingSet.actors, r.workingSet.authorizations)
  {
    hide IdentityOk, Common, ApplySpecific, ApplyIdentity, CountEvent, Identity.ReduceIdentity, Identity.ParseActor, Keyed.Count;
    CountEventIdentity(s, e);
    CommonActors(s, e);
    var s0 := CountEvent(s, e);
    IdentityPart(s0, e);
    IdentityFrame(s0, e);
    var c := Common(s, e).value;
    SpecificActors(c, e);
    UnnamedIdentity(c, e);
  }

  lemma UnnamedIdentity(c: BrainState, e: Event)
    requires ApplySpecific(c, e).Ok? && e.kind.ActorRegistered?
    ensures ApplySpecific(c, e).value.identity == c.identity
  {
  }

  lemma ValidIdentity(s: BrainState)
    requires Valid(s)
    ensures IdentityOk(s.identity, s.brainId, s.workingSet.actors, s.workingSet.authorizations)
  {
    hide IdentityOk, PersonalityOk, ActionsOk, EnergiesOk, ThoughtsOk, ReflectionsOk, WorldOk, NameOk,
         Workspace.ValidWorkspace, MemoriesOk, CapabilitiesOk, RawCountsOk;
  }

  // The validator that closes reduce_state rejects nothing but the
  // re-registration of an actor id that several records share.
  lemma ReductionStaysValid(s: BrainState, e: Event)
    requires Valid(s) && ReduceState(s, e).Ok?
    ensures Valid(ReduceState(s, e).value) <==> Identity.Replaced(s.identity, e) <= 1
  {
    if ReplacesOne(s, e) {
      ReductionKeepsValid(s, e);
    } else {
      ValidIdentity(s);
      SharedIdBreaks(s, e);
      var r := ReduceState(s, e).value;
      if Valid(r) {
        ValidIdentity(r);
      }
      hide Valid, ReduceState, IdentityOk;
    }
    hide Valid, ReduceState, IdentityOk, Identity.Replaced;
  }

  lemma UniqueReplacesOne(s: Identity.IdentityState, e: Event)
    requires Keyed.Unique(Identity.Id, s.actors)
    ensures Identity.Replaced(s, e) <= 1
  {
    hide Keyed.Count, Keyed.Unique, Identity.ParseActor;
    if e.kind.ActorRegistered? && Identity.ParseActor(e.payload).Some? {
      Keyed.UniqueMeansCount(Identity.Id, s.actors, Identity.ParseActor(e.payload).value.actorId);
    }
  }

  lemma ActorsStayUnique(s: BrainState, e: Event)
    requires IdentityOk(s.identity, s.brainId, s.workingSet.actors, s.workingSet.authorizations)
    requires Keyed.Unique(Identity.Id, s.identity.actors) && ReduceState(s, e).Ok?
    ensures Keyed.Unique(Identity.Id, ReduceState(s, e).value.identity.actors)
  {
    hide Common, ApplySpecific, Identity.ReduceIdentity, Identity.SelfBoundary, Keyed.Unique, Identity.Replaced;
    CommonFrame(s, e);
    Identity.IdentityKept(s.identity, e);
    SpecificActors(Common(s, e).value, e);
  }

  // The whole invariant is kept by every accepted event...
  lemma ReductionKeepsInv(s: BrainState, e: Event)
    requires Inv(s) && ReduceState(s, e).Ok?
    ensures Inv(ReduceState(s, e).value)
  {
    UniqueReplacesOne(s.identity, e);
    ReductionStaysValid(s, e);
    ValidIdentity(s);
    ActorsStayUnique(s, e);
    hide Valid, ReduceState, Keyed.Unique, Identity.Replaced, IdentityOk;
  }

  // ... so it holds after every run, and the validator accepts every prefix.
  lemma {:induction false} RunKeepsInv(s: BrainState, events: seq<Event>)
    requires Inv(s) && ReduceMany(s, events).Ok?
    ensures Inv(ReduceMany(s, events).value)
    decreases |events|
  {
    hide Inv, ReduceState;
    if events != [] {
      ReductionKeepsInv(s, events[0]);
      RunKeepsInv(ReduceState(s, events[0]).value, events[1..]);
    }
  }

  lemma ReachableInv(brainId: Text, events: seq<Event>)
    requires ReduceMany(Genesis(brainId), events).Ok?
    ensures Inv(ReduceMany(Genesis(brainId), events).value)
  {
    GenesisInv(brainId);
    RunKeepsInv(Genesis(brainId), events);
    hide *;
  }

  /* ---------------- why distinct actor ids are needed ---------------- */

  function Reregistration(brainId: Text, eventId: Text, id: Text): Event {
    Event(ActorRegistered, eventId, brainId, None, brainId, None, None,
          map[ACTOR_ID := Str(id), KIND := Str(HUMAN)])
  }

  lemma ReregistrationParses(brainId: Text, eventId: Text, id: Text)
    requires !Empty(id)
    ensures Identity.ParseActor(Reregistration(brainId, eventId, id).payload) ==
            Some(Identity.ActorRecord(id, Identity.Human, None, None, map[]))
  {
    var p := Reregistration(brainId, eventId, id).payload;
    assert Get(p, DISPLAY_NAME) == Null && Get(p, PARENT_ACTOR_ID) == Null;
    assert GetOr(p, ATTRIBUTES, Obj(map[])) == Obj(map[]);
    assert GetText(p, ACTOR_ID) == Some(id) && Get(p, KIND) == Str(HUMAN);
  }

  lemma RegistrationAccepted(s: BrainState, e: Event)
    requires e.kind.ActorRegistered? && Addressed(s, e) && Identity.ReduceIdentity(s.identity, e).Ok?
    requires |s.actions| <= MAX_ACTION_RECORDS
    ensures ReduceState(s, e).Ok?
  {
    hide Identity.ReduceIdentity, EventName, StringLe, CountEvent, Keyed.CountNew, Keyed.Keys, ApplySpecific;
    CountEventFrame(s, e);
    var s1 := ApplyIdentity(CountEvent(s, e), e).value;
    UnactedAccepted(s1, e, Trusted(s, e));
    hide ApplyActions, Trusted;
    var c := Common(s, e).value;
    assert ApplySpecific(c, e) == Ok(c) by { UntailedAccepted(c, e); }
  }

  lemma UntailedAccepted(c: BrainState, e: Event)
    requires e.kind.ActorRegistered?
    ensures ApplySpecific(c, e) == Ok(c)
  {
  }

  lemma UnactedAccepted(s: BrainState, e: Event, trusted: bool)
    requires !Actions.IsLifecycle(e.kind) && |s.actions| <= MAX_ACTION_RECORDS
    ensures ApplyActions(s, e, trusted) == Ok((s, {}))
  {
    Keyed.CountNewNone(Actions.Id, s.actions, s.actions);
  }

  lemma ReregistrationReduces(i: Identity.IdentityState, e: Event, id: Text)
    requires Identity.SelfBoundary(i) && Keyed.Count(Identity.Id, i.actors, id) >= 2
    requires e.kind.ActorRegistered?
    requires Identity.ParseActor(e.payload) == Some(Identity.ActorRecord(id, Identity.Human, None, None, map[]))
    ensures Identity.ReduceIdentity(i, e).Ok? && Identity.Replaced(i, e) >= 2
  {
    Identity.OneSelfIsBoundary(i);
    Keyed.CountHas(Identity.Id, i.actors, id);
    hide Keyed.Count, Keyed.Has, Identity.ParseActor, Keyed.Upsert, Identity.SelfBoundary;
  }

  lemma ValidActionsFit(s: BrainState)
    requires Valid(s)
    ensures |s.actions| <= MAX_ACTION_RECORDS
  {
    hide IdentityOk, PersonalityOk, EnergiesOk, ThoughtsOk, ReflectionsOk, WorldOk, NameOk, Keyed.Unique,
         Workspace.ValidWorkspace, MemoriesOk, CapabilitiesOk, RawCountsOk, Actions.ValidAction;
  }

  // In any valid state in which two records share an id other than the self
  // actor's, registering that id again is accepted by every reducer and leaves
  // a state that the validator refuses.
  lemma SharedIdIsRefused(s: BrainState, eventId: Text, id: Text)
    requires Valid(s) && !Empty(id) && Keyed.Count(Identity.Id, s.identity.actors, id) >= 2
    ensures var e := Reregistration(s.brainId, eventId, id);
            ReduceState(s, e).Ok? && !Valid(ReduceState(s, e).value)
  {
    var e := Reregistration(s.brainId, eventId, id);
    ReregistrationParses(s.brainId, eventId, id);
    ValidIdentity(s);
    ReregistrationReduces(s.identity, e, id);
    ValidActionsFit(s);
    hide Valid, Keyed.Count, Identity.ParseActor, Identity.ReduceIdentity, ReduceState, Reregistration;
    RegistrationAccepted(s, e);
    ReductionStaysValid(s, e);
  }

  // One such state: a second record of the actor Word(501).
  const SHARED_ACTOR := Identity.ActorRecord(Word(501), Identity.Human, None, None, map[])

  function SharedActors(): BrainState {
    var g := Genesis(Word(500));
    g.(identity := g.identity.(actors := g.identity.actors + [SHARED_ACTOR, SHARED_ACTOR]),
       workingSet := g.workingSet.(actors := Counter(3, 0)))
  }

  lemma SharedIdentity()
    ensures var s := SharedActors();
            && IdentityOk(s.identity, s.brainId, s.workingSet.actors, s.workingSet.authorizations)
            && NameOk(s.identity, s.name)
            && Keyed.Count(Identity.Id, s.identity.actors, Word(501)) == 2
  {
    var i := SharedActors().identity;
    assert Identity.SoleSelf(i, 0);
    assert i.actors[1..] == [SHARED_ACTOR, SHARED_ACTOR];
    assert i.actors[1..][1..] == [SHARED_ACTOR];
    assert i.actors[1..][1..][1..] == [];
  }

  lemma IdentitySwapped(s: BrainState, identity: Identity.IdentityState, actors: Counter)
    requires Valid(s) && IdentityOk(identity, s.brainId, actors, s.workingSet.authorizations)
    requires NameOk(identity, s.name)
    ensures Valid(s.(identity := identity, workingSet := s.workingSet.(actors := actors)))
  {
    hide PersonalityOk, WorldOk, IdentityOk, ActionsOk, EnergiesOk, ThoughtsOk, ReflectionsOk,
         MemoriesOk, RawCountsOk, CapabilitiesOk, Workspace.ValidWorkspace, NameOk;
  }

  lemma SharedActorsValid()
    ensures Valid(SharedActors())
    ensures Keyed.Count(Identity.Id, SharedActors().identity.actors, Word(501)) == 2
  {
    GenesisInv(Word(500));
    SharedIdentity();
    hide Valid, Keyed.Count, IdentityOk, NameOk, Keyed.Unique;
    IdentitySwapped(Genesis(Word(500)), SharedActors().identity, Counter(3, 0));
  }
}
