// Who may put a proposition into the observed world, and who may confirm the
// effect of an action.
module Grounding {
  import opened Prelude
  import opened Values
  import opened State
  import opened Reducer
  import opened ReducerInvariant
  import opened ActionRuns
  import Keyed
  import Actions
  import Identity
  import Workspace
  import World
  import H = ActionHistory

  // The self actor, or an actor that holds some authorization.
  predicate Authority(identity: Identity.IdentityState, actor: Text) {
    actor == identity.selfActorId ||
    exists i :: 0 <= i < |identity.authorizations| && identity.authorizations[i].actorId == actor
  }

  ghost predicate ObservedGrounded(s: BrainState) {
    forall p :: p in s.world.observed ==> Authority(s.identity, p.sourceActorId)
  }

  lemma TrustedHasAuthority(s: BrainState, e: Event)
    requires Trusted(s, e)
    ensures Authority(s.identity, e.actorId)
  {
    if e.actorId != s.identity.selfActorId {
      var i :| 0 <= i < |s.identity.authorizations| &&
               s.identity.authorizations[i] == Identity.Authorization(e.actorId, e.adapterId);
    }
  }

  // What an event may do to the identity's authorizations.
  lemma ReducedAuthority(s: BrainState, e: Event)
    requires Valid(s) && ReduceState(s, e).Ok?
    ensures var r := ReduceState(s, e).value;
            && r.identity.selfActorId == s.identity.selfActorId
            && s.identity.authorizations <= r.identity.authorizations
            && |r.identity.authorizations| <= |s.identity.authorizations| + 1
            && (r.identity.authorizations != s.identity.authorizations ==>
                  e.kind.ProvenanceAuthorized? && e.actorId == s.identity.selfActorId)
  {
    ValidIdentity(s);
    CommonFrame(s, e);
    SelfHolds(s);
    Identity.IdentityKept(s.identity, e);
    SpecificActors(Common(s, e).value, e);
    hide Valid, Common, ApplySpecific, Identity.ReduceIdentity, Identity.SelfBoundary, Identity.Replaced, SameTail,
         Keyed.Unique, IdentityOk;
  }

  // Only trusted events add to the observed world, and what they add is
  // attributed to their own actor.
  lemma ReducedObserved(s: BrainState, e: Event)
    requires WorldOk(s.world, s.workingSet.world) && ReduceState(s, e).Ok?
    ensures var r := ReduceState(s, e).value;
            && World.GrownBy(s.world.observed, r.world.observed, e.actorId)
            && (r.world.observed != s.world.observed ==> Trusted(s, e))
  {
    ReducedActions(s, e);
    GroundedIsTrusted(s.actions, e, Trusted(s, e));
    var grounded := Actions.ReduceActions(s.actions, e, Trusted(s, e)).value.1;
    hide ReduceState, Actions.ReduceActions, World.ReduceWorld, Trusted, World.ValidLayer, World.GrownBy;
    World.WorldKept(s.world, e, Trusted(s, e), grounded, World.Observed);
  }

  lemma ValidWorld(s: BrainState)
    requires Valid(s)
    ensures WorldOk(s.world, s.workingSet.world)
  {
    hide IdentityOk, PersonalityOk, ActionsOk, EnergiesOk, ThoughtsOk, ReflectionsOk, WorldOk, NameOk,
         Workspace.ValidWorkspace, MemoriesOk, CapabilitiesOk, RawCountsOk;
  }

  lemma AuthorityGrows(before: Identity.IdentityState, after: Identity.IdentityState, actor: Text)
    requires Authority(before, actor) && after.selfActorId == before.selfActorId
    requires before.authorizations <= after.authorizations
    ensures Authority(after, actor)
  {
    if actor != before.selfActorId {
      var i :| 0 <= i < |before.authorizations| && before.authorizations[i].actorId == actor;
      assert after.authorizations[i] == before.authorizations[i];
    }
  }

  lemma ObservedStaysGrounded(s: BrainState, e: Event)
    requires Valid(s) && ObservedGrounded(s) && ReduceState(s, e).Ok?
    ensures ObservedGrounded(ReduceState(s, e).value)
  {
    ReducedAuthority(s, e);
    ValidWorld(s);
    ReducedObserved(s, e);
    hide Valid, ReduceState, Authority, WorldOk, Trusted;
    var r := ReduceState(s, e).value;
    forall p | p in r.world.observed ensures Authority(r.identity, p.sourceActorId) {
      if p !in s.world.observed {
        TrustedHasAuthority(s, e);
      }
      AuthorityGrows(s.identity, r.identity, p.sourceActorId);
    }
  }

  // In every reachable state each observed proposition comes from the self
  // actor or from an actor with an authorization.
  lemma {:induction false} RunObservedGrounded(s: BrainState, events: seq<Event>)
    requires Inv(s) && ObservedGrounded(s) && ReduceMany(s, events).Ok?
    ensures ObservedGrounded(ReduceMany(s, events).value)
    decreases |events|
  {
    hide Valid, Keyed.Unique, ReduceState, ObservedGrounded;
    if events != [] {
      ObservedStaysGrounded(s, events[0]);
      ReductionKeepsInv(s, events[0]);
      RunObservedGrounded(ReduceState(s, events[0]).value, events[1..]);
    }
  }

  lemma ReachableObservedGrounded(brainId: Text, events: seq<Event>)
    requires ReduceMany(Genesis(brainId), events).Ok?
    ensures ObservedGrounded(ReduceMany(Genesis(brainId), events).value)
  {
    hide Inv, ReduceMany;
    GenesisInv(brainId);
    RunObservedGrounded(Genesis(brainId), events);
  }

  /* ---------------- where authorizations come from ---------------- */

  // Some self-authored authorization event of the run names this actor.
  ghost predicate GrantedBy(events: seq<Event>, self: Text, actor: Text) {
    exists k :: 0 <= k < |events| && Grants(events[k], self, actor)
  }

  predicate Grants(e: Event, self: Text, actor: Text) {
    e.kind.ProvenanceAuthorized? && e.actorId == self && GetText(e.payload, ACTOR_ID) == Some(actor)
  }

  lemma NewGrant(i: Identity.IdentityState, e: Event)
    requires e.kind.ProvenanceAuthorized? && Identity.ReduceIdentity(i, e).Ok?
    ensures var r := Identity.ReduceIdentity(i, e).value;
            r.authorizations == i.authorizations ||
            (|r.authorizations| == |i.authorizations| + 1 &&
             Grants(e, i.selfActorId, r.authorizations[|i.authorizations|].actorId))
  {
    hide Get, GetText;
  }

  lemma ReducedGrant(s: BrainState, e: Event)
    requires Valid(s) && ReduceState(s, e).Ok?
    ensures var r := ReduceState(s, e).value;
            r.identity.authorizations == s.identity.authorizations ||
            (|r.identity.authorizations| == |s.identity.authorizations| + 1 &&
             Grants(e, s.identity.selfActorId, r.identity.authorizations[|s.identity.authorizations|].actorId))
  {
    ReducedAuthority(s, e);
    CommonFrame(s, e);
    SpecificActors(Common(s, e).value, e);
    hide Valid, Common, ApplySpecific, Identity.ReduceIdentity, SameTail;
    if e.kind.ProvenanceAuthorized? {
      NewGrant(s.identity, e);
    }
  }

  // Nothing is removed, and every addition was granted by the self actor.
  ghost predicate OnlyGranted(before: Identity.IdentityState, after: Identity.IdentityState, events: seq<Event>) {
    && before.authorizations <= after.authorizations
    && after.selfActorId == before.selfActorId
    && forall i :: |before.authorizations| <= i < |after.authorizations| ==>
         GrantedBy(events, before.selfActorId, after.authorizations[i].actorId)
  }

  lemma OneGrant(s: BrainState, e: Event)
    requires Valid(s) && ReduceState(s, e).Ok?
    ensures OnlyGranted(s.identity, ReduceState(s, e).value.identity, [e])
  {
    ReducedAuthority(s, e);
    ReducedGrant(s, e);
    hide Valid, ReduceState, Grants, OnlyGranted;
    SingleGrant(s.identity, ReduceState(s, e).value.identity, e);
  }

  lemma SingleGrant(before: Identity.IdentityState, after: Identity.IdentityState, e: Event)
    requires before.authorizations <= after.authorizations && after.selfActorId == before.selfActorId
    requires after.authorizations == before.authorizations ||
             (|after.authorizations| == |before.authorizations| + 1 &&
              Grants(e, before.selfActorId, after.authorizations[|before.authorizations|].actorId))
    ensures OnlyGranted(before, after, [e])
  {
    hide Grants;
    assert [e][0] == e;
  }

  lemma GrantsCompose(a: Identity.IdentityState, b: Identity.IdentityState, c: Identity.IdentityState,
                      first: Event, rest: seq<Event>)
    requires OnlyGranted(a, b, [first]) && OnlyGranted(b, c, rest)
    ensures OnlyGranted(a, c, [first] + rest)
  {
    hide Grants;
    var events := [first] + rest;
    forall i | |a.authorizations| <= i < |c.authorizations|
      ensures GrantedBy(events, a.selfActorId, c.authorizations[i].actorId)
    {
      if i < |b.authorizations| {
        assert b.authorizations[i] == c.authorizations[i];
        assert GrantedBy([first], a.selfActorId, b.authorizations[i].actorId);
        assert Grants(events[0], a.selfActorId, c.authorizations[i].actorId);
      } else {
        assert GrantedBy(rest, a.selfActorId, c.authorizations[i].actorId);
        var k :| 0 <= k < |rest| && Grants(rest[k], a.selfActorId, c.authorizations[i].actorId);
        assert events[k + 1] == rest[k];
      }
    }
  }

  // Authorizations are never removed, and each one that a run adds was
  // granted in it by the self actor.
  lemma {:induction false} RunGrants(s: BrainState, events: seq<Event>)
    requires Inv(s) && ReduceMany(s, events).Ok?
    ensures OnlyGranted(s.identity, ReduceMany(s, events).value.identity, events)
    decreases |events|
  {
    hide Inv, ReduceState, GrantedBy, OnlyGranted, Valid;
    if events == [] {
      NothingGranted(s.identity);
    } else {
      var t := ReduceState(s, events[0]).value;
      ReductionKeepsInv(s, events[0]);
      InvIsValid(s);
      OneGrant(s, events[0]);
      RunGrants(t, events[1..]);
      GrantsCompose(s.identity, t.identity, ReduceMany(t, events[1..]).value.identity, events[0], events[1..]);
      assert events == [events[0]] + events[1..];
    }
  }

  lemma NothingGranted(i: Identity.IdentityState)
    ensures OnlyGranted(i, i, [])
  {
    hide GrantedBy;
  }

  /* ---------------- confirmed effects ---------------- */

  lemma {:induction false} PrefixAccepted(s: BrainState, events: seq<Event>, k: nat)
    requires k <= |events| && ReduceMany(s, events).Ok?
    ensures ReduceMany(s, events[..k]).Ok?
  {
    hide ReduceState;
    ReduceManyConcat(s, events[..k], events[k..]);
    assert events == events[..k] + events[k..];
  }

  // Event k of the run is a receipt for the action, came from a trusted
  // source at that point, and links at least one observation.
  ghost predicate ConfirmsAt(s: BrainState, events: seq<Event>, k: nat, id: Text)
    requires ReduceMany(s, events).Ok? && k < |events|
  {
    PrefixAccepted(s, events, k);
    && events[k].kind.ActionReceipt?
    && Actions.ActionIdOf(events[k]) == Ok(id)
    && Trusted(ReduceMany(s, events[..k]).value, events[k])
    && Actions.GroundedIds(events[k].payload, true).Ok?
    && Actions.GroundedIds(events[k].payload, true).value != {}
  }

  // An entry of a log comes from the logs at the start or from the run.
  ghost predicate LoggedAt(s: BrainState, events: seq<Event>, k: nat, id: Text, x: H.Evidence)
    requires ReduceMany(s, events).Ok? && k < |events|
  {
    PrefixAccepted(s, events, k);
    && x == H.Evidence(events[k], Trusted(ReduceMany(s, events[..k]).value, events[k]))
    && events[k].kind.ActionReceipt? && Actions.ActionIdOf(events[k]) == Ok(id)
  }

  lemma LaterLogged(s: BrainState, events: seq<Event>, k: nat, id: Text, x: H.Evidence)
    requires events != [] && ReduceMany(s, events).Ok? && k < |events| - 1
    requires LoggedAt(ReduceState(s, events[0]).value, events[1..], k, id, x)
    ensures LoggedAt(s, events, k + 1, id, x)
  {
    hide ReduceState, Trusted, Actions.ActionIdOf;
    var t := ReduceState(s, events[0]).value;
    assert events[..k + 1][0] == events[0] && events[..k + 1][1..] == events[1..][..k];
    PrefixAccepted(s, events, k + 1);
    PrefixAccepted(t, events[1..], k);
  }

  lemma TrackedEntry(logs: Logs, s: BrainState, e: Event, id: Text, x: H.Evidence)
    requires id in Track(logs, s, e) && x in Track(logs, s, e)[id]
    ensures (id in logs && x in logs[id]) ||
            (x == H.Evidence(e, Trusted(s, e)) && e.kind.ActionReceipt? && Actions.ActionIdOf(e) == Ok(id))
  {
    hide Trusted, Actions.ActionIdOf;
  }

  lemma {:induction false} EntriesComeFromTheRun(s: BrainState, events: seq<Event>, logs: Logs, id: Text, x: H.Evidence)
    requires ReduceMany(s, events).Ok?
    requires id in TrackMany(logs, s, events) && x in TrackMany(logs, s, events)[id]
    ensures (id in logs && x in logs[id]) || exists k :: 0 <= k < |events| && LoggedAt(s, events, k, id, x)
    decreases |events|
  {
    hide ReduceState, Track, Trusted, LoggedAt;
    if events != [] {
      var t := ReduceState(s, events[0]).value;
      var now := Track(logs, s, events[0]);
      EntriesComeFromTheRun(t, events[1..], now, id, x);
      if id in now && x in now[id] {
        TrackedEntry(logs, s, events[0], id, x);
        if !(id in logs && x in logs[id]) {
          FirstLogged(s, events, id, x);
        }
      } else {
        var k :| 0 <= k < |events[1..]| && LoggedAt(t, events[1..], k, id, x);
        LaterLogged(s, events, k, id, x);
      }
    }
  }

  lemma FirstLogged(s: BrainState, events: seq<Event>, id: Text, x: H.Evidence)
    requires events != [] && ReduceMany(s, events).Ok?
    requires x == H.Evidence(events[0], Trusted(s, events[0])) && events[0].kind.ActionReceipt? &&
             Actions.ActionIdOf(events[0]) == Ok(id)
    ensures LoggedAt(s, events, 0, id, x)
  {
    hide ReduceState, Trusted, Actions.ActionIdOf;
    assert events[..0] == [];
  }

  lemma ConfirmedEntry(a: Actions.ActionRecord, log: seq<H.Evidence>) returns (x: H.Evidence)
    requires H.Accounts(a, log) && a.effectConfirmed == Some(true)
    ensures x in log && H.Grounded(x) != {}
  {
    var i :| 0 <= i < |log| && H.Grounded(log[i]) != {};
    x := log[i];
  }

  lemma GroundedEntry(x: H.Evidence)
    requires H.Grounded(x) != {}
    ensures x.trusted && Actions.GroundedIds(x.event.payload, true).Ok?
    ensures Actions.GroundedIds(x.event.payload, true).value != {}
  {
  }

  // An effect is confirmed only by a receipt of that action whose source was
  // trusted when it was reduced and which links observations it carries.
  lemma EffectNeedsTrustedReceipt(brainId: Text, events: seq<Event>, i: nat)
    requires ReduceMany(Genesis(brainId), events).Ok?
    requires i < |ReduceMany(Genesis(brainId), events).value.actions|
    requires ReduceMany(Genesis(brainId), events).value.actions[i].effectConfirmed == Some(true)
    ensures exists k :: 0 <= k < |events| &&
              ConfirmsAt(Genesis(brainId), events, k, ReduceMany(Genesis(brainId), events).value.actions[i].actionId)
  {
    ReachableTracked(brainId, events);
    hide ReduceMany, TrackMany, H.Lifecycle, H.Accounts, H.Grounded, Trusted, Actions.GroundedIds, Actions.ActionIdOf;
    var s := Genesis(brainId);
    var a := ReduceMany(s, events).value.actions[i];
    var logs := TrackMany(map[], s, events);
    assert Follows(a, logs);
    var x := ConfirmedEntry(a, logs[a.actionId]);
    EntriesComeFromTheRun(s, events, map[], a.actionId, x);
    var k :| 0 <= k < |events| && LoggedAt(s, events, k, a.actionId, x);
    GroundedEntry(x);
    assert ConfirmsAt(s, events, k, a.actionId);
  }
}
