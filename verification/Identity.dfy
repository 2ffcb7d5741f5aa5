// The self/world actor boundary and provenance authority (core/identity.py).
module Identity {
  import opened Prelude
  import opened Values
  import opened Limits
  import Keyed

  datatype ActorKind = SelfActor | Human | ExternalAgent | ToolAdapter | SystemActor

  datatype ActorRecord = ActorRecord(
    actorId: Text,
    kind: ActorKind,
    displayName: Option<Text>,
    parentActorId: Option<Text>,
    attributes: Payload)

  datatype Authorization = Authorization(actorId: Text, adapterId: Option<Text>)

  datatype IdentityState = IdentityState(
    selfActorId: Text,
    name: Option<Text>,
    actors: seq<ActorRecord>,
    authorizations: seq<Authorization>)

  function KindOf(j: Json): Option<ActorKind> {
    if j == Str(SELF) then Some(SelfActor)
    else if j == Str(HUMAN) then Some(Human)
    else if j == Str(EXTERNAL_AGENT) then Some(ExternalAgent)
    else if j == Str(TOOL_ADAPTER) then Some(ToolAdapter)
    else if j == Str(SYSTEM) then Some(SystemActor)
    else None
  }

  // IdentityState._exact_self_actor_boundary: one record carries the self id,
  // one record is of the self kind, and they are the same record.
  ghost predicate SelfBoundary(s: IdentityState) {
    exists i :: 0 <= i < |s.actors| && SoleSelf(s, i)
  }

  ghost predicate SoleSelf(s: IdentityState, i: nat)
    requires i < |s.actors|
  {
    && s.actors[i].actorId == s.selfActorId && s.actors[i].kind.SelfActor?
    && forall j :: 0 <= j < |s.actors| && j != i ==>
         s.actors[j].actorId != s.selfActorId && !s.actors[j].kind.SelfActor?
  }

  function Genesis(brainId: Text): IdentityState {
    IdentityState(brainId, None, [ActorRecord(brainId, SelfActor, None, None, map[])], [])
  }

  function Id(a: ActorRecord): Text {
    a.actorId
  }

  // is_authorized: the self actor, or an exact actor/adapter pair in the state.
  predicate IsAuthorized(s: IdentityState, actorId: Text, adapterId: Option<Text>) {
    actorId == s.selfActorId || Authorization(actorId, adapterId) in s.authorizations
  }

  function ParseActor(p: Payload): Option<ActorRecord> {
    var id := GetText(p, ACTOR_ID);
    var kind := KindOf(Get(p, KIND));
    var display := Get(p, DISPLAY_NAME);
    var parent := Get(p, PARENT_ACTOR_ID);
    var attributes := GetOr(p, ATTRIBUTES, Obj(map[]));
    if id.None? || kind.None? || !OptionalText(display) || !OptionalText(parent) || !attributes.Obj?
    then None
    else if display.Str? && Blank(display.t) then None
    else Some(ActorRecord(id.value, kind.value, AsOption(display), AsOption(parent), attributes.fields))
  }

  function RegisterActor(s: IdentityState, e: Event): Result<IdentityState> {
    var parsed := ParseActor(e.payload);
    if parsed.None? then Err(Invariant)
    else
      var actor := parsed.value;
      if actor.actorId == s.selfActorId && !actor.kind.SelfActor? then Err(Invariant)
      else if actor.kind.SelfActor? && actor.actorId != s.selfActorId then Err(Invariant)
      else if actor.parentActorId == Some(actor.actorId) then Err(Invariant)
      else if !Keyed.Has(Id, s.actors, actor.actorId) && |s.actors| >= MAX_IDENTITY_ACTORS then Err(Capacity)
      else Ok(s.(actors := Keyed.Upsert(Id, s.actors, actor)))
  }

  function AuthorizeProvenance(s: IdentityState, e: Event): Result<IdentityState> {
    if e.actorId != s.selfActorId then Err(Invariant)
    else
      var id := GetText(e.payload, ACTOR_ID);
      var adapter := Get(e.payload, ADAPTER_ID);
      if id.None? || !OptionalText(adapter) || (adapter.Str? && Empty(adapter.t)) then Err(Invariant)
      else
        var authorization := Authorization(id.value, AsOption(adapter));
        if authorization in s.authorizations then Ok(s)
        else if |s.authorizations| >= MAX_PROVENANCE_AUTHORIZATIONS then Err(Capacity)
        else Ok(s.(authorizations := s.authorizations + [authorization]))
  }

  // reduce_identity
  function ReduceIdentity(s: IdentityState, e: Event): Result<IdentityState> {
    match e.kind
    case IdentityNamed =>
      var name := Get(e.payload, NAME);
      if !name.Str? || Blank(name.t) then Err(Invariant) else Ok(s.(name := Some(name.t)))
    case ActorRegistered => RegisterActor(s, e)
    case ProvenanceAuthorized => AuthorizeProvenance(s, e)
    case _ => Ok(s)
  }

  /* ---------------- what reduction keeps ---------------- */

  // The boundary, said without positions: one record carries the self id,
  // and self records are exactly those that carry it.
  ghost predicate OneSelf(s: IdentityState) {
    && Keyed.Count(Id, s.actors, s.selfActorId) == 1
    && forall x :: x in s.actors ==> (x.kind.SelfActor? <==> x.actorId == s.selfActorId)
  }

  lemma OneSelfIsBoundary(s: IdentityState)
    ensures OneSelf(s) <==> SelfBoundary(s)
  {
    hide Keyed.Count;
    if OneSelf(s) {
      var i := Keyed.CountFindsSole(Id, s.actors, s.selfActorId);
      assert forall j :: 0 <= j < |s.actors| ==> s.actors[j] in s.actors;
      assert SoleSelf(s, i);
    }
    if SelfBoundary(s) {
      var i :| 0 <= i < |s.actors| && SoleSelf(s, i);
      Keyed.SoleCounts(Id, s.actors, s.selfActorId, i);
    }
  }

  // How many records an accepted registration replaces.
  function Replaced(s: IdentityState, e: Event): nat {
    if !e.kind.ActorRegistered? then 0
    else
      var parsed := ParseActor(e.payload);
      if parsed.None? then 0 else Keyed.Count(Id, s.actors, parsed.value.actorId)
  }

  lemma RegisteredActor(s: IdentityState, e: Event)
    requires e.kind.ActorRegistered? && OneSelf(s) && ReduceIdentity(s, e).Ok?
    ensures var r := ReduceIdentity(s, e).value;
            && OneSelf(r) && |r.actors| == |s.actors| - Replaced(s, e) + 1
            && (|s.actors| <= MAX_IDENTITY_ACTORS ==> |r.actors| <= MAX_IDENTITY_ACTORS)
            && (Keyed.Unique(Id, s.actors) ==> Keyed.Unique(Id, r.actors))
  {
    var actor := ParseActor(e.payload).value;
    hide ParseActor, Keyed.Upsert, Keyed.Count, Keyed.Unique, Keyed.Has;
    Keyed.CountUpsert(Id, s.actors, actor, s.selfActorId);
    Keyed.UpsertElements(Id, s.actors, actor);
    Keyed.CountHas(Id, s.actors, actor.actorId);
    if Keyed.Unique(Id, s.actors) {
      Keyed.UpsertUnique(Id, s.actors, actor);
    }
  }

  // An accepted event keeps the actor boundary, never drops an authorization,
  // and adds one only when the self actor authored it.
  lemma IdentityKept(s: IdentityState, e: Event)
    requires SelfBoundary(s) && ReduceIdentity(s, e).Ok?
    ensures var r := ReduceIdentity(s, e).value;
            && SelfBoundary(r) && r.selfActorId == s.selfActorId
            && |r.actors| == (if e.kind.ActorRegistered? then |s.actors| - Replaced(s, e) + 1 else |s.actors|)
            && (|s.actors| <= MAX_IDENTITY_ACTORS ==> |r.actors| <= MAX_IDENTITY_ACTORS)
            && (Keyed.Unique(Id, s.actors) ==> Keyed.Unique(Id, r.actors))
            && |s.authorizations| <= |r.authorizations| <= |s.authorizations| + 1
            && (|s.authorizations| <= MAX_PROVENANCE_AUTHORIZATIONS ==>
                  |r.authorizations| <= MAX_PROVENANCE_AUTHORIZATIONS)
            && s.authorizations <= r.authorizations
            && (r.authorizations != s.authorizations ==>
                  e.kind.ProvenanceAuthorized? && e.actorId == s.selfActorId)
  {
    var r := ReduceIdentity(s, e).value;
    OneSelfIsBoundary(s);
    OneSelfIsBoundary(r);
    hide SelfBoundary, Keyed.Unique, Keyed.Count, ParseActor, Get, GetText;
    if e.kind.ActorRegistered? {
      RegisteredActor(s, e);
      hide Replaced, OneSelf, Keyed.Upsert, Keyed.Has;
    } else {
      hide RegisterActor;
    }
  }
}
