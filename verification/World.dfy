// The four-layer world model (core/world.py).
module World {
  import opened Prelude
  import opened Values
  import opened Limits
  import Keyed

  datatype WorldLayer = Observed | Believed | Simulated | Ideal

  datatype WorldProposition = WorldProposition(
    propositionId: Text,
    content: Payload,
    layer: WorldLayer,
    sourceEventId: Text,
    sourceActorId: Text,
    actionId: Option<Text>,
    confidence: real)

  type Propositions = seq<WorldProposition>

  datatype WorldModel = WorldModel(
    observed: Propositions, believed: Propositions, simulated: Propositions, ideal: Propositions)
  {
    function Get(layer: WorldLayer): Propositions {
      match layer
      case Observed => observed
      case Believed => believed
      case Simulated => simulated
      case Ideal => ideal
    }

    function Set(layer: WorldLayer, items: Propositions): WorldModel {
      match layer
      case Observed => this.(observed := items)
      case Believed => this.(believed := items)
      case Simulated => this.(simulated := items)
      case Ideal => this.(ideal := items)
    }
  }

  function Id(p: WorldProposition): Text {
    p.propositionId
  }

  // _EVENT_LAYERS
  function LayerOf(kind: EventType): Option<WorldLayer> {
    match kind
    case ObservationRecorded => Some(Observed)
    case BeliefUpdated => Some(Believed)
    case SimulationCreated => Some(Simulated)
    case IdealUpdated => Some(Ideal)
    case _ => None
  }

  predicate ValidProposition(p: WorldProposition) {
    !Blank(p.propositionId) && 0.0 <= p.confidence <= 1.0
  }

  predicate ValidLayer(items: Propositions) {
    && |items| <= MAX_WORLD_PROPOSITIONS_PER_LAYER
    && forall i :: 0 <= i < |items| ==> ValidProposition(items[i])
  }

  function Proposition(e: Event, item: Payload, layer: WorldLayer, actionId: Option<Text>)
    : (r: Result<WorldProposition>)
    ensures r.Ok? ==> ValidProposition(r.value) && r.value.sourceActorId == e.actorId
  {
    var id := GetText(item, PROPOSITION_ID);
    var content := GetObj(item, CONTENT);
    var confidence := GetOr(item, CONFIDENCE, Float(1.0));
    if id.None? || Blank(id.value) || content.None? || !IsNumber(confidence) ||
       !(0.0 <= Number(confidence) <= 1.0) then Err(Invariant)
    else Ok(WorldProposition(id.value, content.value, layer, e.eventId, e.actorId, actionId,
                             Number(confidence)))
  }

  // _upsert: replace by id, append, keep the newest.
  function Upsert(items: Propositions, p: WorldProposition): (r: Propositions)
    ensures |r| <= MAX_WORLD_PROPOSITIONS_PER_LAYER
  {
    KeepLast(Keyed.Upsert(Id, items, p), MAX_WORLD_PROPOSITIONS_PER_LAYER)
  }

  // The loop over a receipt's observations: only grounded ids are promoted.
  function Promote(observed: Propositions, e: Event, items: seq<Json>, actionId: Option<Text>,
                   grounded: set<Text>): Result<Propositions>
    decreases |items|
  {
    if items == [] then Ok(observed)
    else
      var item := items[0];
      if !item.Obj? then Promote(observed, e, items[1..], actionId, grounded)
      else
        var id := Get(item.fields, PROPOSITION_ID);
        if !id.Str? || id.t !in grounded then Promote(observed, e, items[1..], actionId, grounded)
        else
          var p :- Proposition(e, item.fields, Observed, actionId);
          Promote(Upsert(observed, p), e, items[1..], actionId, grounded)
  }

  // An event whose type fixes the layer of the proposition it carries.
  function Place(w: WorldModel, e: Event, layer: WorldLayer, trusted: bool): Result<WorldModel> {
    if layer.Observed? && !trusted then Ok(w)
    else
      var p :- Proposition(e, e.payload, layer, None);
      Ok(w.Set(layer, Upsert(w.Get(layer), p)))
  }

  function Ground(observed: Propositions, e: Event, grounded: set<Text>): Result<Propositions> {
    var observations := GetOr(e.payload, OBSERVATIONS, Arr([]));
    if !observations.Arr? then Err(Invariant)
    else
      var action := Get(e.payload, ACTION_ID);
      Promote(observed, e, observations.items, if action.Str? then Some(action.t) else None, grounded)
  }

  // reduce_world
  function ReduceWorld(w: WorldModel, e: Event, trusted: bool, grounded: set<Text>): Result<WorldModel> {
    var layer := LayerOf(e.kind);
    if layer.Some? then Place(w, e, layer.value, trusted)
    else if e.kind.ActionReceipt? && grounded != {} then
      var observed :- Ground(w.observed, e, grounded);
      Ok(w.(observed := observed))
    else Ok(w)
  }

  /* ---------------- what reduction keeps ---------------- */

  // Every proposition of `after` was in `before` or is attributed to `actor`.
  ghost predicate GrownBy(before: Propositions, after: Propositions, actor: Text) {
    forall x :: x in after ==> x in before || x.sourceActorId == actor
  }

  lemma UpsertKeeps(items: Propositions, p: WorldProposition)
    requires ValidLayer(items) && ValidProposition(p)
    ensures ValidLayer(Upsert(items, p))
    ensures GrownBy(items, Upsert(items, p), p.sourceActorId)
  {
    Keyed.UpsertElements(Id, items, p);
    var r := Upsert(items, p);
    forall x | x in r ensures x == p || x in items {
      assert x in Keyed.Upsert(Id, items, p);
    }
    forall i | 0 <= i < |r| ensures ValidProposition(r[i]) {
      assert r[i] in r;
    }
  }

  lemma PromoteKeeps(observed: Propositions, e: Event, items: seq<Json>, actionId: Option<Text>,
                     grounded: set<Text>)
    requires ValidLayer(observed)
    ensures var r := Promote(observed, e, items, actionId, grounded);
            r.Ok? ==> ValidLayer(r.value) && GrownBy(observed, r.value, e.actorId)
    decreases |items|
  {
    if items != [] && items[0].Obj? {
      var id := Get(items[0].fields, PROPOSITION_ID);
      var p := Proposition(e, items[0].fields, Observed, actionId);
      if id.Str? && id.t in grounded && p.Ok? {
        UpsertKeeps(observed, p.value);
        PromoteKeeps(Upsert(observed, p.value), e, items[1..], actionId, grounded);
      } else {
        PromoteKeeps(observed, e, items[1..], actionId, grounded);
      }
    } else if items != [] {
      PromoteKeeps(observed, e, items[1..], actionId, grounded);
    }
  }

  lemma GroundKeeps(observed: Propositions, e: Event, grounded: set<Text>)
    requires ValidLayer(observed) && Ground(observed, e, grounded).Ok?
    ensures ValidLayer(Ground(observed, e, grounded).value)
    ensures GrownBy(observed, Ground(observed, e, grounded).value, e.actorId)
  {
    var action := Get(e.payload, ACTION_ID);
    PromoteKeeps(observed, e, GetOr(e.payload, OBSERVATIONS, Arr([])).items,
                 if action.Str? then Some(action.t) else None, grounded);
  }

  lemma PlaceKeeps(w: WorldModel, e: Event, layer: WorldLayer, trusted: bool, at: WorldLayer)
    requires ValidLayer(w.Get(at)) && Place(w, e, layer, trusted).Ok?
    ensures ValidLayer(Place(w, e, layer, trusted).value.Get(at))
    ensures GrownBy(w.Get(at), Place(w, e, layer, trusted).value.Get(at), e.actorId)
  {
    if layer == at && (trusted || !layer.Observed?) {
      UpsertKeeps(w.Get(at), Proposition(e, e.payload, at, None).value);
    }
  }

  // Reduction keeps every layer bounded and well formed, adds only
  // propositions attributed to the event's own actor, and lets only trusted
  // events touch the observed layer.
  lemma WorldKept(w: WorldModel, e: Event, trusted: bool, grounded: set<Text>, at: WorldLayer)
    requires ValidLayer(w.Get(at))
    requires ReduceWorld(w, e, trusted, grounded).Ok?
    requires grounded != {} ==> trusted
    ensures var r := ReduceWorld(w, e, trusted, grounded).value;
            && ValidLayer(r.Get(at))
            && GrownBy(w.Get(at), r.Get(at), e.actorId)
            && (r.observed != w.observed ==> trusted)
  {
    var layer := LayerOf(e.kind);
    if layer.Some? {
      PlaceKeeps(w, e, layer.value, trusted, at);
    } else if e.kind.ActionReceipt? && grounded != {} && at.Observed? {
      GroundKeeps(w.observed, e, grounded);
    }
  }
}
