// Personality layers with their token buckets, and action-indexed energy
// vectors (core/personality.py).  Floats and decimals are exact reals.
module Personality {
  import opened Prelude
  import opened Values
  import opened Limits
  import Keyed

  datatype Layer = Traits | Adaptations | NarrativeIdeal

  datatype Layers<T> = Layers(traits: T, adaptations: T, narrativeIdeal: T) {
    function Get(layer: Layer): T {
      match layer
      case Traits => traits
      case Adaptations => adaptations
      case NarrativeIdeal => narrativeIdeal
    }

    function Set(layer: Layer, value: T): Layers<T> {
      match layer
      case Traits => this.(traits := value)
      case Adaptations => this.(adaptations := value)
      case NarrativeIdeal => this.(narrativeIdeal := value)
    }
  }

  type LayerValues = map<Text, real>

  function Size(v: LayerValues): nat {
    |v|
  }

  // LayerRateState: a token bucket in logical time.
  datatype Bucket = Bucket(clock: real, available: real, capacity: real, refill: real)

  datatype PersonalityControl = PersonalityControl(values: Layers<LayerValues>, rates: Layers<Bucket>)

  // _RATE_POLICIES: capacity, and tokens refilled per logical second.
  function PolicyCapacity(layer: Layer): real {
    match layer
    case Traits => 0.05
    case Adaptations => 0.20
    case NarrativeIdeal => 0.10
  }

  function PolicyRefill(layer: Layer): real {
    match layer
    case Traits => 0.05
    case Adaptations => 0.20
    case NarrativeIdeal => 0.10
  }

  function LayerOf(j: Json): Option<Layer> {
    if j == Str(TRAITS) then Some(Traits)
    else if j == Str(ADAPTATIONS) then Some(Adaptations)
    else if j == Str(NARRATIVE_IDEAL) then Some(NarrativeIdeal)
    else None
  }

  predicate ValidBucket(b: Bucket) {
    0.0 <= b.clock && 0.0 <= b.available <= b.capacity && 0.0 < b.refill
  }

  predicate ValidValues(v: LayerValues) {
    forall k :: k in v ==> !Blank(k) && -1.0 <= v[k] <= 1.0
  }

  function NewBucket(layer: Layer): Bucket {
    Bucket(0.0, PolicyCapacity(layer), PolicyCapacity(layer), PolicyRefill(layer))
  }

  function NewPersonality(): PersonalityControl {
    PersonalityControl(Layers(map[], map[], map[]),
                       Layers(NewBucket(Traits), NewBucket(Adaptations), NewBucket(NarrativeIdeal)))
  }

  function Min(a: real, b: real): real {
    if a <= b then a else b
  }

  function Abs(x: real): real {
    if x < 0.0 then -x else x
  }

  // LayerRateState.advanced_to
  function AdvancedTo(b: Bucket, target: real): Result<Bucket> {
    if target < b.clock then Err(Invariant)
    else Ok(b.(clock := target,
               available := Min(b.capacity, b.available + (target - b.clock) * b.refill)))
  }

  // LayerRateState.consumed
  function Consumed(b: Bucket, amount: real): Result<Bucket> {
    if amount < 0.0 || amount > b.available then Err(Invariant)
    else Ok(b.(available := b.available - amount))
  }

  // What a bucket holds after some time: more by rate * time, up to its brim.
  function Refilled(held: real, time: real, brim: real, rate: real): real {
    if held + time * rate >= brim then brim else held + time * rate
  }

  lemma AdvancedBucket(b: Bucket, target: real)
    requires ValidBucket(b) && AdvancedTo(b, target).Ok?
    ensures var r := AdvancedTo(b, target).value;
            && ValidBucket(r) && r.clock == target && r.capacity == b.capacity && r.refill == b.refill
            && r.available == Refilled(b.available, target - b.clock, b.capacity, b.refill)
  {
    assert (target - b.clock) * b.refill >= 0.0;
  }

  lemma RevisedBucket(b: Bucket, target: real, amount: real)
    requires ValidBucket(b) && AdvancedTo(b, target).Ok?
    requires Consumed(AdvancedTo(b, target).value, amount).Ok?
    ensures var r := Consumed(AdvancedTo(b, target).value, amount).value;
            ValidBucket(r) && r.clock == target && r.capacity == b.capacity && r.refill == b.refill
  {
    AdvancedBucket(b, target);
    hide AdvancedTo;
  }

  // advance_personality_clock: every layer's bucket, on a clock event.
  function AdvanceClock(p: PersonalityControl, target: real): Result<PersonalityControl> {
    var traits :- AdvancedTo(p.rates.traits, target);
    var adaptations :- AdvancedTo(p.rates.adaptations, target);
    var narrative :- AdvancedTo(p.rates.narrativeIdeal, target);
    Ok(p.(rates := Layers(traits, adaptations, narrative)))
  }

  /* ---------------- revisions ---------------- */

  function At(v: LayerValues, key: Text): real {
    if key in v then v[key] else 0.0
  }

  // The total absolute change over a list of names.
  function Distance(keys: seq<Text>, before: LayerValues, after: LayerValues): (d: real)
    ensures d >= 0.0
  {
    if keys == [] then 0.0
    else Abs(At(after, keys[0]) - At(before, keys[0])) + Distance(keys[1..], before, after)
  }

  predicate RevisionValueOk(raw: Json) {
    IsNumber(raw) && -1.0 <= Number(raw) <= 1.0
  }

  predicate RevisionValuesOk(updates: Payload) {
    forall k :: k in updates ==> RevisionValueOk(updates[k])
  }

  function Merged(current: LayerValues, updates: Payload): LayerValues
    requires RevisionValuesOk(updates)
  {
    map k | k in current.Keys + updates.Keys :: if k in updates then Number(updates[k]) else current[k]
  }

  // The price of a revision: the summed absolute change of the named values.
  function RevisionCost(current: LayerValues, updates: Payload): (cost: real)
    requires RevisionValuesOk(updates)
    ensures cost >= 0.0
  {
    Distance(Sorted(updates.Keys), current, Merged(current, updates))
  }

  // One pass over the named updates, filling the merged layer and adding up
  // the changes; None at the first bad value.
  function Collect(keys: seq<Text>, current: LayerValues, updates: Payload,
                   merged: LayerValues, cost: real): Option<(LayerValues, real)>
    requires forall i :: 0 <= i < |keys| ==> keys[i] in updates
  {
    if keys == [] then Some((merged, cost))
    else
      var raw := updates[keys[0]];
      if !RevisionValueOk(raw) then None
      else Collect(keys[1..], current, updates, merged[keys[0] := Number(raw)],
                   cost + Abs(Number(raw) - At(current, keys[0])))
  }

  lemma {:induction false} CollectMeaning(keys: seq<Text>, current: LayerValues, updates: Payload,
                                          merged: LayerValues, cost: real)
    requires NoDuplicates(keys)
    requires forall i :: 0 <= i < |keys| ==> keys[i] in updates
    ensures var r := Collect(keys, current, updates, merged, cost);
            && (r.Some? <==> forall i :: 0 <= i < |keys| ==> RevisionValueOk(updates[keys[i]]))
            && (r.Some? ==>
                  && (forall k :: k in r.value.0 <==> k in merged || k in keys)
                  && (forall i :: 0 <= i < |keys| ==> r.value.0[keys[i]] == Number(updates[keys[i]]))
                  && (forall k :: k in merged && k !in keys ==> r.value.0[k] == merged[k])
                  && r.value.1 == cost + Distance(keys, current, r.value.0))
  {
    if keys != [] && RevisionValueOk(updates[keys[0]]) {
      var v := Number(updates[keys[0]]);
      CollectMeaning(keys[1..], current, updates, merged[keys[0] := v], cost + Abs(v - At(current, keys[0])));
      assert keys == [keys[0]] + keys[1..];
      assert keys[0] !in keys[1..];
    }
  }

  lemma CollectAll(current: LayerValues, updates: Payload, keys: seq<Text>)
    requires NoDuplicates(keys) && forall k :: k in updates <==> k in keys
    ensures var r := Collect(keys, current, updates, current, 0.0);
            && (r.Some? <==> RevisionValuesOk(updates))
            && (r.Some? ==> r.value.0 == Merged(current, updates) &&
                            r.value.1 == Distance(keys, current, r.value.0))
  {
    CollectMeaning(keys, current, updates, current, 0.0);
    var r := Collect(keys, current, updates, current, 0.0);
    if r.Some? {
      forall k | k in updates ensures r.value.0[k] == Number(updates[k]) {
        assert k in keys;
      }
      assert r.value.0 == Merged(current, updates);
    }
  }

  // The loop of reduce_personality; `keys` is the order in which the update
  // object is iterated.
  method CollectRevision(current: LayerValues, updates: Payload, keys: seq<Text>)
    returns (ok: bool, merged: LayerValues, cost: real)
    requires NoDuplicates(keys) && forall k :: k in updates <==> k in keys
    ensures ok == RevisionValuesOk(updates)
    ensures ok ==> merged == Merged(current, updates) && cost == Distance(keys, current, merged)
  {
    ok, merged, cost := true, current, 0.0;
    var rest := keys;
    while rest != []
      invariant forall i :: 0 <= i < |rest| ==> rest[i] in updates
      invariant Collect(keys, current, updates, current, 0.0) ==
                Collect(rest, current, updates, merged, cost)
      decreases |rest|
    {
      var raw := updates[rest[0]];
      if !RevisionValueOk(raw) {
        CollectAll(current, updates, keys);
        ok := false;
        return;
      }
      cost := cost + Abs(Number(raw) - At(current, rest[0]));
      merged := merged[rest[0] := Number(raw)];
      rest := rest[1..];
    }
    CollectAll(current, updates, keys);
  }

  // reduce_personality
  function ReducePersonality(p: PersonalityControl, e: Event, clock: real): Result<PersonalityControl> {
    if !e.kind.PersonalityRevised? then Ok(p)
    else
      var layer := LayerOf(Get(e.payload, LAYER));
      var values := Get(e.payload, VALUES);
      if layer.None? || !values.Obj? then Err(Invariant)
      else
        var current := p.values.Get(layer.value);
        var updates := values.fields;
        if |current.Keys + updates.Keys| > MAX_PERSONALITY_VALUES_PER_LAYER then Err(Capacity)
        else
          var bucket :- AdvancedTo(p.rates.Get(layer.value), clock);
          if !RevisionValuesOk(updates) then Err(Invariant)
          else
            var revised :- Consumed(bucket, RevisionCost(current, updates));
            var merged := Merged(current, updates);
            if exists k :: k in merged && Blank(k) then Err(Invariant)
            else Ok(PersonalityControl(p.values.Set(layer.value, merged),
                                       p.rates.Set(layer.value, revised)))
  }

  /* ---------------- energy vectors ---------------- */

  datatype EnergyVector = EnergyVector(
    actionId: Text,
    assessmentSource: Json,
    assessmentSummary: Json,
    provenance: Payload,
    evidenceBasis: Payload,
    unknownDimensions: seq<Text>,
    deficits: LayerValues,
    salience: real,
    urgency: real,
    valence: real,
    arousal: real,
    control: real,
    resources: real,
    cost: real,
    personalityRelevance: real)

  const ENERGY_DIMENSIONS: seq<Text> :=
    [DEFICITS, SALIENCE, URGENCY, VALENCE, AROUSAL, CONTROL, RESOURCES, COST, PERSONALITY_RELEVANCE]

  function EnergyId(v: EnergyVector): Text {
    v.actionId
  }

  // A required number field within bounds.
  function Bounded(p: Payload, key: Text, lower: real, upper: real): Option<real> {
    if key in p && IsNumber(p[key]) && lower <= Number(p[key]) <= upper then Some(Number(p[key])) else None
  }

  function EnergyFromEvent(e: Event): Result<EnergyVector> {
    var p := e.payload;
    var id := GetText(p, ACTION_ID);
    var source := Get(p, ASSESSMENT_SOURCE);
    var summary := Get(p, ASSESSMENT_SUMMARY);
    var provenance := GetOr(p, PROVENANCE, Obj(map[]));
    var basis := GetOr(p, EVIDENCE_BASIS, Obj(map[]));
    var unknown := GetOr(p, UNKNOWN_DIMENSIONS, TextArray(ENERGY_DIMENSIONS));
    var deficits := GetOr(p, DEFICITS, Obj(map[]));
    var salience := Bounded(p, SALIENCE, 0.0, 1.0);
    var urgency := Bounded(p, URGENCY, 0.0, 1.0);
    var valence := Bounded(p, VALENCE, -1.0, 1.0);
    var arousal := Bounded(p, AROUSAL, -1.0, 1.0);
    var control := Bounded(p, CONTROL, 0.0, 1.0);
    var resources := Bounded(p, RESOURCES, 0.0, 1.0);
    var cost := Bounded(p, COST, 0.0, 1.0);
    var relevance := Bounded(p, PERSONALITY_RELEVANCE, 0.0, 1.0);
    if id.None? || !OptionalText(source) || !OptionalText(summary) || !provenance.Obj? ||
       !basis.Obj? || !IsTextArray(unknown) || !deficits.Obj? then Err(Invariant)
    else if salience.None? || urgency.None? || valence.None? || arousal.None? || control.None? ||
            resources.None? || cost.None? || relevance.None? then Err(Invariant)
    else if |provenance.fields| > 32 then Err(Invariant)
    else if exists k :: k in deficits.fields &&
              (Blank(k) || !IsNumber(deficits.fields[k]) || !(0.0 <= Number(deficits.fields[k]) <= 1.0))
    then Err(Invariant)
    else if exists k :: k in basis.fields &&
              (!basis.fields[k].Str? || Blank(basis.fields[k].t) || LongerThan(basis.fields[k].t, 512))
    then Err(Invariant)
    else
      var unknownDimensions := Texts(unknown);
      // every dimension is either evidenced or unknown, never both
      if !NoDuplicates(unknownDimensions) ||
         (exists i :: 0 <= i < |unknownDimensions| &&
            (unknownDimensions[i] !in ENERGY_DIMENSIONS || unknownDimensions[i] in basis.fields)) ||
         (exists k :: k in basis.fields && k !in ENERGY_DIMENSIONS) ||
         (exists i :: 0 <= i < |ENERGY_DIMENSIONS| &&
            ENERGY_DIMENSIONS[i] !in basis.fields && ENERGY_DIMENSIONS[i] !in unknownDimensions)
      then Err(Invariant)
      else Ok(EnergyVector(
             id.value, source, summary, provenance.fields, basis.fields, unknownDimensions,
             map k | k in deficits.fields :: Number(deficits.fields[k]),
             salience.value, urgency.value, valence.value, arousal.value, control.value,
             resources.value, cost.value, relevance.value))
  }

  // The exact neutral vector that a legacy reassessment may replace.
  predicate LegacyNeutral(v: EnergyVector) {
    && v.assessmentSource.Null? && v.assessmentSummary.Null?
    && v.provenance == map[] && v.evidenceBasis == map[]
    && v.unknownDimensions == ENERGY_DIMENSIONS && v.deficits == map[]
    && v.salience == 0.5 && v.urgency == 0.5 && v.valence == 0.0 && v.arousal == 0.0
    && v.control == 0.5 && v.resources == 0.5 && v.cost == 0.5 && v.personalityRelevance == 0.5
  }

  function Total(keys: seq<Text>, v: LayerValues): real {
    if keys == [] then 0.0 else At(v, keys[0]) + Total(keys[1..], v)
  }

  function MeanDeficit(v: EnergyVector): real {
    if v.deficits == map[] then 0.0
    else Total(Sorted(v.deficits.Keys), v.deficits) / (|v.deficits.Keys| as real)
  }

  function RawActivation(v: EnergyVector): real {
    0.18 * MeanDeficit(v) + 0.15 * v.salience + 0.15 * v.urgency + 0.10 * Abs(v.arousal)
    + 0.10 * v.control + 0.10 * v.resources - 0.10 * v.cost
    + 0.12 * v.personalityRelevance + 0.05 * ((v.valence + 1.0) / 2.0)
  }

  // EnergyVector.activation, before its rounding to twelve digits.
  function Activation(v: EnergyVector): (a: real)
    ensures 0.0 <= a <= 1.0
  {
    Clamp(RawActivation(v))
  }

  // The bounds of the dimensions, as an accepted assessment has them.
  predicate Dimensioned(v: EnergyVector) {
    && (forall k :: k in v.deficits ==> 0.0 <= v.deficits[k] <= 1.0)
    && 0.0 <= v.salience <= 1.0 && 0.0 <= v.urgency <= 1.0 && -1.0 <= v.valence <= 1.0 && -1.0 <= v.arousal <= 1.0
    && 0.0 <= v.control <= 1.0 && 0.0 <= v.resources <= 1.0 && 0.0 <= v.cost <= 1.0
    && 0.0 <= v.personalityRelevance <= 1.0
  }

  lemma AcceptedDimensions(e: Event)
    requires EnergyFromEvent(e).Ok?
    ensures Dimensioned(EnergyFromEvent(e).value)
  {
    hide Blank, LongerThan, NoDuplicates;
  }

  lemma {:induction false} TotalBounds(keys: seq<Text>, v: LayerValues)
    requires forall k :: k in v ==> 0.0 <= v[k] <= 1.0
    ensures 0.0 <= Total(keys, v) <= |keys| as real
  {
    if keys != [] {
      TotalBounds(keys[1..], v);
    }
  }

  lemma MeanBounds(v: EnergyVector)
    requires Dimensioned(v)
    ensures 0.0 <= MeanDeficit(v) <= 1.0
  {
    if v.deficits == map[] {
      NoDeficit(v);
    } else {
      assert forall k :: k in v.deficits ==> 0.0 <= v.deficits[k] <= 1.0;
      hide *;
      MeanIs(v);
      TotalBounds(Sorted(v.deficits.Keys), v.deficits);
      Fraction(Total(Sorted(v.deficits.Keys), v.deficits), |v.deficits.Keys|);
    }
  }

  lemma Fraction(total: real, n: nat)
    requires n > 0 && 0.0 <= total <= n as real
    ensures 0.0 <= total / (n as real) <= 1.0
  {
  }

  // An accepted assessment never reaches the upper bound: its activation is
  // the weighted sum, or nothing when the cost outweighs the rest.
  lemma ActivationExact(v: EnergyVector)
    requires Dimensioned(v)
    ensures Activation(v) <= 0.95
    ensures Activation(v) == if RawActivation(v) <= 0.0 then 0.0 else RawActivation(v)
  {
    MeanBounds(v);
    hide MeanDeficit;
  }

  // By how much each dimension counts.
  lemma ActivationWeights(v: EnergyVector, d: real)
    ensures RawActivation(v.(salience := v.salience + d)) == RawActivation(v) + 0.15 * d
    ensures RawActivation(v.(urgency := v.urgency + d)) == RawActivation(v) + 0.15 * d
    ensures RawActivation(v.(control := v.control + d)) == RawActivation(v) + 0.10 * d
    ensures RawActivation(v.(resources := v.resources + d)) == RawActivation(v) + 0.10 * d
    ensures RawActivation(v.(cost := v.cost + d)) == RawActivation(v) - 0.10 * d
    ensures RawActivation(v.(personalityRelevance := v.personalityRelevance + d)) == RawActivation(v) + 0.12 * d
    ensures RawActivation(v.(valence := v.valence + d)) == RawActivation(v) + 0.025 * d
    ensures RawActivation(v.(arousal := -v.arousal)) == RawActivation(v)
    ensures v.arousal >= 0.0 && d >= 0.0 ==> RawActivation(v.(arousal := v.arousal + d)) == RawActivation(v) + 0.10 * d
  {
    hide Total;
  }

  // The deficits count by their mean: as one if all are equal, and nothing if
  // there are none.
  lemma {:induction false} EqualTotal(keys: seq<Text>, values: LayerValues, x: real)
    requires forall i :: 0 <= i < |keys| ==> keys[i] in values && values[keys[i]] == x
    ensures Total(keys, values) == (|keys| as real) * x
  {
    if keys != [] {
      EqualTotal(keys[1..], values, x);
    }
  }

  lemma DeficitsCount(v: EnergyVector, x: real)
    requires v.deficits != map[] && forall k :: k in v.deficits ==> v.deficits[k] == x
    ensures RawActivation(v) == RawActivation(v.(deficits := map[])) + 0.18 * x
  {
    MeanEqual(v, x);
    NoDeficit(v.(deficits := map[]));
    hide MeanDeficit;
  }

  lemma MeanEqual(v: EnergyVector, x: real)
    requires v.deficits != map[] && forall k :: k in v.deficits ==> v.deficits[k] == x
    ensures MeanDeficit(v) == x
  {
    hide *;
    MeanIs(v);
    EqualTotal(Sorted(v.deficits.Keys), v.deficits, x);
    Quotient(Total(Sorted(v.deficits.Keys), v.deficits), |v.deficits.Keys|, x);
  }

  lemma MeanIs(v: EnergyVector)
    requires v.deficits != map[]
    ensures var n := |v.deficits.Keys|;
            n > 0 && |Sorted(v.deficits.Keys)| == n &&
            MeanDeficit(v) == Total(Sorted(v.deficits.Keys), v.deficits) / (n as real)
  {
    assert v.deficits.Keys != {};
    hide Total, Sorted;
  }

  lemma Quotient(total: real, n: nat, x: real)
    requires n > 0 && total == (n as real) * x
    ensures total / (n as real) == x
  {
  }

  // More of anything but cost never lowers the activation.
  lemma ActivationMonotone(v: EnergyVector, w: EnergyVector)
    requires MeanDeficit(v) <= MeanDeficit(w) && v.salience <= w.salience && v.urgency <= w.urgency
    requires Abs(v.arousal) <= Abs(w.arousal) && v.control <= w.control && v.resources <= w.resources
    requires v.cost >= w.cost && v.personalityRelevance <= w.personalityRelevance && v.valence <= w.valence
    ensures Activation(v) <= Activation(w)
  {
    hide MeanDeficit, Abs;
  }

  // The neutral vector, and the ends of the scale.
  lemma ActivationEnds(v: EnergyVector)
    requires Dimensioned(v)
    ensures LegacyNeutral(v) ==> Activation(v) == 0.285
    ensures Activation(v) == 0.95 <==>
              MeanDeficit(v) == 1.0 && v.salience == 1.0 && v.urgency == 1.0 && Abs(v.arousal) == 1.0 &&
              v.control == 1.0 && v.resources == 1.0 && v.cost == 0.0 && v.personalityRelevance == 1.0 && v.valence == 1.0
  {
    MeanBounds(v);
    hide MeanDeficit;
    if LegacyNeutral(v) {
      NoDeficit(v);
    }
  }

  lemma NoDeficit(v: EnergyVector)
    requires v.deficits == map[]
    ensures MeanDeficit(v) == 0.0
  {
  }

  // min(1.0, max(0.0, x))
  function Clamp(x: real): (r: real)
    ensures 0.0 <= r <= 1.0
  {
    if x <= 0.0 then 0.0 else if x >= 1.0 then 1.0 else x
  }
}
