// What the token buckets hold over time, and which revisions they let through
// (core/personality.py).
module Refills {
  import opened Prelude
  import opened Values
  import opened Limits
  import opened State
  import opened Reducer
  import opened ReducerInvariant
  import opened ReducerAcceptance
  import opened RateLimit
  import Keyed
  import Actions
  import Identity
  import World
  import Workspace
  import P = Personality

  /* ---------------- refilling ---------------- */

  lemma BucketRefills(b: P.Bucket, target: real)
    requires b.clock <= target
    ensures P.AdvancedTo(b, target) ==
            Ok(P.Bucket(target, P.Refilled(b.available, target - b.clock, b.capacity, b.refill), b.capacity, b.refill))
  {
  }

  // Held at the brim, a bucket stays there; what it lacks comes back in the
  // time that it takes at its rate, and not sooner.
  lemma FullAgain(held: real, time: real, brim: real, rate: real)
    requires 0.0 <= held <= brim && 0.0 <= time && 0.0 < rate
    ensures held <= P.Refilled(held, time, brim, rate) <= brim
    ensures P.Refilled(held, time, brim, rate) == brim <==> time * rate >= brim - held
  {
    assert time * rate >= 0.0;
  }

  // The brim of a layer, and what runs into it in a second.
  function Brim(at: P.Layer): real {
    match at
    case Traits => 0.05
    case Adaptations => 0.20
    case NarrativeIdeal => 0.10
  }

  lemma LayerBucket(s: BrainState, at: P.Layer)
    requires Valid(s)
    ensures var b := s.personality.rates.Get(at);
            b.clock == s.logicalClock && b.capacity == Brim(at) && b.refill == Brim(at) && 0.0 <= b.available <= Brim(at)
  {
    ValidLayerBucket(s, at);
    hide Valid;
  }

  // After any accepted ticks every layer holds what it held and what ran in
  // since, up to its brim; no value has moved.
  lemma TicksRefill(s: BrainState, ticks: seq<Event>, at: P.Layer)
    requires Inv(s) && AllTicks(ticks) && ReduceMany(s, ticks).Ok?
    ensures var r := ReduceMany(s, ticks).value;
            && r.personality.rates.Get(at).available ==
               P.Refilled(s.personality.rates.Get(at).available, ElapsedOver(ticks), Brim(at), Brim(at))
            && r.personality.values == s.personality.values
  {
    hide *;
    InvIsValid(s);
    LayerBucket(s, at);
    TicksAdvance(s, ticks);
    ClockRefills(s.personality, ReduceMany(s, ticks).value.personality, ReduceMany(s, ticks).value.logicalClock, at);
  }

  lemma ClockRefills(p: P.PersonalityControl, r: P.PersonalityControl, target: real, at: P.Layer)
    requires P.AdvanceClock(p, target) == Ok(r)
    ensures var b := p.rates.Get(at);
            r.rates.Get(at).available == P.Refilled(b.available, target - b.clock, b.capacity, b.refill)
    ensures r.values == p.values
  {
    BucketRefills(p.rates.Get(at), target);
    hide P.Refilled;
  }

  /* ---------------- the price of a revision ---------------- */

  function Gap(a: real, b: real): real {
    if a <= b then b - a else a - b
  }

  predicate InRange(j: Json) {
    IsNumber(j) && -1.0 <= Number(j) <= 1.0
  }

  predicate AllInRange(updates: Payload) {
    forall k :: k in updates ==> InRange(updates[k])
  }

  predicate NamesOk(names: set<Text>) {
    forall k :: k in names ==> !Blank(k)
  }

  // The number that a name is given; what is no number counts as zero.
  function Given(updates: Payload, name: Text): real {
    if name in updates && IsNumber(updates[name]) then Number(updates[name]) else 0.0
  }

  // How far the named values move, together; a missing one counts as zero.
  function Price(names: seq<Text>, current: P.LayerValues, updates: Payload): real {
    if names == [] then 0.0
    else Gap(if names[0] in current then current[names[0]] else 0.0, Given(updates, names[0]))
         + Price(names[1..], current, updates)
  }

  lemma {:induction false} PriceIs(names: seq<Text>, current: P.LayerValues, updates: Payload)
    requires P.RevisionValuesOk(updates) && forall i :: 0 <= i < |names| ==> names[i] in updates
    ensures P.Distance(names, current, P.Merged(current, updates)) == Price(names, current, updates)
  {
    if names != [] {
      PriceIs(names[1..], current, updates);
      assert P.RevisionValueOk(updates[names[0]]);
      assert P.At(P.Merged(current, updates), names[0]) == Given(updates, names[0]);
      hide P.Merged;
    }
  }

  /* ---------------- which revisions are accepted ---------------- */

  function LayerName(at: P.Layer): Text {
    match at
    case Traits => TRAITS
    case Adaptations => ADAPTATIONS
    case NarrativeIdeal => NARRATIVE_IDEAL
  }

  predicate Revises(e: Event, at: P.Layer) {
    e.kind.PersonalityRevised? && Get(e.payload, LAYER) == Str(LayerName(at))
  }

  // An object of numbers in range under non-blank names, with room for the
  // names.
  predicate Readable(s: BrainState, e: Event, at: P.Layer) {
    var values := Get(e.payload, VALUES);
    && values.Obj?
    && |s.personality.values.Get(at).Keys + values.fields.Keys| <= MAX_PERSONALITY_VALUES_PER_LAYER
    && NamesOk(values.fields.Keys) && AllInRange(values.fields)
  }

  function PriceOf(s: BrainState, e: Event, at: P.Layer): real
    requires Get(e.payload, VALUES).Obj?
  {
    var updates := Get(e.payload, VALUES).fields;
    Price(Sorted(updates.Keys), s.personality.values.Get(at), updates)
  }

  // The revised layer: the named values new, the rest as they were, the price
  // paid; the other layers untouched.
  predicate Revised(p: P.PersonalityControl, r: P.PersonalityControl, updates: Payload, at: P.Layer, price: real) {
    && r.values.Get(at).Keys == p.values.Get(at).Keys + updates.Keys
    && (forall k :: k in r.values.Get(at) ==>
          r.values.Get(at)[k] == if k in updates then Given(updates, k)
                                 else if k in p.values.Get(at) then p.values.Get(at)[k] else 0.0)
    && r.rates.Get(at).available == p.rates.Get(at).available - price
    && forall other: P.Layer :: other != at ==>
         r.values.Get(other) == p.values.Get(other) && r.rates.Get(other) == p.rates.Get(other)
  }

  lemma LayerRead(e: Event, at: P.Layer)
    requires Revises(e, at)
    ensures P.LayerOf(Get(e.payload, LAYER)) == Some(at)
  {
    hide Get;
  }

  // The stages of a revision at its bucket's own time.
  lemma RevisionIs(p: P.PersonalityControl, e: Event, clock: real, at: P.Layer)
    requires Revises(e, at) && P.ValidBucket(p.rates.Get(at)) && p.rates.Get(at).clock == clock
    ensures var values, current := Get(e.payload, VALUES), p.values.Get(at);
            P.ReducePersonality(p, e, clock).Ok? <==>
              && values.Obj? && |current.Keys + values.fields.Keys| <= MAX_PERSONALITY_VALUES_PER_LAYER
              && P.RevisionValuesOk(values.fields)
              && P.RevisionCost(current, values.fields) <= p.rates.Get(at).available
              && NamesOk(P.Merged(current, values.fields).Keys)
    ensures P.ReducePersonality(p, e, clock).Ok? ==>
              var updates, current := Get(e.payload, VALUES).fields, p.values.Get(at);
              var b := p.rates.Get(at);
              P.ReducePersonality(p, e, clock).value ==
              P.PersonalityControl(p.values.Set(at, P.Merged(current, updates)),
                                   p.rates.Set(at, b.(available := b.available - P.RevisionCost(current, updates))))
  {
    hide Get, Blank, P.RevisionCost, P.Merged, P.RevisionValuesOk, P.AdvancedTo, P.LayerOf, P.ValidBucket;
    LayerRead(e, at);
    SameClock(p.rates.Get(at), clock);
  }

  // The same, in terms of the event's own names and numbers.
  predicate Payable(p: P.PersonalityControl, e: Event, at: P.Layer) {
    Get(e.payload, VALUES).Obj? && Fits(p, Get(e.payload, VALUES).fields, at)
  }

  predicate Fits(p: P.PersonalityControl, updates: Payload, at: P.Layer) {
    && |p.values.Get(at).Keys + updates.Keys| <= MAX_PERSONALITY_VALUES_PER_LAYER
    && NamesOk(updates.Keys) && AllInRange(updates)
    && Price(Sorted(updates.Keys), p.values.Get(at), updates) <= p.rates.Get(at).available
  }

  lemma ValuesRead(updates: Payload)
    ensures P.RevisionValuesOk(updates) <==> AllInRange(updates)
  {
    assert forall k :: k in updates ==> (P.RevisionValueOk(updates[k]) <==> InRange(updates[k]));
  }

  lemma NamesRead(current: P.LayerValues, updates: Payload)
    requires P.RevisionValuesOk(updates) && P.ValidValues(current)
    ensures NamesOk(P.Merged(current, updates).Keys) <==> NamesOk(updates.Keys)
  {
    hide Blank, P.RevisionValuesOk;
    assert P.Merged(current, updates).Keys == current.Keys + updates.Keys;
  }

  lemma ReducedExact(p: P.PersonalityControl, e: Event, clock: real, at: P.Layer)
    requires Revises(e, at) && P.ValidBucket(p.rates.Get(at)) && p.rates.Get(at).clock == clock
    requires P.ValidValues(p.values.Get(at))
    ensures P.ReducePersonality(p, e, clock).Ok? <==> Payable(p, e, at)
    ensures P.ReducePersonality(p, e, clock).Ok? ==>
              var updates := Get(e.payload, VALUES).fields;
              Revised(p, P.ReducePersonality(p, e, clock).value, updates, at,
                      Price(Sorted(updates.Keys), p.values.Get(at), updates))
  {
    hide *;
    RevisionIs(p, e, clock, at);
    PayableIs(p, e, at);
    if P.ReducePersonality(p, e, clock).Ok? {
      var updates := Get(e.payload, VALUES).fields;
      PriceIsCost(p.values.Get(at), updates);
      MergedIsRevised(p, updates, at, P.RevisionCost(p.values.Get(at), updates));
    }
  }

  lemma PriceIsCost(current: P.LayerValues, updates: Payload)
    requires P.RevisionValuesOk(updates)
    ensures P.RevisionCost(current, updates) == Price(Sorted(updates.Keys), current, updates)
  {
    PriceIs(Sorted(updates.Keys), current, updates);
    hide P.RevisionValuesOk, P.Merged, P.Distance, Price;
  }

  lemma PayableIs(p: P.PersonalityControl, e: Event, at: P.Layer)
    requires P.ValidValues(p.values.Get(at))
    ensures var values, current := Get(e.payload, VALUES), p.values.Get(at);
            Payable(p, e, at) <==>
              && values.Obj? && |current.Keys + values.fields.Keys| <= MAX_PERSONALITY_VALUES_PER_LAYER
              && P.RevisionValuesOk(values.fields)
              && P.RevisionCost(current, values.fields) <= p.rates.Get(at).available
              && NamesOk(P.Merged(current, values.fields).Keys)
  {
    hide Get, P.ValidValues, Fits, Blank, P.RevisionCost, P.RevisionValuesOk, P.Merged;
    if Get(e.payload, VALUES).Obj? {
      FitsIs(p, Get(e.payload, VALUES).fields, at);
    }
  }

  lemma FitsIs(p: P.PersonalityControl, updates: Payload, at: P.Layer)
    requires P.ValidValues(p.values.Get(at))
    ensures var current := p.values.Get(at);
            Fits(p, updates, at) <==>
              && |current.Keys + updates.Keys| <= MAX_PERSONALITY_VALUES_PER_LAYER && P.RevisionValuesOk(updates)
              && P.RevisionCost(current, updates) <= p.rates.Get(at).available
              && NamesOk(P.Merged(current, updates).Keys)
  {
    hide Blank, P.ValidValues, NamesOk, AllInRange, P.RevisionValuesOk, P.Merged, P.RevisionCost, Price;
    ValuesRead(updates);
    if P.RevisionValuesOk(updates) {
      NamesRead(p.values.Get(at), updates);
      PriceIsCost(p.values.Get(at), updates);
    }
  }

  lemma MergedIsRevised(p: P.PersonalityControl, updates: Payload, at: P.Layer, price: real)
    requires P.RevisionValuesOk(updates)
    ensures var b := p.rates.Get(at);
            Revised(p, P.PersonalityControl(p.values.Set(at, P.Merged(p.values.Get(at), updates)),
                                            p.rates.Set(at, b.(available := b.available - price))), updates, at, price)
  {
    var m := P.Merged(p.values.Get(at), updates);
    forall k | k in updates ensures m[k] == Given(updates, k) {
      assert P.RevisionValueOk(updates[k]);
    }
    assert m.Keys == p.values.Get(at).Keys + updates.Keys;
    hide P.Merged, P.RevisionValuesOk;
  }

  // A revision of a layer is accepted exactly when it can be read and its price
  // is at most what the layer's bucket holds, and then it does what it says.
  lemma RevisionDecided(s: BrainState, e: Event, at: P.Layer)
    requires Inv(s) && Addressed(s, e) && Revises(e, at)
    ensures ReduceState(s, e).Ok? <==> Payable(s.personality, e, at)
    ensures ReduceState(s, e).Ok? ==>
              Revised(s.personality, ReduceState(s, e).value.personality, Get(e.payload, VALUES).fields, at, PriceOf(s, e, at))
  {
    hide *;
    LayerInv(s, at);
    ReducedExact(s.personality, e, s.logicalClock, at);
    RevisionAccepted(s, e, at);
    if ReduceState(s, e).Ok? {
      ReducedPersonality(s, e);
      RevisionKind(s, e, at);
    }
  }

  lemma RevisionKind(s: BrainState, e: Event, at: P.Layer)
    requires Revises(e, at)
    ensures !e.kind.ClockTick?
    ensures Get(e.payload, VALUES).Obj? ==>
              PriceOf(s, e, at) == (var updates := Get(e.payload, VALUES).fields;
                                    Price(Sorted(updates.Keys), s.personality.values.Get(at), updates))
    ensures Payable(s.personality, e, at) ==> Get(e.payload, VALUES).Obj?
  {
    hide Get, Price, Blank, InRange;
  }

  lemma LayerInv(s: BrainState, at: P.Layer)
    requires Inv(s)
    ensures P.ValidBucket(s.personality.rates.Get(at)) && s.personality.rates.Get(at).clock == s.logicalClock
    ensures P.ValidValues(s.personality.values.Get(at)) && |s.actions| <= MAX_ACTION_RECORDS
  {
    InvIsValid(s);
    ValidLayerBucket(s, at);
    hide Inv, P.ValidBucket;
    assert PersonalityOk(s.personality, s.workingSet.personality, s.logicalClock) && ActionsOk(s.actions, s.workingSet.actions) by {
      hide IdentityOk, PersonalityOk, ActionsOk, EnergiesOk, ThoughtsOk, ReflectionsOk, WorldOk, NameOk,
           Workspace.ValidWorkspace, MemoriesOk, CapabilitiesOk, RawCountsOk;
    }
    hide Valid, P.ValidValues;
  }

  // Nothing but the personality has a say in a revision.
  lemma RevisionAccepted(s: BrainState, e: Event, at: P.Layer)
    requires Addressed(s, e) && Revises(e, at) && |s.actions| <= MAX_ACTION_RECORDS
    ensures ReduceState(s, e).Ok? <==> P.ReducePersonality(s.personality, e, s.logicalClock).Ok?
  {
    CommonExact(s, e);
    RevisionActs(s, e, at);
    hide Common, Addressed, P.ReducePersonality, Acceptable;
    assert Common(s, e).Ok? ==> ApplySpecific(Common(s, e).value, e).Ok?;
  }

  lemma RevisionActs(s: BrainState, e: Event, at: P.Layer)
    requires Revises(e, at) && |s.actions| <= MAX_ACTION_RECORDS
    ensures Acceptable(s, e) <==> P.ReducePersonality(s.personality, e, s.logicalClock).Ok?
  {
    hide P.ReducePersonality, Trusted;
  }

  /* ---------------- ticks, then a revision ---------------- */

  // After any accepted ticks a revision goes through exactly when its price is
  // at most what the layer held and what has run in since.
  lemma RevisionAfterTicks(s: BrainState, ticks: seq<Event>, e: Event, at: P.Layer)
    requires Inv(s) && AllTicks(ticks) && ReduceMany(s, ticks).Ok?
    requires Addressed(ReduceMany(s, ticks).value, e) && Revises(e, at) && Readable(s, e, at)
    ensures ReduceMany(s, ticks + [e]).Ok? <==>
            PriceOf(s, e, at) <= P.Refilled(s.personality.rates.Get(at).available, ElapsedOver(ticks), Brim(at), Brim(at))
  {
    hide *;
    var r := ReduceMany(s, ticks).value;
    ReduceManyAppend(s, ticks, e);
    RunKeepsInv(s, ticks);
    TicksRefill(s, ticks, at);
    RevisionDecided(r, e, at);
    PayableThen(s, r, e, at);
  }

  lemma PayableThen(s: BrainState, r: BrainState, e: Event, at: P.Layer)
    requires Readable(s, e, at) && r.personality.values == s.personality.values
    ensures Payable(r.personality, e, at) <==> PriceOf(s, e, at) <= r.personality.rates.Get(at).available
  {
    hide Get, Blank, Price;
  }

  // An emptied layer takes its whole brim again after one second of ticks, and
  // never more.
  lemma EmptiedLayerRecovers(s: BrainState, ticks: seq<Event>, e: Event, at: P.Layer)
    requires Inv(s) && AllTicks(ticks) && ReduceMany(s, ticks).Ok?
    requires Addressed(ReduceMany(s, ticks).value, e) && Revises(e, at) && Readable(s, e, at)
    requires s.personality.rates.Get(at).available == 0.0 && ElapsedOver(ticks) >= 1.0
    ensures ReduceMany(s, ticks + [e]).Ok? <==> PriceOf(s, e, at) <= Brim(at)
  {
    hide *;
    RevisionAfterTicks(s, ticks, e, at);
    FullInASecond(at, ElapsedOver(ticks));
  }

  lemma FullInASecond(at: P.Layer, time: real)
    requires time >= 1.0
    ensures P.Refilled(0.0, time, Brim(at), Brim(at)) == Brim(at)
  {
  }
}
