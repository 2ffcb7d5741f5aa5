// The token buckets over whole runs: how far a personality layer can move.
module RateLimit {
  import opened Prelude
  import opened Values
  import opened Limits
  import opened State
  import opened Reducer
  import opened ReducerInvariant
  import Keyed
  import Actions
  import Identity
  import World
  import Workspace
  import P = Personality

  /* ---------------- distances ---------------- */

  function Removed(keys: seq<Text>, k: Text): (r: seq<Text>)
    ensures k !in keys ==> r == keys
  {
    if keys == [] then [] else if keys[0] == k then keys[1..] else [keys[0]] + Removed(keys[1..], k)
  }

  lemma {:induction false} RemovedMeaning(keys: seq<Text>, k: Text, before: P.LayerValues, after: P.LayerValues)
    requires NoDuplicates(keys) && k in keys
    ensures NoDuplicates(Removed(keys, k))
    ensures forall x :: x in Removed(keys, k) <==> x in keys && x != k
    ensures P.Distance(keys, before, after) ==
            P.Abs(P.At(after, k) - P.At(before, k)) + P.Distance(Removed(keys, k), before, after)
  {
    assert keys == [keys[0]] + keys[1..];
    if keys[0] != k {
      RemovedMeaning(keys[1..], k, before, after);
      var r := Removed(keys[1..], k);
      assert Removed(keys, k) == [keys[0]] + r;
      assert keys[0] !in r;
      assert ([keys[0]] + r)[1..] == r;
    }
  }

  // Over names that include every name that moved, the distance is largest.
  lemma {:induction false} DistanceCovered(some: seq<Text>, moved: seq<Text>, before: P.LayerValues, after: P.LayerValues)
    requires NoDuplicates(some) && NoDuplicates(moved)
    requires forall k :: k in some && k !in moved ==> P.At(after, k) == P.At(before, k)
    ensures P.Distance(some, before, after) <= P.Distance(moved, before, after)
    decreases |some|
  {
    if some != [] {
      var k := some[0];
      assert some == [k] + some[1..];
      if k in moved {
        RemovedMeaning(moved, k, before, after);
        DistanceCovered(some[1..], Removed(moved, k), before, after);
      } else {
        DistanceCovered(some[1..], moved, before, after);
      }
    }
  }

  lemma {:induction false} DistanceTriangle(keys: seq<Text>, a: P.LayerValues, b: P.LayerValues, c: P.LayerValues)
    ensures P.Distance(keys, a, c) <= P.Distance(keys, a, b) + P.Distance(keys, b, c)
  {
    if keys != [] {
      DistanceTriangle(keys[1..], a, b, c);
    }
  }

  lemma {:induction false} DistanceZero(keys: seq<Text>, a: P.LayerValues)
    ensures P.Distance(keys, a, a) == 0.0
  {
    if keys != [] {
      DistanceZero(keys[1..], a);
    }
  }

  // Whatever names one looks at, a revision moves them by no more than it
  // pays for.
  lemma RevisionPays(keys: seq<Text>, current: P.LayerValues, updates: Payload)
    requires NoDuplicates(keys) && P.RevisionValuesOk(updates)
    ensures P.Distance(keys, current, P.Merged(current, updates)) <= P.RevisionCost(current, updates)
  {
    var merged := P.Merged(current, updates);
    forall k | k in keys && k !in Sorted(updates.Keys) ensures P.At(merged, k) == P.At(current, k) {
    }
    DistanceCovered(keys, Sorted(updates.Keys), current, merged);
  }

  /* ---------------- one event ---------------- */

  lemma CommonPersonality(s: BrainState, e: Event)
    requires Common(s, e).Ok?
    ensures P.ReducePersonality(s.personality, e, s.logicalClock) == Ok(Common(s, e).value.personality)
    ensures Common(s, e).value.logicalClock == s.logicalClock
  {
    hide CountEvent, ApplyIdentity, ApplyPersonality, ApplyActions, ApplyWorld, ApplyWorkspace, ApplyMemory, Trusted,
         P.ReducePersonality;
    CountEventFrame(s, e);
    var s0 := CountEvent(s, e);
    IdentityFrame(s0, e);
    var s1 := ApplyIdentity(s0, e).value;
    PersonalityFrame(s1, e);
    PersonalityResult(s1, e);
    var s2 := ApplyPersonality(s1, e).value;
    ActionsFrame(s2, e, Trusted(s, e));
    var (s3, grounded) := ApplyActions(s2, e, Trusted(s, e)).value;
    WorldFrame(s3, e, Trusted(s, e), grounded);
    var s4 := ApplyWorld(s3, e, Trusted(s, e), grounded).value;
    WorkspaceFrame(s4, e);
    MemoryFrame(ApplyWorkspace(s4, e).value, e);
  }

  lemma PersonalityResult(s: BrainState, e: Event)
    requires ApplyPersonality(s, e).Ok?
    ensures P.ReducePersonality(s.personality, e, s.logicalClock) == Ok(ApplyPersonality(s, e).value.personality)
  {
    hide P.ReducePersonality;
  }

  function Elapsed(e: Event): real {
    var j := Get(e.payload, ELAPSED_SECONDS);
    if e.kind.ClockTick? && IsNumber(j) then Number(j) else 0.0
  }

  lemma SpecificPersonality(c: BrainState, e: Event)
    requires ApplySpecific(c, e).Ok?
    ensures var r := ApplySpecific(c, e).value;
            if e.kind.ClockTick? then
              Elapsed(e) >= 0.0 && r.logicalClock == c.logicalClock + Elapsed(e) &&
              P.AdvanceClock(c.personality, r.logicalClock) == Ok(r.personality)
            else r.logicalClock == c.logicalClock && r.personality == c.personality
  {
    hide ApplyCapabilities, ApplyReassessment, ApplyAssessment, ApplySimulation, ApplyReflection,
         ApplyFailure, Get, Blank, P.AdvanceClock;
    match e.kind
    case CapabilitiesReported => CapabilitiesFrame(c, e);
    case EnergyRequested => if ApplySpecific(c, e) != Ok(c) { ReassessmentFrame(c, e); }
    case EnergyAssessed => AssessmentFrame(c, e);
    case SimulationCreated => SimulationFrame(c, e);
    case CognitionReflected => ReflectionFrame(c, e);
    case RuntimeFailed => FailureFrame(c, e);
    case _ =>
  }

  lemma ReducedPersonality(s: BrainState, e: Event)
    requires ReduceState(s, e).Ok?
    ensures var r := ReduceState(s, e).value;
            if e.kind.ClockTick? then
              Elapsed(e) >= 0.0 && r.logicalClock == s.logicalClock + Elapsed(e) &&
              P.AdvanceClock(s.personality, r.logicalClock) == Ok(r.personality)
            else r.logicalClock == s.logicalClock &&
                 P.ReducePersonality(s.personality, e, s.logicalClock) == Ok(r.personality)
  {
    CommonPersonality(s, e);
    SpecificPersonality(Common(s, e).value, e);
    if e.kind.ClockTick? {
      assert P.ReducePersonality(s.personality, e, s.logicalClock) == Ok(s.personality);
    }
    hide Common, ApplySpecific, P.ReducePersonality, P.AdvanceClock, Elapsed;
  }

  // The movement of a layer under one personality event, against its bucket.
  lemma RevisionMoves(p: P.PersonalityControl, e: Event, clock: real, at: P.Layer, keys: seq<Text>)
    requires P.ReducePersonality(p, e, clock).Ok? && NoDuplicates(keys)
    requires P.ValidBucket(p.rates.Get(at)) && p.rates.Get(at).clock == clock
    ensures var r := P.ReducePersonality(p, e, clock).value;
            P.Distance(keys, p.values.Get(at), r.values.Get(at)) <=
            p.rates.Get(at).available - r.rates.Get(at).available
  {
    hide P.RevisionCost, P.Distance, P.Merged, P.RevisionValuesOk, Get, Blank;
    DistanceZero(keys, p.values.Get(at));
    if e.kind.PersonalityRevised? && P.LayerOf(Get(e.payload, LAYER)) == Some(at) {
      var current := p.values.Get(at);
      var updates := Get(e.payload, VALUES).fields;
      RevisionPays(keys, current, updates);
      SameClock(p.rates.Get(at), clock);
      hide P.AdvancedTo;
    }
  }

  lemma SameClock(b: P.Bucket, clock: real)
    requires P.ValidBucket(b) && b.clock == clock
    ensures P.AdvancedTo(b, clock) == Ok(b)
  {
  }

  lemma TickMoves(p: P.PersonalityControl, clock: real, target: real, at: P.Layer, keys: seq<Text>)
    requires P.AdvanceClock(p, target).Ok? && p.rates.Get(at).clock == clock
    ensures var r := P.AdvanceClock(p, target).value;
            && P.Distance(keys, p.values.Get(at), r.values.Get(at)) == 0.0
            && r.rates.Get(at).available <= p.rates.Get(at).available + p.rates.Get(at).refill * (target - clock)
  {
    DistanceZero(keys, p.values.Get(at));
    assert (target - clock) * p.rates.Get(at).refill == p.rates.Get(at).refill * (target - clock);
  }

  lemma ValidLayerBucket(s: BrainState, at: P.Layer)
    requires Valid(s)
    ensures var b := s.personality.rates.Get(at);
            P.ValidBucket(b) && b.clock == s.logicalClock && b.refill == P.PolicyRefill(at) &&
            b.capacity == P.PolicyCapacity(at)
  {
    assert PersonalityOk(s.personality, s.workingSet.personality, s.logicalClock) by {
      hide IdentityOk, PersonalityOk, ActionsOk, EnergiesOk, ThoughtsOk, ReflectionsOk, WorldOk, NameOk,
           Workspace.ValidWorkspace, MemoriesOk, CapabilitiesOk, RawCountsOk;
    }
    hide Valid, ValuesOk, P.ValidBucket, P.PolicyRefill, P.PolicyCapacity;
  }

  lemma PersonalityMoves(p: P.PersonalityControl, r: P.PersonalityControl, e: Event, clock: real, target: real,
                         at: P.Layer, keys: seq<Text>)
    requires NoDuplicates(keys) && P.ValidBucket(p.rates.Get(at)) && p.rates.Get(at).clock == clock
    requires if e.kind.ClockTick? then P.AdvanceClock(p, target) == Ok(r)
             else target == clock && P.ReducePersonality(p, e, clock) == Ok(r)
    ensures P.Distance(keys, p.values.Get(at), r.values.Get(at)) <=
            p.rates.Get(at).available - r.rates.Get(at).available + p.rates.Get(at).refill * (target - clock)
  {
    hide P.ReducePersonality, P.AdvanceClock, P.ValidBucket, P.Distance;
    if e.kind.ClockTick? {
      TickMoves(p, clock, target, at, keys);
    } else {
      RevisionMoves(p, e, clock, at, keys);
      assert p.rates.Get(at).refill * (target - clock) == 0.0;
    }
  }

  // One event: what a layer moves is paid from its bucket, and the bucket
  // gains no more than refill * elapsed.
  lemma StepBound(s: BrainState, e: Event, at: P.Layer, keys: seq<Text>)
    requires Valid(s) && ReduceState(s, e).Ok? && NoDuplicates(keys)
    ensures var r := ReduceState(s, e).value;
            P.Distance(keys, s.personality.values.Get(at), r.personality.values.Get(at)) <=
            s.personality.rates.Get(at).available - r.personality.rates.Get(at).available
            + P.PolicyRefill(at) * (r.logicalClock - s.logicalClock)
  {
    hide *;
    ReducedPersonality(s, e);
    ValidLayerBucket(s, at);
    var r := ReduceState(s, e).value;
    PersonalityMoves(s.personality, r.personality, e, s.logicalClock, r.logicalClock, at, keys);
  }

  /* ---------------- whole runs ---------------- */

  // The total absolute change that a run makes to a layer, over some names.
  function Movement(s: BrainState, events: seq<Event>, at: P.Layer, keys: seq<Text>): real
    requires ReduceMany(s, events).Ok?
    decreases |events|
  {
    if events == [] then 0.0
    else
      var t := ReduceState(s, events[0]).value;
      P.Distance(keys, s.personality.values.Get(at), t.personality.values.Get(at)) +
      Movement(t, events[1..], at, keys)
  }

  // Between any two points of an accepted run, a layer moves by at most what
  // its bucket held at the start plus refill times the logical time between
  // them, less what the bucket holds at the end.
  lemma {:induction false} RateBound(s: BrainState, events: seq<Event>, at: P.Layer, keys: seq<Text>)
    requires Inv(s) && ReduceMany(s, events).Ok? && NoDuplicates(keys)
    ensures var r := ReduceMany(s, events).value;
            && Movement(s, events, at, keys) <=
               s.personality.rates.Get(at).available - r.personality.rates.Get(at).available
               + P.PolicyRefill(at) * (r.logicalClock - s.logicalClock)
            && 0.0 <= r.personality.rates.Get(at).available <= P.PolicyCapacity(at)
    decreases |events|
  {
    hide Valid, ReduceState, Keyed.Unique, P.Distance, P.PolicyRefill;
    if events == [] {
      ValidLayerBucket(s, at);
      assert P.PolicyRefill(at) * (s.logicalClock - s.logicalClock) == 0.0;
    } else {
      var t := ReduceState(s, events[0]).value;
      StepBound(s, events[0], at, keys);
      ReductionKeepsInv(s, events[0]);
      RateBound(t, events[1..], at, keys);
      var r := ReduceMany(s, events).value;
      Distribute(P.PolicyRefill(at), r.logicalClock - t.logicalClock, t.logicalClock - s.logicalClock);
    }
  }

  lemma Distribute(c: real, x: real, y: real)
    ensures c * x + c * y == c * (x + y)
  {
  }

  // Hence the distance between the two ends is bounded the same way.
  lemma {:induction false} DriftBound(s: BrainState, events: seq<Event>, at: P.Layer, keys: seq<Text>)
    requires ReduceMany(s, events).Ok?
    ensures P.Distance(keys, s.personality.values.Get(at), ReduceMany(s, events).value.personality.values.Get(at)) <=
            Movement(s, events, at, keys)
    decreases |events|
  {
    hide ReduceState;
    if events == [] {
      DistanceZero(keys, s.personality.values.Get(at));
    } else {
      var t := ReduceState(s, events[0]).value;
      DriftBound(t, events[1..], at, keys);
      DistanceTriangle(keys, s.personality.values.Get(at), t.personality.values.Get(at),
                       ReduceMany(s, events).value.personality.values.Get(at));
    }
  }

  /* ---------------- splitting a tick ---------------- */

  // Advancing through intermediate times is advancing once.
  lemma AdvanceTwice(b: P.Bucket, middle: real, target: real)
    requires P.ValidBucket(b) && b.clock <= middle <= target
    ensures P.AdvancedTo(P.AdvancedTo(b, middle).value, target) == P.AdvancedTo(b, target)
  {
    var x := (middle - b.clock) * b.refill;
    var y := (target - middle) * b.refill;
    assert x >= 0.0 && y >= 0.0;
    Distribute(b.refill, middle - b.clock, target - middle);
    assert (target - b.clock) * b.refill == x + y;
    var next := P.AdvancedTo(b, middle).value;
    assert next == b.(clock := middle, available := P.Min(b.capacity, b.available + x));
    assert (target - next.clock) * next.refill == y;
  }

  function AdvanceThrough(b: P.Bucket, times: seq<real>): Result<P.Bucket>
    decreases |times|
  {
    if times == [] then Ok(b)
    else
      var next :- P.AdvancedTo(b, times[0]);
      AdvanceThrough(next, times[1..])
  }

  predicate InOrder(times: seq<real>) {
    forall i, j :: 0 <= i < j < |times| ==> times[i] <= times[j]
  }

  // However a stretch of logical time is cut into ticks, the bucket ends up
  // the same, and the cuts are accepted exactly when they are in order.
  lemma {:induction false} TickSplit(b: P.Bucket, times: seq<real>)
    requires P.ValidBucket(b) && times != []
    ensures AdvanceThrough(b, times).Ok? <==> b.clock <= times[0] && InOrder(times)
    ensures AdvanceThrough(b, times).Ok? ==> AdvanceThrough(b, times) == P.AdvancedTo(b, times[|times| - 1])
    decreases |times|
  {
    var rest := times[1..];
    if times[0] >= b.clock && rest != [] {
      P.AdvancedBucket(b, times[0]);
      var next := P.AdvancedTo(b, times[0]).value;
      TickSplit(next, rest);
      assert InOrder(times) <==> times[0] <= rest[0] && InOrder(rest) by { OrderedTail(times); }
      if AdvanceThrough(b, times).Ok? {
        AdvanceTwice(b, times[0], times[|times| - 1]);
      }
    }
  }

  lemma OrderedTail(times: seq<real>)
    requires |times| > 1
    ensures InOrder(times) <==> times[0] <= times[1] && InOrder(times[1..])
  {
    var rest := times[1..];
    if times[0] <= times[1] && InOrder(rest) {
      forall i, j | 0 <= i < j < |times| ensures times[i] <= times[j] {
        assert times[j] == rest[j - 1] && rest[0] <= rest[j - 1];
        assert i > 0 ==> times[i] == rest[i - 1];
      }
    }
    if InOrder(times) {
      forall i, j | 0 <= i < j < |rest| ensures rest[i] <= rest[j] {
        assert times[i + 1] <= times[j + 1];
      }
    }
  }

  /* ---------------- ticks of the whole state ---------------- */

  predicate AllTicks(events: seq<Event>) {
    forall i :: 0 <= i < |events| ==> events[i].kind.ClockTick?
  }

  function ElapsedOver(events: seq<Event>): real {
    if events == [] then 0.0 else Elapsed(events[0]) + ElapsedOver(events[1..])
  }

  // Every bucket is valid and stands at the brain's clock.
  predicate OnTime(p: P.PersonalityControl, clock: real) {
    forall at: P.Layer :: P.ValidBucket(p.rates.Get(at)) && p.rates.Get(at).clock == clock
  }

  lemma ValidOnTime(s: BrainState)
    requires Valid(s)
    ensures OnTime(s.personality, s.logicalClock)
  {
    forall at: P.Layer ensures P.ValidBucket(s.personality.rates.Get(at)) && s.personality.rates.Get(at).clock == s.logicalClock {
      ValidLayerBucket(s, at);
    }
    hide Valid;
  }

  lemma NoTime(p: P.PersonalityControl, clock: real)
    requires OnTime(p, clock)
    ensures P.AdvanceClock(p, clock) == Ok(p)
  {
    assert P.ValidBucket(p.rates.Get(P.Traits)) && P.ValidBucket(p.rates.Get(P.Adaptations)) &&
           P.ValidBucket(p.rates.Get(P.NarrativeIdeal));
  }

  // Advancing all three buckets through an intermediate time is advancing
  // them once.
  lemma ClockTwice(p: P.PersonalityControl, clock: real, middle: real, target: real)
    requires OnTime(p, clock) && clock <= middle <= target && P.AdvanceClock(p, middle).Ok?
    ensures P.AdvanceClock(P.AdvanceClock(p, middle).value, target) == P.AdvanceClock(p, target)
  {
    assert P.ValidBucket(p.rates.Get(P.Traits)) && P.ValidBucket(p.rates.Get(P.Adaptations)) &&
           P.ValidBucket(p.rates.Get(P.NarrativeIdeal));
    AdvanceTwice(p.rates.traits, middle, target);
    AdvanceTwice(p.rates.adaptations, middle, target);
    AdvanceTwice(p.rates.narrativeIdeal, middle, target);
    hide P.AdvancedTo, P.ValidBucket;
  }

  // A run of ticks is one advance of the clock by all the time that passed.
  lemma {:induction false} TicksAdvance(s: BrainState, ticks: seq<Event>)
    requires Inv(s) && AllTicks(ticks) && ReduceMany(s, ticks).Ok?
    ensures var r := ReduceMany(s, ticks).value;
            && ElapsedOver(ticks) >= 0.0 && r.logicalClock == s.logicalClock + ElapsedOver(ticks)
            && P.AdvanceClock(s.personality, r.logicalClock) == Ok(r.personality)
    decreases |ticks|
  {
    hide ReduceState, Inv, Elapsed, P.AdvanceClock, OnTime;
    InvIsValid(s);
    ValidOnTime(s);
    if ticks == [] {
      NoTime(s.personality, s.logicalClock);
    } else {
      var next := ReduceState(s, ticks[0]).value;
      ReducedPersonality(s, ticks[0]);
      ReductionKeepsInv(s, ticks[0]);
      TicksAdvance(next, ticks[1..]);
      ClockTwice(s.personality, s.logicalClock, next.logicalClock, ReduceMany(next, ticks[1..]).value.logicalClock);
    }
  }

  // However a stretch of time is cut into ticks, the state ends with the same
  // clock and the same personality, all three buckets included.
  lemma TicksSplit(s: BrainState, ticks: seq<Event>, others: seq<Event>)
    requires Inv(s) && AllTicks(ticks) && AllTicks(others) && ElapsedOver(ticks) == ElapsedOver(others)
    requires ReduceMany(s, ticks).Ok? && ReduceMany(s, others).Ok?
    ensures var r, q := ReduceMany(s, ticks).value, ReduceMany(s, others).value;
            r.logicalClock == q.logicalClock && r.personality == q.personality
  {
    hide *;
    TicksAdvance(s, ticks);
    TicksAdvance(s, others);
  }
}
