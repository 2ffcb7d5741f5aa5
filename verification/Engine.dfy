// The engine that owns one replayed state, over a ledger that other writers
// share (runtime/engine.py; the ledger follows runtime/store.py).
module Engine {
  import opened Prelude
  import opened Values
  import opened State
  import opened Reducer
  import SC = SemanticCommit

  /* ---------------- the ledger ---------------- */

  // A ledger holds the events of the brain, numbered from one.
  predicate Numbered(log: seq<Event>, brainId: Text) {
    forall i :: 0 <= i < |log| ==> log[i].sequence == Some(i + 1) && log[i].brainId == brainId
  }

  // Equal but for the allocated sequence.
  predicate SameBody(a: Event, b: Event) {
    a.(sequence := None) == b.(sequence := None)
  }

  function FindEvent(log: seq<Event>, eventId: Text): (r: Option<Event>)
    ensures r.Some? ==> r.value in log && r.value.eventId == eventId
    ensures r.None? ==> forall x :: x in log ==> x.eventId != eventId
  {
    if log == [] then None
    else
      assert log == [log[0]] + log[1..];
      if log[0].eventId == eventId then Some(log[0]) else FindEvent(log[1..], eventId)
  }

  datatype Stored = Stored(event: Event) | SequenceLost | BodyConflict

  // append_expected: insert at the exact next sequence, or adopt an exact
  // repeat that is still the head.
  function AppendExpected(log: seq<Event>, e: Event, expected: nat): (seq<Event>, Stored) {
    var existing := FindEvent(log, e.eventId);
    if existing.Some? then
      if !SameBody(existing.value, e) then
        (log, if |log| + 1 != expected then SequenceLost else BodyConflict)
      else if existing.value.sequence != Some(expected) || |log| != expected then (log, SequenceLost)
      else (log, Stored(existing.value))
    else if |log| + 1 != expected then (log, SequenceLost)
    else (log + [e.(sequence := Some(expected))], Stored(e.(sequence := Some(expected))))
  }

  /* ---------------- the engine ---------------- */

  datatype EngineState = EngineState(brainId: Text, state: BrainState, diverged: bool)

  datatype Outcome = Appended(event: Event) | Repeated(event: Event) | Committed | Rejected | Conflict | Diverged | BadRequest

  // append; `between` are the events that other writers commit after this
  // engine has read the head.
  function Append(g: EngineState, log: seq<Event>, e: Event, between: seq<Event>): (EngineState, seq<Event>, Outcome) {
    if e.brainId != g.brainId || e.sequence.Some? then (g, log, BadRequest)
    else if g.diverged then (g, log, Diverged)
    else if |log| != g.state.lastSequence then (g.(diverged := true), log, Diverged)
    else
      var existing := FindEvent(log, e.eventId);
      if existing.Some? then
        if SameBody(existing.value, e) then (g, log, Repeated(existing.value)) else (g, log, Conflict)
      else Insert(g, log, e, between)
  }

  function Insert(g: EngineState, log: seq<Event>, e: Event, between: seq<Event>): (EngineState, seq<Event>, Outcome) {
    var expected := g.state.lastSequence + 1;
    var provisional := e.(sequence := Some(expected));
    var successor := ReduceState(g.state, provisional);
    if successor.Err? then (g, log, Rejected)
    else
      var (after, stored) := AppendExpected(log + between, e, expected);
      match stored
      case SequenceLost => (g.(diverged := true), after, Diverged)
      case BodyConflict => (g, after, Conflict)
      case Stored(event) =>
        if event != provisional then (g.(diverged := true), after, Diverged)
        else (g.(state := successor.value), after, Appended(event))
  }

  // The table of events admits each identifier once.
  predicate UniqueIds(log: seq<Event>) {
    forall i, j :: 0 <= i < j < |log| ==> log[i].eventId != log[j].eventId
  }

  predicate Clash(log: seq<Event>, events: seq<Event>) {
    !UniqueIds(events) || exists i :: 0 <= i < |events| && FindEvent(log, events[i].eventId).Some?
  }

  // commit_bridge_record, abandon_bridge_stream and the lease completions: a
  // batch of unsequenced events, checked against the head in one transaction.
  function AppendBatch(g: EngineState, log: seq<Event>, events: seq<Event>, between: seq<Event>)
    : (EngineState, seq<Event>, Outcome)
  {
    if g.diverged then (g, log, Diverged)
    else
      var now := log + between;
      if |now| != g.state.lastSequence then (g.(diverged := true), now, Diverged)
      else
        var successor := SC.Sequenced(g.state, events);
        if successor.Err? || (exists i :: 0 <= i < |events| && events[i].brainId != g.brainId) then (g, now, Rejected)
        else if Clash(now, events) then (g.(diverged := true), now, Diverged)
        else (g.(state := successor.value), now + SC.Numbered(events, |now| + 1), Committed)
  }

  /* ---------------- the class ---------------- */

  class Ledger {
    var events: seq<Event>

    constructor ()
      ensures events == []
    {
      events := [];
    }

    // What the other writers do in the meantime.
    method CommitOthers(more: seq<Event>)
      modifies this
      ensures events == old(events) + more
    {
      events := events + more;
    }

    method AppendAt(e: Event, expected: nat) returns (stored: Stored)
      modifies this
      ensures (events, stored) == AppendExpected(old(events), e, expected)
    {
      var existing := FindEvent(events, e.eventId);
      if existing.Some? {
        if !SameBody(existing.value, e) {
          return if |events| + 1 != expected then SequenceLost else BodyConflict;
        }
        if existing.value.sequence != Some(expected) || |events| != expected {
          return SequenceLost;
        }
        return Stored(existing.value);
      }
      if |events| + 1 != expected {
        return SequenceLost;
      }
      var numbered := e.(sequence := Some(expected));
      events := events + [numbered];
      return Stored(numbered);
    }
  }

  class ConsciousEngine {
    const ledger: Ledger
    const brainId: Text
    var state: BrainState
    var diverged: bool

    function View(): EngineState
      reads this
    {
      EngineState(brainId, state, diverged)
    }

    // Replays the ledger.
    constructor (ledger: Ledger, brainId: Text, replayed: BrainState)
      requires ReduceMany(Genesis(brainId), ledger.events) == Ok(replayed)
      ensures View() == EngineState(brainId, replayed, false) && this.ledger == ledger
    {
      this.ledger, this.brainId, state, diverged := ledger, brainId, replayed, false;
    }

    method OnAppend(e: Event, between: seq<Event>) returns (outcome: Outcome)
      modifies this, ledger
      ensures (View(), ledger.events, outcome) == Append(old(View()), old(ledger.events), e, between)
    {
      hide ReduceState, SameBody;
      if e.brainId != brainId || e.sequence.Some? {
        return BadRequest;
      }
      if diverged {
        return Diverged;
      }
      if |ledger.events| != state.lastSequence {
        diverged := true;
        return Diverged;
      }
      var existing := FindEvent(ledger.events, e.eventId);
      if existing.Some? {
        return if SameBody(existing.value, e) then Repeated(existing.value) else Conflict;
      }
      var expected := state.lastSequence + 1;
      var provisional := e.(sequence := Some(expected));
      var successor := ReduceState(state, provisional);
      if successor.Err? {
        return Rejected;
      }
      ledger.CommitOthers(between);
      var stored := ledger.AppendAt(e, expected);
      match stored {
        case SequenceLost =>
          diverged := true;
          return Diverged;
        case BodyConflict =>
          return Conflict;
        case Stored(event) =>
          if event != provisional {
            diverged := true;
            return Diverged;
          }
          state := successor.value;
          return Appended(event);
      }
    }
  }

  /* ---------------- the published state is a replayed prefix ---------------- */

  ghost predicate Replayed(g: EngineState, log: seq<Event>) {
    && Numbered(log, g.brainId)
    && g.state.lastSequence <= |log|
    && g.state.brainId == g.brainId
    && ReduceMany(Genesis(g.brainId), log[..g.state.lastSequence]) == Ok(g.state)
  }

  lemma AtSequence(log: seq<Event>, brainId: Text, x: Event, n: nat)
    requires Numbered(log, brainId) && x in log && x.sequence == Some(n + 1)
    ensures n < |log| && log[n] == x
  {
    var i :| 0 <= i < |log| && log[i] == x;
  }

  // A stored event that matches the provisional one is the next event of the
  // ledger, whether it was inserted or adopted.
  lemma StoredIsNext(log: seq<Event>, brainId: Text, e: Event, n: nat)
    requires Numbered(log, brainId) && e.brainId == brainId
    requires AppendExpected(log, e, n + 1).1 == Stored(e.(sequence := Some(n + 1)))
    ensures var after := AppendExpected(log, e, n + 1).0;
            && Numbered(after, brainId) && |after| == n + 1 && after[n] == e.(sequence := Some(n + 1))
            && (after == log || after == log + [after[n]])
  {
    if FindEvent(log, e.eventId).Some? {
      AtSequence(log, brainId, AppendExpected(log, e, n + 1).1.event, n);
    }
  }

  lemma UnstoredSame(log: seq<Event>, e: Event, expected: nat)
    ensures !AppendExpected(log, e, expected).1.Stored? ==> AppendExpected(log, e, expected).0 == log
    ensures AppendExpected(log, e, expected).0 == log ||
            AppendExpected(log, e, expected).0 == log + [e.(sequence := Some(expected))]
  {
  }

  lemma {:induction false} Advances(s: BrainState, e: Event)
    requires ReduceState(s, e).Ok? && e.sequence.Some?
    ensures ReduceState(s, e).value.lastSequence == s.lastSequence + 1 && ReduceState(s, e).value.brainId == s.brainId
  {
    SC.SequenceAdvances(s, e);
    hide *;
  }

  lemma PublishReplayed(g: EngineState, log: seq<Event>, after: seq<Event>)
    requires Replayed(g, log) && g.state.lastSequence == |log|
    requires log < after && |after| == |log| + 1 && Numbered(after, g.brainId)
    requires ReduceState(g.state, after[|log|]).Ok?
    ensures Replayed(g.(state := ReduceState(g.state, after[|log|]).value), after)
  {
    hide ReduceState;
    var n := |log|;
    Advances(g.state, after[n]);
    ReduceManyAppend(Genesis(g.brainId), log, after[n]);
    assert log[..n] == log && after[..n + 1] == after && after == log + [after[n]];
    hide ReduceMany;
  }

  lemma LongerReplayed(g: EngineState, log: seq<Event>, after: seq<Event>, latched: bool)
    requires Replayed(g, log) && log <= after && Numbered(after, g.brainId)
    ensures Replayed(g.(diverged := latched), after)
  {
    assert after[..g.state.lastSequence] == log[..g.state.lastSequence];
    hide ReduceMany;
  }

  // What one append may do, with any events of other writers in between.
  ghost predicate AppendEffect(g: EngineState, log: seq<Event>, between: seq<Event>, e: Event,
                               r: EngineState, after: seq<Event>, outcome: Outcome)
  {
    // nothing, the others' events, or those and the event itself
    && (after == log || after == log + between || after == log + between + [e.(sequence := Some(g.state.lastSequence + 1))])
    // the state moves only with an event that the reducer accepted, which is
    // then the next event of the ledger
    && (match outcome
        case Appended(event) =>
          && event == e.(sequence := Some(g.state.lastSequence + 1))
          && ReduceState(g.state, event) == Ok(r.state)
          && |after| == g.state.lastSequence + 1 && after[g.state.lastSequence] == event
        case Repeated(event) => r == g && after == log && event in log && SameBody(event, e)
        case _ => r.state == g.state)
    && (outcome.Diverged? ==> r.diverged)
    && (g.diverged ==> r == g && after == log)
    && r.brainId == g.brainId
  }

  lemma AppendMeans(g: EngineState, log: seq<Event>, e: Event, between: seq<Event>)
    requires Replayed(g, log) && Numbered(log + between, g.brainId)
    ensures var (r, after, outcome) := Append(g, log, e, between);
            AppendEffect(g, log, between, e, r, after, outcome) && Replayed(r, after)
  {
    hide ReduceState, SameBody;
    var (r, after, outcome) := Append(g, log, e, between);
    LongerReplayed(g, log, log, true);
    if e.brainId == g.brainId && e.sequence.None? && !g.diverged && |log| == g.state.lastSequence &&
       FindEvent(log, e.eventId).None? {
      InsertMeans(g, log, e, between);
      hide Insert, Replayed, AppendEffect;
    }
    hide ReduceMany;
  }

  lemma InsertMeans(g: EngineState, log: seq<Event>, e: Event, between: seq<Event>)
    requires Replayed(g, log) && Numbered(log + between, g.brainId)
    requires e.brainId == g.brainId && e.sequence.None? && !g.diverged && |log| == g.state.lastSequence
    ensures var (r, after, outcome) := Insert(g, log, e, between);
            AppendEffect(g, log, between, e, r, after, outcome) && Replayed(r, after)
  {
    hide ReduceState, SameBody;
    var n := |log|;
    var provisional := e.(sequence := Some(n + 1));
    if ReduceState(g.state, provisional).Ok? {
      var (after, stored) := AppendExpected(log + between, e, n + 1);
      UnstoredSame(log + between, e, n + 1);
      if stored == Stored(provisional) {
        StoredIsNext(log + between, g.brainId, e, n);
        hide AppendExpected;
        PublishReplayed(g, log, after);
      } else {
        hide AppendExpected;
        LongerReplayed(g, log, after, true);
        LongerReplayed(g, log, after, false);
      }
    }
    hide Replayed, ReduceMany;
  }

  lemma {:induction false} BatchAdvances(s: BrainState, events: seq<Event>)
    requires ReduceMany(s, events).Ok? && forall i :: 0 <= i < |events| ==> events[i].sequence.Some?
    ensures ReduceMany(s, events).value.lastSequence == s.lastSequence + |events|
    ensures ReduceMany(s, events).value.brainId == s.brainId
    decreases |events|
  {
    hide ReduceState;
    if events != [] {
      Advances(s, events[0]);
      BatchAdvances(ReduceState(s, events[0]).value, events[1..]);
    }
  }

  lemma BatchMeans(g: EngineState, log: seq<Event>, events: seq<Event>, between: seq<Event>)
    requires Replayed(g, log) && Numbered(log + between, g.brainId)
    ensures var (r, after, outcome) := AppendBatch(g, log, events, between);
            && Replayed(r, after) && (g.diverged ==> r == g && after == log)
            && (outcome.Committed? ==>
                  between == [] && after == log + SC.Numbered(events, |log| + 1) &&
                  SC.Sequenced(g.state, events) == Ok(r.state))
            && (!outcome.Committed? ==> r.state == g.state)
  {
    hide ReduceState, ReduceMany;
    var now := log + between;
    LongerReplayed(g, log, now, true);
    LongerReplayed(g, log, now, false);
    if !g.diverged && |now| == g.state.lastSequence && SC.Sequenced(g.state, events).Ok? &&
       !(exists i :: 0 <= i < |events| && events[i].brainId != g.brainId) && !Clash(now, events) {
      var batch := SC.Numbered(events, |now| + 1);
      assert now == log && log[..|log|] == log;
      ReduceManyConcat(Genesis(g.brainId), log, batch);
      forall i | 0 <= i < |batch| ensures batch[i].sequence.Some? {
        BatchEvents(events, |now| + 1, g.brainId, i);
      }
      BatchAdvances(g.state, batch);
      BatchNumbered(now, events, g.brainId);
      assert (now + batch)[..|now + batch|] == now + batch;
    }
  }

  lemma {:induction false} BatchEvents(events: seq<Event>, from: nat, brainId: Text, i: nat)
    requires forall k :: 0 <= k < |events| ==> events[k].brainId == brainId
    requires i < |events|
    ensures var x := SC.Numbered(events, from)[i];
            x.sequence == Some(from + i) && x.brainId == brainId && x.eventId == events[i].eventId
  {
    if i > 0 {
      assert forall k :: 0 <= k < |events[1..]| ==> events[1..][k] == events[k + 1];
      BatchEvents(events[1..], from + 1, brainId, i - 1);
    }
  }

  // Numbered from a given sequence on.
  predicate NumberedFrom(batch: seq<Event>, from: nat, brainId: Text) {
    forall i :: 0 <= i < |batch| ==> batch[i].sequence == Some(from + i) && batch[i].brainId == brainId
  }

  lemma BatchNumbered(now: seq<Event>, events: seq<Event>, brainId: Text)
    requires Numbered(now, brainId) && forall i :: 0 <= i < |events| ==> events[i].brainId == brainId
    ensures Numbered(now + SC.Numbered(events, |now| + 1), brainId)
  {
    BatchIsNumbered(events, |now| + 1, brainId);
    JoinNumbered(now, SC.Numbered(events, |now| + 1), brainId);
    hide *;
  }

  lemma BatchIsNumbered(events: seq<Event>, from: nat, brainId: Text)
    requires forall i :: 0 <= i < |events| ==> events[i].brainId == brainId
    ensures NumberedFrom(SC.Numbered(events, from), from, brainId)
  {
    hide SC.Numbered;
    forall i | 0 <= i < |SC.Numbered(events, from)|
      ensures SC.Numbered(events, from)[i].sequence == Some(from + i) &&
              SC.Numbered(events, from)[i].brainId == brainId
    {
      BatchEvents(events, from, brainId, i);
    }
  }

  lemma JoinNumbered(now: seq<Event>, batch: seq<Event>, brainId: Text)
    requires Numbered(now, brainId) && NumberedFrom(batch, |now| + 1, brainId)
    ensures Numbered(now + batch, brainId)
  {
    var all := now + batch;
    forall i | 0 <= i < |all| ensures all[i].sequence == Some(i + 1) && all[i].brainId == brainId {
      if i >= |now| {
        assert all[i] == batch[i - |now|];
      } else {
        assert all[i] == now[i];
      }
    }
  }

  /* ---------------- runs ---------------- */

  datatype Step =
    | AppendStep(event: Event, between: seq<Event>)
    | BatchStep(events: seq<Event>, between: seq<Event>)
    | OthersStep(more: seq<Event>)

  function Do(g: EngineState, log: seq<Event>, step: Step): (EngineState, seq<Event>) {
    match step
    case AppendStep(event, between) => var r := Append(g, log, event, between); (r.0, r.1)
    case BatchStep(events, between) => var r := AppendBatch(g, log, events, between); (r.0, r.1)
    case OthersStep(more) => (g, log + more)
  }

  // Other writers number their events as the ledger does, and use each
  // identifier once.
  ghost predicate Fair(g: EngineState, log: seq<Event>, step: Step) {
    match step
    case AppendStep(_, between) => Numbered(log + between, g.brainId) && UniqueIds(log + between)
    case BatchStep(_, between) => Numbered(log + between, g.brainId) && UniqueIds(log + between)
    case OthersStep(more) => Numbered(log + more, g.brainId) && UniqueIds(log + more)
  }

  ghost predicate FairRun(g: EngineState, log: seq<Event>, steps: seq<Step>)
    decreases |steps|
  {
    steps != [] ==> Fair(g, log, steps[0]) && (var r := Do(g, log, steps[0]); FairRun(r.0, r.1, steps[1..]))
  }

  function Run(g: EngineState, log: seq<Event>, steps: seq<Step>): (EngineState, seq<Event>)
    decreases |steps|
  {
    if steps == [] then (g, log) else var r := Do(g, log, steps[0]); Run(r.0, r.1, steps[1..])
  }

  lemma StepReplayed(g: EngineState, log: seq<Event>, step: Step)
    requires Replayed(g, log) && Fair(g, log, step)
    ensures var (r, after) := Do(g, log, step);
            Replayed(r, after) && log <= after && (g.diverged ==> r == g) && r.brainId == g.brainId
  {
    hide Replayed, Append, AppendBatch, ReduceState, Numbered;
    match step
    case AppendStep(event, between) =>
      AppendMeans(g, log, event, between);
      EffectGrows(g, log, event, between);
    case BatchStep(events, between) =>
      BatchMeans(g, log, events, between);
      BatchGrows(g, log, events, between);
    case OthersStep(more) =>
      IsNumbered(g, log);
      LongerReplayed(g, log, log + more, g.diverged);
  }

  lemma IsNumbered(g: EngineState, log: seq<Event>)
    requires Replayed(g, log)
    ensures Numbered(log, g.brainId)
  {
    hide ReduceMany;
  }

  lemma EffectGrows(g: EngineState, log: seq<Event>, e: Event, between: seq<Event>)
    requires Replayed(g, log) && Numbered(log + between, g.brainId)
    ensures log <= Append(g, log, e, between).1 && (g.diverged ==> Append(g, log, e, between).0 == g)
    ensures Append(g, log, e, between).0.brainId == g.brainId
  {
    AppendMeans(g, log, e, between);
    hide Append, Replayed, ReduceState, Numbered, SameBody;
  }

  lemma BatchGrows(g: EngineState, log: seq<Event>, events: seq<Event>, between: seq<Event>)
    ensures log <= AppendBatch(g, log, events, between).1
    ensures AppendBatch(g, log, events, between).0.brainId == g.brainId
  {
    hide SC.Sequenced;
  }

  // However other writers interleave, the published state is at every point
  // the fold of the first last_sequence events of the ledger; the ledger only
  // grows; and once the latch is set nothing more is published.
  lemma {:induction false} RunReplayed(g: EngineState, log: seq<Event>, steps: seq<Step>)
    requires Replayed(g, log) && FairRun(g, log, steps)
    ensures var (r, after) := Run(g, log, steps);
            Replayed(r, after) && log <= after && (g.diverged ==> r == g)
    decreases |steps|
  {
    hide Replayed, Do, Fair;
    if steps != [] {
      StepReplayed(g, log, steps[0]);
      var (t, now) := Do(g, log, steps[0]);
      RunReplayed(t, now, steps[1..]);
    }
  }

  lemma PrefixUnique(log: seq<Event>, more: seq<Event>)
    requires UniqueIds(log + more)
    ensures UniqueIds(log)
  {
    assert forall i :: 0 <= i < |log| ==> (log + more)[i] == log[i];
  }

  lemma InsertedUnique(log: seq<Event>, e: Event, expected: nat)
    requires UniqueIds(log)
    ensures UniqueIds(AppendExpected(log, e, expected).0)
  {
    var after := AppendExpected(log, e, expected).0;
    if after != log {
      assert forall i :: 0 <= i < |log| ==> after[i] == log[i] && log[i] in log;
      assert after[|log|].eventId == e.eventId;
    }
  }

  // No append and no batch writes an identifier twice.
  lemma AppendUnique(g: EngineState, log: seq<Event>, e: Event, between: seq<Event>)
    requires UniqueIds(log + between)
    ensures UniqueIds(Append(g, log, e, between).1)
  {
    PrefixUnique(log, between);
    InsertedUnique(log + between, e, g.state.lastSequence + 1);
    hide UniqueIds, AppendExpected, ReduceState, SameBody;
  }

  lemma BatchUnique(g: EngineState, log: seq<Event>, events: seq<Event>, between: seq<Event>)
    requires UniqueIds(log + between)
    ensures UniqueIds(AppendBatch(g, log, events, between).1)
  {
    hide *;
    var now := log + between;
    PrefixUnique(log, between);
    BatchLog(g, log, events, between);
    var after := AppendBatch(g, log, events, between).1;
    if after != log && after != now {
      JoinUnique(now, events, g.brainId);
    }
  }

  lemma BatchLog(g: EngineState, log: seq<Event>, events: seq<Event>, between: seq<Event>)
    ensures var now, after := log + between, AppendBatch(g, log, events, between).1;
            after == log || after == now ||
            (after == now + SC.Numbered(events, |now| + 1) && !Clash(now, events) &&
             forall i :: 0 <= i < |events| ==> events[i].brainId == g.brainId)
  {
    hide Clash, SC.Sequenced, SC.Numbered;
  }

  lemma JoinUnique(now: seq<Event>, events: seq<Event>, brainId: Text)
    requires UniqueIds(now) && !Clash(now, events)
    requires forall i :: 0 <= i < |events| ==> events[i].brainId == brainId
    ensures UniqueIds(now + SC.Numbered(events, |now| + 1))
  {
    var batch := SC.Numbered(events, |now| + 1);
    var all := now + batch;
    forall i | 0 <= i < |batch| ensures batch[i].eventId == events[i].eventId {
      BatchEvents(events, |now| + 1, brainId, i);
    }
    hide SC.Numbered;
    forall i, j | 0 <= i < j < |all| ensures all[i].eventId != all[j].eventId {
      if j < |now| {
        assert all[i] == now[i] && all[j] == now[j];
      } else if i < |now| {
        assert all[i] == now[i] && now[i] in now && all[j] == batch[j - |now|];
        assert FindEvent(now, events[j - |now|].eventId).None?;
      } else {
        assert all[i] == batch[i - |now|] && all[j] == batch[j - |now|];
      }
    }
  }

  lemma {:induction false} RunUnique(g: EngineState, log: seq<Event>, steps: seq<Step>)
    requires UniqueIds(log) && FairRun(g, log, steps)
    ensures UniqueIds(Run(g, log, steps).1)
    decreases |steps|
  {
    hide UniqueIds, Append, AppendBatch, Numbered;
    if steps != [] {
      match steps[0] {
        case AppendStep(event, between) => AppendUnique(g, log, event, between);
        case BatchStep(events, between) => BatchUnique(g, log, events, between);
        case OthersStep(more) =>
      }
      var (t, now) := Do(g, log, steps[0]);
      RunUnique(t, now, steps[1..]);
    }
  }

  // Appending the same event again finds it and changes nothing.
  lemma RepeatChangesNothing(g: EngineState, log: seq<Event>, e: Event, between: seq<Event>)
    requires Replayed(g, log) && Numbered(log + between, g.brainId) && Append(g, log, e, between).2.Appended?
    requires UniqueIds(log + between)
    ensures var (r, after, outcome) := Append(g, log, e, between);
            Append(r, after, e, []) == (r, after, Repeated(outcome.event))
  {
    AppendUnique(g, log, e, between);
    AppendMeans(g, log, e, between);
    var (r, after, outcome) := Append(g, log, e, between);
    AppendedFlags(g, log, e, between);
    hide Append, ReduceState;
    FoundAgain(after, outcome.event);
    PublishedHead(g, log, e, between);
    AppendKnown(r, after, e, outcome.event);
  }

  lemma AppendedFlags(g: EngineState, log: seq<Event>, e: Event, between: seq<Event>)
    requires Append(g, log, e, between).2.Appended?
    ensures e.brainId == g.brainId && e.sequence.None? && !Append(g, log, e, between).0.diverged
  {
    hide ReduceState, AppendExpected;
  }

  lemma FoundAgain(log: seq<Event>, x: Event)
    requires x in log && UniqueIds(log)
    ensures FindEvent(log, x.eventId) == Some(x)
  {
    var y := FindEvent(log, x.eventId).value;
    var i :| 0 <= i < |log| && log[i] == x;
    var j :| 0 <= j < |log| && log[j] == y;
  }

  lemma PublishedHead(g: EngineState, log: seq<Event>, e: Event, between: seq<Event>)
    requires Replayed(g, log) && Numbered(log + between, g.brainId) && Append(g, log, e, between).2.Appended?
    ensures Append(g, log, e, between).0.state.lastSequence == |Append(g, log, e, between).1|
  {
    AppendMeans(g, log, e, between);
    var (r, after, outcome) := Append(g, log, e, between);
    hide Append, ReduceState, Replayed;
    Advances(g.state, outcome.event);
  }

  lemma AppendKnown(g: EngineState, log: seq<Event>, e: Event, x: Event)
    requires !g.diverged && e.brainId == g.brainId && e.sequence.None? && |log| == g.state.lastSequence
    requires FindEvent(log, e.eventId) == Some(x) && x.(sequence := None) == e
    ensures Append(g, log, e, []) == (g, log, Repeated(x))
  {
    assert SameBody(x, e);
    hide Insert;
  }

  // After any run from a new ledger, with other writers in between, an append
  // that succeeds can be repeated: the event is found and nothing changes.
  lemma RepeatAfterRun(brainId: Text, steps: seq<Step>, e: Event, between: seq<Event>)
    requires var start := EngineState(brainId, Genesis(brainId), false);
             FairRun(start, [], steps) &&
             (var (g, log) := Run(start, [], steps);
              Fair(g, log, AppendStep(e, between)) && Append(g, log, e, between).2.Appended?)
    ensures var (g, log) := Run(EngineState(brainId, Genesis(brainId), false), [], steps);
            var (r, after, outcome) := Append(g, log, e, between);
            Append(r, after, e, []) == (r, after, Repeated(outcome.event))
  {
    var start := EngineState(brainId, Genesis(brainId), false);
    StartReplayed(brainId);
    RunReplayed(start, [], steps);
    var (g, log) := Run(start, [], steps);
    hide Run, Append, Replayed, FairRun;
    RepeatChangesNothing(g, log, e, between);
  }

  lemma StartReplayed(brainId: Text)
    ensures Replayed(EngineState(brainId, Genesis(brainId), false), [])
  {
  }
}
