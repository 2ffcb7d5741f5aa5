// The table of raw lifecycle counts over a run: in name order, one entry a
// name, and each entry the number of events of its name since the name was
// admitted (core/reducer.py).
module RawCounts {
  import opened Prelude
  import opened Values
  import opened Limits
  import opened State
  import opened Reducer
  import opened ReducerInvariant

  /* ---------------- name order ---------------- */

  predicate Before(a: string, b: string) {
    StringLe(a, b) && a != b
  }

  predicate InNameOrder(counts: seq<RawCount>) {
    forall i, j :: 0 <= i < j < |counts| ==> Before(counts[i].name, counts[j].name)
  }

  lemma CountedTail(counts: seq<RawCount>, name: string)
    requires Counted(counts, name) && counts[0].name != name
    ensures Counted(counts[1..], name)
  {
    var i :| 0 <= i < |counts| && counts[i].name == name;
    assert counts[1..][i - 1].name == name;
  }

  lemma OrderedTail(counts: seq<RawCount>)
    requires InNameOrder(counts) && counts != []
    ensures InNameOrder(counts[1..])
    ensures forall x :: x in counts[1..] ==> Before(counts[0].name, x.name)
  {
    hide StringLe;
  }

  lemma OrderedCons(x: RawCount, rest: seq<RawCount>)
    requires InNameOrder(rest) && forall y :: y in rest ==> Before(x.name, y.name)
    ensures InNameOrder([x] + rest)
  {
    hide StringLe;
  }

  // The entry itself, or the entry with one event less.
  function Less(y: RawCount, name: string): RawCount {
    if y.name == name && y.count > 0 then RawCount(name, y.count - 1) else y
  }

  // Incrementing touches the one entry of the name.
  lemma {:induction false} Incremented(counts: seq<RawCount>, name: string)
    requires InNameOrder(counts) && Counted(counts, name)
    ensures InNameOrder(Increment(counts, name))
    ensures forall y :: y in Increment(counts, name) ==> Less(y, name) in counts && (y.name == name ==> y.count > 0)
  {
    hide StringLe, InNameOrder, Before, Less;
    var head, rest := counts[0], counts[1..];
    OrderedTail(counts);
    assert counts == [head] + rest;
    if head.name == name {
      var r := head.(count := head.count + 1);
      assert Increment(counts, name) == [r] + rest;
      OrderedCons(r, rest);
      forall y | y in rest ensures Less(y, name) == y && y.name != name {
        BeforeDiffers(head.name, y.name);
        LessIs(y, name);
      }
      LessIs(r, name);
    } else {
      CountedTail(counts, name);
      Incremented(rest, name);
      var r := Increment(rest, name);
      assert Increment(counts, name) == [head] + r;
      forall y | y in r ensures Before(head.name, y.name) {
        LessIs(y, name);
        assert Less(y, name) in rest;
      }
      LessIs(head, name);
      OrderedCons(head, r);
    }
  }

  lemma LessIs(y: RawCount, name: string)
    ensures Less(y, name).name == y.name
    ensures y.name != name ==> Less(y, name) == y
    ensures y.name == name && y.count > 0 ==> Less(y, name) == RawCount(name, y.count - 1)
  {
  }

  lemma BeforeDiffers(a: string, b: string)
    requires Before(a, b)
    ensures a != b
  {
  }

  // Inserting puts the new name where it belongs.
  lemma {:induction false} Inserted(counts: seq<RawCount>, name: string)
    requires InNameOrder(counts) && !Counted(counts, name)
    ensures InNameOrder(InsertCount(counts, name))
    ensures forall y :: y in InsertCount(counts, name) <==> y in counts || y == RawCount(name, 1)
  {
    hide StringLe;
    var x := RawCount(name, 1);
    if counts != [] {
      var head, rest := counts[0], counts[1..];
      assert counts == [head] + rest;
      OrderedTail(counts);
      assert head.name != name;
      StringLeTotal(name, head.name);
      if StringLe(name, head.name) {
        forall y | y in counts ensures Before(name, y.name) {
          if y in rest {
            StringLeTransitive(name, head.name, y.name);
            StringLeTotal(head.name, y.name);
          }
        }
        OrderedCons(x, counts);
      } else {
        UncountedTail(counts, name);
        Inserted(rest, name);
        OrderedCons(head, InsertCount(rest, name));
      }
    }
  }

  lemma UncountedTail(counts: seq<RawCount>, name: string)
    requires counts != []
    ensures Counted(counts[1..], name) ==> Counted(counts, name)
  {
    forall i | 0 <= i < |counts[1..]| && counts[1..][i].name == name ensures Counted(counts, name) {
      assert counts[i + 1].name == name;
    }
  }

  lemma CountedOrdered(counts: seq<RawCount>, name: string)
    requires InNameOrder(counts)
    ensures InNameOrder(CountName(counts, name))
  {
    hide Increment, InsertCount, InNameOrder, Counted;
    if Counted(counts, name) {
      Incremented(counts, name);
    } else if |counts| >= MAX_RAW_LIFECYCLE_KEYS {
      OrderedTail(counts);
      UncountedTail(counts, name);
      Inserted(counts[1..], name);
    } else {
      Inserted(counts, name);
    }
  }

  /* ---------------- what the entries count ---------------- */

  function NameAt(events: seq<Event>, i: nat): string
    requires i < |events|
  {
    EventName(events[i].kind)
  }

  // The table after a run, from the names of its events alone.
  function Table(events: seq<Event>): seq<RawCount> {
    if events == [] then []
    else CountName(Table(events[..|events| - 1]), NameAt(events, |events| - 1))
  }

  // How many events from k on bear the name.
  function Since(events: seq<Event>, k: nat, name: string): nat
    requires k <= |events|
  {
    if k == |events| then 0
    else Since(events[..|events| - 1], k, name) + (if NameAt(events, |events| - 1) == name then 1 else 0)
  }

  // x was admitted by event k, has been in the table ever since, and counts
  // the events of its name from k on.
  ghost predicate AdmittedAt(events: seq<Event>, x: RawCount, k: nat) {
    && k < |events| && NameAt(events, k) == x.name && !Counted(Table(events[..k]), x.name)
    && (forall j :: k < j <= |events| ==> Counted(Table(events[..j]), x.name))
    && x.count == Since(events, k, x.name)
  }

  lemma AdmittedLater(front: seq<Event>, e: Event, x: RawCount, y: RawCount, k: nat)
    requires AdmittedAt(front, x, k) && y.name == x.name && y in Table(front + [e])
    requires y.count == x.count + if EventName(e.kind) == x.name then 1 else 0
    ensures AdmittedAt(front + [e], y, k)
  {
    var events := front + [e];
    assert events[..|events| - 1] == front && NameAt(events, |events| - 1) == EventName(e.kind);
    forall j | k < j <= |events| ensures Counted(Table(events[..j]), y.name) {
      if j == |events| {
        assert events[..j] == events;
        InIsCounted(Table(events), y);
      } else {
        assert events[..j] == front[..j];
      }
    }
    assert events[..k] == front[..k];
    hide Table, Counted, EventName;
  }

  lemma InIsCounted(counts: seq<RawCount>, y: RawCount)
    requires y in counts
    ensures Counted(counts, y.name)
  {
  }

  lemma AdmittedNow(events: seq<Event>, k: nat, x: RawCount)
    requires |events| == k + 1 && NameAt(events, k) == x.name && x.count == 1
    requires !Counted(Table(events[..k]), x.name) && x in Table(events)
    ensures AdmittedAt(events, x, k)
  {
    hide EventName, Table;
    assert events[..|events|] == events && events[..|events| - 1] == events[..k];
    InIsCounted(Table(events), x);
    assert Since(events[..k], k, x.name) == 0;
  }

  // The entry that an entry of the next table comes from.
  lemma EntryBefore(counts: seq<RawCount>, name: string, y: RawCount)
    requires InNameOrder(counts) && y in CountName(counts, name)
    ensures if Counted(counts, name) then Less(y, name) in counts && (y.name == name ==> y.count > 0)
            else y == RawCount(name, 1) || (y in counts && y.name != name)
  {
    hide Increment, InsertCount, InNameOrder, Counted, Less;
    if Counted(counts, name) {
      Incremented(counts, name);
    } else {
      if |counts| >= MAX_RAW_LIFECYCLE_KEYS {
        OrderedTail(counts);
        UncountedTail(counts, name);
        Inserted(counts[1..], name);
      } else {
        Inserted(counts, name);
      }
      if y in counts {
        InIsCounted(counts, y);
      }
    }
  }

  // Every table is in name order, and every entry counts the events of its
  // name since it was admitted.
  lemma {:induction false} TableExact(events: seq<Event>)
    ensures InNameOrder(Table(events))
    ensures forall y :: y in Table(events) ==> exists k: nat :: AdmittedAt(events, y, k)
    decreases |events|
  {
    hide CountName, AdmittedAt, InNameOrder, EventName, Counted;
    if events == [] {
      NothingCounted();
    } else {
      var front, e := events[..|events| - 1], events[|events| - 1];
      var name := EventName(e.kind);
      assert events == front + [e];
      TableExact(front);
      CountedOrdered(Table(front), name);
      forall y | y in Table(events) ensures exists k: nat :: AdmittedAt(events, y, k) {
        EntryBefore(Table(front), name, y);
        LessIs(y, name);
        if Counted(Table(front), name) {
          var k: nat :| AdmittedAt(front, Less(y, name), k);
          AdmittedLater(front, e, Less(y, name), y, k);
        } else if y.name == name {
          AdmittedNow(events, |front|, y);
        } else {
          var k: nat :| AdmittedAt(front, y, k);
          AdmittedLater(front, e, y, y, k);
        }
      }
    }
  }

  lemma NothingCounted()
    ensures InNameOrder([])
  {
  }

  /* ---------------- the reducer's table ---------------- */

  lemma ReducedCounts(s: BrainState, e: Event)
    requires ReduceState(s, e).Ok?
    ensures ReduceState(s, e).value.rawCounts == CountName(s.rawCounts, EventName(e.kind))
  {
    CommonCounts(s, e);
    SpecificCounts(Common(s, e).value, e);
    hide Common, ApplySpecific, CountName, EventName;
  }

  lemma CommonCounts(s: BrainState, e: Event)
    requires Common(s, e).Ok?
    ensures Common(s, e).value.rawCounts == CountName(s.rawCounts, EventName(e.kind))
  {
    hide CountEvent, ApplyIdentity, ApplyPersonality, ApplyActions, ApplyWorld, ApplyWorkspace, ApplyMemory, Trusted,
         CountName, EventName;
    var s0 := CountEvent(s, e);
    CountedTable(s, e);
    IdentityFrame(s0, e);
    var s1 := ApplyIdentity(s0, e).value;
    PersonalityFrame(s1, e);
    var s2 := ApplyPersonality(s1, e).value;
    ActionsFrame(s2, e, Trusted(s, e));
    var (s3, grounded) := ApplyActions(s2, e, Trusted(s, e)).value;
    WorldFrame(s3, e, Trusted(s, e), grounded);
    var s4 := ApplyWorld(s3, e, Trusted(s, e), grounded).value;
    WorkspaceFrame(s4, e);
    MemoryFrame(ApplyWorkspace(s4, e).value, e);
  }

  lemma CountedTable(s: BrainState, e: Event)
    ensures CountEvent(s, e).rawCounts == CountName(s.rawCounts, EventName(e.kind))
  {
    hide CountName, EventName;
  }

  lemma SpecificCounts(c: BrainState, e: Event)
    requires ApplySpecific(c, e).Ok?
    ensures ApplySpecific(c, e).value.rawCounts == c.rawCounts
  {
    hide ApplyTick, ApplyCapabilities, ApplyReassessment, ApplyAssessment, ApplySimulation, ApplyReflection,
         ApplyFailure, ApplyName, Get, Blank;
    match e.kind
    case BrainCreated => NameFrame(c, e);
    case IdentityNamed => NameFrame(c, e);
    case ClockTick => TickFrame(c, e);
    case CapabilitiesReported => CapabilitiesFrame(c, e);
    case EnergyRequested => if ApplySpecific(c, e) != Ok(c) { ReassessmentFrame(c, e); }
    case EnergyAssessed => AssessmentFrame(c, e);
    case SimulationCreated => SimulationFrame(c, e);
    case CognitionReflected => ReflectionFrame(c, e);
    case RuntimeFailed => FailureFrame(c, e);
    case _ =>
  }

  lemma {:induction false} RunCounts(brainId: Text, events: seq<Event>)
    requires ReduceMany(Genesis(brainId), events).Ok?
    ensures ReduceMany(Genesis(brainId), events).value.rawCounts == Table(events)
    decreases |events|
  {
    hide ReduceState, ReduceMany, CountName, EventName;
    var g := Genesis(brainId);
    if events == [] {
      NothingReduced(g);
    } else {
      var front, e := events[..|events| - 1], events[|events| - 1];
      assert events == front + [e];
      ReduceManyAppend(g, front, e);
      RunCounts(brainId, front);
      ReducedCounts(ReduceMany(g, front).value, e);
    }
  }

  // In every reachable state.
  lemma ReachableCounts(brainId: Text, events: seq<Event>)
    requires ReduceMany(Genesis(brainId), events).Ok?
    ensures var counts := ReduceMany(Genesis(brainId), events).value.rawCounts;
            && InNameOrder(counts)
            && forall y :: y in counts ==> exists k: nat :: AdmittedAt(events, y, k)
  {
    hide ReduceMany, AdmittedAt, InNameOrder, Table;
    RunCounts(brainId, events);
    TableExact(events);
  }
}
