// The coalescing snapshot worker (runtime/snapshot.py): publications and
// registrations land between its steps, and none of them is forgotten.
//
// What the worker keeps about each brain in dictionaries of their own is one
// record here. Every section that holds the condition is a function on the
// state and a method of the class.
module Snapshot {
  import opened Prelude

  type Id = int

  // One brain: its engine, observed head, last snapshot, next attempt, and
  // whether it is pending or its last attempt failed.
  datatype Brain = Brain(
    engine: Option<int>,
    head: Option<nat>,
    last: Option<nat>,
    next: Option<nat>,
    pending: bool,
    error: bool)

  const UNSEEN := Brain(None, None, None, None, false, false)

  function OrZero(n: Option<nat>): nat {
    if n.Some? then n.value else 0
  }

  // No next attempt is set, or the head has reached it.
  predicate Due(x: Brain) {
    x.next.Some? ==> OrZero(x.head) >= x.next.value
  }

  /* ---------------- what a section does to its brain ---------------- */

  // register, unless another engine is registered.
  function Enrolled(x: Brain, engine: int, sequence: nat, known: Option<nat>, interval: nat): Brain {
    var seen := x.(engine := Some(engine), head := Some(Max(OrZero(x.head), sequence)));
    var told := if known.None? then seen else seen.(last := known, next := Some(known.value + interval));
    if Due(told) then told.(pending := true) else told
  }

  function Notified(x: Brain, sequence: nat): Brain {
    var seen := x.(head := Some(Max(OrZero(x.head), sequence)));
    if x.engine.Some? && (x.next.None? || sequence >= x.next.value) then seen.(pending := true) else seen
  }

  function Loaded(x: Brain, sequence: nat): Brain {
    x.(last := Some(sequence), error := false)
  }

  function Skipped(x: Brain, latest: nat, interval: nat): Brain {
    x.(next := Some(latest + interval))
  }

  function Recorded(x: Brain, sequence: nat, interval: nat): Brain {
    x.(last := Some(sequence), next := Some(sequence + interval), error := false)
  }

  function FailedAt(x: Brain, from: nat, interval: nat): Brain {
    x.(next := Some(from + interval), error := true)
  }

  function Finished(x: Brain): Brain {
    if x.next.Some? && OrZero(x.head) >= x.next.value then x.(pending := true) else x
  }

  /* ---------------- the worker ---------------- */

  // Where _process stands between two sections.
  datatype Stage =
    | Taken
    | Checked(latest: nat)
    | Looked(latest: nat, observed: nat)
    | Attempting(attempted: nat)
    | Saved(sequence: nat)
    | Failed(attempted: nat, transient: bool)
    | Broken(transient: bool)
    | Finishing

  datatype Phase = Waiting | Processing(brain: Id, stage: Stage) | Exited

  datatype State = State(
    interval: nat,
    brains: map<Id, Brain>,
    count: nat,
    latest: nat,
    stopping: bool,
    alarmed: bool,
    phase: Phase)

  function Of(brains: map<Id, Brain>, b: Id): Brain {
    if b in brains then brains[b] else UNSEEN
  }

  function Initial(interval: nat): State {
    State(interval, map[], 0, 0, false, false, Waiting)
  }

  predicate NonePending(brains: map<Id, Brain>) {
    forall b :: b in brains ==> !brains[b].pending
  }

  function Put(s: State, b: Id, x: Brain): State {
    s.(brains := s.brains[b := x])
  }

  function PutAt(s: State, b: Id, x: Brain, stage: Stage): State {
    s.(brains := s.brains[b := x], phase := Processing(b, stage))
  }

  // None: another engine is registered for the brain.
  function Register(s: State, b: Id, engine: int, sequence: nat, known: Option<nat>): Option<State> {
    var x := Of(s.brains, b);
    if x.engine.Some? && x.engine.value != engine then None
    else Some(Put(s, b, Enrolled(x, engine, sequence, known, s.interval)))
  }

  function Notify(s: State, b: Id, sequence: nat): State {
    Put(s, b, Notified(Of(s.brains, b), sequence))
  }

  function Take(s: State, b: Id): State {
    PutAt(s, b, Of(s.brains, b).(pending := false), Taken)
  }

  // The latest snapshot, remembered or loaded.
  function Check(s: State, b: Id, loaded: nat): State {
    var x := Of(s.brains, b);
    if x.last.Some? then s.(phase := Processing(b, Checked(x.last.value)))
    else PutAt(s, b, Loaded(x, loaded), Checked(loaded))
  }

  function Look(s: State, b: Id, latest: nat, published: nat): State {
    var head := Of(s.brains, b).head;
    s.(phase := Processing(b, Looked(latest, if head.Some? then head.value else published)))
  }

  function Skip(s: State, b: Id, latest: nat): State {
    PutAt(s, b, Skipped(Of(s.brains, b), latest, s.interval), Finishing)
  }

  function RecordSaved(s: State, b: Id, sequence: nat): State {
    PutAt(s, b, Recorded(Of(s.brains, b), sequence, s.interval), Finishing)
      .(count := s.count + 1, latest := Max(s.latest, sequence))
  }

  // A failed attempt waits one interval past `from`; an error that is not an
  // I/O error also stops the daemon.
  function RecordFailure(s: State, b: Id, from: nat, transient: bool): State {
    PutAt(s, b, FailedAt(Of(s.brains, b), from, s.interval), Finishing).(alarmed := s.alarmed || !transient)
  }

  function Finish(s: State, b: Id): State {
    Put(s, b, Finished(Of(s.brains, b))).(phase := Waiting)
  }

  class SnapshotWorker {
    const intervalEvents: nat
    var brains: map<Id, Brain>
    var snapshotCount: nat
    var latestSequence: nat
    var stopping: bool
    var fatalReported: bool
    var phase: Phase

    function View(): State
      reads this
    {
      State(intervalEvents, brains, snapshotCount, latestSequence, stopping, fatalReported, phase)
    }

    constructor (interval: nat)
      requires interval >= 1
      ensures View() == Initial(interval)
    {
      intervalEvents, brains, snapshotCount, latestSequence := interval, map[], 0, 0;
      stopping, fatalReported, phase := false, false, Waiting;
    }

    method OnRegister(b: Id, engine: int, sequence: nat, known: Option<nat>) returns (ok: bool)
      modifies this
      ensures ok <==> Register(old(View()), b, engine, sequence, known).Some?
      ensures View() == if ok then Register(old(View()), b, engine, sequence, known).value else old(View())
    {
      var x := Of(brains, b);
      if x.engine.Some? && x.engine.value != engine {
        return false;
      }
      x := x.(engine := Some(engine));
      x := x.(head := Some(Max(OrZero(x.head), sequence)));
      if known.Some? {
        x := x.(last := known);
        x := x.(next := Some(known.value + intervalEvents));
      }
      if x.next.None? || x.head.value >= x.next.value {
        x := x.(pending := true);
      }
      brains := brains[b := x];
      return true;
    }

    method OnNotify(b: Id, sequence: nat)
      modifies this
      ensures View() == Notify(old(View()), b, sequence)
    {
      var x := Of(brains, b);
      x := x.(head := Some(Max(OrZero(x.head), sequence)));
      if x.engine.Some? {
        if x.next.None? || sequence >= x.next.value {
          x := x.(pending := true);
        }
      }
      brains := brains[b := x];
    }

    method TakePending(b: Id)
      requires b in brains && brains[b].pending
      modifies this
      ensures View() == Take(old(View()), b)
    {
      brains := brains[b := brains[b].(pending := false)];
      phase := Processing(b, Taken);
    }

    // `loaded` answers load_snapshot, which is asked only when no sequence is
    // remembered.
    method CheckLatest(b: Id, loaded: nat)
      modifies this
      ensures View() == Check(old(View()), b, loaded)
    {
      var x := Of(brains, b);
      var latest := OrZero(x.last);
      if x.last.None? {
        latest := loaded;
        x := x.(last := Some(latest));
        brains := brains[b := x.(error := false)];
      }
      phase := Processing(b, Checked(latest));
    }

    method SkipUntilInterval(b: Id, latest: nat)
      modifies this
      ensures View() == Skip(old(View()), b, latest)
    {
      brains := brains[b := Of(brains, b).(next := Some(latest + intervalEvents))];
      phase := Processing(b, Finishing);
    }

    method OnSaved(b: Id, sequence: nat)
      modifies this
      ensures View() == RecordSaved(old(View()), b, sequence)
    {
      var x := Of(brains, b);
      x := x.(last := Some(sequence), next := Some(sequence + intervalEvents));
      snapshotCount := snapshotCount + 1;
      latestSequence := Max(latestSequence, sequence);
      brains := brains[b := x.(error := false)];
      phase := Processing(b, Finishing);
    }

    method OnFailure(b: Id, from: nat, transient: bool)
      modifies this
      ensures View() == RecordFailure(old(View()), b, from, transient)
    {
      brains := brains[b := Of(brains, b).(error := true, next := Some(from + intervalEvents))];
      if !transient {
        fatalReported := true;
      }
      phase := Processing(b, Finishing);
    }

    method FinishProcessing(b: Id)
      modifies this
      ensures View() == Finish(old(View()), b)
    {
      phase := Waiting;
      var x := Of(brains, b);
      if x.next.Some? && OrZero(x.head) >= x.next.value {
        x := x.(pending := true);
      }
      brains := brains[b := x];
    }
  }

  /* ---------------- runs ---------------- */

  // The sequence that a brain's engine has published, and that of its newest
  // snapshot in the ledger.
  datatype Outside = Outside(published: nat, stored: nat)

  datatype System = System(worker: State, outside: map<Id, Outside>)

  function Beyond(outside: map<Id, Outside>, b: Id): Outside {
    if b in outside then outside[b] else Outside(0, 0)
  }

  datatype Act =
    // an engine moves forward, then tells the worker
    | Publish(brain: Id, more: nat)
    | Tell(brain: Id)
    // registration, with or without the newest snapshot's sequence
    | Enroll(brain: Id, engine: int, toldNewest: bool)
    | Pick(brain: Id)
    // one section of the worker; the flags say how an outside call ends
    | Work(succeeds: bool, transient: bool)
    | RequestStop

  function Do(y: System, a: Act): System {
    var s := y.worker;
    match a
    case Publish(b, more) =>
      var o := Beyond(y.outside, b);
      y.(outside := y.outside[b := o.(published := o.published + more)])
    case Tell(b) => y.(worker := Notify(s, b, Beyond(y.outside, b).published))
    case Enroll(b, engine, toldNewest) =>
      var o := Beyond(y.outside, b);
      var r := Register(s, b, engine, o.published, if toldNewest then Some(o.stored) else None);
      if r.Some? then y.(worker := r.value) else y
    case Pick(b) => if s.phase.Waiting? && Of(s.brains, b).pending then y.(worker := Take(s, b)) else y
    case Work(succeeds, transient) => Advance(y, succeeds, transient)
    case RequestStop => y.(worker := s.(stopping := true))
  }

  // The loop around _process.
  function Advance(y: System, succeeds: bool, transient: bool): System {
    var s := y.worker;
    match s.phase
    case Waiting => if s.stopping && NonePending(s.brains) then y.(worker := s.(phase := Exited)) else y
    case Processing(b, stage) =>
      var o := Beyond(y.outside, b);
      if stage.Attempting? && succeeds
      then System(s.(phase := Processing(b, Saved(o.published))), y.outside[b := o.(stored := o.published)])
      else y.(worker := Section(s, b, stage, o, succeeds, transient))
    case Exited => y
  }

  // _process, section by section, but for a successful checkpoint, after which
  // the ledger has the snapshot before the worker has recorded it.
  function Section(s: State, b: Id, stage: Stage, o: Outside, succeeds: bool, transient: bool): State {
    match stage
    case Taken =>
      if Of(s.brains, b).last.Some? || succeeds then Check(s, b, o.stored)
      else s.(phase := Processing(b, Broken(transient)))
    case Checked(latest) => Look(s, b, latest, o.published)
    case Looked(latest, observed) =>
      if observed - latest < s.interval then Skip(s, b, latest)
      else s.(phase := Processing(b, Attempting(o.published)))
    case Attempting(attempted) => s.(phase := Processing(b, Failed(attempted, transient)))
    case Saved(sequence) => RecordSaved(s, b, sequence)
    case Failed(attempted, t) => RecordFailure(s, b, attempted, t)
    case Broken(t) => RecordFailure(s, b, OrZero(Of(s.brains, b).head), t)
    case Finishing => Finish(s, b)
  }

  function Run(y: System, acts: seq<Act>): System {
    if acts == [] then y else Do(Run(y, acts[..|acts| - 1]), acts[|acts| - 1])
  }

  // A worker over any ledger whose snapshots are not ahead of its engines.
  ghost predicate Fresh(y: System) {
    && y.worker.interval >= 1 && y.worker == Initial(y.worker.interval)
    && forall b :: Beyond(y.outside, b).stored <= Beyond(y.outside, b).published
  }

  /* ---------------- what every step keeps, brain by brain ---------------- */

  predicate OnSchedule(x: Brain, interval: nat) {
    x.next.Some? && x.last.Some? && x.next.value == x.last.value + interval
  }

  // `stage` is where the worker stands with this brain, if it has it in hand.
  predicate BrainOk(x: Brain, stage: Option<Stage>, o: Outside, interval: nat) {
    // only registered brains are handled
    && (x.pending || x.last.Some? || x.next.Some? || stage.Some? ==> x.engine.Some?)
    && (x.engine.Some? ==> x.head.Some?)
    // no brain that is due is forgotten
    && (x.engine.Some? && Due(x) ==> x.pending || stage.Some?)
    // the remembered sequence is the ledger's, except just after a write
    && (x.last.Some? && !(stage.Some? && stage.value.Saved?) ==> x.last.value == o.stored)
    && OrZero(x.head) <= o.published
    // without an error, the next attempt is an interval past the last snapshot
    && (x.next.Some? && stage.None? && !x.error ==> OnSchedule(x, interval))
    && (stage.Some? ==> InHand(x, stage.value, o, interval))
  }

  predicate InHand(x: Brain, stage: Stage, o: Outside, interval: nat) {
    match stage
    case Checked(latest) => x.last == Some(latest)
    case Looked(latest, observed) => x.last == Some(latest) && observed <= o.published
    case Attempting(_) => x.last.Some? && o.stored + interval <= o.published
    case Saved(sequence) => o.stored == sequence
    case Finishing => x.next.Some? && (x.error || OnSchedule(x, interval))
    case _ => true
  }

  function StageOf(s: State, b: Id): Option<Stage> {
    if s.phase.Processing? && s.phase.brain == b then Some(s.phase.stage) else None
  }

  predicate OkAt(y: System, b: Id) {
    BrainOk(Of(y.worker.brains, b), StageOf(y.worker, b), Beyond(y.outside, b), y.worker.interval)
  }

  ghost predicate Inv(y: System) {
    && y.worker.interval >= 1
    && forall b :: OkAt(y, b)
  }

  lemma OutsideKeeps(y: System, a: Act, b: Id)
    requires OkAt(y, b) && (a.Publish? || a.RequestStop? || a.Tell?)
    ensures OkAt(Do(y, a), b)
  {
    hide Advance, Register, Take;
  }

  lemma EnrollKeeps(y: System, c: Id, engine: int, toldNewest: bool, b: Id)
    requires OkAt(y, b)
    ensures OkAt(Do(y, Enroll(c, engine, toldNewest)), b)
  {
    hide Advance, Notify, Take;
  }

  lemma PickKeeps(y: System, c: Id, b: Id)
    requires OkAt(y, b)
    ensures OkAt(Do(y, Pick(c)), b)
  {
    hide Advance, Notify, Register;
  }

  // A section for another brain does not concern b.
  lemma SectionFrame(s: State, c: Id, stage: Stage, o: Outside, succeeds: bool, transient: bool, b: Id)
    requires b != c && StageOf(s, b).None?
    ensures var t := Section(s, c, stage, o, succeeds, transient);
            Of(t.brains, b) == Of(s.brains, b) && StageOf(t, b).None? && t.interval == s.interval
  {
  }

  lemma SectionKeeps(s: State, b: Id, stage: Stage, o: Outside, succeeds: bool, transient: bool)
    requires s.interval >= 1 && s.phase == Processing(b, stage) && !(stage.Attempting? && succeeds)
    requires BrainOk(Of(s.brains, b), Some(stage), o, s.interval)
    ensures var t := Section(s, b, stage, o, succeeds, transient);
            BrainOk(Of(t.brains, b), StageOf(t, b), o, s.interval) && t.interval == s.interval
  {
    match stage
    case Taken => hide Skip, RecordSaved, RecordFailure, Finish, Look;
    case Checked(_) => hide Check, Skip, RecordSaved, RecordFailure, Finish;
    case Looked(_, _) => hide Check, Look, RecordSaved, RecordFailure, Finish;
    case Saved(_) => hide Check, Skip, Look, RecordFailure, Finish;
    case Finishing => hide Check, Skip, Look, RecordSaved, RecordFailure;
    case _ => hide Check, Skip, Look, RecordSaved, Finish;
  }

  lemma WorkKeeps(y: System, succeeds: bool, transient: bool, b: Id)
    requires OkAt(y, b) && y.worker.interval >= 1
    ensures OkAt(Advance(y, succeeds, transient), b)
  {
    match y.worker.phase
    case Processing(c, stage) =>
      var o := Beyond(y.outside, c);
      if stage.Attempting? && succeeds {
        hide Section;
      } else if b == c {
        SectionKeeps(y.worker, b, stage, o, succeeds, transient);
        hide Section, BrainOk;
      } else {
        SectionFrame(y.worker, c, stage, o, succeeds, transient, b);
        hide Section, BrainOk;
      }
    case _ => hide Section, BrainOk;
  }

  lemma StepKeepsBrain(y: System, a: Act, b: Id)
    requires OkAt(y, b) && y.worker.interval >= 1
    ensures OkAt(Do(y, a), b)
  {
    match a
    case Enroll(c, engine, toldNewest) => EnrollKeeps(y, c, engine, toldNewest, b); hide *;
    case Pick(c) => PickKeeps(y, c, b); hide *;
    case Work(succeeds, transient) => WorkKeeps(y, succeeds, transient, b); hide OkAt, Advance;
    case _ => OutsideKeeps(y, a, b); hide *;
  }

  lemma StepFrame(y: System, a: Act)
    ensures Do(y, a).worker.interval == y.worker.interval
  {
  }

  lemma StepKeeps(y: System, a: Act)
    requires Inv(y)
    ensures Inv(Do(y, a))
  {
    StepFrame(y, a);
    forall b ensures OkAt(Do(y, a), b) {
      StepKeepsBrain(y, a, b);
    }
    hide OkAt, Do;
  }

  lemma {:induction false} RunKeeps(y: System, acts: seq<Act>)
    requires Fresh(y)
    ensures Inv(Run(y, acts))
  {
    if acts != [] {
      RunKeeps(y, acts[..|acts| - 1]);
      StepKeeps(Run(y, acts[..|acts| - 1]), acts[|acts| - 1]);
      hide Inv, Do;
    }
  }

  /* ---------------- the promises ---------------- */

  // No wakeup is lost: whatever lands between the worker's steps, a registered
  // brain whose head has reached its next attempt, or that has none, is
  // pending or in hand.
  lemma NoLostWakeup(y: System, acts: seq<Act>, b: Id)
    requires Fresh(y)
    ensures var s := Run(y, acts).worker;
            var x := Of(s.brains, b);
            x.engine.Some? && (x.next.None? || OrZero(x.head) >= x.next.value) ==>
              x.pending || (s.phase.Processing? && s.phase.brain == b)
  {
    RunKeeps(y, acts);
    assert OkAt(Run(y, acts), b);
    hide Run, Fresh;
  }

  // A registered brain that is idle and has no error is less than an interval
  // past its newest snapshot in the ledger.
  lemma IdleIsRecent(y: System, acts: seq<Act>, b: Id)
    requires Fresh(y)
    ensures var z := Run(y, acts);
            var x := Of(z.worker.brains, b);
            x.engine.Some? && !x.pending && StageOf(z.worker, b).None? && !x.error ==>
              x.head.Some? && x.head.value < Beyond(z.outside, b).stored + z.worker.interval
  {
    RunKeeps(y, acts);
    assert OkAt(Run(y, acts), b);
    hide Run, Fresh;
  }

  // A worker that stops has left nothing due.
  lemma StopDrains(y: System, acts: seq<Act>, b: Id)
    requires Fresh(y) && Run(y, acts).worker.phase.Waiting?
    requires Advance(Run(y, acts), true, true).worker.phase.Exited?
    ensures var x := Of(Run(y, acts).worker.brains, b); x.engine.Some? ==> !Due(x)
  {
    RunKeeps(y, acts);
    assert OkAt(Run(y, acts), b);
    hide Run, Fresh;
  }

  /* ---------------- how often snapshots are written ---------------- */

  predicate Writes(y: System, a: Act, b: Id) {
    a.Work? && a.succeeds && StageOf(y.worker, b).Some? && StageOf(y.worker, b).value.Attempting?
  }

  // The sequences of the snapshots that a run writes for one brain.
  function Written(y: System, acts: seq<Act>, b: Id): seq<nat> {
    if acts == [] then []
    else
      var before, a := acts[..|acts| - 1], acts[|acts| - 1];
      Written(y, before, b) +
      (if Writes(Run(y, before), a, b) then [Beyond(Run(y, before).outside, b).published] else [])
  }

  function Newest(first: nat, written: seq<nat>): nat {
    if written == [] then first else written[|written| - 1]
  }

  // Each is at least an interval past the one before it.
  predicate Spaced(first: nat, written: seq<nat>, interval: nat) {
    written != [] ==>
      Spaced(first, written[..|written| - 1], interval) &&
      Newest(first, written[..|written| - 1]) + interval <= written[|written| - 1]
  }

  // Successive snapshots of one brain are at least an interval apart.
  lemma {:induction false} SnapshotsSpaced(y: System, acts: seq<Act>, b: Id)
    requires Fresh(y)
    ensures var written, first := Written(y, acts, b), Beyond(y.outside, b).stored;
            && Spaced(first, written, y.worker.interval)
            && Beyond(Run(y, acts).outside, b).stored == Newest(first, written)
            && Run(y, acts).worker.interval == y.worker.interval
  {
    if acts != [] {
      var before, a := acts[..|acts| - 1], acts[|acts| - 1];
      SnapshotsSpaced(y, before, b);
      RunKeeps(y, before);
      assert OkAt(Run(y, before), b);
      WriteIsLater(Run(y, before), a, b);
      var earlier, all := Written(y, before, b), Written(y, acts, b);
      assert all == earlier || all[..|all| - 1] == earlier;
      hide Inv, Do, OkAt, Fresh, Writes;
    }
  }

  lemma WriteIsLater(y: System, a: Act, b: Id)
    requires OkAt(y, b)
    ensures Writes(y, a, b) ==> Beyond(y.outside, b).stored + y.worker.interval <= Beyond(y.outside, b).published
    ensures Beyond(Do(y, a).outside, b).stored ==
            if Writes(y, a, b) then Beyond(y.outside, b).published else Beyond(y.outside, b).stored
    ensures Do(y, a).worker.interval == y.worker.interval
  {
    StepFrame(y, a);
    hide Register, Notify, Take, Section;
  }
}
