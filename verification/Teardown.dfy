// Closing the daemon (runtime/daemon.py): operations drain, six stages run in
// order, any of them may fail and be tried again, and an owner that could not
// release its lease stays retained for a later attempt.
module Teardown {
  import opened Prelude

  type Id = int

  /* ---------------- the stages ---------------- */

  datatype Stage = Schedulers | Worker | Ledger | Credential | Discovery | Lease

  const ORDER := [Schedulers, Worker, Ledger, Credential, Discovery, Lease]

  datatype Flags = Flags(schedulersStopped: bool, workerStopped: bool, ledgerClosed: bool, credentialCleaned: bool,
                         discoveryCleaned: bool, leaseReleased: bool)

  // The stage that close tries next.
  function NextStage(f: Flags): Option<Stage> {
    if !f.schedulersStopped then Some(Schedulers)
    else if !f.workerStopped then Some(Worker)
    else if !f.ledgerClosed then Some(Ledger)
    else if !f.credentialCleaned then Some(Credential)
    else if !f.discoveryCleaned then Some(Discovery)
    else if !f.leaseReleased then Some(Lease)
    else None
  }

  function Mark(f: Flags, stage: Stage): Flags {
    match stage
    case Schedulers => f.(schedulersStopped := true)
    case Worker => f.(workerStopped := true)
    case Ledger => f.(ledgerClosed := true)
    case Credential => f.(credentialCleaned := true)
    case Discovery => f.(discoveryCleaned := true)
    case Lease => f.(leaseReleased := true)
  }

  // How the outside calls of one close end: the schedulers that do not stop,
  // the other stages that raise, and whether a raising release has released
  // nevertheless.
  datatype Outcome = Outcome(stuck: set<Id>, raises: set<Stage>, releasedAnyway: bool)

  // The schedulers, those known to be stopped, the flags, and every completion
  // so far.
  datatype Work = Work(schedulers: seq<Id>, stopped: set<Id>, flags: Flags, completions: seq<Stage>)

  function Complete(w: Work, stage: Stage): Work {
    w.(flags := Mark(w.flags, stage), completions := w.completions + [stage])
  }

  // Every scheduler that was stopped before or stops now.
  function NowStopped(w: Work, stuck: set<Id>): set<Id> {
    w.stopped + (set i | 0 <= i < |w.schedulers| && w.schedulers[i] !in stuck :: w.schedulers[i])
  }

  lemma NoneStops(w: Work, stuck: set<Id>)
    ensures NowStopped(w.(schedulers := w.schedulers[..0]), stuck) == w.stopped
  {
  }

  lemma StopsNext(w: Work, i: nat, stuck: set<Id>)
    requires i < |w.schedulers|
    ensures var id := w.schedulers[i];
            NowStopped(w.(schedulers := w.schedulers[..i + 1]), stuck) ==
            NowStopped(w.(schedulers := w.schedulers[..i]), stuck) + (if id in stuck then {} else {id})
  {
    var a, b := w.schedulers[..i], w.schedulers[..i + 1];
    forall x | x in NowStopped(w.(schedulers := b), stuck)
      ensures x in NowStopped(w.(schedulers := a), stuck) + (if b[i] in stuck then {} else {b[i]})
    {
      if x !in w.stopped {
        var k :| 0 <= k < |b| && b[k] !in stuck && b[k] == x;
        if k < i {
          assert a[k] == x;
        }
      }
    }
    forall x | x in NowStopped(w.(schedulers := a), stuck) ensures x in NowStopped(w.(schedulers := b), stuck) {
      if x !in w.stopped {
        var k :| 0 <= k < |a| && a[k] !in stuck && a[k] == x;
        assert b[k] == x;
      }
    }
    assert b[i] == w.schedulers[i];
  }

  predicate AllStopped(w: Work) {
    forall i :: 0 <= i < |w.schedulers| ==> w.schedulers[i] in w.stopped
  }

  // One stage; false when it fails.
  function Attempt(w: Work, stage: Stage, o: Outcome): (Work, bool) {
    match stage
    case Schedulers =>
      var w' := w.(stopped := NowStopped(w, o.stuck));
      if AllStopped(w') then (Complete(w', stage), true) else (w', false)
    case Lease =>
      if Lease in o.raises && !o.releasedAnyway then (w, false) else (Complete(w, stage), true)
    case _ =>
      if stage in o.raises then (w, false) else (Complete(w, stage), true)
  }

  function Remaining(f: Flags): nat {
    (if f.schedulersStopped then 0 else 1) + (if f.workerStopped then 0 else 1) + (if f.ledgerClosed then 0 else 1) +
    (if f.credentialCleaned then 0 else 1) + (if f.discoveryCleaned then 0 else 1) + (if f.leaseReleased then 0 else 1)
  }

  // Stage after stage until one fails or none is left.
  function Stages(w: Work, o: Outcome): (Work, bool)
    decreases Remaining(w.flags)
  {
    var stage := NextStage(w.flags);
    if stage.None? then (w, true)
    else
      var (w', ok) := Attempt(w, stage.value, o);
      if ok then Stages(w', o) else (w', false)
  }

  lemma StagesStep(w: Work, o: Outcome)
    ensures NextStage(w.flags).None? ==> Stages(w, o) == (w, true)
    ensures NextStage(w.flags).Some? ==>
              var (w', ok) := Attempt(w, NextStage(w.flags).value, o);
              Stages(w, o) == if ok then Stages(w', o) else (w', false)
  {
  }

  lemma SchedulersStep(w: Work, o: Outcome)
    requires !w.flags.schedulersStopped
    ensures var w' := w.(stopped := NowStopped(w, o.stuck));
            Stages(w, o) == if AllStopped(w') then Stages(Complete(w', Schedulers), o) else (w', false)
  {
    StagesStep(w, o);
    hide Stages;
  }

  lemma StageStep(w: Work, o: Outcome, stage: Stage)
    requires NextStage(w.flags) == Some(stage) && stage != Schedulers
    ensures Stages(w, o) ==
            if stage in o.raises && !(stage == Lease && o.releasedAnyway) then (w, false)
            else Stages(Complete(w, stage), o)
  {
    StagesStep(w, o);
    hide Stages;
  }

  lemma NothingLeft(w: Work, o: Outcome)
    requires NextStage(w.flags).None?
    ensures Stages(w, o) == (w, true)
  {
  }

  /* ---------------- the registry of failed owners ---------------- */

  // The runtime, the transport server that wraps it, or another runtime.
  datatype Owner = Runtime | Wrapper | Foreign

  // _retain_failed_owner: a wrapper and its runtime stand for each other.
  predicate MayRetain(entry: Option<Owner>, x: Owner) {
    entry.None? || entry.value == x || (x == Wrapper && entry.value == Runtime) ||
    (x == Runtime && entry.value == Wrapper)
  }

  // The wrapper wins over its runtime; a foreign owner is never replaced.
  function Retained(entry: Option<Owner>, x: Owner): Option<Owner> {
    if !MayRetain(entry, x) || entry == Some(Wrapper) then entry else Some(x)
  }

  // _claim_failed_owner, and _discard_exact_closed_owner once closed
  function Claimed(entry: Option<Owner>, x: Owner): Option<Owner> {
    if entry == Some(x) then None else entry
  }

  // _restore_claimed_failed_owner
  function Restored(entry: Option<Owner>, x: Owner): Option<Owner> {
    if entry.None? then Some(x) else entry
  }

  /* ---------------- the class ---------------- */

  // Every method that the lifecycle lock or the registry lock covers, and the
  // try block of close, flag by flag.
  class HermesDaemonRuntime {
    var activeOperations: nat
    var closing: bool
    var closed: bool
    // the registry entry of this runtime home, shared by the class
    var failedOwner: Option<Owner>
    var transportInstalled: bool
    var schedulers: seq<Id>
    var stoppedSchedulerIds: set<Id>
    var schedulersStopped: bool
    var workerStopped: bool
    var ledgerClosed: bool
    var credentialCleaned: bool
    var discoveryCleaned: bool
    var leaseReleased: bool
    ghost var completions: seq<Stage>

    ghost function View(): Work
      reads this
    {
      Work(schedulers, stoppedSchedulerIds,
           Flags(schedulersStopped, workerStopped, ledgerClosed, credentialCleaned, discoveryCleaned, leaseReleased),
           completions)
    }

    constructor ()
      ensures View() == Fresh() && activeOperations == 0 && !closing && !closed
      ensures failedOwner == None && !transportInstalled
    {
      activeOperations, closing, closed, failedOwner, transportInstalled := 0, false, false, None, false;
      schedulers, stoppedSchedulerIds, completions := [], {}, [];
      schedulersStopped, workerStopped, ledgerClosed := false, false, false;
      credentialCleaned, discoveryCleaned, leaseReleased := false, false, false;
    }

    method BeginOperation() returns (ok: bool)
      modifies this`activeOperations
      ensures ok <==> !closing && !closed
      ensures activeOperations == old(activeOperations) + if ok then 1 else 0
    {
      if closed || closing {
        return false;
      }
      activeOperations := activeOperations + 1;
      return true;
    }

    method EndOperation()
      requires activeOperations > 0
      modifies this`activeOperations
      ensures activeOperations == old(activeOperations) - 1
    {
      activeOperations := activeOperations - 1;
    }

    // false: another owner is retained for this home.
    method RetainFailedOwner(x: Owner) returns (ok: bool)
      modifies this`failedOwner
      ensures failedOwner == Retained(old(failedOwner), x)
      ensures ok <==> MayRetain(old(failedOwner), x)
    {
      if failedOwner.Some? && failedOwner.value != x {
        if x == Wrapper && failedOwner.value == Runtime {
          failedOwner := Some(x);
          return true;
        }
        return failedOwner.value == Wrapper && x == Runtime;
      }
      failedOwner := Some(x);
      return true;
    }

    method ClaimFailedOwner(x: Owner)
      modifies this`failedOwner
      ensures failedOwner == Claimed(old(failedOwner), x)
    {
      if failedOwner == Some(x) {
        failedOwner := None;
      }
    }

    method RestoreClaimedFailedOwner(x: Owner)
      modifies this`failedOwner
      ensures failedOwner == if closed then old(failedOwner) else Restored(old(failedOwner), x)
    {
      if closed {
        return;
      }
      if failedOwner.None? {
        failedOwner := Some(x);
      }
    }

    method MarkFailStopped()
      modifies this`closing, this`failedOwner
      ensures closing
      ensures failedOwner == Retained(old(failedOwner), if transportInstalled then Wrapper else Runtime)
    {
      closing := true;
      var ok := RetainFailedOwner(if transportInstalled then Wrapper else Runtime);
    }

    // close, from the moment at which no operation is active.
    method CloseDrained(o: Outcome) returns (ok: bool)
      requires activeOperations == 0
      modifies this
      ensures closing == (old(closing) || !old(closed)) && activeOperations == 0
      ensures old(closed) ==> ok && View() == old(View()) && closed
      ensures !old(closed) ==> (View(), ok) == Stages(old(View()), o) && closed == ok
      ensures failedOwner == if ok then Claimed(old(failedOwner), Runtime)
                             else Retained(Claimed(old(failedOwner), Runtime), Runtime)
    {
      ClaimFailedOwner(Runtime);
      if closed {
        return true;
      }
      closing := true;
      ok := TearDown(o);
      if !ok {
        var kept := RetainFailedOwner(Runtime);
        return;
      }
      closed := true;
      ClaimFailedOwner(Runtime);
    }

    method StopAllSchedulers(stuck: set<Id>) returns (ok: bool)
      modifies this`stoppedSchedulerIds
      ensures stoppedSchedulerIds == NowStopped(old(View()), stuck)
      ensures ok <==> AllStopped(View())
    {
      hide NowStopped;
      NoneStops(View(), stuck);
      ok := true;
      for i := 0 to |schedulers|
        invariant stoppedSchedulerIds == NowStopped(old(View()).(schedulers := schedulers[..i]), stuck)
        invariant ok ==> forall j :: 0 <= j < i ==> schedulers[j] in stoppedSchedulerIds
        invariant !ok ==> exists j :: 0 <= j < i && schedulers[j] in stuck && schedulers[j] !in stoppedSchedulerIds
      {
        var id := schedulers[i];
        StopsNext(old(View()), i, stuck);
        if id !in stoppedSchedulerIds {
          if id in stuck {
            ok := false;
          } else {
            stoppedSchedulerIds := stoppedSchedulerIds + {id};
          }
        }
      }
      assert schedulers[..|schedulers|] == schedulers;
    }

    // Schedulers, snapshot worker, ledger: every writer is gone.
    method StopWriters(o: Outcome) returns (ok: bool)
      modifies this`stoppedSchedulerIds, this`schedulersStopped, this`workerStopped, this`ledgerClosed,
               this`credentialCleaned, this`discoveryCleaned, this`leaseReleased, this`completions
      ensures Stages(old(View()), o) == if ok then Stages(View(), o) else (View(), false)
      ensures ok ==> schedulersStopped && workerStopped && ledgerClosed
    {
      hide Stages, NowStopped, AllStopped;
      if !schedulersStopped {
        SchedulersStep(View(), o);
        ok := StopAllSchedulers(o.stuck);
        if !ok {
          return;
        }
        schedulersStopped, completions := true, completions + [Schedulers];
      }
      if !workerStopped {
        StageStep(View(), o, Worker);
        if Worker in o.raises {
          return false;
        }
        workerStopped, completions := true, completions + [Worker];
      }
      if !ledgerClosed {
        StageStep(View(), o, Ledger);
        if Ledger in o.raises {
          return false;
        }
        ledgerClosed, completions := true, completions + [Ledger];
      }
      return true;
    }

    // Credential, discovery record, lease.
    method CleanAndRelease(o: Outcome) returns (ok: bool)
      requires schedulersStopped && workerStopped && ledgerClosed
      modifies this`stoppedSchedulerIds, this`schedulersStopped, this`workerStopped, this`ledgerClosed,
               this`credentialCleaned, this`discoveryCleaned, this`leaseReleased, this`completions
      ensures Stages(old(View()), o) == (View(), ok)
    {
      hide Stages;
      if !credentialCleaned {
        StageStep(View(), o, Credential);
        if Credential in o.raises {
          return false;
        }
        credentialCleaned, completions := true, completions + [Credential];
      }
      if !discoveryCleaned {
        StageStep(View(), o, Discovery);
        if Discovery in o.raises {
          return false;
        }
        discoveryCleaned, completions := true, completions + [Discovery];
      }
      if !leaseReleased {
        StageStep(View(), o, Lease);
        if Lease in o.raises && !o.releasedAnyway {
          return false;
        }
        leaseReleased, completions := true, completions + [Lease];
      }
      NothingLeft(View(), o);
      return true;
    }

    method TearDown(o: Outcome) returns (ok: bool)
      modifies this`stoppedSchedulerIds, this`schedulersStopped, this`workerStopped, this`ledgerClosed,
               this`credentialCleaned, this`discoveryCleaned, this`leaseReleased, this`completions
      ensures (View(), ok) == Stages(old(View()), o)
    {
      hide Stages;
      ok := StopWriters(o);
      if ok {
        ok := CleanAndRelease(o);
      }
    }
  }

  function Fresh(): Work {
    Work([], {}, Flags(false, false, false, false, false, false), [])
  }

  /* ---------------- runs ---------------- */

  // Who holds the shutdown lock.
  datatype Turn = Free | Draining | Tearing

  datatype Daemon = Daemon(
    active: nat,
    closing: bool,
    closed: bool,
    work: Work,
    entry: Option<Owner>,
    installed: bool,
    // callers of close that wait for the shutdown lock, and its holder
    waiting: nat,
    turn: Turn,
    // owners taken out of the registry by a retry or by their own cleanup
    held: seq<Owner>,
    // a close has failed before release, or the runtime has fail-stopped
    troubled: bool,
    // the last attempt to retain the owner found another runtime's in place
    lost: bool)

  datatype Act =
    | Begin
    | End
    | AddScheduler(id: Id)
    | FailStop
    | InstallTransport
    | CallClose
    | EnterClose
    | Proceed(outcome: Outcome)
    | Retry
    | TransportClaims
    | HeldCloses(at: nat)
    // a transport cleanup that gives up retains the wrapper; a retry puts its
    // owner back if the entry is free
    | HeldGivesUp(at: nat, retains: bool)
    | Restore(owner: Owner)
    | Discard(owner: Owner)
    // the entry is taken by another runtime of this home, such as one that is
    // closed but whose transport wrapper was never proved quiet
    | Occupy

  function Initial(): Daemon {
    Daemon(0, false, false, Fresh(), None, false, 0, Free, [], false, false)
  }

  function Without(held: seq<Owner>, i: nat): seq<Owner>
    requires i < |held|
  {
    held[..i] + held[i + 1..]
  }

  // Steps that no guard admits change nothing.
  function Do(d: Daemon, a: Act): Daemon {
    match a
    case Begin => if d.closed || d.closing then d else d.(active := d.active + 1)
    case End => if d.active == 0 then d else d.(active := d.active - 1)
    case AddScheduler(id) =>
      if d.active == 0 then d else d.(work := d.work.(schedulers := d.work.schedulers + [id]))
    case FailStop =>
      Kept(d.(closing := true, troubled := true), if d.installed then Wrapper else Runtime)
    case InstallTransport =>
      d.(installed := true, entry := if d.entry == Some(Runtime) then Some(Wrapper) else d.entry)
    case CallClose => Called(d)
    case EnterClose =>
      if d.waiting == 0 || d.turn != Free then d
      else if d.closed then d.(waiting := d.waiting - 1)
      else d.(waiting := d.waiting - 1, closing := true, turn := Draining)
    case Proceed(o) => Holder(d, o)
    case Retry => if d.entry.None? then d else d.(entry := None, held := d.held + [d.entry.value])
    case TransportClaims =>
      if !d.installed then d else d.(entry := Claimed(d.entry, Wrapper), held := d.held + [Wrapper])
    case HeldCloses(i) =>
      if i >= |d.held| then d
      else if d.held[i] == Foreign then d.(held := Without(d.held, i))
      else Called(d.(held := Without(d.held, i)))
    case HeldGivesUp(i, retains) =>
      if i >= |d.held| then d
      else
        var t := d.(held := Without(d.held, i));
        if d.closed then t
        else if retains && d.held[i] == Wrapper then Kept(t, Wrapper)
        else PutBack(t, d.held[i])
    case Restore(x) => if d.closed || x == Foreign then d else PutBack(d, x)
    case Discard(x) => if d.closed then d.(entry := Claimed(d.entry, x)) else d
    case Occupy => if d.entry.None? then d.(entry := Some(Foreign)) else d
  }

  // Retaining the owner works exactly when no other runtime's is in place.
  function Kept(d: Daemon, x: Owner): Daemon {
    d.(entry := Retained(d.entry, x), lost := d.entry == Some(Foreign))
  }

  // A restored owner never overwrites what it finds.
  function PutBack(d: Daemon, x: Owner): Daemon {
    d.(entry := Restored(d.entry, x), lost := if x == Foreign then d.lost else d.entry == Some(Foreign))
  }

  // close claims its entry, then waits for the lock.
  function Called(d: Daemon): Daemon {
    d.(entry := Claimed(d.entry, Runtime), waiting := d.waiting + 1)
  }

  // The holder of the lock drains, runs one stage, or ends.
  function Holder(d: Daemon, o: Outcome): Daemon {
    match d.turn
    case Free => d
    case Draining => if d.active == 0 then d.(turn := Tearing) else d
    case Tearing =>
      var stage := NextStage(d.work.flags);
      if stage.None? then d.(closed := true, turn := Free, entry := Claimed(d.entry, Runtime))
      else
        var (work, ok) := Attempt(d.work, stage.value, o);
        if ok then d.(work := work)
        else Kept(d.(work := work, turn := Free, troubled := true), Runtime)
  }

  function Run(acts: seq<Act>): Daemon {
    if acts == [] then Initial() else Do(Run(acts[..|acts| - 1]), acts[|acts| - 1])
  }

  /* ---------------- what every step keeps ---------------- */

  predicate Ordered(f: Flags) {
    && (f.leaseReleased ==> f.discoveryCleaned)
    && (f.discoveryCleaned ==> f.credentialCleaned)
    && (f.credentialCleaned ==> f.ledgerClosed)
    && (f.ledgerClosed ==> f.workerStopped)
    && (f.workerStopped ==> f.schedulersStopped)
  }

  // The completions so far are an initial part of the order, each once.
  predicate Staged(w: Work) {
    && Ordered(w.flags)
    && w.completions == ORDER[..6 - Remaining(w.flags)]
    && (w.flags.schedulersStopped ==> AllStopped(w))
  }

  // No operation is active once anything is torn down, and none will be.
  predicate Quiet(d: Daemon) {
    && (d.turn == Tearing || d.work.stopped != {} || d.work.flags.schedulersStopped ==> d.active == 0 && d.closing)
    && (d.turn == Draining || d.closed ==> d.closing)
    && (d.closed ==> d.work.flags.leaseReleased)
    && (d.work.flags.leaseReleased && !d.closed ==> d.turn == Tearing)
  }

  predicate Own(entry: Option<Owner>) {
    entry.Some? && entry.value != Foreign
  }

  predicate OwnHeld(held: seq<Owner>) {
    exists i :: 0 <= i < |held| && held[i] != Foreign
  }

  // A runtime in trouble is retained, or someone is at work on it, or the last
  // attempt to retain it was refused.
  predicate Remembered(d: Daemon) {
    d.troubled && !d.closed ==> Own(d.entry) || d.waiting > 0 || d.turn != Free || OwnHeld(d.held) || d.lost
  }

  predicate Inv(d: Daemon) {
    Staged(d.work) && Quiet(d) && Remembered(d)
  }

  lemma AttemptStaged(w: Work, o: Outcome)
    requires Staged(w) && NextStage(w.flags).Some?
    ensures Staged(Attempt(w, NextStage(w.flags).value, o).0)
    ensures Attempt(w, NextStage(w.flags).value, o).1 ==>
              Attempt(w, NextStage(w.flags).value, o).0.completions == w.completions + [NextStage(w.flags).value]
  {
  }

  lemma StagedKept(d: Daemon, a: Act)
    requires Inv(d)
    ensures Staged(Do(d, a).work)
  {
    hide Remembered;
    if a.Proceed? && d.turn == Tearing && NextStage(d.work.flags).Some? {
      AttemptStaged(d.work, a.outcome);
      hide Attempt, Staged;
    }
  }

  lemma QuietKept(d: Daemon, a: Act)
    requires Inv(d)
    ensures Quiet(Do(d, a))
  {
    hide Remembered, AllStopped, NowStopped;
  }

  lemma RememberedKept(d: Daemon, a: Act)
    requires Inv(d)
    ensures Remembered(Do(d, a))
  {
    hide Staged, Quiet, Attempt;
    match a
    case Proceed(o) => HolderRemembered(d, o); hide Remembered, Holder;
    case HeldCloses(_) => HeldRemembered(d, a); hide Remembered, Do;
    case HeldGivesUp(_, _) => HeldRemembered(d, a); hide Remembered, Do;
    case Retry => if d.entry.Some? { Joined(d.held, d.entry.value); } hide Holder;
    case TransportClaims => Joined(d.held, Wrapper); hide Holder;
    case _ => hide Holder;
  }

  lemma Joined(held: seq<Owner>, x: Owner)
    ensures OwnHeld(held + [x]) <==> OwnHeld(held) || x != Foreign
  {
    var r := held + [x];
    assert r[|held|] == x;
    if OwnHeld(held) {
      var i :| 0 <= i < |held| && held[i] != Foreign;
      assert r[i] == held[i];
    }
  }

  // Taking another runtime's owner out leaves the own ones in.
  lemma OthersHeld(held: seq<Owner>, i: nat)
    requires i < |held| && held[i] == Foreign && OwnHeld(held)
    ensures OwnHeld(Without(held, i))
  {
    var k :| 0 <= k < |held| && held[k] != Foreign;
    assert Without(held, i)[if k < i then k else k - 1] == held[k];
  }

  lemma HolderRemembered(d: Daemon, o: Outcome)
    requires Remembered(d)
    ensures Remembered(Holder(d, o))
  {
    hide Attempt;
  }

  lemma HeldRemembered(d: Daemon, a: Act)
    requires Remembered(d) && (a.HeldCloses? || a.HeldGivesUp?)
    ensures Remembered(Do(d, a))
  {
    if a.at < |d.held| && d.held[a.at] == Foreign && OwnHeld(d.held) {
      OthersHeld(d.held, a.at);
    }
    hide Holder, Without, OwnHeld;
  }

  lemma {:induction false} RunKeeps(acts: seq<Act>)
    ensures Inv(Run(acts))
  {
    if acts != [] {
      var before, a := Run(acts[..|acts| - 1]), acts[|acts| - 1];
      RunKeeps(acts[..|acts| - 1]);
      StagedKept(before, a);
      QuietKept(before, a);
      RememberedKept(before, a);
      hide Do, Staged, Quiet, Remembered;
    }
  }

  /* ---------------- the promises ---------------- */

  // At every point of every run the stages that are done are the first ones,
  // each done once.
  lemma TeardownOrder(acts: seq<Act>)
    ensures var w := Run(acts).work;
            && Ordered(w.flags)
            && w.completions <= ORDER
            && (forall i, j :: 0 <= i < j < |w.completions| ==> w.completions[i] != w.completions[j])
            && (Lease in w.completions <==> w.flags.leaseReleased)
            && (Ledger in w.completions <==> w.flags.ledgerClosed)
            && (w.flags.ledgerClosed ==> AllStopped(w))
  {
    RunKeeps(acts);
    var w := Run(acts).work;
    hide Run;
    assert ORDER[2] == Ledger && ORDER[5] == Lease;
    if w.flags.ledgerClosed {
      assert w.completions[2] == Ledger;
    }
    if w.flags.leaseReleased {
      assert w.completions[5] == Lease;
    }
  }

  // Nothing is torn down under an operation.
  lemma QuietTeardown(acts: seq<Act>)
    ensures var d := Run(acts);
            d.work.stopped != {} || d.work.completions != [] || d.turn == Tearing || d.closed ==>
              d.active == 0 && Do(d, Begin) == d
  {
    RunKeeps(acts);
    hide Run;
  }

  // A runtime whose close has failed, or that has fail-stopped, is in the
  // registry until it is closed, unless somebody is closing it right now or
  // another runtime held the entry when it was last to be retained.
  lemma NeverForgotten(acts: seq<Act>)
    ensures var d := Run(acts);
            d.troubled && !d.closed && !d.lost && d.waiting == 0 && d.turn == Free && d.held == [] ==>
              d.entry == Some(Runtime) || d.entry == Some(Wrapper)
  {
    RunKeeps(acts);
    var d := Run(acts);
    hide Run;
    if d.entry.Some? {
      match d.entry.value
      case Foreign =>
      case _ =>
    }
  }

  // Whether a close that fails keeps its owner is decided by the entry alone:
  // it does if and only if no other runtime's owner is in place.
  lemma FailedCloseRetained(d: Daemon, o: Outcome)
    requires d.turn == Tearing && !d.closed && NextStage(d.work.flags).Some? && !Attempt(d.work, NextStage(d.work.flags).value, o).1
    ensures var z := Do(d, Proceed(o));
            z.troubled && !z.closed && (Own(z.entry) <==> d.entry != Some(Foreign)) && (z.lost <==> d.entry == Some(Foreign))
  {
    hide Attempt;
  }

  // The other case is real: this runtime's close fails while another runtime's
  // wrapper is in the registry, and nothing remembers it afterwards.
  lemma OwnerCanBeLost()
    ensures var o := Outcome({}, {Worker}, false);
            var d := Run([Occupy, CallClose, EnterClose] + [Proceed(o), Proceed(o), Proceed(o)]);
            d.troubled && !d.closed && d.waiting == 0 && d.turn == Free && d.held == [] && d.entry == Some(Foreign)
  {
    var o := Outcome({}, {Worker}, false);
    var a, p := [Occupy, CallClose, EnterClose], Proceed(o);
    assert [] + [Occupy] == [Occupy] && [Occupy] + [CallClose] == [Occupy, CallClose];
    assert [Occupy, CallClose] + [EnterClose] == a;
    assert (a + [p]) + [p] == a + [p, p] && (a + [p, p]) + [p] == a + [p, p, p];
    RunSnoc([], Occupy);
    RunSnoc([Occupy], CallClose);
    RunSnoc([Occupy, CallClose], EnterClose);
    RunSnoc(a, p);
    RunSnoc(a + [p], p);
    RunSnoc(a + [p, p], p);
    hide Run;
    Occupied();
    ThreeStages(Run(a), o);
  }

  lemma Occupied()
    ensures var d := Do(Do(Do(Initial(), Occupy), CallClose), EnterClose);
            && d.turn == Draining && d.active == 0 && d.entry == Some(Foreign) && d.work == Fresh()
            && !d.closed && d.waiting == 0 && d.held == []
  {
  }

  lemma ThreeStages(d: Daemon, o: Outcome)
    requires d.turn == Draining && d.active == 0 && d.entry == Some(Foreign) && d.work == Fresh()
    requires !d.closed && d.waiting == 0 && d.held == [] && o == Outcome({}, {Worker}, false)
    ensures var z := Do(Do(Do(d, Proceed(o)), Proceed(o)), Proceed(o));
            z.troubled && !z.closed && z.waiting == 0 && z.turn == Free && z.held == [] && z.entry == Some(Foreign)
  {
    var e := Do(d, Proceed(o));
    assert e.turn == Tearing && e.work == d.work;
    var f := Do(e, Proceed(o));
    assert f.work.flags.schedulersStopped && !f.work.flags.workerStopped && f.turn == Tearing;
  }

  lemma RunSnoc(acts: seq<Act>, a: Act)
    ensures Run(acts + [a]) == Do(Run(acts), a)
    ensures Run([]) == Initial()
  {
    assert (acts + [a])[..|acts|] == acts;
    hide Do;
  }

  // A released lease means a close that is about to report success.
  lemma ReleasedMeansClosed(acts: seq<Act>)
    ensures var d := Run(acts);
            d.work.flags.leaseReleased <==> d.closed || (d.turn == Tearing && NextStage(d.work.flags).None?)
  {
    RunKeeps(acts);
    hide Run;
  }

  // Retrying without failures finishes what is left, and only that.
  lemma {:induction false} CleanRetry(w: Work)
    requires Staged(w)
    ensures var (w', ok) := Stages(w, Outcome({}, {}, false));
            ok && NextStage(w'.flags).None? && w'.completions == ORDER && AllStopped(w')
    decreases Remaining(w.flags)
  {
    if NextStage(w.flags).Some? {
      var o := Outcome({}, {}, false);
      AttemptStaged(w, o);
      CleanRetry(Attempt(w, NextStage(w.flags).value, o).0);
    }
  }
}
