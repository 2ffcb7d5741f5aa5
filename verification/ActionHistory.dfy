// The lifecycle of one action over a whole run: which phases it passes
// through, and what its receipts add up to.
module ActionHistory {
  import opened Prelude
  import opened Values
  import opened Limits
  import opened Actions

  /* ---------------- phases ---------------- */

  // The only phase histories an action can have.  A late receipt takes a
  // reconstructed action back to the receipt phase without extending them.
  predicate PhasesOk(a: ActionRecord) {
    match a.phase
    case Proposed => a.phaseHistory == [Proposed]
    case Prepared => a.phaseHistory == [Proposed, Prepared]
    case Blocked => a.phaseHistory == [Proposed, Prepared, Blocked]
    case Dispatched => a.phaseHistory == [Proposed, Prepared, Dispatched]
    case Receipt => a.phaseHistory == [Proposed, Prepared, Dispatched, Receipt] ||
                    a.phaseHistory == [Proposed, Prepared, Dispatched, Receipt, Reconstructed]
    case Reconstructed => a.phaseHistory == [Proposed, Prepared, Blocked, Reconstructed] ||
                          a.phaseHistory == [Proposed, Prepared, Dispatched, Receipt, Reconstructed]
  }

  predicate WasDispatched(a: ActionRecord) {
    Dispatched in a.phaseHistory
  }

  predicate WasReceipted(a: ActionRecord) {
    Receipt in a.phaseHistory
  }

  // No receipt, no outcome; and the other way round.
  predicate EvidenceOk(a: ActionRecord) {
    && (a.receipt.Some? <==> WasReceipted(a))
    && (a.receipt.None? ==> a.outcome.None? && a.receiptHistory == [])
  }

  predicate Lifecycle(a: ActionRecord) {
    ValidAction(a) && PhasesOk(a) && EvidenceOk(a)
  }

  /* ---------------- what the receipts add up to ---------------- */

  // One accepted receipt: the event, and whether its provenance was trusted
  // when it was reduced.
  datatype Evidence = Evidence(event: Event, trusted: bool)

  function Status(x: Evidence): ReceiptStatus {
    var s := StatusOf(Get(x.event.payload, STATUS));
    if s.None? then Unknown else s.value
  }

  function Grounded(x: Evidence): set<Text> {
    var g := GroundedIds(x.event.payload, x.trusted);
    if g.Ok? then g.value else {}
  }

  // Position of the first receipt whose status is not unknown.
  function FirstKnown(log: seq<Evidence>): (r: Option<nat>)
    ensures r.Some? ==> r.value < |log| && !Status(log[r.value]).Unknown?
    ensures r.Some? ==> forall i :: 0 <= i < r.value ==> Status(log[i]).Unknown?
    ensures r.None? ==> forall i :: 0 <= i < |log| ==> Status(log[i]).Unknown?
  {
    if log == [] then None
    else if !Status(log[0]).Unknown? then Some(0)
    else
      var rest := FirstKnown(log[1..]);
      assert forall i :: 0 < i < |log| ==> log[i] == log[1..][i - 1];
      if rest.None? then None else Some(rest.value + 1)
  }

  // The outcome: that of the first receipt with a known status.
  function Verdict(log: seq<Evidence>): Option<Outcome> {
    var k := FirstKnown(log);
    if k.None? then None else OutcomeOf(Status(log[k.value]))
  }

  // The canonical receipt: the first with a known status, or else the first.
  function Canonical(log: seq<Evidence>): Option<Payload> {
    if log == [] then None
    else
      var k := FirstKnown(log);
      Some(log[if k.None? then 0 else k.value].event.payload)
  }

  // How many receipts report an outcome.
  function Reports(log: seq<Evidence>, outcome: Outcome): (n: nat) {
    if log == [] then 0
    else Reports(log[..|log| - 1], outcome) +
         (if OutcomeOf(Status(log[|log| - 1])) == Some(outcome) then 1 else 0)
  }

  function Opposite(outcome: Outcome): Outcome {
    if outcome.Succeeded? then Failed else Succeeded
  }

  // What a receipt x contributes after the receipts `before`.
  function DispositionAfter(before: seq<Evidence>, x: Evidence): Disposition {
    if Status(x).Unknown? then Pending
    else if Verdict(before).None? then (if before == [] then Confirmed else Resolution)
    else if Verdict(before) == OutcomeOf(Status(x)) then Corroboration
    else Conflict
  }

  function RecordAfter(before: seq<Evidence>, x: Evidence): ReceiptRecord {
    var p := x.event.payload;
    ReceiptRecord(
      x.event.eventId, Status(x), DispositionAfter(before, x), Get(p, SOURCE_STATUS), Get(p, SOURCE_ERROR_TYPE),
      before != [], if Status(x).Unknown? then None else Some(true), OutcomeOf(Status(x)), Sorted(Grounded(x)), p)
  }

  function Records(log: seq<Evidence>): (r: seq<ReceiptRecord>)
    ensures |r| == |log|
  {
    if log == [] then []
    else Records(log[..|log| - 1]) + [RecordAfter(log[..|log| - 1], log[|log| - 1])]
  }

  // The record agrees with its whole receipt log.
  ghost predicate Accounts(a: ActionRecord, log: seq<Evidence>) {
    && a.receiptHistory == KeepLast(Records(log), MAX_ACTION_RECEIPT_HISTORY)
    && a.receiptHistoryEvicted + |a.receiptHistory| == |log|
    && a.outcome == Verdict(log)
    && a.receipt == Canonical(log)
    && a.corroborations == Corroborations(log)
    && a.conflicts == Conflicts(log)
    && (a.effectConfirmed == if (exists i :: 0 <= i < |log| && Grounded(log[i]) != {}) then Some(true) else None)
    && (log != [] <==> WasReceipted(a))
  }

  // Receipts that repeat the outcome after the one that set it.
  function Corroborations(log: seq<Evidence>): int {
    var v := Verdict(log);
    if v.None? then 0 else Reports(log, v.value) - 1
  }

  // Receipts that contradict it.
  function Conflicts(log: seq<Evidence>): int {
    var v := Verdict(log);
    if v.None? then 0 else Reports(log, Opposite(v.value))
  }

  /* ---------------- one more receipt ---------------- */

  lemma {:induction false} FirstKnownAppend(log: seq<Evidence>, x: Evidence)
    ensures FirstKnown(log + [x]) ==
            if FirstKnown(log).Some? then FirstKnown(log)
            else if Status(x).Unknown? then None else Some(|log|)
  {
    if log == [] {
      assert [] + [x] == [x];
    } else {
      assert (log + [x])[1..] == log[1..] + [x];
      FirstKnownAppend(log[1..], x);
    }
  }

  // Once set, the outcome never changes; the canonical receipt changes only
  // when it is the first one with a known status.
  lemma VerdictAppend(log: seq<Evidence>, x: Evidence)
    ensures Verdict(log + [x]) == if Verdict(log).Some? then Verdict(log) else OutcomeOf(Status(x))
    ensures Canonical(log + [x]) ==
            if log == [] || (Verdict(log).None? && !Status(x).Unknown?) then Some(x.event.payload)
            else Canonical(log)
  {
    FirstKnownAppend(log, x);
    var all := log + [x];
    assert all[|log|] == x && forall i :: 0 <= i < |log| ==> all[i] == log[i];
  }

  lemma ReportsAppend(log: seq<Evidence>, x: Evidence, outcome: Outcome)
    ensures Reports(log + [x], outcome) ==
            Reports(log, outcome) + (if OutcomeOf(Status(x)) == Some(outcome) then 1 else 0)
  {
    assert (log + [x])[..|log|] == log;
  }

  lemma {:induction false} NothingReported(log: seq<Evidence>, outcome: Outcome)
    requires Verdict(log).None?
    ensures Reports(log, outcome) == 0
  {
    if log != [] {
      var front := log[..|log| - 1];
      assert log == front + [log[|log| - 1]];
      VerdictAppend(front, log[|log| - 1]);
      NothingReported(front, outcome);
    }
  }

  lemma CountsAppend(log: seq<Evidence>, x: Evidence)
    ensures Corroborations(log + [x]) ==
            Corroborations(log) + (if DispositionAfter(log, x).Corroboration? then 1 else 0)
    ensures Conflicts(log + [x]) ==
            Conflicts(log) + (if DispositionAfter(log, x).Conflict? then 1 else 0)
  {
    VerdictAppend(log, x);
    ReportsAppend(log, x, Succeeded);
    ReportsAppend(log, x, Failed);
    if Verdict(log).None? {
      NothingReported(log, Succeeded);
      NothingReported(log, Failed);
    }
  }

  lemma RecordsAppend(log: seq<Evidence>, x: Evidence)
    ensures Records(log + [x]) == Records(log) + [RecordAfter(log, x)]
  {
    assert (log + [x])[..|log|] == log;
  }

  // Every receipt with a known status either set the outcome, corroborates it
  // or conflicts with it.
  function Definitive(log: seq<Evidence>): nat {
    Reports(log, Succeeded) + Reports(log, Failed)
  }

  lemma DefinitiveSplit(log: seq<Evidence>)
    ensures Definitive(log) ==
            (if Verdict(log).Some? then 1 else 0) + Corroborations(log) + Conflicts(log)
  {
    if Verdict(log).None? {
      NothingReported(log, Succeeded);
      NothingReported(log, Failed);
    }
  }

  /* ---------------- every step of an action ---------------- */

  predicate ReceiptGuards(a: ActionRecord, e: Event, trusted: bool) {
    var status := StatusOf(Get(e.payload, STATUS));
    && status.Some?
    && ReceiptSourceOk(status.value, Get(e.payload, SOURCE_STATUS), Get(e.payload, SOURCE_ERROR_TYPE))
    && LateFlagOk(a, e.payload)
    && GroundedIds(e.payload, trusted).Ok?
  }

  lemma PhaseFacts(a: ActionRecord)
    requires Lifecycle(a)
    ensures a.phase == Dispatched ==> WasDispatched(a) && !WasReceipted(a)
    ensures a.phase == Receipt ==> WasDispatched(a) && WasReceipted(a)
    ensures WasReceipted(a) ==> WasDispatched(a) && (a.phase == Receipt || a.phase == Reconstructed)
    ensures WasDispatched(a) ==> Blocked !in a.phaseHistory
    ensures a.phase in {Proposed, Prepared} ==>
              !WasDispatched(a) && !WasReceipted(a) && Blocked !in a.phaseHistory
  {
    hide ValidAction;
  }

  // The receipt record that the reducer mints is the one the log prescribes.
  lemma MintedRecord(a: ActionRecord, e: Event, trusted: bool, log: seq<Evidence>)
    requires Lifecycle(a) && Accounts(a, log) && ReceiptGuards(a, e, trusted) && WasDispatched(a)
    ensures NewReceipt(a, e, StatusOf(Get(e.payload, STATUS)).value, GroundedIds(e.payload, trusted).value) ==
            RecordAfter(log, Evidence(e, trusted))
  {
    PhaseFacts(a);
    hide ValidAction, PhasesOk, ReceiptSourceOk, GroundedIds, Records, FirstKnown, Reports;
  }

  lemma MintedRecordValid(a: ActionRecord, e: Event, trusted: bool)
    requires ReceiptGuards(a, e, trusted)
    ensures ValidReceipt(NewReceipt(a, e, StatusOf(Get(e.payload, STATUS)).value,
                                    GroundedIds(e.payload, trusted).value))
  {
    hide GroundedIds, ReceiptSourceOk;
  }

  lemma StatusReadsBack(status: ReceiptStatus)
    ensures StatusOf(Str(StatusText(status))) == Some(status)
  {
  }

  lemma Decisions(o: Option<bool>)
    ensures o.None? || o == Some(true) || o == Some(false)
  {
    match o
    case None =>
    case Some(b) => if b { assert o == Some(true); } else { assert o == Some(false); }
  }

  lemma CanonicalAfter(a: ActionRecord, r: ReceiptRecord)
    requires Lifecycle(a) && WasDispatched(a) && ValidReceipt(r)
    requires r.disposition == DispositionOf(a, r.status)
    requires a.phase == Dispatched || WasReceipted(a)
    ensures CanonicalReceiptOk(WithReceipt(a, r))
  {
    PhaseFacts(a);
    StatusReadsBack(r.status);
    hide ReceiptSourceOk, StatusOf, PhasesOk;
    assert a.receipt.Some? ==> CanonicalReceiptOk(a);
    assert a.executionConfirmed != Some(false);
    var b := WithReceipt(a, r);
    if a.receipt.None? {
      assert a.outcome.None? && a.executionConfirmed != Some(true);
      Decisions(a.executionConfirmed);
      assert b.receipt == Some(r.payload);
    } else if r.disposition.Resolution? {
      assert b.receipt == Some(r.payload);
    } else {
      assert b.receipt == a.receipt;
    }
  }

  // A validated record with one more receipt.
  lemma ReceiptedValid(a: ActionRecord, r: ReceiptRecord, history: seq<Phase>, rd: RDPhase,
                      lastEventId: Text)
    requires Lifecycle(a) && WasDispatched(a) && ValidReceipt(r)
    requires r.disposition == DispositionOf(a, r.status)
    requires a.phase == Dispatched || WasReceipted(a)
    requires history == Advance(a.phaseHistory, Receipt)
    ensures Lifecycle(WithReceipt(a, r).(phase := Receipt, phaseHistory := history, rdPhase := rd,
                                         lastEventId := lastEventId))
  {
    PhaseFacts(a);
    var b := WithReceipt(a, r).(phase := Receipt, phaseHistory := history, rdPhase := rd,
                                lastEventId := lastEventId);
    assert PhasesOk(b) && EvidenceOk(b) && Blocked !in history && Dispatched in history && Receipt in history;
    CanonicalAfter(a, r);
    hide PhasesOk, CanonicalReceiptOk, DispositionOf;
    hide ReceiptSourceOk;
    forall i | 0 <= i < |b.receiptHistory| ensures ValidReceipt(b.receiptHistory[i]) {
      assert b.receiptHistory[i] in a.receiptHistory + [r];
    }
    hide ValidReceipt;
  }

  ghost predicate SameEvidence(a: ActionRecord, b: ActionRecord) {
    && b.receiptHistory == a.receiptHistory && b.receiptHistoryEvicted == a.receiptHistoryEvicted
    && b.outcome == a.outcome && b.receipt == a.receipt && b.effectConfirmed == a.effectConfirmed
    && b.corroborations == a.corroborations && b.conflicts == a.conflicts
  }

  lemma EffectAppend(log: seq<Evidence>, x: Evidence)
    ensures (exists i :: 0 <= i < |log + [x]| && Grounded((log + [x])[i]) != {}) <==>
            Grounded(x) != {} || exists i :: 0 <= i < |log| && Grounded(log[i]) != {}
  {
    var all := log + [x];
    if i :| 0 <= i < |log| && Grounded(log[i]) != {} {
      assert Grounded(all[i]) != {};
    }
    if Grounded(x) != {} {
      assert Grounded(all[|log|]) != {};
    }
  }

  lemma OutcomeFields(a: ActionRecord, log: seq<Evidence>, x: Evidence)
    requires Accounts(a, log)
    ensures var w := WithReceipt(a, RecordAfter(log, x));
            w.outcome == Verdict(log + [x]) && w.receipt == Canonical(log + [x])
  {
    VerdictAppend(log, x);
    hide Records, Corroborations, Conflicts, Grounded, KeepLast;
  }

  lemma CountFields(a: ActionRecord, log: seq<Evidence>, x: Evidence)
    requires Accounts(a, log)
    ensures var w := WithReceipt(a, RecordAfter(log, x));
            w.corroborations == Corroborations(log + [x]) && w.conflicts == Conflicts(log + [x])
  {
    CountsAppend(log, x);
    hide Records, Corroborations, Conflicts, Grounded, KeepLast, Verdict, Canonical, Status;
  }

  lemma HistoryFields(a: ActionRecord, log: seq<Evidence>, x: Evidence)
    requires Accounts(a, log)
    ensures var w := WithReceipt(a, RecordAfter(log, x));
            && w.receiptHistory == KeepLast(Records(log + [x]), MAX_ACTION_RECEIPT_HISTORY)
            && w.receiptHistoryEvicted + |w.receiptHistory| == |log + [x]|
  {
    RecordsAppend(log, x);
    KeepLastAppend(Records(log), RecordAfter(log, x), MAX_ACTION_RECEIPT_HISTORY);
    KeptCount(Records(log), RecordAfter(log, x), a.receiptHistoryEvicted);
    hide Records, Corroborations, Conflicts, Grounded, KeepLast, Verdict, Canonical, RecordAfter;
  }

  // What one more receipt does to the fields that a receipt touches.
  lemma AccountsAppend(a: ActionRecord, log: seq<Evidence>, x: Evidence, b: ActionRecord)
    requires Accounts(a, log) && SameEvidence(WithReceipt(a, RecordAfter(log, x)), b) && WasReceipted(b)
    ensures Accounts(b, log + [x])
  {
    OutcomeFields(a, log, x);
    CountFields(a, log, x);
    HistoryFields(a, log, x);
    EffectField(a, log, x);
    EffectAppend(log, x);
    hide Verdict, Canonical, Records, Corroborations, Conflicts, Grounded, KeepLast, WithReceipt, RecordAfter;
  }

  lemma EffectField(a: ActionRecord, log: seq<Evidence>, x: Evidence)
    ensures WithReceipt(a, RecordAfter(log, x)).effectConfirmed ==
            if Grounded(x) != {} then Some(true) else a.effectConfirmed
  {
    hide Verdict, KeepLast;
    assert |Sorted(Grounded(x))| == |Grounded(x)|;
  }

  lemma KeptCount(items: seq<ReceiptRecord>, r: ReceiptRecord, evicted: nat)
    requires evicted + |KeepLast(items, MAX_ACTION_RECEIPT_HISTORY)| == |items|
    ensures evicted + (if |KeepLast(items, MAX_ACTION_RECEIPT_HISTORY)| >= MAX_ACTION_RECEIPT_HISTORY then 1 else 0)
            + |KeepLast(items + [r], MAX_ACTION_RECEIPT_HISTORY)| == |items| + 1
  {
  }

  function RDAfterReceipt(a: ActionRecord): RDPhase {
    if a.phase == Receipt then a.rdPhase else Prepare
  }

  // A receipt is accepted exactly when its own fields are in order and the
  // action was dispatched; the record validator refuses nothing else.
  lemma ReceiptAccepted(a: ActionRecord, e: Event, trusted: bool)
    requires Lifecycle(a)
    ensures ReceiveReceipt(a, e, trusted).Ok? <==> ReceiptGuards(a, e, trusted) && WasDispatched(a)
    ensures ReceiveReceipt(a, e, trusted).Ok? ==>
              var r := NewReceipt(a, e, StatusOf(Get(e.payload, STATUS)).value,
                                  GroundedIds(e.payload, trusted).value);
              var b := ReceiveReceipt(a, e, trusted).value.0;
              Lifecycle(b) && SameEvidence(WithReceipt(a, r), b) && WasReceipted(b) &&
              ReceiveReceipt(a, e, trusted).value.1 == GroundedIds(e.payload, trusted).value
  {
    if ReceiptGuards(a, e, trusted) {
      MintedRecordValid(a, e, trusted);
      var r := NewReceipt(a, e, StatusOf(Get(e.payload, STATUS)).value, GroundedIds(e.payload, trusted).value);
      PhaseFacts(a);
      if WasDispatched(a) {
        ReceiptedValid(a, r, Advance(a.phaseHistory, Receipt), RDAfterReceipt(a), e.eventId);
        hide Lifecycle, ValidReceipt, ReceiptSourceOk, LateFlagOk, GroundedIds, NewReceipt;
        ReceiptTaken(a, e, trusted, r);
      } else {
        LateOnBlocked(a, e, r);
        hide Lifecycle, ValidReceipt, ReceiptSourceOk, GroundedIds, NewReceipt, WithReceipt;
      }
    }
  }

  lemma ReceiptTaken(a: ActionRecord, e: Event, trusted: bool, r: ReceiptRecord)
    requires ReceiptGuards(a, e, trusted) && ValidReceipt(r)
    requires r == NewReceipt(a, e, StatusOf(Get(e.payload, STATUS)).value, GroundedIds(e.payload, trusted).value)
    requires Lifecycle(WithReceipt(a, r).(phase := Receipt, phaseHistory := Advance(a.phaseHistory, Receipt),
                                          rdPhase := RDAfterReceipt(a), lastEventId := e.eventId))
    requires a.phase == Receipt ==> WasReceipted(a)
    ensures ReceiveReceipt(a, e, trusted).Ok?
  {
    hide ValidAction, ValidReceipt, ReceiptSourceOk, LateFlagOk, GroundedIds, NewReceipt;
  }

  // The one place where the validator of the record is needed: a late receipt
  // of a reconstructed action that had been blocked.
  lemma LateOnBlocked(a: ActionRecord, e: Event, r: ReceiptRecord)
    requires Lifecycle(a) && !WasDispatched(a) && LateFlagOk(a, e.payload)
    ensures a.phase == Reconstructed
    ensures Transition(a, e, a.phase, Receipt, Prepare, WithReceipt(a, r)).Err?
  {
    PhaseFacts(a);
    hide ValidReceipt, ReceiptSourceOk, CanonicalReceiptOk, KeepLast, Get;
  }

  /* ---------------- the other steps ---------------- */

  predicate PrepareGuards(a: ActionRecord, e: Event) {
    var branch := Get(e.payload, BRANCH_ID);
    a.phase == Proposed && (branch.Null? || (branch.Str? && !Blank(branch.t)))
  }

  lemma PrepareAccepted(a: ActionRecord, e: Event)
    requires Lifecycle(a)
    ensures PrepareAction(a, e).Ok? <==> PrepareGuards(a, e)
    ensures PrepareAction(a, e).Ok? ==>
              var b := PrepareAction(a, e).value; Lifecycle(b) && SameEvidence(a, b) && (WasReceipted(b) <==> WasReceipted(a))
  {
    hide ValidReceipt, CanonicalReceiptOk;
  }

  lemma BlockAccepted(a: ActionRecord, e: Event)
    requires Lifecycle(a)
    ensures Block(a, e).Ok? <==> a.phase == Prepared && BlockedSourceOk(e.payload)
    ensures Block(a, e).Ok? ==>
              var b := Block(a, e).value; Lifecycle(b) && SameEvidence(a, b) && (WasReceipted(b) <==> WasReceipted(a))
  {
    hide ValidReceipt, CanonicalReceiptOk, BlockedSourceOk;
  }

  lemma DispatchAccepted(a: ActionRecord, e: Event)
    requires Lifecycle(a)
    ensures Dispatch(a, e).Ok? <==> a.phase == Prepared
    ensures Dispatch(a, e).Ok? ==>
              var b := Dispatch(a, e).value; Lifecycle(b) && SameEvidence(a, b) && (WasReceipted(b) <==> WasReceipted(a))
  {
    hide ValidReceipt, CanonicalReceiptOk;
  }

  function ReconstructedFrom(a: ActionRecord): seq<Phase> {
    Advance(a.phaseHistory, Reconstructed)
  }

  lemma ReconstructedPhases(a: ActionRecord)
    requires Lifecycle(a) && (a.phase == Blocked || a.phase == Receipt)
    ensures var h := ReconstructedFrom(a);
            && PhasesOk(a.(phase := Reconstructed, phaseHistory := h))
            && (forall p :: p in {Blocked, Dispatched, Receipt} ==> (p in h <==> p in a.phaseHistory))
  {
    hide ValidAction, EvidenceOk;
  }

  // Whether a record is valid depends on the history only through the three
  // phases that its claims are checked against.
  lemma ReconstructedValid(a: ActionRecord, h: seq<Phase>, b: ActionRecord)
    requires ValidAction(a) && |b.reconstructionHistory| <= MAX_ACTION_RECONSTRUCTION_HISTORY
    requires Blocked in h <==> Blocked in a.phaseHistory
    requires Dispatched in h <==> Dispatched in a.phaseHistory
    requires Receipt in h <==> Receipt in a.phaseHistory
    requires b == a.(phase := b.phase, phaseHistory := h, rdPhase := b.rdPhase, reconstruction := b.reconstruction,
                     reconstructionHistory := b.reconstructionHistory,
                     reconstructionHistoryEvicted := b.reconstructionHistoryEvicted, lastEventId := b.lastEventId)
    ensures ValidAction(b)
  {
    hide ValidReceipt, CanonicalReceiptOk, EnergyEvidenceOk;
    assert a.receipt.Some? ==> (CanonicalReceiptOk(a) <==> CanonicalReceiptOk(b)) by { SameCanonical(a, b); }
    assert EnergyEvidenceOk(a) <==> EnergyEvidenceOk(b) by { SameEnergy(a, b); }
  }

  lemma SameCanonical(a: ActionRecord, b: ActionRecord)
    requires b.receipt == a.receipt && b.outcome == a.outcome && b.executionConfirmed == a.executionConfirmed
    ensures a.receipt.Some? ==> (CanonicalReceiptOk(a) <==> CanonicalReceiptOk(b))
  {
  }

  lemma SameEnergy(a: ActionRecord, b: ActionRecord)
    requires b.energyStatus == a.energyStatus && b.energyRequestEventId == a.energyRequestEventId &&
             b.energyAssessmentEventId == a.energyAssessmentEventId && b.energyFailureCode == a.energyFailureCode
    ensures EnergyEvidenceOk(a) <==> EnergyEvidenceOk(b)
  {
  }

  function ReconstructionOf(a: ActionRecord, e: Event): ActionRecord {
    var after := if a.receiptHistory == [] then None
                 else Some(a.receiptHistory[|a.receiptHistory| - 1].eventId);
    var record := ReconstructionRecord(e.eventId, after, e.payload);
    a.(phase := Reconstructed, phaseHistory := ReconstructedFrom(a), rdPhase := Reconstruct, lastEventId := e.eventId,
       reconstruction := Some(e.payload),
       reconstructionHistory := KeepLast(a.reconstructionHistory + [record], MAX_ACTION_RECONSTRUCTION_HISTORY),
       reconstructionHistoryEvicted := a.reconstructionHistoryEvicted +
         (if |a.reconstructionHistory| >= MAX_ACTION_RECONSTRUCTION_HISTORY then 1 else 0))
  }

  lemma ReconstructAccepted(a: ActionRecord, e: Event)
    requires Lifecycle(a)
    ensures ReconstructAction(a, e).Ok? <==> a.phase == Blocked || a.phase == Receipt
    ensures ReconstructAction(a, e).Ok? ==>
              var b := ReconstructAction(a, e).value;
              Lifecycle(b) && SameEvidence(a, b) && (WasReceipted(b) <==> WasReceipted(a))
  {
    hide ValidAction;
    if a.phase == Blocked || a.phase == Receipt {
      ReconstructedPhases(a);
      var b := ReconstructionOf(a, e);
      ReconstructedValid(a, ReconstructedFrom(a), b);
      hide PhasesOk, KeepLast, ReconstructedFrom;
      assert ReconstructAction(a, e) == Ok(b);
    }
  }

  /* ---------------- energy steps ---------------- */

  // Steps that touch only the energy fields of a lifecycle record.
  lemma EnergyStepLifecycle(a: ActionRecord, b: ActionRecord)
    requires Lifecycle(a) && EnergyEvidenceOk(b)
    requires b == a.(energyStatus := b.energyStatus, energyRequestEventId := b.energyRequestEventId,
                     energyAssessmentEventId := b.energyAssessmentEventId, energyFailureCode := b.energyFailureCode)
    ensures Lifecycle(b) && SameEvidence(a, b) && (WasReceipted(b) <==> WasReceipted(a))
  {
    SameCanonical(a, b);
    hide CanonicalReceiptOk, ValidReceipt, EnergyEvidenceOk;
  }

  lemma RequestAccepted(a: ActionRecord, e: Event)
    requires Lifecycle(a)
    ensures RequestEnergy(a, e).Ok? <==>
            a.energyStatus.Unrequested? || (a.energyStatus.Assessed? && LegacyReassessment(a, e))
    ensures RequestEnergy(a, e).Ok? ==>
              var b := RequestEnergy(a, e).value;
              Lifecycle(b) && SameEvidence(a, b) && (WasReceipted(b) <==> WasReceipted(a)) &&
              b.energyStatus.EnergyPending?
  {
    var b := a.(energyStatus := EnergyPending, energyRequestEventId := Some(e.eventId),
                energyAssessmentEventId := None, energyFailureCode := None);
    EnergyStepLifecycle(a, b);
    hide ValidAction, PhasesOk, EvidenceOk, LegacyReassessment;
  }

  lemma AssessmentAccepted(a: ActionRecord, e: Event)
    requires Lifecycle(a)
    ensures AssessEnergy(a, e).Ok? <==> a.energyStatus.Unrequested? || a.energyStatus.EnergyPending?
    ensures AssessEnergy(a, e).Ok? ==>
              var b := AssessEnergy(a, e).value;
              Lifecycle(b) && SameEvidence(a, b) && (WasReceipted(b) <==> WasReceipted(a)) &&
              b.energyStatus.Assessed?
  {
    var b := a.(energyStatus := Assessed, energyAssessmentEventId := Some(e.eventId), energyFailureCode := None);
    EnergyStepLifecycle(a, b);
    hide ValidAction, PhasesOk, EvidenceOk;
  }

  predicate FailureGuards(a: ActionRecord, e: Event) {
    var code := Get(e.payload, FAILURE_CODE);
    a.energyStatus.EnergyPending? && code.Str? && !Blank(code.t) && !LongerThan(code.t, 160)
  }

  lemma FailureAccepted(a: ActionRecord, e: Event)
    requires Lifecycle(a)
    ensures FailEnergy(a, e).Ok? <==> FailureGuards(a, e)
    ensures FailEnergy(a, e).Ok? ==>
              var b := FailEnergy(a, e).value;
              Lifecycle(b) && SameEvidence(a, b) && (WasReceipted(b) <==> WasReceipted(a)) &&
              b.energyStatus.AssessmentFailed?
  {
    if FailureGuards(a, e) {
      var b := a.(energyStatus := AssessmentFailed, energyFailureCode := Some(Get(e.payload, FAILURE_CODE).t));
      assert EnergyEvidenceOk(a) && EnergyEvidenceOk(b);
      EnergyStepLifecycle(a, b);
      hide ValidAction, PhasesOk, EvidenceOk, Get;
    }
  }

  /* ---------------- any step, and a proposal ---------------- */

  lemma ProposalAccepted(id: Text, e: Event)
    ensures Propose(id, e).Ok? <==> Get(e.payload, INTENT).Obj?
    ensures Propose(id, e).Ok? ==>
              var a := Propose(id, e).value;
              Lifecycle(a) && Accounts(a, []) && a.actionId == id && a.energyStatus.Unrequested? && a.phase == Proposed
  {
    hide CanonicalReceiptOk, ValidReceipt;
  }

  predicate Guards(a: ActionRecord, e: Event, trusted: bool) {
    match e.kind
    case ActionReceipt => ReceiptGuards(a, e, trusted) && WasDispatched(a)
    case EnergyRequested => a.energyStatus.Unrequested? || (a.energyStatus.Assessed? && LegacyReassessment(a, e))
    case EnergyAssessed => a.energyStatus.Unrequested? || a.energyStatus.EnergyPending?
    case EnergyAssessmentFailed => FailureGuards(a, e)
    case ActionPrepared => PrepareGuards(a, e)
    case ActionBlocked => a.phase == Prepared && BlockedSourceOk(e.payload)
    case ActionDispatched => a.phase == Prepared
    case ActionReconstructed => a.phase == Blocked || a.phase == Receipt
    case _ => false
  }

  // The receipts of an action after one more lifecycle event.
  function Extended(log: seq<Evidence>, e: Event, trusted: bool): seq<Evidence> {
    if e.kind.ActionReceipt? then log + [Evidence(e, trusted)] else log
  }

  // Every step of an action that starts in order is accepted exactly when its
  // guards hold, and leaves the action in order and in agreement with its
  // receipts.
  lemma StepExact(a: ActionRecord, e: Event, trusted: bool, log: seq<Evidence>)
    requires Lifecycle(a) && Accounts(a, log)
    ensures Step(a, e, trusted).Ok? <==> Guards(a, e, trusted)
    ensures Step(a, e, trusted).Ok? ==>
              var b := Step(a, e, trusted).value.0; Lifecycle(b) && Accounts(b, Extended(log, e, trusted))
  {
    hide Lifecycle, ReceiveReceipt, RequestEnergy, AssessEnergy, FailEnergy, PrepareAction, Block, Dispatch,
         ReconstructAction, ReceiptGuards, FailureGuards, PrepareGuards, BlockedSourceOk, LegacyReassessment, NewReceipt,
         WithReceipt, Verdict, Canonical, Records, Corroborations, Conflicts, Grounded, GroundedIds, StatusOf, Get;
    match e.kind
    case ActionReceipt =>
      ReceiptAccepted(a, e, trusted);
      if ReceiveReceipt(a, e, trusted).Ok? {
        MintedRecord(a, e, trusted, log);
        AccountsAppend(a, log, Evidence(e, trusted), ReceiveReceipt(a, e, trusted).value.0);
      }
    case EnergyRequested => RequestAccepted(a, e);
    case EnergyAssessed => AssessmentAccepted(a, e);
    case EnergyAssessmentFailed => FailureAccepted(a, e);
    case ActionPrepared => PrepareAccepted(a, e);
    case ActionBlocked => BlockAccepted(a, e);
    case ActionDispatched => DispatchAccepted(a, e);
    case ActionReconstructed => ReconstructAccepted(a, e);
    case _ =>
  }

  // No later receipt changes an outcome once there is one.
  lemma {:induction false} OutcomeFinal(log: seq<Evidence>, more: seq<Evidence>)
    requires Verdict(log).Some?
    ensures Verdict(log + more) == Verdict(log) && Canonical(log + more) == Canonical(log)
  {
    if more == [] {
      assert log + more == log;
    } else {
      var front := more[..|more| - 1];
      var x := more[|more| - 1];
      OutcomeFinal(log, front);
      VerdictAppend(log + front, x);
      assert log + more == (log + front) + [x];
    }
  }
}
