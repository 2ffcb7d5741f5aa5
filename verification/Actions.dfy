// The action lifecycle and its receipts (core/action.py).
module Actions {
  import opened Prelude
  import opened Values
  import opened Limits
  import Keyed

  datatype RDPhase = Simulate | Prepare | Reconstruct

  datatype Phase = Proposed | Prepared | Blocked | Dispatched | Receipt | Reconstructed

  datatype Outcome = Succeeded | Failed

  datatype ReceiptStatus = Success | Failure | Unknown

  datatype Disposition = Pending | Confirmed | Resolution | Corroboration | Conflict

  datatype EnergyStatus = Unrequested | EnergyPending | Assessed | AssessmentFailed

  datatype ReceiptRecord = ReceiptRecord(
    eventId: Text,
    status: ReceiptStatus,
    disposition: Disposition,
    sourceStatus: Json,
    sourceErrorType: Json,
    late: bool,
    executionConfirmed: Option<bool>,
    outcome: Option<Outcome>,
    effectObservationIds: seq<Text>,
    payload: Payload)

  datatype ReconstructionRecord = ReconstructionRecord(
    eventId: Text, afterReceiptEventId: Option<Text>, payload: Payload)

  datatype ActionRecord = ActionRecord(
    actionId: Text,
    intent: Payload,
    phase: Phase,
    phaseHistory: seq<Phase>,
    rdPhase: RDPhase,
    preparedBranchId: Option<Text>,
    executionConfirmed: Option<bool>,
    outcome: Option<Outcome>,
    effectConfirmed: Option<bool>,
    receipt: Option<Payload>,
    receiptHistory: seq<ReceiptRecord>,
    receiptHistoryEvicted: nat,
    corroborations: nat,
    conflicts: nat,
    reconstruction: Option<Payload>,
    reconstructionHistory: seq<ReconstructionRecord>,
    reconstructionHistoryEvicted: nat,
    energyStatus: EnergyStatus,
    energyRequestEventId: Option<Text>,
    energyAssessmentEventId: Option<Text>,
    energyFailureCode: Option<Text>,
    proposedEventId: Text,
    lastEventId: Text)

  /* ---------------- receipt source semantics ---------------- */

  function OutcomeOf(status: ReceiptStatus): Option<Outcome> {
    match status
    case Success => Some(Succeeded)
    case Failure => Some(Failed)
    case Unknown => None
  }

  function StatusText(status: ReceiptStatus): Text {
    match status
    case Success => SUCCESS
    case Failure => FAILURE
    case Unknown => UNKNOWN
  }

  function StatusOf(j: Json): Option<ReceiptStatus> {
    if j == Str(SUCCESS) then Some(Success)
    else if j == Str(FAILURE) then Some(Failure)
    else if j == Str(UNKNOWN) then Some(Unknown)
    else None
  }

  // _validate_source_error_type
  predicate SourceErrorTypeOk(errorType: Json) {
    errorType.Null? ||
    (errorType.Str? && !Blank(errorType.t) &&
     !LongerThan(errorType.t, MAX_ACTION_SOURCE_ERROR_TYPE_LENGTH))
  }

  // _validate_receipt_source_semantics
  predicate ReceiptSourceOk(status: ReceiptStatus, sourceStatus: Json, errorType: Json) {
    if sourceStatus.Null? then errorType.Null?
    else
      && sourceStatus.Str?
      && sourceStatus.t in {OK, ERROR, TIMEOUT, CANCELLED, BLOCKED}
      && SourceErrorTypeOk(errorType)
      && !(sourceStatus.t == OK && !errorType.Null?)
      && !(sourceStatus.t != ERROR && errorType == Str(THREAD_MISSING_RESULT))
      && sourceStatus.t != BLOCKED
      && status == (
           if sourceStatus.t == OK then Success
           else if sourceStatus.t == ERROR && errorType != Str(THREAD_MISSING_RESULT) then Failure
           else Unknown)
  }

  // _validate_blocked_source_semantics
  predicate BlockedSourceOk(payload: Payload) {
    var sourceStatus := Get(payload, SOURCE_STATUS);
    var errorType := Get(payload, SOURCE_ERROR_TYPE);
    && (sourceStatus.Null? || sourceStatus == Str(BLOCKED))
    && (sourceStatus.Null? ==> errorType.Null?)
    && SourceErrorTypeOk(errorType)
    && errorType != Str(THREAD_MISSING_RESULT)
  }

  /* ---------------- record validators ---------------- */

  predicate ValidReceipt(r: ReceiptRecord) {
    && |r.effectObservationIds| <= MAX_WORLD_PROPOSITIONS_PER_LAYER
    && NoDuplicates(r.effectObservationIds)
    && (forall i :: 0 <= i < |r.effectObservationIds| ==> !Blank(r.effectObservationIds[i]))
    && ReceiptSourceOk(r.status, r.sourceStatus, r.sourceErrorType)
    && Get(r.payload, STATUS) == Str(StatusText(r.status))
    && Get(r.payload, SOURCE_STATUS) == r.sourceStatus
    && Get(r.payload, SOURCE_ERROR_TYPE) == r.sourceErrorType
    && GetOr(r.payload, LATE, Bool(false)) == Bool(r.late)
    && (if r.status.Unknown? then
          r.executionConfirmed.None? && r.outcome.None? && r.disposition.Pending?
        else
          r.executionConfirmed == Some(true) && r.outcome == OutcomeOf(r.status) &&
          !r.disposition.Pending?)
  }

  predicate CanonicalReceiptOk(a: ActionRecord)
    requires a.receipt.Some?
  {
    var status := StatusOf(Get(a.receipt.value, STATUS));
    && status.Some?
    && ReceiptSourceOk(status.value, Get(a.receipt.value, SOURCE_STATUS),
                       Get(a.receipt.value, SOURCE_ERROR_TYPE))
    && (if status.value.Unknown? then a.executionConfirmed.None? && a.outcome.None?
        else a.executionConfirmed == Some(true) && a.outcome == OutcomeOf(status.value))
  }

  predicate EnergyEvidenceOk(a: ActionRecord) {
    match a.energyStatus
    case Unrequested =>
      a.energyRequestEventId.None? && a.energyAssessmentEventId.None? && a.energyFailureCode.None?
    case EnergyPending =>
      a.energyRequestEventId.Some? && a.energyAssessmentEventId.None? && a.energyFailureCode.None?
    case Assessed =>
      a.energyAssessmentEventId.Some? &&
      (a.energyFailureCode.None? || Empty(a.energyFailureCode.value))
    case AssessmentFailed =>
      a.energyRequestEventId.Some? && a.energyAssessmentEventId.None? && a.energyFailureCode.Some?
  }

  // ActionRecord._execution_claims_match_lifecycle, with the history bounds.
  predicate ValidAction(a: ActionRecord) {
    var blocked := Blocked in a.phaseHistory;
    var dispatched := Dispatched in a.phaseHistory;
    var receipted := Receipt in a.phaseHistory;
    && |a.receiptHistory| <= MAX_ACTION_RECEIPT_HISTORY
    && |a.reconstructionHistory| <= MAX_ACTION_RECONSTRUCTION_HISTORY
    && (forall i :: 0 <= i < |a.receiptHistory| ==> ValidReceipt(a.receiptHistory[i]))
    && !(blocked && dispatched)
    && (blocked ==> a.executionConfirmed == Some(false) && a.outcome.None? &&
                    a.effectConfirmed.None? && a.receipt.None? && a.receiptHistory == [])
    && (a.outcome.Some? <==> a.executionConfirmed == Some(true))
    && ((receipted || a.executionConfirmed == Some(true) || a.outcome.Some? ||
         a.effectConfirmed.Some? || a.receipt.Some? || a.receiptHistory != []) ==> dispatched)
    && (a.receipt.Some? || a.receiptHistory != [] ==> receipted)
    && (a.executionConfirmed == Some(false) ==> blocked)
    && (a.receipt.Some? ==> CanonicalReceiptOk(a))
    && EnergyEvidenceOk(a)
  }

  function Validated(a: ActionRecord): Result<ActionRecord> {
    if ValidAction(a) then Ok(a) else Err(Invariant)
  }

  /* ---------------- identifiers ---------------- */

  function ActionIdOf(e: Event): Result<Text> {
    var id := Get(e.payload, ACTION_ID);
    if !id.Str? || Blank(id.t) then Err(Invariant)
    else if e.actionId.Some? && e.actionId.value != id.t then Err(Invariant)
    else Ok(id.t)
  }

  function Id(a: ActionRecord): Text {
    a.actionId
  }

  /* ---------------- receipt evidence ---------------- */

  // The proposition ids of a receipt's observations, or None when one of them
  // is malformed or repeated.
  function ObservationIds(items: seq<Json>): (r: Option<seq<Text>>)
    ensures r.Some? ==> |r.value| == |items| && NoDuplicates(r.value)
    ensures r.Some? ==> forall i :: 0 <= i < |items| ==>
              items[i].Obj? && Get(items[i].fields, PROPOSITION_ID) == Str(r.value[i]) &&
              !Blank(r.value[i])
  {
    if items == [] then Some([])
    else
      var front := ObservationIds(items[..|items| - 1]);
      var item := items[|items| - 1];
      if front.None? || !item.Obj? then None
      else
        var id := Get(item.fields, PROPOSITION_ID);
        if !id.Str? || Blank(id.t) || id.t in front.value then None
        else Some(front.value + [id.t])
  }

  // _receipt_grounded_ids: the observation ids a trusted receipt may promote.
  function GroundedIds(payload: Payload, trusted: bool): (r: Result<set<Text>>)
    ensures r.Ok? && r.value != {} ==> trusted && EFFECT_EVIDENCE in payload
    ensures r.Ok? ==> |r.value| <= MAX_WORLD_PROPOSITIONS_PER_LAYER &&
                      forall x :: x in r.value ==> !Blank(x)
  {
    var evidence := Get(payload, EFFECT_EVIDENCE);
    if evidence.Null? then Ok({})
    else if !evidence.Obj? then Err(Invariant)
    else if Get(evidence.fields, KIND) != Str(LINKED_OBSERVATION) then Err(Invariant)
    else
      var ids := Get(evidence.fields, OBSERVATION_IDS);
      if !IsTextArray(ids) || ids.items == [] then Err(Invariant)
      else
        var linked := Texts(ids);
        if (exists i :: 0 <= i < |linked| && Blank(linked[i])) then Err(Invariant)
        else if !NoDuplicates(linked) then Err(Invariant)
        else if |linked| > MAX_WORLD_PROPOSITIONS_PER_LAYER then Err(Capacity)
        else
          var observations := Get(payload, OBSERVATIONS);
          if !observations.Arr? then Err(Invariant)
          else
            var supplied := ObservationIds(observations.items);
            if supplied.None? then Err(Invariant)
            else if (exists i :: 0 <= i < |linked| && linked[i] !in supplied.value) then Err(Invariant)
            else if (exists j :: 0 <= j < |supplied.value| && supplied.value[j] in linked &&
                                 !Get(observations.items[j].fields, CONTENT).Obj?) then Err(Invariant)
            else if !trusted then Ok({})
            else
              var ground := set i | 0 <= i < |linked| :: linked[i];
              SetOfSeqBound(linked);
              Ok(ground)
  }

  lemma SetOfSeqBound(s: seq<Text>)
    ensures |set i | 0 <= i < |s| :: s[i]| <= |s|
  {
    if s != [] {
      var front := s[..|s| - 1];
      SetOfSeqBound(front);
      assert (set i | 0 <= i < |s| :: s[i]) ==
             (set i | 0 <= i < |front| :: front[i]) + {s[|s| - 1]};
    }
  }

  function DispositionOf(a: ActionRecord, status: ReceiptStatus): Disposition {
    if status.Unknown? then Pending
    else if a.outcome.None? then (if a.phase == Dispatched then Confirmed else Resolution)
    else if a.outcome == OutcomeOf(status) then Corroboration
    else Conflict
  }

  /* ---------------- the transitions ---------------- */

  predicate IsLifecycle(kind: EventType) {
    kind in {ActionProposed, ActionPrepared, ActionBlocked, ActionDispatched, ActionReceipt,
             ActionReconstructed, EnergyRequested, EnergyAssessed, EnergyAssessmentFailed}
  }

  function Advance(history: seq<Phase>, phase: Phase): seq<Phase> {
    if phase in history then history else history + [phase]
  }

  // _transition
  function Transition(a: ActionRecord, e: Event, required: Phase, phase: Phase, rd: RDPhase,
                      updated: ActionRecord): Result<ActionRecord> {
    if a.phase != required then Err(Invariant)
    else Validated(updated.(phase := phase, phaseHistory := Advance(a.phaseHistory, phase),
                            rdPhase := rd, lastEventId := e.eventId))
  }

  function Propose(id: Text, e: Event): Result<ActionRecord> {
    var intent := Get(e.payload, INTENT);
    if !intent.Obj? then Err(Invariant)
    else Validated(ActionRecord(
           id, intent.fields, Proposed, [Proposed], Simulate, None, None, None, None, None,
           [], 0, 0, 0, None, [], 0, Unrequested, None, None, None, e.eventId, e.eventId))
  }

  // The one path on which an assessed action may be assessed again.
  predicate LegacyReassessment(a: ActionRecord, e: Event) {
    && e.adapterId == Some(ENERGY_MIGRATION_ADAPTER)
    && Get(e.payload, REASSESSMENT_REASON) == Str(LEGACY_NEUTRAL_DEFAULT)
    && Get(e.payload, REPLACES_EVENT_ID) == FromOption(a.energyAssessmentEventId)
  }

  function RequestEnergy(a: ActionRecord, e: Event): Result<ActionRecord> {
    if a.energyStatus.Unrequested? || (a.energyStatus.Assessed? && LegacyReassessment(a, e)) then
      Validated(a.(energyStatus := EnergyPending, energyRequestEventId := Some(e.eventId),
                   energyAssessmentEventId := None, energyFailureCode := None))
    else Err(Invariant)
  }

  function AssessEnergy(a: ActionRecord, e: Event): Result<ActionRecord> {
    if !a.energyStatus.Unrequested? && !a.energyStatus.EnergyPending? then Err(Invariant)
    else Validated(a.(energyStatus := Assessed, energyAssessmentEventId := Some(e.eventId),
                      energyFailureCode := None))
  }

  function FailEnergy(a: ActionRecord, e: Event): Result<ActionRecord> {
    var code := Get(e.payload, FAILURE_CODE);
    if !a.energyStatus.EnergyPending? || !code.Str? || Blank(code.t) || LongerThan(code.t, 160)
    then Err(Invariant)
    else Validated(a.(energyStatus := AssessmentFailed, energyFailureCode := Some(code.t)))
  }

  function PrepareAction(a: ActionRecord, e: Event): Result<ActionRecord> {
    var branch := Get(e.payload, BRANCH_ID);
    if !branch.Null? && (!branch.Str? || Blank(branch.t)) then Err(Invariant)
    else Transition(a, e, Proposed, Prepared, Prepare, a.(preparedBranchId := AsOption(branch)))
  }

  function Block(a: ActionRecord, e: Event): Result<ActionRecord> {
    if !BlockedSourceOk(e.payload) then Err(Invariant)
    else Transition(a, e, Prepared, Blocked, Prepare, a.(executionConfirmed := Some(false)))
  }

  function Dispatch(a: ActionRecord, e: Event): Result<ActionRecord> {
    Transition(a, e, Prepared, Dispatched, Prepare, a)
  }

  function NewReceipt(a: ActionRecord, e: Event, status: ReceiptStatus, grounded: set<Text>): ReceiptRecord {
    ReceiptRecord(
      e.eventId, status, DispositionOf(a, status),
      Get(e.payload, SOURCE_STATUS), Get(e.payload, SOURCE_ERROR_TYPE),
      GetOr(e.payload, LATE, Bool(false)) == Bool(true),
      if status.Unknown? then None else Some(true), OutcomeOf(status),
      Sorted(grounded), e.payload)
  }

  // The fields a receipt updates, whatever the phase it arrives in.
  function WithReceipt(a: ActionRecord, r: ReceiptRecord): ActionRecord {
    a.(executionConfirmed := if r.status.Unknown? then a.executionConfirmed else Some(true),
       outcome := if a.outcome.None? then r.outcome else a.outcome,
       effectConfirmed := if r.effectObservationIds != [] then Some(true) else a.effectConfirmed,
       receipt := if a.receipt.None? || r.disposition.Resolution? then Some(r.payload) else a.receipt,
       receiptHistory := KeepLast(a.receiptHistory + [r], MAX_ACTION_RECEIPT_HISTORY),
       receiptHistoryEvicted := a.receiptHistoryEvicted +
         (if |a.receiptHistory| >= MAX_ACTION_RECEIPT_HISTORY then 1 else 0),
       corroborations := a.corroborations + (if r.disposition.Corroboration? then 1 else 0),
       conflicts := a.conflicts + (if r.disposition.Conflict? then 1 else 0))
  }

  // A first receipt must not be late; every later one must say that it is.
  predicate LateFlagOk(a: ActionRecord, payload: Payload) {
    var late := GetOr(payload, LATE, Bool(false));
    if a.phase == Dispatched then late == Bool(false)
    else (a.phase == Receipt || a.phase == Reconstructed) && late == Bool(true)
  }

  function ReceiveReceipt(a: ActionRecord, e: Event, trusted: bool): Result<(ActionRecord, set<Text>)> {
    var status := StatusOf(Get(e.payload, STATUS));
    if status.None? then Err(Invariant)
    else if !ReceiptSourceOk(status.value, Get(e.payload, SOURCE_STATUS), Get(e.payload, SOURCE_ERROR_TYPE))
    then Err(Invariant)
    else if !LateFlagOk(a, e.payload) then Err(Invariant)
    else
      var grounded :- GroundedIds(e.payload, trusted);
      var r := NewReceipt(a, e, status.value, grounded);
      if !ValidReceipt(r) then Err(Invariant)
      else
        var b :- if a.phase == Receipt then Validated(WithReceipt(a, r).(lastEventId := e.eventId))
                 else Transition(a, e, a.phase, Receipt, Prepare, WithReceipt(a, r));
        Ok((b, grounded))
  }

  function ReconstructAction(a: ActionRecord, e: Event): Result<ActionRecord> {
    if a.phase != Blocked && a.phase != Receipt then Err(Invariant)
    else
      var after := if a.receiptHistory == [] then None
                   else Some(a.receiptHistory[|a.receiptHistory| - 1].eventId);
      var record := ReconstructionRecord(e.eventId, after, e.payload);
      Transition(a, e, a.phase, Reconstructed, Reconstruct, a.(
        reconstruction := Some(e.payload),
        reconstructionHistory := KeepLast(a.reconstructionHistory + [record], MAX_ACTION_RECONSTRUCTION_HISTORY),
        reconstructionHistoryEvicted := a.reconstructionHistoryEvicted +
          (if |a.reconstructionHistory| >= MAX_ACTION_RECONSTRUCTION_HISTORY then 1 else 0)))
  }

  // What one lifecycle event does to the action it names.
  function Step(a: ActionRecord, e: Event, trusted: bool): Result<(ActionRecord, set<Text>)> {
    match e.kind
    case ActionReceipt => ReceiveReceipt(a, e, trusted)
    case EnergyRequested => var b :- RequestEnergy(a, e); Ok((b, {}))
    case EnergyAssessed => var b :- AssessEnergy(a, e); Ok((b, {}))
    case EnergyAssessmentFailed => var b :- FailEnergy(a, e); Ok((b, {}))
    case ActionPrepared => var b :- PrepareAction(a, e); Ok((b, {}))
    case ActionBlocked => var b :- Block(a, e); Ok((b, {}))
    case ActionDispatched => var b :- Dispatch(a, e); Ok((b, {}))
    case ActionReconstructed => var b :- ReconstructAction(a, e); Ok((b, {}))
    case _ => Err(Invariant)
  }

  // reduce_actions: the new records and the grounded receipt observation ids.
  function ReduceActions(actions: seq<ActionRecord>, e: Event, trusted: bool)
    : Result<(seq<ActionRecord>, set<Text>)>
  {
    if !IsLifecycle(e.kind) then Ok((actions, {}))
    else
      var id :- ActionIdOf(e);
      if e.kind.ActionProposed? then
        if Keyed.Has(Id, actions, id) then Err(Invariant)
        else
          var a :- Propose(id, e);
          Ok((actions + [a], {}))
      else if !Keyed.Has(Id, actions, id) then Err(Invariant)
      else
        var (b, grounded) :- Step(Keyed.Find(Id, actions, id), e, trusted);
        Ok((Keyed.Upsert(Id, actions, b), grounded))
  }

  lemma ProposedId(id: Text, e: Event)
    requires Propose(id, e).Ok?
    ensures Propose(id, e).value.actionId == id
  {
    hide ValidAction;
  }
}
