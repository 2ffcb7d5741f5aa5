// What each lifecycle event does to its action, and what it leaves alone
// (core/action.py, reduce_actions).
module Lifecycles {
  import opened Prelude
  import opened Values
  import opened Limits
  import opened Actions
  import H = ActionHistory

  /* ---------------- groups of fields ---------------- */

  predicate SameOrigin(a: ActionRecord, b: ActionRecord) {
    b.actionId == a.actionId && b.intent == a.intent && b.proposedEventId == a.proposedEventId
  }

  predicate SamePlace(a: ActionRecord, b: ActionRecord) {
    && b.phase == a.phase && b.phaseHistory == a.phaseHistory && b.rdPhase == a.rdPhase
    && b.preparedBranchId == a.preparedBranchId && b.lastEventId == a.lastEventId
  }

  predicate SameReconstruction(a: ActionRecord, b: ActionRecord) {
    && b.reconstruction == a.reconstruction && b.reconstructionHistory == a.reconstructionHistory
    && b.reconstructionHistoryEvicted == a.reconstructionHistoryEvicted
  }

  predicate SameEnergy(a: ActionRecord, b: ActionRecord) {
    && b.energyStatus == a.energyStatus && b.energyRequestEventId == a.energyRequestEventId
    && b.energyAssessmentEventId == a.energyAssessmentEventId && b.energyFailureCode == a.energyFailureCode
  }

  // In its new phase, as of this event; the history names every phase once, in
  // the order in which it was first reached.
  predicate Reaches(a: ActionRecord, b: ActionRecord, e: Event, phase: Phase, rd: RDPhase) {
    && b.phase == phase && b.rdPhase == rd && b.lastEventId == e.eventId
    && (phase in a.phaseHistory ==> b.phaseHistory == a.phaseHistory)
    && (phase !in a.phaseHistory ==> b.phaseHistory == a.phaseHistory + [phase])
  }

  // The newest sixteen reconstructions, and how many more there were.
  predicate Reconstructs(a: ActionRecord, b: ActionRecord, e: Event) {
    && b.reconstruction == Some(e.payload) && b.reconstructionHistory != []
    && var newest := b.reconstructionHistory[|b.reconstructionHistory| - 1];
       && newest.eventId == e.eventId && newest.payload == e.payload
       && newest.afterReceiptEventId ==
          (if a.receiptHistory == [] then None else Some(a.receiptHistory[|a.receiptHistory| - 1].eventId))
       && b.reconstructionHistory ==
          (if |a.reconstructionHistory| < 16 then a.reconstructionHistory + [newest]
           else a.reconstructionHistory[|a.reconstructionHistory| - 15..] + [newest])
       && b.reconstructionHistoryEvicted ==
          a.reconstructionHistoryEvicted + (if |a.reconstructionHistory| < 16 then 0 else 1)
  }

  /* ---------------- one event ---------------- */

  ghost predicate Does(a: ActionRecord, b: ActionRecord, e: Event) {
    && SameOrigin(a, b)
    && match e.kind
       case EnergyRequested =>
         && SamePlace(a, b) && H.SameEvidence(a, b) && SameReconstruction(a, b) && b.executionConfirmed == a.executionConfirmed
         && b.energyStatus == EnergyPending && b.energyRequestEventId == Some(e.eventId)
         && b.energyAssessmentEventId.None? && b.energyFailureCode.None?
       case EnergyAssessed =>
         && SamePlace(a, b) && H.SameEvidence(a, b) && SameReconstruction(a, b) && b.executionConfirmed == a.executionConfirmed
         && b.energyStatus == Assessed && b.energyAssessmentEventId == Some(e.eventId)
         && b.energyRequestEventId == a.energyRequestEventId && b.energyFailureCode.None?
       case EnergyAssessmentFailed =>
         && SamePlace(a, b) && H.SameEvidence(a, b) && SameReconstruction(a, b) && b.executionConfirmed == a.executionConfirmed
         && b.energyStatus == AssessmentFailed && FromOption(b.energyFailureCode) == Get(e.payload, FAILURE_CODE)
         && b.energyRequestEventId == a.energyRequestEventId && b.energyAssessmentEventId == a.energyAssessmentEventId
       case ActionPrepared =>
         && Reaches(a, b, e, Prepared, Prepare) && FromOption(b.preparedBranchId) == Get(e.payload, BRANCH_ID)
         && H.SameEvidence(a, b) && SameReconstruction(a, b) && SameEnergy(a, b) && b.executionConfirmed == a.executionConfirmed
       case ActionBlocked =>
         && Reaches(a, b, e, Blocked, Prepare) && b.preparedBranchId == a.preparedBranchId
         && H.SameEvidence(a, b) && SameReconstruction(a, b) && SameEnergy(a, b) && b.executionConfirmed == Some(false)
       case ActionDispatched =>
         && Reaches(a, b, e, Dispatched, Prepare) && b.preparedBranchId == a.preparedBranchId
         && H.SameEvidence(a, b) && SameReconstruction(a, b) && SameEnergy(a, b) && b.executionConfirmed == a.executionConfirmed
       case ActionReceipt =>
         && b.phase == Receipt && b.lastEventId == e.eventId && b.preparedBranchId == a.preparedBranchId
         && SameReconstruction(a, b) && SameEnergy(a, b)
         && b.executionConfirmed == (if Get(e.payload, STATUS) == Str(UNKNOWN) then a.executionConfirmed else Some(true))
       case ActionReconstructed =>
         && Reaches(a, b, e, Reconstructed, Reconstruct) && b.preparedBranchId == a.preparedBranchId
         && H.SameEvidence(a, b) && Reconstructs(a, b, e) && SameEnergy(a, b) && b.executionConfirmed == a.executionConfirmed
       case _ => false
  }

  lemma EnergyDoes(a: ActionRecord, e: Event, trusted: bool)
    requires e.kind.EnergyRequested? || e.kind.EnergyAssessed? || e.kind.EnergyAssessmentFailed?
    requires Step(a, e, trusted).Ok?
    ensures Does(a, Step(a, e, trusted).value.0, e)
  {
    hide ValidAction, Blank, LegacyReassessment, LongerThan;
  }

  lemma MoveDoes(a: ActionRecord, e: Event, trusted: bool)
    requires e.kind.ActionPrepared? || e.kind.ActionBlocked? || e.kind.ActionDispatched?
    requires Step(a, e, trusted).Ok?
    ensures Does(a, Step(a, e, trusted).value.0, e)
  {
    hide ValidAction, Blank, BlockedSourceOk;
  }

  lemma ReceiptDoes(a: ActionRecord, e: Event, trusted: bool)
    requires e.kind.ActionReceipt? && Step(a, e, trusted).Ok?
    ensures Does(a, Step(a, e, trusted).value.0, e)
  {
    hide ValidAction, GroundedIds, ReceiptSourceOk, LateFlagOk, ValidReceipt;
  }

  lemma ReconstructionDoes(a: ActionRecord, e: Event, trusted: bool)
    requires e.kind.ActionReconstructed? && Step(a, e, trusted).Ok?
    requires |a.reconstructionHistory| <= MAX_ACTION_RECONSTRUCTION_HISTORY
    ensures Does(a, Step(a, e, trusted).value.0, e)
  {
    hide ValidAction;
  }

  // An accepted event does to its action what its kind says, and nothing else.
  lemma StepDoes(a: ActionRecord, e: Event, trusted: bool)
    requires Step(a, e, trusted).Ok? && |a.reconstructionHistory| <= MAX_ACTION_RECONSTRUCTION_HISTORY
    ensures Does(a, Step(a, e, trusted).value.0, e)
  {
    StepKinds(a, e, trusted);
    hide Step, Does;
    if e.kind.EnergyRequested? || e.kind.EnergyAssessed? || e.kind.EnergyAssessmentFailed? {
      EnergyDoes(a, e, trusted);
    } else if e.kind.ActionReceipt? {
      ReceiptDoes(a, e, trusted);
    } else if e.kind.ActionReconstructed? {
      ReconstructionDoes(a, e, trusted);
    } else {
      MoveDoes(a, e, trusted);
    }
  }

  lemma StepKinds(a: ActionRecord, e: Event, trusted: bool)
    requires Step(a, e, trusted).Ok?
    ensures e.kind.EnergyRequested? || e.kind.EnergyAssessed? || e.kind.EnergyAssessmentFailed? || e.kind.ActionPrepared? ||
            e.kind.ActionBlocked? || e.kind.ActionDispatched? || e.kind.ActionReceipt? || e.kind.ActionReconstructed?
  {
    hide ReceiveReceipt, RequestEnergy, AssessEnergy, FailEnergy, PrepareAction, Block, Dispatch, ReconstructAction;
  }
}
