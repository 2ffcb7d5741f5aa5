// What the plan of a tool completion says, by the status and error type that
// the host reports (runtime/semantic_ingest.py, _post_tool_plan).
module Plans {
  import opened Prelude
  import opened Values
  import opened Limits
  import opened SemanticIngest
  import Actions
  import Identity

  // An error type that can be kept: none, or a short string with something in
  // it.
  predicate ErrorTypeKept(errorType: Json) {
    errorType.Null? ||
    (errorType.Str? && !Blank(errorType.t) && !LongerThan(errorType.t, MAX_ACTION_SOURCE_ERROR_TYPE_LENGTH))
  }

  // The verdicts that a status can have.
  datatype Verdict = Succeeded | Failed | Open | Refused

  // v is what status and error type mean together.
  predicate Means(status: Text, errorType: Json, v: Verdict) {
    && ErrorTypeKept(errorType)
    && match v
       case Succeeded => status == OK && errorType.Null?
       case Failed => status == ERROR && errorType != Str(THREAD_MISSING_RESULT)
       case Open =>
         (status == ERROR && errorType == Str(THREAD_MISSING_RESULT)) ||
         ((status == TIMEOUT || status == CANCELLED) && errorType != Str(THREAD_MISSING_RESULT))
       case Refused => status == BLOCKED && errorType != Str(THREAD_MISSING_RESULT)
  }

  function StatusFor(v: Verdict): Text {
    match v
    case Succeeded => SUCCESS
    case Failed => FAILURE
    case Open => UNKNOWN
    case Refused => BLOCKED
  }

  function ExecutionFor(v: Verdict): Json {
    match v
    case Succeeded => Bool(true)
    case Failed => Bool(true)
    case Open => Null
    case Refused => Bool(false)
  }

  function AssessmentFor(v: Verdict): Text {
    match v
    case Succeeded => EXECUTION_SUCCEEDED
    case Failed => EXECUTION_FAILED
    case Open => EXECUTION_UNKNOWN
    case Refused => DISPATCH_PREVENTED
  }

  // The evidence of a completion, for the action.
  predicate Evidences(e: Event, o: Observation, id: Text, v: Verdict, late: bool) {
    && e.kind == (if v.Refused? then ActionBlocked else ActionReceipt) && e.actionId == Some(id)
    && Get(e.payload, ACTION_ID) == Str(id) && Get(e.payload, STATUS) == Str(StatusFor(v))
    && Get(e.payload, EXECUTION_CONFIRMED) == ExecutionFor(v) && Get(e.payload, LATE) == Bool(late)
    && Get(e.payload, SOURCE_STATUS) == Str(o.status) && Get(e.payload, SOURCE_ERROR_TYPE) == o.errorType
    && Get(e.payload, RESULT_SHA256) == Str(o.result)
  }

  predicate Closes(e: Event, id: Text, v: Verdict) {
    && e.kind == ActionReconstructed && e.actionId == Some(id)
    && Get(e.payload, ACTION_ID) == Str(id) && Get(e.payload, ASSESSMENT) == Str(AssessmentFor(v))
  }

  // On time: dispatch, evidence and reconstruction, or block and
  // reconstruction.  Late: evidence and reconstruction.
  predicate Tells(events: seq<Event>, o: Observation, id: Text, v: Verdict, late: bool) {
    var n := |events|;
    && n == (if v.Refused? || late then 2 else 3)
    && (n == 3 ==> events[0].kind == ActionDispatched && Get(events[0].payload, ACTION_ID) == Str(id))
    && Evidences(events[n - 2], o, id, v, late) && Closes(events[n - 1], id, v)
  }

  // Which verdict a status has is determined.
  lemma OneMeaning(status: Text, errorType: Json, v: Verdict, w: Verdict)
    requires Means(status, errorType, v) && Means(status, errorType, w)
    ensures v == w
  {
  }

  lemma ReadIsMeant(status: Text, errorType: Json)
    ensures ReadStatus(status, errorType) == Executed(Actions.Success) <==> Means(status, errorType, Succeeded)
    ensures ReadStatus(status, errorType) == Executed(Actions.Failure) <==> Means(status, errorType, Failed)
    ensures ReadStatus(status, errorType) == Executed(Actions.Unknown) <==> Means(status, errorType, Open)
    ensures ReadStatus(status, errorType).Prevented? <==> Means(status, errorType, Refused)
  {
    hide Blank, LongerThan;
  }

  lemma EvidenceTells(stream: Stream, o: Observation, raw: Event, id: Text, v: Verdict, late: bool)
    requires Means(o.status, o.errorType, v) && !(late && v.Refused?)
    ensures var r := ReadStatus(o.status, o.errorType);
            && !r.Unclear? && (r.Prevented? <==> v.Refused?)
            && Evidences(if v.Refused? then BlockedEvent(stream, o, raw, id, r) else ReceiptEvent(stream, o, raw, id, r, late),
                         o, id, v, late)
  {
    ReadIsMeant(o.status, o.errorType);
    hide ReadStatus, Means;
  }

  lemma CloseTells(stream: Stream, o: Observation, raw: Event, id: Text, v: Verdict)
    requires Means(o.status, o.errorType, v)
    ensures Closes(ReconstructedEvent(stream, raw, id, ReadStatus(o.status, o.errorType)), id, v)
  {
    ReadIsMeant(o.status, o.errorType);
    hide ReadStatus, Means;
  }

  lemma TerminalTells(stream: Stream, o: Observation, raw: Event, id: Text, v: Verdict, late: bool)
    requires Means(o.status, o.errorType, v) && !(late && v.Refused?)
    ensures !ReadStatus(o.status, o.errorType).Unclear?
    ensures Tells(TerminalEvents(stream, o, raw, id, ReadStatus(o.status, o.errorType), late), o, id, v, late)
  {
    hide ReadStatus, Means, Evidences, Closes, BlockedEvent, ReceiptEvent, ReconstructedEvent;
    EvidenceTells(stream, o, raw, id, v, late);
    CloseTells(stream, o, raw, id, v);
  }

  // A completion whose span is matched is applied exactly when its status has a
  // verdict and it is not late and refused; then the plan tells that verdict
  // of the span's action, and closes the span if it was open.
  lemma PostToolTells(stream: Stream, o: Observation, raw: Event, span: Span, v: Verdict)
    requires PostToolPlan(stream, o, raw, Some(span)).Ok? && Means(o.status, o.errorType, v)
    ensures var plan := PostToolPlan(stream, o, raw, Some(span)).value;
            var late := span.closed.Some?;
            && (plan.status.Applied? <==> !(late && v.Refused?))
            && (plan.status.Applied? ==>
                  && span.actionId.Some? && Tells(plan.events, o, span.actionId.value, v, late)
                  && plan.open.None? && plan.close == (if late then None else Some(span)))
  {
    ReadIsMeant(o.status, o.errorType);
    if !(span.closed.Some? && v.Refused?) && span.actionId.Some? {
      TerminalTells(stream, o, raw, span.actionId.value, v, span.closed.Some?);
    }
    hide ReadStatus, Means, Tells, TerminalEvents;
  }

  // Without a verdict it is recorded as a gap, with the reason, and the span is
  // closed all the same.
  lemma PostToolGaps(stream: Stream, o: Observation, raw: Event, span: Span)
    requires PostToolPlan(stream, o, raw, Some(span)).Ok?
    requires forall v: Verdict :: !Means(o.status, o.errorType, v)
    ensures var plan := PostToolPlan(stream, o, raw, Some(span)).value;
            && plan.status.GapStatus? && |plan.events| == 1 && plan.events[0].kind == SemanticGap
            && plan.open.None? && plan.close == (if span.closed.None? then Some(span) else None)
            && Get(plan.events[0].payload, REASON) == Str(
                 if !ErrorTypeKept(o.errorType) then INVALID_ERROR_TYPE
                 else if o.status == OK then OK_WITH_ERROR_TYPE
                 else if o.errorType == Str(THREAD_MISSING_RESULT) then MISATTRIBUTED_MISSING_RESULT
                 else UNKNOWN_STATUS)
  {
    assert !Means(o.status, o.errorType, Succeeded) && !Means(o.status, o.errorType, Failed);
    assert !Means(o.status, o.errorType, Open) && !Means(o.status, o.errorType, Refused);
    hide Blank, LongerThan, TerminalEvents;
  }

  /* ---------------- the first hook of a call ---------------- */

  // The proposal, with the tool and the digest of its arguments.
  predicate ProposesCall(e: Event, o: Observation, raw: Event, id: Text) {
    && e.kind == ActionProposed && e.actionId == Some(id) && Get(e.payload, ACTION_ID) == Str(id)
    && Get(e.payload, INTENT).Obj?
    && var intent := Get(e.payload, INTENT).fields;
       && Get(intent, KIND) == Str(TOOL_CALL) && Get(intent, TOOL_NAME) == Str(o.toolName)
       && Get(intent, ARGS_SHA256) == Str(o.args) && Get(intent, CAPTURE_SEQ) == Int(o.captureSeq)
       && Get(intent, RAW_EVENT_ID) == Str(raw.eventId)
  }

  // The simulation of a branch, from the raw event.
  predicate SimulatesCall(e: Event, raw: Event, id: Text, branch: Text) {
    && e.kind == SimulationCreated && e.actionId == Some(id)
    && Get(e.payload, BRANCH_ID) == Str(branch) && Get(e.payload, PROPOSITION_ID) == Str(branch)
    && Get(e.payload, STANCE) == Str(SIMULATE) && Get(e.payload, SOURCE_IDS) == Arr([Str(raw.eventId)])
  }

  // An event that names the action.
  predicate Names(e: Event, kind: EventType, id: Text) {
    e.kind == kind && e.actionId == Some(id) && Get(e.payload, ACTION_ID) == Str(id)
  }

  // Five events of one action: proposal, sample, request for an assessment,
  // simulation of a branch, and preparation on that branch.
  predicate Prepares(events: seq<Event>, o: Observation, raw: Event, id: Text, branch: Text) {
    && |events| == 5
    && ProposesCall(events[0], o, raw, id) && Names(events[1], ControlSampled, id)
    && Names(events[2], EnergyRequested, id) && SimulatesCall(events[3], raw, id, branch)
    && Names(events[4], ActionPrepared, id) && Get(events[4].payload, BRANCH_ID) == Str(branch)
  }

  lemma ProposedTells(stream: Stream, o: Observation, raw: Event)
    ensures ProposesCall(Proposed(stream, o, raw), o, raw, ActionIdFor(raw, o.captureSeq))
  {
  }

  lemma SimulatedTells(stream: Stream, o: Observation, raw: Event)
    ensures var id := ActionIdFor(raw, o.captureSeq); SimulatesCall(Simulated(stream, o, raw), raw, id, BranchIdFor(id))
  {
    SourceList(raw.eventId);
    hide TextArray, ActionIdFor, BranchIdFor;
  }

  lemma OthersTell(stream: Stream, o: Observation, raw: Event)
    ensures var id := ActionIdFor(raw, o.captureSeq);
            && Names(Sampled(stream, o, raw), ControlSampled, id) && Names(Requested(stream, o, raw), EnergyRequested, id)
            && Names(PreparedEvent(stream, o, raw), ActionPrepared, id)
            && Get(PreparedEvent(stream, o, raw).payload, BRANCH_ID) == Str(BranchIdFor(id))
  {
    hide ActionIdFor, BranchIdFor;
  }

  // The plan of the first hook prepares an action, and its span names both the
  // call and the action.
  lemma PreToolTells(stream: Stream, o: Observation, raw: Event)
    requires PreToolPlan(stream, o, raw).Ok?
    ensures var plan := PreToolPlan(stream, o, raw).value;
            && plan.open.Some? && plan.open.value.actionId.Some? && Some(plan.open.value.externalId) == o.context.toolCallId
            && exists branch :: Prepares(plan.events, o, raw, plan.open.value.actionId.value, branch)
  {
    var id := ActionIdFor(raw, o.captureSeq);
    ProposedTells(stream, o, raw);
    SimulatedTells(stream, o, raw);
    OthersTell(stream, o, raw);
    hide ProposesCall, SimulatesCall, Names, Proposed, Sampled, Requested, Simulated, PreparedEvent, ActionIdFor, BranchIdFor;
    assert Prepares(PreToolPlan(stream, o, raw).value.events, o, raw, id, BranchIdFor(id));
  }

  lemma SourceList(id: Text)
    ensures TextArray([id]) == Arr([Str(id)])
  {
  }

  // A subagent is registered as an external agent under the brain; the actors
  // of different sessions are different.
  lemma SubagentTells(stream: Stream, o: Observation, raw: Event)
    ensures var actor := Identity.ParseActor(Registered(stream, o, raw).payload);
            && actor.Some? && actor.value.actorId == ChildActor(o) && actor.value.kind == Identity.ExternalAgent
            && actor.value.displayName.None? && actor.value.parentActorId == Some(stream.brainId)
  {
    var p := Registered(stream, o, raw).payload;
    assert GetText(p, ACTOR_ID) == Some(ChildActor(o)) && Get(p, KIND) == Str(EXTERNAL_AGENT);
    assert Get(p, DISPLAY_NAME) == Null && Get(p, PARENT_ACTOR_ID) == Str(stream.brainId);
    assert GetOr(p, ATTRIBUTES, Obj(map[])).Obj?;
  }

  lemma SessionsApart(o: Observation, other: Observation)
    requires o.context.childSessionId.Some? && other.context.childSessionId.Some?
    ensures ChildActor(o) == ChildActor(other) <==>
            o.bridgeId == other.bridgeId && o.context.childSessionId == other.context.childSessionId
  {
  }
}
