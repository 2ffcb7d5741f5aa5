// The pure compiler from Hermes observations to derived events
// (runtime/semantic_ingest.py).  Content digests of tool arguments, results,
// contexts and payloads are fields of the observation.
module SemanticIngest {
  import opened Prelude
  import opened Values
  import opened Limits
  import Actions

  datatype Stream = Stream(bridgeId: Text, brainId: Text, actorId: Text, adapterId: Text)

  datatype Observation = Observation(
    bridgeId: Text,
    captureSeq: nat,
    hook: Hook,
    context: Context,
    toolName: Text,
    args: Text,
    result: Text,
    payload: Text,
    status: Text,
    errorType: Json)

  datatype Record =
    | Observed(o: Observation)
    | Gap(bridgeId: Text, first: nat, last: nat, causes: Payload)

  datatype SpanKind = ToolSpan | ApiSpan

  datatype Span = Span(
    bridgeId: Text,
    kind: SpanKind,
    externalId: Text,
    occurrence: nat,
    context: Context,
    actionId: Option<Text>,
    closed: Option<nat>)

  // HermesSpan: the constructor refuses a missing or empty external id.
  function NewSpan(o: Observation, kind: SpanKind, externalId: Option<Text>, actionId: Option<Text>): Option<Span> {
    if externalId.None? || Empty(externalId.value) then None
    else Some(Span(o.bridgeId, kind, externalId.value, o.captureSeq, o.context, actionId, None))
  }

  /* ---------------- match_hermes_span ---------------- */

  function CompletionKind(hook: Hook): Option<SpanKind> {
    match hook
    case PostToolCall => Some(ToolSpan)
    case PostApiRequest => Some(ApiSpan)
    case ApiRequestError => Some(ApiSpan)
    case _ => None
  }

  function ExternalId(o: Observation, kind: SpanKind): Option<Text> {
    if kind.ToolSpan? then o.context.toolCallId else o.context.apiRequestId
  }

  predicate Eligible(o: Observation, kind: SpanKind, span: Span) {
    && span.bridgeId == o.bridgeId && span.kind == kind
    && ExternalId(o, kind) == Some(span.externalId)
    && span.context == o.context && span.occurrence < o.captureSeq
  }

  predicate OpenFor(o: Observation, kind: SpanKind, span: Span) {
    Eligible(o, kind, span) && span.closed.None?
  }

  predicate ClosedFor(o: Observation, kind: SpanKind, span: Span) {
    Eligible(o, kind, span) && span.closed.Some? && span.closed.value < o.captureSeq
  }

  function Filter(p: Span -> bool, spans: seq<Span>): (r: seq<Span>)
    ensures forall x :: x in r <==> x in spans && p(x)
  {
    if spans == [] then []
    else
      assert spans == [spans[0]] + spans[1..];
      (if p(spans[0]) then [spans[0]] else []) + Filter(p, spans[1..])
  }

  // (closed_capture_seq, occurrence_capture_seq) compared as Python tuples.
  predicate ClosedLater(a: Span, b: Span)
    requires a.closed.Some? && b.closed.Some?
  {
    a.closed.value > b.closed.value || (a.closed.value == b.closed.value && a.occurrence > b.occurrence)
  }

  // max(..., key=...): the first of the greatest.
  function Latest(spans: seq<Span>): (r: Span)
    requires spans != [] && forall x :: x in spans ==> x.closed.Some?
    ensures r in spans && forall x :: x in spans ==> !ClosedLater(x, r)
  {
    if |spans| == 1 then spans[0]
    else
      assert spans == [spans[0]] + spans[1..];
      var rest := Latest(spans[1..]);
      if ClosedLater(rest, spans[0]) then rest else spans[0]
  }

  const AMBIGUOUS_OPEN_SPAN := Word(300)
  const AMBIGUOUS_OPEN_CLOSED_SPAN := Word(301)

  // The matched span, or the reason why there is none to be had.
  function MatchSpan(o: Observation, spans: seq<Span>): (r: (Option<Span>, Option<Text>)) {
    var kind := CompletionKind(o.hook);
    if kind.None? then (None, None)
    else
      var open := Filter(x => OpenFor(o, kind.value, x), spans);
      var closed := Filter(x => ClosedFor(o, kind.value, x), spans);
      if |open| > 1 then (None, Some(AMBIGUOUS_OPEN_SPAN))
      else if |open| == 1 then
        if closed != [] then (None, Some(AMBIGUOUS_OPEN_CLOSED_SPAN)) else (Some(open[0]), None)
      else if closed == [] then (None, None)
      else (Some(Latest(closed)), None)
  }

  // A match is the one open span of the same call when no closed one competes
  // with it, or else the span closed last; it never comes from another
  // bridge, kind, call, context, or from the future.
  lemma MatchMeaning(o: Observation, spans: seq<Span>)
    requires CompletionKind(o.hook).Some?
    ensures var kind := CompletionKind(o.hook).value;
            var (matched, reason) := MatchSpan(o, spans);
            && (matched.Some? ==>
                  && reason.None? && matched.value in spans && Eligible(o, kind, matched.value)
                  && (matched.value.closed.None? ==>
                        (forall x :: x in spans && OpenFor(o, kind, x) ==> x == matched.value) &&
                        (forall x :: x in spans ==> !ClosedFor(o, kind, x)))
                  && (matched.value.closed.Some? ==>
                        ClosedFor(o, kind, matched.value) &&
                        (forall x :: x in spans ==> !OpenFor(o, kind, x)) &&
                        (forall x :: x in spans && ClosedFor(o, kind, x) ==> !ClosedLater(x, matched.value))))
            && (matched.None? && reason.None? <==>
                  forall x :: x in spans ==> !OpenFor(o, kind, x) && !ClosedFor(o, kind, x))
  {
    var kind := CompletionKind(o.hook).value;
    var open := Filter(x => OpenFor(o, kind, x), spans);
    var closed := Filter(x => ClosedFor(o, kind, x), spans);
    assert forall x :: x in open <==> x in spans && OpenFor(o, kind, x);
    assert forall x :: x in closed <==> x in spans && ClosedFor(o, kind, x);
    if |open| == 1 {
      assert open[0] in open;
    }
    if |open| > 1 {
      assert open[0] in open;
    }
    if closed != [] {
      assert closed[0] in closed;
    }
  }

  /* ---------------- plans ---------------- */

  datatype PlanStatus = Applied | GapStatus

  datatype Plan = Plan(status: PlanStatus, events: seq<Event>, open: Option<Span>, close: Option<Span>)

  const ROLE_PROPOSED := Word(310)
  const ROLE_SAMPLED := Word(311)
  const ROLE_ENERGY := Word(312)
  const ROLE_SIMULATED := Word(313)
  const ROLE_PREPARED := Word(314)
  const ROLE_BLOCKED := Word(315)
  const ROLE_RECEIPT := Word(316)
  const ROLE_LATE_RECEIPT := Word(317)
  const ROLE_DISPATCHED := Word(318)
  const ROLE_RECONSTRUCTED := Word(319)
  const ROLE_REGISTERED := Word(320)
  const ROLE_ATTRIBUTED := Word(321)
  const ROLE_GAP := Word(322)
  const ROLE_TOOL := Word(323)
  const ROLE_BRANCH := Word(324)
  const ROLE_CHILD := Word(325)
  const TOOL_CALL := Word(326)
  const TOOL_COUNTERFACTUAL := Word(327)
  const OBSERVER_V1 := Word(328)
  const HOST_LLM := Word(329)
  const DISPATCH_PREVENTED := Word(330)
  const EXECUTION_SUCCEEDED := Word(331)
  const EXECUTION_FAILED := Word(332)
  const EXECUTION_UNKNOWN := Word(333)
  const NO_SESSION := Word(334)

  const UNMATCHED_POST_TOOL := Word(340)
  const UNMATCHED_API_COMPLETION := Word(341)
  const INVALID_ERROR_TYPE := Word(342)
  const OK_WITH_ERROR_TYPE := Word(343)
  const MISATTRIBUTED_MISSING_RESULT := Word(344)
  const UNKNOWN_STATUS := Word(345)
  const LATE_BLOCKED_STATUS := Word(346)

  // _derived_event: identified by the raw event and its role in the plan.
  function Derived(stream: Stream, raw: Event, role: Text, kind: EventType, payload: Payload,
                   actionId: Option<Text>): Event
  {
    Event(kind, Join(1, raw.eventId, role), stream.brainId, None, stream.actorId, Some(stream.adapterId),
          actionId, payload)
  }

  function ActionIdFor(raw: Event, captureSeq: nat): Text {
    Join(2, raw.eventId, Join(3, ROLE_TOOL, Numeral(captureSeq as real)))
  }

  function BranchIdFor(actionId: Text): Text {
    Join(4, ROLE_BRANCH, actionId)
  }

  // _observation_provenance: the session, turn and API request ids go into the
  // envelope of the raw event and of every derived one.  Nothing reads them
  // there, but the envelope refuses blank ones.
  predicate Enveloped(record: Record) {
    record.Observed? ==> ContextOk(record.o.context)
  }

  // build_raw_event
  function BuildRawEvent(stream: Stream, record: Record, eventId: Text): Result<Event> {
    if Enveloped(record) then Ok(RawEvent(stream, record, eventId)) else Err(Invariant)
  }

  function RawEvent(stream: Stream, record: Record, eventId: Text): Event {
    match record
    case Observed(o) =>
      Event(HookObserved(o.hook), eventId, stream.brainId, None, stream.actorId, Some(stream.adapterId), None,
            map[CAPTURE_SEQ := Int(o.captureSeq), HOOK := Str(o.payload)])
    case Gap(_, _, _, causes) =>
      Event(TraceGap, eventId, stream.brainId, None, stream.actorId, Some(stream.adapterId), None, causes)
  }

  // _semantic_gap
  function GapPlan(stream: Stream, o: Observation, raw: Event, reason: Text, close: Option<Span>): Plan {
    Plan(GapStatus,
         [Derived(stream, raw, Join(5, ROLE_GAP, reason), SemanticGap,
                  map[CAPTURE_SEQ := Int(o.captureSeq), REASON := Str(reason), HOOK := Str(o.payload)], None)],
         None, close)
  }

  // The span to close when a completion ends in a gap.
  function StillOpen(span: Span): Option<Span> {
    if span.closed.None? then Some(span) else None
  }

  function ProposedPayload(o: Observation, raw: Event, id: Text): Payload {
    map[ACTION_ID := Str(id),
        INTENT := Obj(map[KIND := Str(TOOL_CALL), TOOL_NAME := Str(o.toolName), ARGS_SHA256 := Str(o.args),
                          CAPTURE_SEQ := Int(o.captureSeq), RAW_EVENT_ID := Str(raw.eventId)])]
  }

  function SimulatedPayload(o: Observation, raw: Event, branch: Text): Payload {
    map[PROPOSITION_ID := Str(branch), BRANCH_ID := Str(branch), STANCE := Str(SIMULATE),
        COGNITION_MODE := Str(EVENT_MODE), ALGORITHM_VERSION := Str(SEMANTIC_V1), CONFIG_VERSION := Str(SEMANTIC_V1),
        CONTENT := Obj(map[KIND := Str(TOOL_COUNTERFACTUAL), TOOL_NAME := Str(o.toolName), ARGS_SHA256 := Str(o.args)]),
        EXPECTED_CONSEQUENCES := Arr([
          Obj(map[KIND := Str(EXECUTION_SUCCEEDED), REQUIRES_CONFIRMATION := Bool(true)]),
          Obj(map[KIND := Str(EXECUTION_FAILED), REQUIRES_CONFIRMATION := Bool(true)])]),
        SOURCE_IDS := TextArray([raw.eventId]), UNCERTAINTY := Float(0.5)]
  }

  function Proposed(stream: Stream, o: Observation, raw: Event): Event {
    var id := ActionIdFor(raw, o.captureSeq);
    Derived(stream, raw, ROLE_PROPOSED, ActionProposed, ProposedPayload(o, raw, id), Some(id))
  }

  function Sampled(stream: Stream, o: Observation, raw: Event): Event {
    var id := ActionIdFor(raw, o.captureSeq);
    Derived(stream, raw, ROLE_SAMPLED, ControlSampled,
            map[ACTION_ID := Str(id), ALGORITHM_VERSION := Str(SEMANTIC_V1), ARGS_SHA256 := Str(o.args)], Some(id))
  }

  function Requested(stream: Stream, o: Observation, raw: Event): Event {
    var id := ActionIdFor(raw, o.captureSeq);
    Derived(stream, raw, ROLE_ENERGY, EnergyRequested,
            map[ACTION_ID := Str(id), ASSESSMENT_SOURCE := Str(HOST_LLM)], Some(id))
  }

  function Simulated(stream: Stream, o: Observation, raw: Event): Event {
    var id := ActionIdFor(raw, o.captureSeq);
    Derived(stream, raw, ROLE_SIMULATED, SimulationCreated, SimulatedPayload(o, raw, BranchIdFor(id)), Some(id))
  }

  function PreparedEvent(stream: Stream, o: Observation, raw: Event): Event {
    var id := ActionIdFor(raw, o.captureSeq);
    Derived(stream, raw, ROLE_PREPARED, ActionPrepared,
            map[ACTION_ID := Str(id), BRANCH_ID := Str(BranchIdFor(id))], Some(id))
  }

  // _pre_tool_plan
  function PreToolPlan(stream: Stream, o: Observation, raw: Event): Result<Plan> {
    var span := NewSpan(o, ToolSpan, o.context.toolCallId, Some(ActionIdFor(raw, o.captureSeq)));
    if span.None? then Err(Invariant)
    else Ok(Plan(Applied,
                 [Proposed(stream, o, raw), Sampled(stream, o, raw), Requested(stream, o, raw),
                  Simulated(stream, o, raw), PreparedEvent(stream, o, raw)],
                 span, None))
  }

  // What a post-tool status and error type say about the execution.
  datatype Reading =
    | Executed(status: Actions.ReceiptStatus)
    | Prevented
    | Unclear(reason: Text)

  function ReadStatus(status: Text, errorType: Json): Reading {
    if !Actions.SourceErrorTypeOk(errorType) then Unclear(INVALID_ERROR_TYPE)
    else if status == OK && !errorType.Null? then Unclear(OK_WITH_ERROR_TYPE)
    else if status != ERROR && errorType == Str(THREAD_MISSING_RESULT) then Unclear(MISATTRIBUTED_MISSING_RESULT)
    else if status == OK then Executed(Actions.Success)
    else if status == ERROR && errorType == Str(THREAD_MISSING_RESULT) then Executed(Actions.Unknown)
    else if status == ERROR then Executed(Actions.Failure)
    else if status == TIMEOUT || status == CANCELLED then Executed(Actions.Unknown)
    else if status == BLOCKED then Prevented
    else Unclear(UNKNOWN_STATUS)
  }

  function ReadingText(r: Reading): Text
    requires !r.Unclear?
  {
    if r.Prevented? then BLOCKED else Actions.StatusText(r.status)
  }

  function TerminalPayload(o: Observation, id: Text, r: Reading, late: bool): Payload
    requires !r.Unclear?
  {
    map[ACTION_ID := Str(id), STATUS := Str(ReadingText(r)), SOURCE_STATUS := Str(o.status),
        SOURCE_ERROR_TYPE := o.errorType, LATE := Bool(late), RESULT_SHA256 := Str(o.result),
        EXECUTION_CONFIRMED :=
          if r.Prevented? then Bool(false) else if r.status.Unknown? then Null else Bool(true)]
  }

  function AssessmentOf(r: Reading): Text {
    match r
    case Executed(Success) => EXECUTION_SUCCEEDED
    case Executed(Failure) => EXECUTION_FAILED
    case Executed(Unknown) => EXECUTION_UNKNOWN
    case _ => DISPATCH_PREVENTED
  }

  function BlockedEvent(stream: Stream, o: Observation, raw: Event, id: Text, r: Reading): Event
    requires !r.Unclear?
  {
    Derived(stream, raw, ROLE_BLOCKED, ActionBlocked, TerminalPayload(o, id, r, false), Some(id))
  }

  function ReceiptEvent(stream: Stream, o: Observation, raw: Event, id: Text, r: Reading, late: bool): Event
    requires !r.Unclear?
  {
    Derived(stream, raw, if late then ROLE_LATE_RECEIPT else ROLE_RECEIPT, ActionReceipt, TerminalPayload(o, id, r, late), Some(id))
  }

  function DispatchedEvent(stream: Stream, raw: Event, id: Text): Event {
    Derived(stream, raw, ROLE_DISPATCHED, ActionDispatched, map[ACTION_ID := Str(id)], Some(id))
  }

  function ReconstructedEvent(stream: Stream, raw: Event, id: Text, r: Reading): Event {
    Derived(stream, raw, ROLE_RECONSTRUCTED, ActionReconstructed,
            map[ACTION_ID := Str(id), ASSESSMENT := Str(AssessmentOf(r))], Some(id))
  }

  function TerminalEvents(stream: Stream, o: Observation, raw: Event, id: Text, r: Reading, late: bool): seq<Event>
    requires !r.Unclear?
  {
    (if r.Prevented? then [BlockedEvent(stream, o, raw, id, r)]
     else if late then [ReceiptEvent(stream, o, raw, id, r, true)]
     else [DispatchedEvent(stream, raw, id), ReceiptEvent(stream, o, raw, id, r, false)])
    + [ReconstructedEvent(stream, raw, id, r)]
  }

  // _post_tool_plan
  function PostToolPlan(stream: Stream, o: Observation, raw: Event, matched: Option<Span>): Result<Plan> {
    if matched.None? then Ok(GapPlan(stream, o, raw, UNMATCHED_POST_TOOL, None))
    else
      var span := matched.value;
      if span.bridgeId != o.bridgeId || !span.kind.ToolSpan? || Some(span.externalId) != o.context.toolCallId ||
         span.context != o.context || span.actionId.None? then Err(Invariant)
      else
        var r := ReadStatus(o.status, o.errorType);
        var late := span.closed.Some?;
        if r.Unclear? then Ok(GapPlan(stream, o, raw, r.reason, StillOpen(span)))
        else if late && r.Prevented? then Ok(GapPlan(stream, o, raw, LATE_BLOCKED_STATUS, StillOpen(span)))
        else Ok(Plan(Applied, TerminalEvents(stream, o, raw, span.actionId.value, r, late), None,
                     if late then None else Some(span)))
  }

  function ChildActor(o: Observation): Text {
    var session := o.context.childSessionId;
    Join(6, o.bridgeId, Join(7, ROLE_CHILD, if session.None? then NO_SESSION else session.value))
  }

  function Registered(stream: Stream, o: Observation, raw: Event): Event {
    Derived(stream, raw, ROLE_REGISTERED, ActorRegistered,
            map[ACTOR_ID := Str(ChildActor(o)), KIND := Str(EXTERNAL_AGENT), PARENT_ACTOR_ID := Str(stream.brainId),
                ATTRIBUTES := Obj(map[KIND := Str(OBSERVER_V1)])], None)
  }

  function Attributed(stream: Stream, o: Observation, raw: Event): Event {
    Derived(stream, raw, ROLE_ATTRIBUTED, AttributedTo(o.hook),
            map[CAPTURE_SEQ := Int(o.captureSeq), HOOK := Str(o.payload)], None)
  }

  // _attributed_plan
  function AttributedPlan(stream: Stream, o: Observation, raw: Event, matched: Option<Span>): Result<Plan> {
    var event := Attributed(stream, o, raw);
    if o.hook.PreApiRequest? then
      var span := NewSpan(o, ApiSpan, o.context.apiRequestId, None);
      if span.None? then Err(Invariant) else Ok(Plan(Applied, [event], span, None))
    else if o.hook.PostApiRequest? || o.hook.ApiRequestError? then
      if matched.None? then Ok(GapPlan(stream, o, raw, UNMATCHED_API_COMPLETION, None))
      else
        var span := matched.value;
        if span.bridgeId != o.bridgeId || !span.kind.ApiSpan? || Some(span.externalId) != o.context.apiRequestId ||
           span.context != o.context then Err(Invariant)
        else Ok(Plan(Applied, [event], None, StillOpen(span)))
    else if o.hook.SubagentStart? then Ok(Plan(Applied, [Registered(stream, o, raw), event], None, None))
    else Ok(Plan(Applied, [event], None, None))
  }

  // build_semantic_plan
  function BuildPlan(stream: Stream, record: Record, raw: Event, matched: Option<Span>, forced: Option<Text>): Result<Plan> {
    match record
    case Gap(_, _, _, _) => Ok(Plan(GapStatus, [], None, None))
    case Observed(o) =>
      if forced.Some? then
        Ok(GapPlan(stream, o, raw, forced.value, if matched.None? then None else StillOpen(matched.value)))
      else if o.hook.PreToolCall? then
        if matched.Some? then Err(Invariant) else PreToolPlan(stream, o, raw)
      else if o.hook.PostToolCall? then PostToolPlan(stream, o, raw, matched)
      else AttributedPlan(stream, o, raw, matched)
  }

  /* ---------------- the two status tables ---------------- */

  // The compiler and the reducer read statuses independently.  They agree on
  // every input: a status is compiled into a receipt exactly when the reducer
  // accepts that receipt status for it, and into a block exactly when the
  // reducer accepts the block.
  lemma TablesAgree(o: Observation, id: Text)
    ensures forall r :: ReadStatus(o.status, o.errorType) == Executed(r) <==>
                        Actions.ReceiptSourceOk(r, Str(o.status), o.errorType)
    ensures ReadStatus(o.status, o.errorType).Prevented? <==>
            o.status == BLOCKED && Actions.BlockedSourceOk(TerminalPayload(o, id, Prevented, false))
  {
    var p := TerminalPayload(o, id, Prevented, false);
    assert Get(p, SOURCE_STATUS) == Str(o.status) && Get(p, SOURCE_ERROR_TYPE) == o.errorType;
  }

  // At most one receipt status goes with a source status.
  lemma ReceiptStatusDetermined(a: Actions.ReceiptStatus, b: Actions.ReceiptStatus, status: Text, errorType: Json)
    requires Actions.ReceiptSourceOk(a, Str(status), errorType) && Actions.ReceiptSourceOk(b, Str(status), errorType)
    ensures a == b
  {
  }
}
