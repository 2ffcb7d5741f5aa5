// The span table of one stream over a run of commits: what the store keeps
// beside the brain, and why a completion that finds its span open is always
// applied (runtime/store.py).
module SpanTable {
  import opened Prelude
  import opened Values
  import opened Limits
  import opened State
  import opened Reducer
  import opened SemanticIngest
  import opened PlanAcceptance
  import opened SemanticCommit
  import opened StoreCommit
  import opened ActionRuns
  import Keyed
  import Actions
  import P = Pulse
  import R = ReducerInvariant
  import H = ActionHistory

  /* ---------------- prepared actions over a batch ---------------- */

  predicate HasPrepared(actions: seq<Actions.ActionRecord>, id: Text) {
    exists i :: 0 <= i < |actions| && actions[i].actionId == id && actions[i].phase == Actions.Prepared
  }

  // An event that moves the action along its lifecycle.
  predicate Touches(e: Event, id: Text) {
    && (e.kind.ActionPrepared? || e.kind.ActionBlocked? || e.kind.ActionDispatched? || e.kind.ActionReceipt? ||
        e.kind.ActionReconstructed?)
    && Actions.ActionIdOf(e) == Ok(id)
  }

  lemma PreparedIn(actions: seq<Actions.ActionRecord>, a: Actions.ActionRecord)
    requires a in actions && a.phase == Actions.Prepared
    ensures HasPrepared(actions, a.actionId)
  {
  }

  lemma EnergyKeepsPhase(a: Actions.ActionRecord, e: Event, trusted: bool)
    requires e.kind.EnergyRequested? || e.kind.EnergyAssessed? || e.kind.EnergyAssessmentFailed?
    requires Actions.Step(a, e, trusted).Ok?
    ensures Actions.Step(a, e, trusted).value.0.phase == a.phase
  {
    hide Actions.ValidAction, Get, Blank, LongerThan, Actions.LegacyReassessment;
  }

  lemma StepKeepsId(a: Actions.ActionRecord, e: Event, trusted: bool)
    requires Actions.Step(a, e, trusted).Ok?
    ensures Actions.Step(a, e, trusted).value.0.actionId == a.actionId
  {
    hide Actions.ValidAction, Get, GetOr, Blank, LongerThan, Actions.LegacyReassessment, Actions.ReceiptSourceOk,
         Actions.BlockedSourceOk, Actions.GroundedIds, Actions.NewReceipt, Actions.ValidReceipt, Actions.LateFlagOk, KeepLast;
  }

  lemma ActedKeepsPrepared(actions: seq<Actions.ActionRecord>, e: Event, trusted: bool, id: Text)
    requires Keyed.Unique(Actions.Id, actions) && Actions.ReduceActions(actions, e, trusted).Ok?
    requires HasPrepared(actions, id) && !Touches(e, id)
    ensures HasPrepared(Actions.ReduceActions(actions, e, trusted).value.0, id)
  {
    hide Actions.Step, Actions.Propose, Keyed.Upsert, Keyed.Find, Actions.ActionIdOf;
    var i :| 0 <= i < |actions| && actions[i].actionId == id && actions[i].phase == Actions.Prepared;
    var a := actions[i];
    if Actions.IsLifecycle(e.kind) {
      var r := Actions.ReduceActions(actions, e, trusted).value.0;
      var named := Actions.ActionIdOf(e).value;
      if e.kind.ActionProposed? {
        assert r[i] == a;
      } else {
        var found := Keyed.Find(Actions.Id, actions, named);
        var b := Actions.Step(found, e, trusted).value.0;
        StepKeepsId(found, e, trusted);
        Keyed.UpsertElements(Actions.Id, actions, b);
        if named == id {
          Keyed.FindUnique(Actions.Id, actions, a);
          EnergyKeepsPhase(a, e, trusted);
          PreparedIn(r, b);
        } else {
          PreparedIn(r, a);
        }
      }
    }
  }

  lemma RetainedKeepsPrepared(acted: seq<Actions.ActionRecord>, id: Text)
    requires HasPrepared(acted, id)
    ensures HasPrepared(Retained(acted), id)
  {
    if Evictee(acted).Some? {
      EvicteeTerminal(acted);
      RemovedKeepsPrepared(acted, Evictee(acted).value, id);
    }
    hide HasPrepared, Evictee, Keyed.RemoveAt;
  }

  lemma EvicteeTerminal(acted: seq<Actions.ActionRecord>)
    requires Evictee(acted).Some?
    ensures Evictee(acted).value < |acted| && acted[Evictee(acted).value].phase != Actions.Prepared
  {
    var k := FirstTerminal(acted).value;
    assert Terminal(acted[k]);
    hide FirstTerminal;
  }

  lemma RemovedKeepsPrepared(acted: seq<Actions.ActionRecord>, k: nat, id: Text)
    requires HasPrepared(acted, id) && k < |acted| && acted[k].phase != Actions.Prepared
    ensures HasPrepared(Keyed.RemoveAt(acted, k), id)
  {
    var i :| 0 <= i < |acted| && acted[i].actionId == id && acted[i].phase == Actions.Prepared;
    assert Keyed.RemoveAt(acted, k)[if i < k then i else i - 1] == acted[i];
  }

  // Only its own lifecycle events move a prepared action; it is not evicted.
  lemma PreparedStays(s: BrainState, e: Event, id: Text)
    requires Sound(s) && ReduceState(s, e).Ok? && HasPrepared(s.actions, id) && !Touches(e, id)
    ensures HasPrepared(ReduceState(s, e).value.actions, id)
  {
    hide *;
    SoundParts(s);
    ReducedActions(s, e);
    ActedKeepsPrepared(s.actions, e, Trusted(s, e), id);
    RetainedKeepsPrepared(Actions.ReduceActions(s.actions, e, Trusted(s, e)).value.0, id);
  }

  // What every state of a run of one brain has here.
  ghost predicate Brain(s: BrainState, brainId: Text) {
    Sound(s) && s.brainId == brainId && P.Named(s.actions)
  }

  lemma BrainStep(s: BrainState, e: Event, brainId: Text)
    requires Brain(s, brainId) && ReduceState(s, e).Ok?
    ensures Brain(ReduceState(s, e).value, brainId)
  {
    SoundKept(s, e);
    P.ReducedNamed(s, e);
    SameBrainId(s, e);
    hide Sound, P.Named, ReduceState;
  }

  lemma SameBrainId(s: BrainState, e: Event)
    requires ReduceState(s, e).Ok?
    ensures ReduceState(s, e).value.brainId == s.brainId
  {
    hide Common, ApplySpecific;
    assert ReduceState(s, e) == ApplySpecific(Common(s, e).value, e);
    ReducedBrain(s, e);
  }

  lemma ReducedBrain(s: BrainState, e: Event)
    requires Common(s, e).Ok? && ApplySpecific(Common(s, e).value, e).Ok?
    ensures ApplySpecific(Common(s, e).value, e).value.brainId == s.brainId
  {
    SpecificSequence(Common(s, e).value, e);
    R.CommonFrame(s, e);
    hide Common, ApplySpecific;
  }

  predicate Untouched(events: seq<Event>, id: Text) {
    forall i :: 0 <= i < |events| ==> !Touches(events[i], id)
  }

  // A batch that leaves an action alone leaves it prepared.
  lemma {:induction false} BatchKeeps(s: BrainState, events: seq<Event>, brainId: Text)
    requires Brain(s, brainId) && Sequenced(s, events).Ok?
    ensures Brain(Sequenced(s, events).value, brainId)
    ensures forall id :: HasPrepared(s.actions, id) && Untouched(events, id) ==>
              HasPrepared(Sequenced(s, events).value.actions, id)
    decreases |events|
  {
    hide *;
    if events == [] {
      SequencedNone(s);
    } else {
      var e, rest := events[0], events[1..];
      assert [e] + rest == events;
      SequencedCons(s, e, rest);
      NextIs(s, e);
      var f := At(e, s.lastSequence + 1);
      BrainStep(s, f, brainId);
      var t := Next(s, e).value;
      BatchKeeps(t, rest, brainId);
      forall id | HasPrepared(s.actions, id) && Untouched(events, id)
        ensures HasPrepared(Sequenced(s, events).value.actions, id)
      {
        UntouchedTail(events, id);
        AtTouches(e, s.lastSequence + 1, id);
        BrainIsSound(s, brainId);
        PreparedStays(s, f, id);
      }
    }
  }

  lemma BrainIsSound(s: BrainState, brainId: Text)
    requires Brain(s, brainId)
    ensures Sound(s) && s.brainId == brainId && P.Named(s.actions)
  {
  }

  lemma UntouchedTail(events: seq<Event>, id: Text)
    requires events != [] && Untouched(events, id)
    ensures !Touches(events[0], id) && Untouched(events[1..], id)
  {
  }

  lemma AtTouches(e: Event, n: nat, id: Text)
    ensures Touches(At(e, n), id) <==> Touches(e, id)
  {
  }

  /* ---------------- the table ---------------- */

  function RemoveSpan(spans: seq<Span>, i: nat): (r: seq<Span>)
    requires i < |spans|
    ensures |r| == |spans| - 1
  {
    spans[..i] + spans[i + 1..]
  }

  // The closed span that goes first: least (closed_capture_seq,
  // occurrence_capture_seq).
  function OldestClosed(spans: seq<Span>): (r: Option<nat>)
    ensures r.Some? ==> r.value < |spans| && spans[r.value].closed.Some?
    ensures r.Some? ==> forall x :: x in spans && x.closed.Some? ==> !ClosedLater(spans[r.value], x)
    ensures r.None? <==> forall x :: x in spans ==> x.closed.None?
  {
    if spans == [] then None
    else
      var rest := OldestClosed(spans[1..]);
      assert spans == [spans[0]] + spans[1..];
      assert rest.Some? ==> spans[1..][rest.value] in spans[1..];
      if spans[0].closed.None? then (if rest.None? then None else Some(rest.value + 1))
      else if rest.None? then Some(0)
      else if ClosedLater(spans[0], spans[1..][rest.value]) then Some(rest.value + 1)
      else Some(0)
  }

  // _evict_semantic_span_victims_in_transaction: up to n closed spans, oldest
  // first.
  function Evict(spans: seq<Span>, n: nat): seq<Span>
    decreases n
  {
    var i := OldestClosed(spans);
    if n == 0 || i.None? then spans else Evict(RemoveSpan(spans, i.value), n - 1)
  }

  predicate SameRow(x: Span, span: Span) {
    x.bridgeId == span.bridgeId && x.kind == span.kind && x.externalId == span.externalId &&
    x.occurrence == span.occurrence && x.context == span.context
  }

  function ClosedAt(x: Span, span: Span, at: nat): Span {
    if SameRow(x, span) && x.closed.None? then x.(closed := Some(at)) else x
  }

  function Close(spans: seq<Span>, span: Span, at: nat): (r: seq<Span>)
    ensures |r| == |spans| && forall i :: 0 <= i < |r| ==> r[i] == ClosedAt(spans[i], span, at)
  {
    seq(|spans|, i requires 0 <= i < |spans| => ClosedAt(spans[i], span, at))
  }

  function Required(spans: seq<Span>): nat {
    if |spans| < MAX_HERMES_SPANS_PER_STREAM then 0 else |spans| - MAX_HERMES_SPANS_PER_STREAM + 1
  }

  // _apply_semantic_spans_in_transaction, after the eviction that an opening
  // plan makes.
  function Applied(spans: seq<Span>, plan: Plan, at: nat): seq<Span> {
    var kept := if plan.open.Some? then Evict(spans, Required(spans)) else spans;
    var closed := if plan.close.Some? then Close(kept, plan.close.value, at) else kept;
    if plan.open.Some? then closed + [plan.open.value] else closed
  }

  // Spans of the stream that lie before `next`, in the order of their
  // occurrence, opened by records whose envelope was accepted; tool spans name
  // an action.
  predicate Placed(spans: seq<Span>, bridgeId: Text, next: nat) {
    && (forall i :: 0 <= i < |spans| ==>
          spans[i].bridgeId == bridgeId && spans[i].occurrence < next && ContextOk(spans[i].context) &&
          (spans[i].closed.Some? ==> spans[i].closed.value < next) &&
          (spans[i].kind.ToolSpan? ==> spans[i].actionId.Some?))
    && (forall i, j :: 0 <= i < j < |spans| ==> spans[i].occurrence < spans[j].occurrence)
  }

  predicate OpenTool(x: Span) {
    x.kind.ToolSpan? && x.closed.None? && x.actionId.Some?
  }

  // Open tool spans name prepared actions, each its own.
  predicate Pending(spans: seq<Span>, actions: seq<Actions.ActionRecord>) {
    && (forall i :: 0 <= i < |spans| && OpenTool(spans[i]) ==> HasPrepared(actions, spans[i].actionId.value))
    && (forall i, j :: 0 <= i < j < |spans| && OpenTool(spans[i]) && OpenTool(spans[j]) ==>
          spans[i].actionId != spans[j].actionId)
  }

  // The rest keeps its order.
  lemma FewerAt(spans: seq<Span>, i: nat, k: nat)
    requires i < |spans| && k < |spans| - 1
    ensures RemoveSpan(spans, i)[k] == spans[if k < i then k else k + 1]
  {
  }

  lemma FewerPlaced(spans: seq<Span>, i: nat, bridgeId: Text, next: nat)
    requires i < |spans| && Placed(spans, bridgeId, next)
    ensures Placed(RemoveSpan(spans, i), bridgeId, next)
  {
    hide RemoveSpan;
    forall k | 0 <= k < |spans| - 1 ensures RemoveSpan(spans, i)[k] == spans[if k < i then k else k + 1] {
      FewerAt(spans, i, k);
    }
  }

  lemma FewerPending(spans: seq<Span>, i: nat, actions: seq<Actions.ActionRecord>)
    requires i < |spans| && Pending(spans, actions)
    ensures Pending(RemoveSpan(spans, i), actions)
  {
    hide RemoveSpan, HasPrepared, OpenTool;
    forall k | 0 <= k < |spans| - 1 ensures RemoveSpan(spans, i)[k] == spans[if k < i then k else k + 1] {
      FewerAt(spans, i, k);
    }
  }

  lemma FewerClosed(spans: seq<Span>, i: nat)
    requires i < |spans| && spans[i].closed.Some?
    ensures ClosedCount(RemoveSpan(spans, i)) == ClosedCount(spans) - 1
  {
    var back := spans[i..];
    assert back[1..] == spans[i + 1..] && back[0] == spans[i] && spans[..i] + back == spans;
    ClosedAppend(spans[..i], spans[i + 1..]);
    ClosedAppend(spans[..i], back);
  }

  lemma FewerIn(spans: seq<Span>, i: nat)
    requires i < |spans|
    ensures forall x :: x in RemoveSpan(spans, i) ==> x in spans
  {
  }

  lemma {:induction false} ClosedAppend(a: seq<Span>, b: seq<Span>)
    ensures ClosedCount(a + b) == ClosedCount(a) + ClosedCount(b)
  {
    if a == [] {
      assert a + b == b;
    } else {
      assert (a + b)[1..] == a[1..] + b;
      ClosedAppend(a[1..], b);
    }
  }

  lemma {:induction false} NoneClosed(spans: seq<Span>)
    requires forall x :: x in spans ==> x.closed.None?
    ensures ClosedCount(spans) == 0
  {
    if spans != [] {
      NoneClosed(spans[1..]);
    }
  }

  // Eviction takes closed spans only, as many as asked for if there are.
  lemma {:induction false} Evicted(spans: seq<Span>, n: nat, bridgeId: Text, next: nat, actions: seq<Actions.ActionRecord>)
    ensures Placed(spans, bridgeId, next) ==> Placed(Evict(spans, n), bridgeId, next)
    ensures Pending(spans, actions) ==> Pending(Evict(spans, n), actions)
    ensures |Evict(spans, n)| == |spans| - (if ClosedCount(spans) < n then ClosedCount(spans) else n)
    ensures forall x :: x in Evict(spans, n) ==> x in spans
    decreases n
  {
    hide *;
    EvictIs(spans, n);
    var i := OldestClosed(spans);
    if i.None? {
      NoneClosed(spans);
    } else if n > 0 {
      var fewer := RemoveSpan(spans, i.value);
      FewerClosed(spans, i.value);
      FewerIn(spans, i.value);
      if Placed(spans, bridgeId, next) {
        FewerPlaced(spans, i.value, bridgeId, next);
      }
      if Pending(spans, actions) {
        FewerPending(spans, i.value, actions);
      }
      Evicted(fewer, n - 1, bridgeId, next, actions);
    }
  }

  lemma EvictIs(spans: seq<Span>, n: nat)
    ensures n == 0 || OldestClosed(spans).None? ==> Evict(spans, n) == spans
    ensures n > 0 && OldestClosed(spans).Some? ==>
              Evict(spans, n) == Evict(RemoveSpan(spans, OldestClosed(spans).value), n - 1)
  {
    hide OldestClosed, RemoveSpan;
  }

  // Closing one span of the table touches that row only.
  lemma ClosedOne(spans: seq<Span>, k: nat, bridgeId: Text, next: nat, at: nat)
    requires Placed(spans, bridgeId, next) && k < |spans| && spans[k].closed.None? && next <= at
    ensures Close(spans, spans[k], at) == spans[k := spans[k].(closed := Some(at))]
    ensures Placed(Close(spans, spans[k], at), bridgeId, at + 1)
  {
  }

  lemma PlacedLater(spans: seq<Span>, bridgeId: Text, next: nat, later: nat)
    requires Placed(spans, bridgeId, next) && next <= later
    ensures Placed(spans, bridgeId, later)
  {
  }

  /* ---------------- one commit ---------------- */

  // A stream at the store: the brain it is bound to, its spans, and the next
  // capture sequence.
  datatype Store = Store(stream: Stream, brain: BrainState, spans: seq<Span>, next: nat)

  function First(record: Record): nat {
    if record.Observed? then record.o.captureSeq else record.first
  }

  function Last(record: Record): nat {
    if record.Observed? then record.o.captureSeq else record.last
  }

  // What commit_bridge_record demands before it compiles a plan.
  predicate AtCursor(t: Store, record: Record) {
    First(record) == t.next && First(record) <= Last(record) &&
    (if record.Observed? then record.o.bridgeId else record.bridgeId) == t.stream.bridgeId
  }

  // new_id: the raw event's identifier is new, and so is what is derived from
  // it.
  predicate Fresh(t: Store, record: Record, rawId: Text) {
    !Blank(rawId) &&
    (record.Observed? ==>
       !Keyed.Has(Actions.Id, t.brain.actions, ActionIdFor(RawEvent(t.stream, record, rawId), record.o.captureSeq)))
  }

  function CommitRecord(t: Store, record: Record, rawId: Text): Result<Store> {
    if !AtCursor(t, record) then Err(Invariant)
    else
      var c :- Commit(t.stream, t.brain, record, t.spans, rawId);
      Ok(Store(t.stream, c.successor, Applied(t.spans, c.plan, Last(record)), Last(record) + 1))
  }

  // The brain is in order, the table within its limit and in order, and every
  // open tool span has a prepared action of its own.
  ghost predicate InOrder(stream: Stream, brain: BrainState, spans: seq<Span>, next: nat) {
    && Brain(brain, stream.brainId) && !stream.brainId.Join?
    && |spans| <= MAX_HERMES_SPANS_PER_STREAM
    && Placed(spans, stream.bridgeId, next)
    && Pending(spans, brain.actions)
  }

  ghost predicate Kept(t: Store) {
    InOrder(t.stream, t.brain, t.spans, t.next)
  }

  lemma KeptBinding(t: Store, record: Record, rawId: Text)
    requires Kept(t) && Fresh(t, record, rawId)
    ensures Sound(t.brain) && Binding(t.stream, t.brain, record, rawId)
  {
    hide Sound, Keyed.Has, Blank, ActionIdFor, RawEvent, Placed, Pending;
  }

  // The spans whose action a batch leaves prepared stay pending.
  lemma PendingMoves(spans: seq<Span>, actions: seq<Actions.ActionRecord>, later: seq<Actions.ActionRecord>)
    requires Pending(spans, actions)
    requires forall i :: 0 <= i < |spans| && OpenTool(spans[i]) ==> HasPrepared(later, spans[i].actionId.value)
    ensures Pending(spans, later)
  {
    hide HasPrepared, OpenTool;
  }

  lemma PendingClosed(spans: seq<Span>, k: nat, at: nat, actions: seq<Actions.ActionRecord>,
                      later: seq<Actions.ActionRecord>)
    requires Pending(spans, actions) && k < |spans|
    requires forall i :: 0 <= i < |spans| && i != k && OpenTool(spans[i]) ==> HasPrepared(later, spans[i].actionId.value)
    ensures Pending(spans[k := spans[k].(closed := Some(at))], later)
  {
    hide HasPrepared;
  }

  lemma PendingAppended(spans: seq<Span>, x: Span, actions: seq<Actions.ActionRecord>)
    requires Pending(spans, actions)
    requires OpenTool(x) ==> HasPrepared(actions, x.actionId.value)
    requires forall i :: 0 <= i < |spans| && OpenTool(spans[i]) && OpenTool(x) ==> spans[i].actionId != x.actionId
    ensures Pending(spans + [x], actions)
  {
    hide HasPrepared;
    var all := spans + [x];
    assert forall i :: 0 <= i < |spans| ==> all[i] == spans[i];
    assert all[|spans|] == x;
  }

  lemma PlacedAppended(spans: seq<Span>, x: Span, bridgeId: Text, next: nat)
    requires Placed(spans, bridgeId, next) && x.bridgeId == bridgeId && x.occurrence == next && x.closed.None?
    requires ContextOk(x.context) && (x.kind.ToolSpan? ==> x.actionId.Some?)
    ensures Placed(spans + [x], bridgeId, next + 1)
  {
    var all := spans + [x];
    assert forall i :: 0 <= i < |spans| ==> all[i] == spans[i];
    assert all[|spans|] == x;
    hide ContextOk;
  }

  // Opening a span: after the eviction there is room for it.
  lemma OpenedKept(t: Store, x: Span, later: seq<Actions.ActionRecord>)
    requires |t.spans| <= MAX_HERMES_SPANS_PER_STREAM && Placed(t.spans, t.stream.bridgeId, t.next)
    requires Pending(t.spans, t.brain.actions)
    requires |t.spans| - MAX_HERMES_SPANS_PER_STREAM + 1 <= 0 || ClosedCount(t.spans) >= Required(t.spans)
    requires x.bridgeId == t.stream.bridgeId && x.occurrence == t.next && x.closed.None? && ContextOk(x.context)
    requires x.kind.ToolSpan? ==> x.actionId.Some? && HasPrepared(later, x.actionId.value)
    requires StillPrepared(t.spans, later, None)
    requires forall i :: 0 <= i < |t.spans| && OpenTool(t.spans[i]) && OpenTool(x) ==> t.spans[i].actionId != x.actionId
    ensures var r := Evict(t.spans, Required(t.spans)) + [x];
            |r| <= MAX_HERMES_SPANS_PER_STREAM && Placed(r, t.stream.bridgeId, t.next + 1) && Pending(r, later)
  {
    var kept := Evict(t.spans, Required(t.spans));
    Evicted(t.spans, Required(t.spans), t.stream.bridgeId, t.next, t.brain.actions);
    hide Placed, Pending, HasPrepared, Evict;
    forall i | 0 <= i < |kept| && OpenTool(kept[i])
      ensures HasPrepared(later, kept[i].actionId.value) && (OpenTool(x) ==> kept[i].actionId != x.actionId)
    {
      assert kept[i] in t.spans;
    }
    PendingMoves(kept, t.brain.actions, later);
    PendingAppended(kept, x, later);
    PlacedAppended(kept, x, t.stream.bridgeId, t.next);
  }

  // The batch moves no action of an open tool span, but for one span.
  predicate Spares(spans: seq<Span>, events: seq<Event>, but: Option<Span>) {
    forall i :: 0 <= i < |spans| && OpenTool(spans[i]) && but != Some(spans[i]) ==>
      Untouched(events, spans[i].actionId.value)
  }

  predicate StillPrepared(spans: seq<Span>, actions: seq<Actions.ActionRecord>, but: Option<Span>) {
    forall i :: 0 <= i < |spans| && OpenTool(spans[i]) && but != Some(spans[i]) ==>
      HasPrepared(actions, spans[i].actionId.value)
  }

  // The table after a plan that opens nothing and closes the matched span or
  // nothing.
  lemma ShutKept(t: Store, close: Option<Span>, at: nat, later: seq<Actions.ActionRecord>)
    requires |t.spans| <= MAX_HERMES_SPANS_PER_STREAM && Placed(t.spans, t.stream.bridgeId, t.next) && t.next <= at
    requires Pending(t.spans, t.brain.actions)
    requires close.Some? ==> close.value in t.spans && close.value.closed.None?
    requires StillPrepared(t.spans, later, close)
    ensures var r := if close.Some? then Close(t.spans, close.value, at) else t.spans;
            |r| <= MAX_HERMES_SPANS_PER_STREAM && Placed(r, t.stream.bridgeId, at + 1) && Pending(r, later)
  {
    if close.Some? {
      var k :| 0 <= k < |t.spans| && t.spans[k] == close.value;
      ClosedOne(t.spans, k, t.stream.bridgeId, t.next, at);
      OthersDiffer(t.spans, k, t.stream.bridgeId, t.next);
      PendingClosed(t.spans, k, at, t.brain.actions, later);
    } else {
      PendingMoves(t.spans, t.brain.actions, later);
      PlacedLater(t.spans, t.stream.bridgeId, t.next, at + 1);
    }
    hide Placed, Pending, HasPrepared;
  }

  lemma OthersDiffer(spans: seq<Span>, k: nat, bridgeId: Text, next: nat)
    requires Placed(spans, bridgeId, next) && k < |spans|
    ensures forall i :: 0 <= i < |spans| && i != k ==> spans[i] != spans[k]
  {
    forall i | 0 <= i < |spans| && i != k ensures spans[i] != spans[k] {
      assert spans[i].occurrence != spans[k].occurrence;
    }
  }

  /* ---------------- what each plan does to the table ---------------- */

  predicate ForTool(record: Record, used: Option<Text>) {
    record.Observed? && used.None? && (record.o.hook.PreToolCall? || record.o.hook.PostToolCall?)
  }

  // Plans other than those of tool hooks move no action; the only span they
  // open is that of an API request.
  lemma QuietPlan(stream: Stream, record: Record, raw: Event, matched: Option<Span>, used: Option<Text>)
    requires BuildPlan(stream, record, raw, matched, used).Ok? && !ForTool(record, used)
    requires raw.kind == RawEvent(stream, record, raw.eventId).kind
    ensures var plan := BuildPlan(stream, record, raw, matched, used).value;
            && (forall id :: Untouched([raw] + plan.events, id))
            && (plan.open.Some? ==>
                  record.Observed? && used.None? && record.o.hook.PreApiRequest? && plan.close.None? &&
                  plan.open.value.bridgeId == record.o.bridgeId && plan.open.value.kind.ApiSpan? &&
                  plan.open.value.occurrence == record.o.captureSeq && plan.open.value.closed.None? &&
                  plan.open.value.context == record.o.context)
            && (plan.close.Some? ==> record.Observed? && plan.close == matched && matched.value.closed.None?)
  {
    hide Registered, PreToolPlan, PostToolPlan;
    var plan := BuildPlan(stream, record, raw, matched, used).value;
    if record.Observed? {
      RegisteredFields(stream, record.o, raw);
    }
    forall id ensures Untouched([raw] + plan.events, id) {
      hide Actions.ActionIdOf;
    }
  }

  // A post-tool plan either moves nothing, or moves the matched action alone
  // and closes its span if it was open.
  lemma PostToolEffect(stream: Stream, o: Observation, raw: Event, matched: Option<Span>)
    requires PostToolPlan(stream, o, raw, matched).Ok? && raw.kind == HookObserved(o.hook)
    ensures var plan := PostToolPlan(stream, o, raw, matched).value;
            && plan.open.None?
            && (plan.close.Some? ==> plan.close == matched && matched.value.closed.None?)
            && (plan.status.GapStatus? ==> forall id :: Untouched([raw] + plan.events, id))
            && (plan.status.Applied? ==>
                  matched.Some? && matched.value.actionId.Some? &&
                  (matched.value.closed.None? ==> plan.close == matched) &&
                  forall id :: id != matched.value.actionId.value ==> Untouched([raw] + plan.events, id))
  {
    hide Actions.SourceErrorTypeOk, ReadStatus;
    var plan := PostToolPlan(stream, o, raw, matched).value;
    if plan.status.Applied? {
      var id := matched.value.actionId.value;
      var r, late := ReadStatus(o.status, o.errorType), matched.value.closed.Some?;
      forall other | other != id ensures Untouched([raw] + plan.events, other) {
        TerminalTouches(stream, o, raw, id, r, late, other);
      }
    }
  }

  lemma TerminalTouches(stream: Stream, o: Observation, raw: Event, id: Text, r: Reading, late: bool, other: Text)
    requires !r.Unclear? && other != id && raw.kind == HookObserved(o.hook)
    ensures Untouched([raw] + TerminalEvents(stream, o, raw, id, r, late), other)
  {
    assert forall e, x :: HasField(e, ACTION_ID, Str(x)) ==> Get(e, ACTION_ID) == Str(x);
    hide Blank;
  }

  lemma PreToolTouches(stream: Stream, o: Observation, raw: Event, other: Text)
    requires other != ActionIdFor(raw, o.captureSeq) && raw.kind == HookObserved(o.hook)
    ensures Untouched([raw] + PreToolEvents(stream, o, raw), other)
  {
    hide Blank, ActionIdFor, SimulatedPayload, ProposedPayload;
  }

  lemma PreToolPrepares(t: Store, o: Observation, raw: Event)
    requires Kept(t) && Bound(t.stream, t.brain, raw) && Plain(raw.kind) && raw.brainId == t.brain.brainId
    requires !Keyed.Has(Actions.Id, t.brain.actions, ActionIdFor(raw, o.captureSeq))
    requires Sequenced(t.brain, [raw] + PreToolEvents(t.stream, o, raw)).Ok?
    ensures HasPrepared(Sequenced(t.brain, [raw] + PreToolEvents(t.stream, o, raw)).value.actions,
                        ActionIdFor(raw, o.captureSeq))
  {
    hide *;
    var s := t.brain;
    KeptSound(t);
    PlainNext(s, raw);
    SequencedCons(s, raw, PreToolEvents(t.stream, o, raw));
    var u := Next(s, raw).value;
    SameBrain(t.stream, s, u, raw);
    PreToolDecided(u, t.stream, o, raw);
    var x := Sequenced(u, PreToolEvents(t.stream, o, raw)).value;
    var b :| b in x.actions && ReadyToRun(b, o, raw);
    ReadyIsPrepared(x.actions, b, o, raw);
  }

  lemma KeptSound(t: Store)
    requires Kept(t)
    ensures Sound(t.brain) && Brain(t.brain, t.stream.brainId) && t.brain.brainId == t.stream.brainId
    ensures Keyed.Unique(Actions.Id, t.brain.actions)
    ensures forall a :: a in t.brain.actions ==> !Blank(a.actionId)
  {
    SoundParts(t.brain);
    hide Sound, Placed, Pending, Blank, Keyed.Unique, H.Lifecycle;
  }

  lemma ReadyIsPrepared(actions: seq<Actions.ActionRecord>, b: Actions.ActionRecord, o: Observation, raw: Event)
    requires b in actions && ReadyToRun(b, o, raw)
    ensures HasPrepared(actions, ActionIdFor(raw, o.captureSeq))
  {
    PreparedIn(actions, b);
  }

  // The actions of the open tool spans are known to the brain.
  lemma PendingKnown(t: Store, id: Text)
    requires Pending(t.spans, t.brain.actions) && !Keyed.Has(Actions.Id, t.brain.actions, id)
    ensures forall i :: 0 <= i < |t.spans| && OpenTool(t.spans[i]) ==> t.spans[i].actionId != Some(id)
  {
    forall i | 0 <= i < |t.spans| && OpenTool(t.spans[i]) ensures t.spans[i].actionId != Some(id) {
      var k :| 0 <= k < |t.brain.actions| && t.brain.actions[k].actionId == t.spans[i].actionId.value &&
               t.brain.actions[k].phase == Actions.Prepared;
      assert Actions.Id(t.brain.actions[k]) == t.spans[i].actionId.value;
    }
  }

  // After a batch: the brain is in order, and the spans named stay pending.
  ghost predicate Leaves(t: Store, later: BrainState, but: Option<Span>) {
    Brain(later, t.stream.brainId) && StillPrepared(t.spans, later.actions, but)
  }

  lemma BatchLeaves(t: Store, events: seq<Event>, but: Option<Span>)
    requires Kept(t) && Sequenced(t.brain, events).Ok?
    requires Spares(t.spans, events, but)
    ensures Leaves(t, Sequenced(t.brain, events).value, but)
  {
    hide Sound, Sequenced, Untouched, HasPrepared, Brain, Placed;
    BatchKeeps(t.brain, events, t.stream.brainId);
  }

  lemma PreToolLeaves(t: Store, o: Observation, raw: Event, later: BrainState)
    requires Kept(t) && Bound(t.stream, t.brain, raw) && Plain(raw.kind) && raw.brainId == t.brain.brainId
    requires raw.kind == HookObserved(o.hook)
    requires !Keyed.Has(Actions.Id, t.brain.actions, ActionIdFor(raw, o.captureSeq))
    requires Sequenced(t.brain, [raw] + PreToolEvents(t.stream, o, raw)) == Ok(later)
    ensures Leaves(t, later, None) && HasPrepared(later.actions, ActionIdFor(raw, o.captureSeq))
    ensures forall i :: 0 <= i < |t.spans| && OpenTool(t.spans[i]) ==>
              t.spans[i].actionId != Some(ActionIdFor(raw, o.captureSeq))
  {
    PreToolPrepares(t, o, raw);
    KeptPending(t);
    PendingKnown(t, ActionIdFor(raw, o.captureSeq));
    hide Kept, Sequenced, PreToolEvents, ActionIdFor, HasPrepared, Untouched, Leaves, Plain, Bound, Keyed.Has;
    forall i | 0 <= i < |t.spans| && OpenTool(t.spans[i]) && None != Some(t.spans[i])
      ensures Untouched([raw] + PreToolEvents(t.stream, o, raw), t.spans[i].actionId.value)
    {
      PreToolTouches(t.stream, o, raw, t.spans[i].actionId.value);
    }
    assert Spares(t.spans, [raw] + PreToolEvents(t.stream, o, raw), None);
    BatchLeaves(t, [raw] + PreToolEvents(t.stream, o, raw), None);
  }

  lemma KeptPending(t: Store)
    requires Kept(t)
    ensures Pending(t.spans, t.brain.actions) && Placed(t.spans, t.stream.bridgeId, t.next)
    ensures |t.spans| <= MAX_HERMES_SPANS_PER_STREAM && !t.stream.brainId.Join?
  {
    hide Pending, Placed, Brain;
  }

  lemma KeptAgain(t: Store, later: BrainState, spans: seq<Span>, next: nat)
    requires Kept(t) && Brain(later, t.stream.brainId)
    requires |spans| <= MAX_HERMES_SPANS_PER_STREAM && Placed(spans, t.stream.bridgeId, next)
    requires Pending(spans, later.actions)
    ensures InOrder(t.stream, later, spans, next)
  {
    hide Pending, Placed, Brain;
  }

  lemma PreToolKept(t: Store, o: Observation, raw: Event, plan: Plan, later: BrainState)
    requires Kept(t) && AtCursor(t, Observed(o)) && o.hook.PreToolCall? && CapacityGap(Observed(o), t.spans).None?
    requires PreToolPlan(t.stream, o, raw) == Ok(plan) && ContextOk(o.context)
    requires Leaves(t, later, None) && HasPrepared(later.actions, ActionIdFor(raw, o.captureSeq))
    requires forall i :: 0 <= i < |t.spans| && OpenTool(t.spans[i]) ==>
               t.spans[i].actionId != Some(ActionIdFor(raw, o.captureSeq))
    ensures InOrder(t.stream, later, Applied(t.spans, plan, Last(Observed(o))), Last(Observed(o)) + 1)
  {
    hide *;
    PlanOpens(t.stream, o, raw);
    OpensKept(t, Observed(o), plan, later);
  }

  lemma LeavesParts(t: Store, later: BrainState, but: Option<Span>)
    requires Leaves(t, later, but)
    ensures Brain(later, t.stream.brainId) && StillPrepared(t.spans, later.actions, but)
  {
    hide Brain, StillPrepared;
  }

  lemma RoomToOpen(record: Record, spans: seq<Span>)
    requires record.Observed? && (record.o.hook.PreToolCall? || record.o.hook.PreApiRequest?)
    requires CapacityGap(record, spans).None?
    ensures |spans| - MAX_HERMES_SPANS_PER_STREAM + 1 <= 0 || ClosedCount(spans) >= Required(spans)
  {
  }

  lemma AppliedOpens(spans: seq<Span>, plan: Plan, at: nat)
    requires plan.open.Some? && plan.close.None?
    ensures Applied(spans, plan, at) == Evict(spans, Required(spans)) + [plan.open.value]
  {
    hide Evict;
  }

  lemma RawKind(stream: Stream, record: Record, rawId: Text)
    ensures record.Observed? ==> RawEvent(stream, record, rawId).kind == HookObserved(record.o.hook)
    ensures RawEvent(stream, record, rawId).eventId == rawId
  {
  }

  lemma PlanOpens(stream: Stream, o: Observation, raw: Event)
    requires PreToolPlan(stream, o, raw).Ok?
    ensures var plan := PreToolPlan(stream, o, raw).value;
            && plan.events == PreToolEvents(stream, o, raw) && plan.close.None? && plan.open.Some?
            && plan.open.value.bridgeId == o.bridgeId && plan.open.value.kind.ToolSpan?
            && plan.open.value.occurrence == o.captureSeq && plan.open.value.closed.None?
            && plan.open.value.context == o.context
            && plan.open.value.actionId == Some(ActionIdFor(raw, o.captureSeq))
  {
    hide Proposed, Sampled, Requested, Simulated, PreparedEvent, ActionIdFor;
  }

  lemma AppliedShuts(spans: seq<Span>, plan: Plan, at: nat)
    requires plan.open.None?
    ensures Applied(spans, plan, at) == if plan.close.Some? then Close(spans, plan.close.value, at) else spans
  {
    hide Evict, Close;
  }

  lemma MatchedIn(record: Record, spans: seq<Span>)
    ensures Matched(record, spans).0.Some? ==> record.Observed? && Matched(record, spans).0.value in spans
    ensures Matched(record, spans).0.Some? ==>
              CompletionKind(record.o.hook) == Some(Matched(record, spans).0.value.kind)
  {
    if record.Observed? && CompletionKind(record.o.hook).Some? {
      MatchMeaning(record.o, spans);
    }
    hide Filter;
  }

  // A plan that opens nothing, whose batch leaves every open tool span pending
  // but the one that it closes.
  lemma ShutsKept(t: Store, record: Record, plan: Plan, later: BrainState)
    requires Kept(t) && AtCursor(t, record) && plan.open.None? && Leaves(t, later, plan.close)
    requires plan.close.Some? ==> plan.close.value in t.spans && plan.close.value.closed.None?
    ensures InOrder(t.stream, later, Applied(t.spans, plan, Last(record)), Last(record) + 1)
  {
    CursorParts(t, record);
    hide *;
    LeavesParts(t, later, plan.close);
    KeptPending(t);
    AppliedShuts(t.spans, plan, Last(record));
    ShutKept(t, plan.close, Last(record), later.actions);
    KeptAgain(t, later, Applied(t.spans, plan, Last(record)), Last(record) + 1);
  }

  lemma OpensKept(t: Store, record: Record, plan: Plan, later: BrainState)
    requires Kept(t) && AtCursor(t, record) && record.Observed? && CapacityGap(record, t.spans).None?
    requires (record.o.hook.PreToolCall? || record.o.hook.PreApiRequest?) && ContextOk(record.o.context)
    requires plan.open.Some? && plan.close.None? && Leaves(t, later, None)
    requires var x := plan.open.value;
             && x.bridgeId == record.o.bridgeId && x.occurrence == record.o.captureSeq && x.closed.None?
             && x.context == record.o.context
             && (x.kind.ToolSpan? ==> x.actionId.Some? && HasPrepared(later.actions, x.actionId.value))
             && (OpenTool(x) ==> forall i :: 0 <= i < |t.spans| && OpenTool(t.spans[i]) ==>
                   t.spans[i].actionId != x.actionId)
    ensures InOrder(t.stream, later, Applied(t.spans, plan, Last(record)), Last(record) + 1)
  {
    hide *;
    CursorParts(t, record);
    LeavesParts(t, later, None);
    KeptPending(t);
    RoomToOpen(record, t.spans);
    OpenedKept(t, plan.open.value, later.actions);
    AppliedOpens(t.spans, plan, Last(record));
    KeptAgain(t, later, Applied(t.spans, plan, Last(record)), Last(record) + 1);
  }

  lemma CursorParts(t: Store, record: Record)
    requires AtCursor(t, record)
    ensures First(record) == t.next && t.next <= Last(record)
    ensures record.Observed? ==>
              record.o.bridgeId == t.stream.bridgeId && record.o.captureSeq == t.next == Last(record)
  {
  }

  lemma QuietKept(t: Store, record: Record, raw: Event, used: Option<Text>, plan: Plan, later: BrainState)
    requires Kept(t) && AtCursor(t, record) && Enveloped(record) && !ForTool(record, used)
    requires raw.kind == RawEvent(t.stream, record, raw.eventId).kind
    requires used.None? ==> CapacityGap(record, t.spans).None?
    requires BuildPlan(t.stream, record, raw, Matched(record, t.spans).0, used) == Ok(plan)
    requires Leaves(t, later, plan.close)
    ensures InOrder(t.stream, later, Applied(t.spans, plan, Last(record)), Last(record) + 1)
  {
    QuietPlan(t.stream, record, raw, Matched(record, t.spans).0, used);
    MatchedIn(record, t.spans);
    hide ContextOk, Kept, Leaves, HasPrepared, Applied, BuildPlan, Matched, CapacityGap, RawEvent, Untouched;
    if plan.open.Some? {
      ApiIsNoTool(plan.open.value);
      OpensKept(t, record, plan, later);
    } else {
      ShutsKept(t, record, plan, later);
    }
  }

  lemma AllSpared(spans: seq<Span>, events: seq<Event>)
    requires forall id :: Untouched(events, id)
    ensures forall but :: Spares(spans, events, but)
  {
    hide Untouched;
  }

  lemma ApiIsNoTool(x: Span)
    ensures x.kind.ApiSpan? ==> !OpenTool(x)
  {
  }

  // Another open span names another action; so does the span of a late
  // completion, whose action has ended.
  lemma OtherAction(t: Store, span: Span, i: nat)
    requires Kept(t) && span in t.spans && span.kind.ToolSpan? && span.actionId.Some? && i < |t.spans|
    requires OpenTool(t.spans[i]) && t.spans[i] != span
    requires span.closed.Some? ==>
               Keyed.Has(Actions.Id, t.brain.actions, span.actionId.value) &&
               Keyed.Find(Actions.Id, t.brain.actions, span.actionId.value).phase != Actions.Prepared
    ensures t.spans[i].actionId != span.actionId
  {
    OpenIsOpen(t.spans[i]);
    assert span.closed.None? ==> OpenTool(span);
    hide *;
    KeptPending(t);
    KeptSound(t);
    if span.closed.Some? {
      EndedElsewhere(t.spans, t.brain.actions, span.actionId.value, i);
    } else {
      OpenElsewhere(t.spans, t.brain.actions, span, i);
    }
  }

  lemma OpenElsewhere(spans: seq<Span>, actions: seq<Actions.ActionRecord>, span: Span, i: nat)
    requires Pending(spans, actions) && span in spans && OpenTool(span) && i < |spans| && OpenTool(spans[i])
    requires spans[i] != span
    ensures spans[i].actionId != span.actionId
  {
    hide HasPrepared;
    var k :| 0 <= k < |spans| && spans[k] == span;
  }

  lemma EndedElsewhere(spans: seq<Span>, actions: seq<Actions.ActionRecord>, id: Text, i: nat)
    requires Pending(spans, actions) && i < |spans| && OpenTool(spans[i]) && Keyed.Unique(Actions.Id, actions)
    requires Keyed.Has(Actions.Id, actions, id) && Keyed.Find(Actions.Id, actions, id).phase != Actions.Prepared
    ensures spans[i].actionId.value != id
  {
    hide Keyed.Has, Keyed.Find, Keyed.Unique;
    if spans[i].actionId.value == id {
      var m :| 0 <= m < |actions| && actions[m].actionId == id && actions[m].phase == Actions.Prepared;
      Keyed.FindUnique(Actions.Id, actions, actions[m]);
    }
  }

  lemma LateIsDone(s: BrainState, o: Observation, spans: seq<Span>)
    requires o.hook.PostToolCall? && LifecycleGap(s, Observed(o), MatchSpan(o, spans).0).None?
    requires MatchSpan(o, spans).0.Some? && MatchSpan(o, spans).0.value.closed.Some?
    ensures var id := MatchSpan(o, spans).0.value.actionId;
            id.Some? && Keyed.Has(Actions.Id, s.actions, id.value) &&
            Keyed.Find(Actions.Id, s.actions, id.value).phase != Actions.Prepared
  {
    hide MatchSpan, Keyed.Has, Keyed.Find;
  }

  lemma PostToolKept(t: Store, o: Observation, raw: Event, plan: Plan, later: BrainState)
    requires Kept(t) && AtCursor(t, Observed(o)) && o.hook.PostToolCall? && raw.kind == HookObserved(o.hook)
    requires PostToolPlan(t.stream, o, raw, MatchSpan(o, t.spans).0) == Ok(plan)
    requires Leaves(t, later, plan.close)
    ensures InOrder(t.stream, later, Applied(t.spans, plan, Last(Observed(o))), Last(Observed(o)) + 1)
  {
    hide *;
    PostToolEffect(t.stream, o, raw, MatchSpan(o, t.spans).0);
    if plan.close.Some? {
      ToolMatched(o, t.spans);
    }
    ShutsKept(t, Observed(o), plan, later);
  }

  lemma PostToolSpares(t: Store, o: Observation, raw: Event, plan: Plan)
    requires Kept(t) && o.hook.PostToolCall? && raw.kind == HookObserved(o.hook)
    requires LifecycleGap(t.brain, Observed(o), MatchSpan(o, t.spans).0).None?
    requires PostToolPlan(t.stream, o, raw, MatchSpan(o, t.spans).0) == Ok(plan)
    ensures Spares(t.spans, [raw] + plan.events, plan.close)
  {
    var matched := MatchSpan(o, t.spans).0;
    PostToolEffect(t.stream, o, raw, matched);
    if matched.Some? {
      ToolMatched(o, t.spans);
      if matched.value.closed.Some? {
        LateIsDone(t.brain, o, t.spans);
      }
    }
    hide Kept, MatchSpan, PostToolPlan, LifecycleGap, Untouched, Keyed.Has, Keyed.Find;
    forall i | 0 <= i < |t.spans| && OpenTool(t.spans[i]) && plan.close != Some(t.spans[i])
      ensures Untouched([raw] + plan.events, t.spans[i].actionId.value)
    {
      if plan.status.Applied? {
        OtherAction(t, matched.value, i);
      }
    }
  }

  lemma ToolMatched(o: Observation, spans: seq<Span>)
    requires o.hook.PostToolCall? && MatchSpan(o, spans).0.Some?
    ensures MatchSpan(o, spans).0.value in spans && MatchSpan(o, spans).0.value.kind.ToolSpan?
  {
    MatchMeaning(o, spans);
    hide Filter;
  }

  lemma OpenIsOpen(x: Span)
    ensures OpenTool(x) ==> x.closed.None? && x.actionId.Some?
  {
  }

  // What the batch of a commit leaves, whatever its plan.
  lemma CommitLeaves(t: Store, record: Record, raw: Event, used: Option<Text>, plan: Plan, later: BrainState)
    requires Kept(t) && Bound(t.stream, t.brain, raw) && Plain(raw.kind) && raw.brainId == t.brain.brainId
    requires raw.kind == RawEvent(t.stream, record, raw.eventId).kind
    requires record.Observed? ==> raw.kind == HookObserved(record.o.hook)
    requires record.Observed? ==> !Keyed.Has(Actions.Id, t.brain.actions, ActionIdFor(raw, record.o.captureSeq))
    requires used.None? ==> LifecycleGap(t.brain, record, Matched(record, t.spans).0).None?
    requires BuildPlan(t.stream, record, raw, Matched(record, t.spans).0, used) == Ok(plan)
    requires Sequenced(t.brain, [raw] + plan.events) == Ok(later)
    ensures Leaves(t, later, plan.close)
    ensures ForTool(record, used) && record.o.hook.PreToolCall? ==>
              HasPrepared(later.actions, ActionIdFor(raw, record.o.captureSeq)) &&
              forall i :: 0 <= i < |t.spans| && OpenTool(t.spans[i]) ==>
                t.spans[i].actionId != Some(ActionIdFor(raw, record.o.captureSeq))
  {
    ToolPlans(t.stream, record, raw, t.spans, used);
    hide *;
    if !ForTool(record, used) {
      QuietPlan(t.stream, record, raw, Matched(record, t.spans).0, used);
      AllSpared(t.spans, [raw] + plan.events);
      BatchLeaves(t, [raw] + plan.events, plan.close);
    } else if record.o.hook.PreToolCall? {
      PlanOpens(t.stream, record.o, raw);
      PreToolLeaves(t, record.o, raw, later);
    } else {
      PostToolSpares(t, record.o, raw, plan);
      BatchLeaves(t, [raw] + plan.events, plan.close);
    }
  }

  lemma ToolPlans(stream: Stream, record: Record, raw: Event, spans: seq<Span>, used: Option<Text>)
    ensures ForTool(record, used) ==>
              record == Observed(record.o) && Matched(record, spans).0 == MatchSpan(record.o, spans).0 && used.None? &&
              (record.o.hook.PreToolCall? || record.o.hook.PostToolCall?) &&
              BuildPlan(stream, record, raw, Matched(record, spans).0, used) ==
              if record.o.hook.PreToolCall? then PreToolPlan(stream, record.o, raw)
              else PostToolPlan(stream, record.o, raw, MatchSpan(record.o, spans).0)
  {
    if ForTool(record, used) && record.o.hook.PreToolCall? {
      assert MatchSpan(record.o, spans).0.None?;
    }
    hide PreToolPlan, PostToolPlan;
  }

  lemma EnvelopedContext(record: Record)
    requires Enveloped(record)
    ensures record.Observed? ==> ContextOk(record.o.context)
  {
    hide ContextOk;
  }

  lemma PlanKept(t: Store, record: Record, raw: Event, used: Option<Text>, plan: Plan, later: BrainState)
    requires Kept(t) && AtCursor(t, record) && Enveloped(record) && Leaves(t, later, plan.close)
    requires raw.kind == RawEvent(t.stream, record, raw.eventId).kind
    requires record.Observed? ==> raw.kind == HookObserved(record.o.hook)
    requires used.None? ==> CapacityGap(record, t.spans).None?
    requires BuildPlan(t.stream, record, raw, Matched(record, t.spans).0, used) == Ok(plan)
    requires ForTool(record, used) && record.o.hook.PreToolCall? ==>
               HasPrepared(later.actions, ActionIdFor(raw, record.o.captureSeq)) &&
               forall i :: 0 <= i < |t.spans| && OpenTool(t.spans[i]) ==>
                 t.spans[i].actionId != Some(ActionIdFor(raw, record.o.captureSeq))
    ensures InOrder(t.stream, later, Applied(t.spans, plan, Last(record)), Last(record) + 1)
  {
    hide *;
    ToolPlans(t.stream, record, raw, t.spans, used);
    EnvelopedContext(record);
    if !ForTool(record, used) {
      QuietKept(t, record, raw, used, plan, later);
    } else {
      if record.o.hook.PreToolCall? {
        PlanOpens(t.stream, record.o, raw);
        PreToolKept(t, record.o, raw, plan, later);
      } else {
        PostToolKept(t, record.o, raw, plan, later);
      }
    }
  }

  lemma KeptStore(stream: Stream, brain: BrainState, spans: seq<Span>, next: nat)
    requires InOrder(stream, brain, spans, next)
    ensures Kept(Store(stream, brain, spans, next))
  {
    hide InOrder;
  }

  // Every commit keeps the table: no more than its limit, in order, and every
  // open tool span with its own prepared action.
  lemma CommitKept(t: Store, record: Record, rawId: Text)
    requires Kept(t) && Fresh(t, record, rawId) && CommitRecord(t, record, rawId).Ok?
    ensures Kept(CommitRecord(t, record, rawId).value)
  {
    hide *;
    var raw := RawEvent(t.stream, record, rawId);
    CommitRecordIs(t, record, rawId);
    var c := Commit(t.stream, t.brain, record, t.spans, rawId).value;
    var used := CommitIs(t.stream, t.brain, record, t.spans, rawId);
    KeptBinding(t, record, rawId);
    BindingParts(t.stream, t.brain, record, rawId);
    RawKind(t.stream, record, rawId);
    CapacityIsForced(t.brain, record, t.spans);
    CommitLeaves(t, record, raw, used, c.plan, c.successor);
    PlanKept(t, record, raw, used, c.plan, c.successor);
    KeptStore(t.stream, c.successor, Applied(t.spans, c.plan, Last(record)), Last(record) + 1);
  }

  lemma CommitRecordIs(t: Store, record: Record, rawId: Text)
    ensures CommitRecord(t, record, rawId).Ok? <==>
            AtCursor(t, record) && Commit(t.stream, t.brain, record, t.spans, rawId).Ok?
    ensures CommitRecord(t, record, rawId).Ok? ==>
              var c := Commit(t.stream, t.brain, record, t.spans, rawId).value;
              CommitRecord(t, record, rawId).value ==
              Store(t.stream, c.successor, Applied(t.spans, c.plan, Last(record)), Last(record) + 1)
  {
    hide Commit, Applied, AtCursor;
  }

  predicate Takes(t: Store, record: Record, rawId: Text) {
    CommitRecord(t, record, rawId).Ok?
  }

  function Taken(t: Store, record: Record, rawId: Text): Store
    requires Takes(t, record, rawId)
  {
    CommitRecord(t, record, rawId).value
  }

  lemma TakenKept(t: Store, record: Record, rawId: Text)
    requires Kept(t) && Fresh(t, record, rawId) && Takes(t, record, rawId)
    ensures Kept(Taken(t, record, rawId))
    ensures Taken(t, record, rawId).next == Last(record) + 1 && Taken(t, record, rawId).stream == t.stream
  {
    CommitKept(t, record, rawId);
    CommitRecordIs(t, record, rawId);
    hide Kept, Fresh, CommitRecord, Commit;
  }

  // A record at the cursor is taken exactly when its envelope accepts it and it
  // is not a span-opening hook without an identifier that finds room in the
  // table.
  lemma TakesExact(t: Store, record: Record, rawId: Text)
    requires Kept(t) && Fresh(t, record, rawId)
    ensures Takes(t, record, rawId) <==>
            AtCursor(t, record) && Enveloped(record) && !(Anonymous(record) && !Full(t.spans))
  {
    hide *;
    KeptBinding(t, record, rawId);
    KeptLimit(t);
    NoSlot(record, t.spans);
    if Anonymous(record) {
      AnonymousOpens(record);
    }
    TakesCommit(t, record, rawId);
    CommitExact(t.stream, t.brain, record, t.spans, rawId);
  }

  lemma KeptLimit(t: Store)
    requires Kept(t)
    ensures |t.spans| <= MAX_HERMES_SPANS_PER_STREAM
  {
    hide Brain, Placed, Pending;
  }

  lemma AnonymousOpens(record: Record)
    requires Anonymous(record)
    ensures record.Observed? && (record.o.hook.PreToolCall? || record.o.hook.PreApiRequest?)
  {
  }

  lemma TakesCommit(t: Store, record: Record, rawId: Text)
    ensures Takes(t, record, rawId) <==> AtCursor(t, record) && Commit(t.stream, t.brain, record, t.spans, rawId).Ok?
  {
    hide Commit, Applied, AtCursor;
  }

  /* ---------------- completions that find their span open ---------------- */

  lemma PreparedUnended(a: Actions.ActionRecord)
    requires H.Lifecycle(a) && a.phase == Actions.Prepared
    ensures Actions.Blocked !in a.phaseHistory && a.executionConfirmed.None? && a.outcome.None?
  {
    H.PhaseFacts(a);
    match a.executionConfirmed
    case None =>
    case Some(confirmed) => assert false;
  }

  // What the span of an open call stands for.
  ghost predicate Awaits(a: Actions.ActionRecord, t: Store, span: Span) {
    a in t.brain.actions && span.actionId == Some(a.actionId) && a.phase == Actions.Prepared && a.outcome.None? &&
    !Blank(a.actionId)
  }

  lemma OpenIsScreened(t: Store, o: Observation, span: Span) returns (a: Actions.ActionRecord)
    requires Kept(t) && o.hook.PostToolCall? && MatchSpan(o, t.spans).0 == Some(span) && span.closed.None?
    ensures Forced(t.brain, Observed(o), t.spans).None? && Awaits(a, t, span)
  {
    hide *;
    ToolMatched(o, t.spans);
    KeptPending(t);
    KeptSound(t);
    var k :| 0 <= k < |t.spans| && t.spans[k] == span;
    NamesAction(t, k);
    a := PreparedOf(t.spans, t.brain.actions, k);
    LifecycleIn(t.brain, a);
    PreparedUnended(a);
    AwaitsIt(a, t, span);
    MatchReason(o, t.spans);
    ScreenPasses(t.brain, o, t.spans, span, a);
  }

  lemma PreparedOf(spans: seq<Span>, actions: seq<Actions.ActionRecord>, k: nat) returns (a: Actions.ActionRecord)
    requires Pending(spans, actions) && k < |spans| && OpenTool(spans[k])
    ensures a in actions && spans[k].actionId == Some(a.actionId) && a.phase == Actions.Prepared
  {
    var m :| 0 <= m < |actions| && actions[m].actionId == spans[k].actionId.value && actions[m].phase == Actions.Prepared;
    a := actions[m];
  }

  lemma AwaitsIt(a: Actions.ActionRecord, t: Store, span: Span)
    requires a in t.brain.actions && span.actionId == Some(a.actionId) && a.phase == Actions.Prepared && a.outcome.None?
    requires forall x :: x in t.brain.actions ==> !Blank(x.actionId)
    ensures Awaits(a, t, span)
  {
    hide Blank;
  }

  lemma ScreenPasses(s: BrainState, o: Observation, spans: seq<Span>, span: Span, a: Actions.ActionRecord)
    requires o.hook.PostToolCall? && MatchSpan(o, spans).0 == Some(span) && MatchSpan(o, spans).1.None?
    requires span.closed.None? && span.actionId == Some(a.actionId) && a in s.actions
    requires Keyed.Unique(Actions.Id, s.actions) && a.phase == Actions.Prepared
    requires Actions.Blocked !in a.phaseHistory && a.executionConfirmed.None?
    ensures Forced(s, Observed(o), spans).None?
  {
    Keyed.FindUnique(Actions.Id, s.actions, a);
    hide MatchSpan, Keyed.Find, Keyed.Has, Keyed.Unique;
  }

  lemma NamesAction(t: Store, k: nat)
    requires Placed(t.spans, t.stream.bridgeId, t.next) && k < |t.spans| && t.spans[k].kind.ToolSpan?
    ensures t.spans[k].actionId.Some? && (t.spans[k].closed.None? ==> OpenTool(t.spans[k]))
  {
  }

  lemma MatchReason(o: Observation, spans: seq<Span>)
    ensures MatchSpan(o, spans).0.Some? ==> MatchSpan(o, spans).1.None?
  {
    hide Filter;
  }

  ghost predicate EndsCall(u: Result<Store>, id: Text, outcome: Option<Actions.Outcome>) {
    u.Ok? && Ended(u.value.brain, id, outcome)
  }

  // A completion that finds its span open is never turned into a gap for the
  // sake of the span or the action: with a status that can be read, the call
  // ends in the brain, reconstructed, with the outcome read.
  lemma OnTimeIsApplied(t: Store, o: Observation, rawId: Text, span: Span)
    requires Kept(t) && AtCursor(t, Observed(o)) && Fresh(t, Observed(o), rawId) && o.hook.PostToolCall?
    requires MatchSpan(o, t.spans).0 == Some(span) && span.closed.None?
    requires !ReadStatus(o.status, o.errorType).Unclear?
    ensures span.actionId.Some? &&
            EndsCall(CommitRecord(t, Observed(o), rawId), span.actionId.value,
                     OutcomeRead(None, ReadStatus(o.status, o.errorType)))
  {
    hide *;
    var record := Observed(o);
    var raw := RawEvent(t.stream, record, rawId);
    var r := ReadStatus(o.status, o.errorType);
    KeptBinding(t, record, rawId);
    BindingParts(t.stream, t.brain, record, rawId);
    var a := OpenIsScreened(t, o, span);
    AwaitsParts(a, t, span);
    OnTimePlan(t, o, raw, span);
    OnTimeBatch(t, o, raw, a);
    OpenIsEnveloped(t, o, span);
    CommitsFirst(t, record, rawId, TerminalEvents(t.stream, o, raw, a.actionId, r, false));
    EndsIt(CommitRecord(t, record, rawId), a.actionId, OutcomeRead(None, r));
  }

  // The span was opened by a record of the same context, so the envelope
  // accepts this one too.
  lemma OpenIsEnveloped(t: Store, o: Observation, span: Span)
    requires Kept(t) && MatchSpan(o, t.spans).0 == Some(span)
    ensures Enveloped(Observed(o))
  {
    assert CompletionKind(o.hook).Some?;
    MatchMeaning(o, t.spans);
    hide Brain, Pending, MatchSpan, ContextOk;
  }

  lemma EndsIt(u: Result<Store>, id: Text, outcome: Option<Actions.Outcome>)
    requires u.Ok? && Ended(u.value.brain, id, outcome)
    ensures EndsCall(u, id, outcome)
  {
  }

  lemma AwaitsParts(a: Actions.ActionRecord, t: Store, span: Span)
    requires Awaits(a, t, span)
    ensures a in t.brain.actions && span.actionId == Some(a.actionId) && a.phase == Actions.Prepared && a.outcome.None?
    ensures !Blank(a.actionId)
  {
    hide Blank;
  }

  lemma OnTimePlan(t: Store, o: Observation, raw: Event, span: Span)
    requires o.hook.PostToolCall? && AtCursor(t, Observed(o))
    requires MatchSpan(o, t.spans).0 == Some(span) && span.closed.None?
    requires span.actionId.Some? && !ReadStatus(o.status, o.errorType).Unclear?
    ensures BuildPlan(t.stream, Observed(o), raw, Matched(Observed(o), t.spans).0, None) ==
            Ok(Plan(PlanStatus.Applied,
                    TerminalEvents(t.stream, o, raw, span.actionId.value, ReadStatus(o.status, o.errorType), false),
                    None, Some(span)))
  {
    MatchMeaning(o, t.spans);
    hide Filter, ReadStatus, TerminalEvents;
  }

  lemma OnTimeBatch(t: Store, o: Observation, raw: Event, a: Actions.ActionRecord)
    requires Kept(t) && Plain(raw.kind) && raw.brainId == t.brain.brainId
    requires a in t.brain.actions && a.phase == Actions.Prepared && a.outcome.None? && !Blank(a.actionId)
    requires !ReadStatus(o.status, o.errorType).Unclear?
    ensures var r := ReadStatus(o.status, o.errorType);
            var x := Sequenced(t.brain, [raw] + TerminalEvents(t.stream, o, raw, a.actionId, r, false));
            x.Ok? && Ended(x.value, a.actionId, OutcomeRead(None, r))
  {
    hide *;
    KeptSound(t);
    var r := ReadStatus(o.status, o.errorType);
    var events := TerminalEvents(t.stream, o, raw, a.actionId, r, false);
    PlainNext(t.brain, raw);
    SequencedCons(t.brain, raw, events);
    OnTimePlanDecided(Next(t.brain, raw).value, t.stream, o, raw, a);
  }

  // Nothing forced and the first batch accepted: that is the commit.
  lemma CommitsFirst(t: Store, record: Record, rawId: Text, events: seq<Event>)
    requires AtCursor(t, record) && Enveloped(record) && Forced(t.brain, record, t.spans).None?
    requires var raw := RawEvent(t.stream, record, rawId);
             && BuildPlan(t.stream, record, raw, Matched(record, t.spans).0, None).Ok?
             && BuildPlan(t.stream, record, raw, Matched(record, t.spans).0, None).value.events == events
             && Sequenced(t.brain, [raw] + events).Ok?
    ensures CommitRecord(t, record, rawId).Ok?
    ensures CommitRecord(t, record, rawId).value.brain ==
            Sequenced(t.brain, [RawEvent(t.stream, record, rawId)] + events).value
  {
    hide BuildPlan, Sequenced, Forced, Matched, RawEvent, Enveloped, Applied, AtCursor;
  }

  /* ---------------- runs ---------------- */

  // Commits to this stream, and whatever else happens to the brain: commits of
  // other streams, pulses, leases.
  datatype Step = CommitStep(record: Record, rawId: Text) | OtherStep(event: Event)

  // Nobody else moves the actions of this stream's open spans.
  predicate Foreign(t: Store, e: Event) {
    forall i :: 0 <= i < |t.spans| && OpenTool(t.spans[i]) ==> !Touches(e, t.spans[i].actionId.value)
  }

  function Do(t: Store, step: Step): Store {
    match step
    case CommitStep(record, rawId) =>
      if Fresh(t, record, rawId) && Takes(t, record, rawId) then Taken(t, record, rawId) else t
    case OtherStep(e) =>
      if !Foreign(t, e) then t
      else
        var r := ReduceState(t.brain, e);
        if r.Ok? then t.(brain := r.value) else t
  }

  function Run(t: Store, steps: seq<Step>): Store
    decreases |steps|
  {
    if steps == [] then t else Run(Do(t, steps[0]), steps[1..])
  }

  lemma OtherKept(t: Store, e: Event)
    requires Kept(t) && Foreign(t, e) && ReduceState(t.brain, e).Ok?
    ensures Kept(t.(brain := ReduceState(t.brain, e).value))
  {
    KeptPending(t);
    KeptSound(t);
    var later := ReduceState(t.brain, e).value;
    hide ReduceState, Sound, Brain, Placed, HasPrepared, Touches, Keyed.Unique, Blank;
    BrainStep(t.brain, e, t.stream.brainId);
    forall i | 0 <= i < |t.spans| && OpenTool(t.spans[i]) ensures HasPrepared(later.actions, t.spans[i].actionId.value) {
      PreparedStays(t.brain, e, t.spans[i].actionId.value);
    }
    PendingMoves(t.spans, t.brain.actions, later.actions);
  }

  lemma StepKept(t: Store, step: Step)
    requires Kept(t)
    ensures Kept(Do(t, step))
  {
    hide Kept, Fresh, Takes, Taken, ReduceState, Foreign;
    match step
    case CommitStep(record, rawId) =>
      if Fresh(t, record, rawId) && Takes(t, record, rawId) {
        TakenKept(t, record, rawId);
      }
    case OtherStep(e) =>
      if Foreign(t, e) && ReduceState(t.brain, e).Ok? {
        OtherKept(t, e);
      }
  }

  // Over every run of commits, with other writers in between.
  lemma {:induction false} RunKept(t: Store, steps: seq<Step>)
    requires Kept(t)
    ensures Kept(Run(t, steps))
    decreases |steps|
  {
    hide Kept, Do;
    if steps != [] {
      StepKept(t, steps[0]);
      RunKept(Do(t, steps[0]), steps[1..]);
    }
  }

  // A new stream on a brain with any accepted history.
  function Opened(stream: Stream, brain: BrainState): Store {
    Store(stream, brain, [], 1)
  }

  lemma {:induction false} RunSameBrain(s: BrainState, events: seq<Event>)
    requires ReduceMany(s, events).Ok?
    ensures ReduceMany(s, events).value.brainId == s.brainId
    decreases |events|
  {
    hide ReduceState;
    if events != [] {
      SameBrainId(s, events[0]);
      RunSameBrain(ReduceState(s, events[0]).value, events[1..]);
    }
  }

  lemma OpenedKeeps(stream: Stream, events: seq<Event>, brain: BrainState)
    requires ReduceMany(Genesis(stream.brainId), events) == Ok(brain) && !stream.brainId.Join?
    ensures Kept(Opened(stream, brain))
  {
    var g := Genesis(stream.brainId);
    assert g.actions == [] && g.brainId == stream.brainId;
    hide *;
    ReachableSound(stream.brainId, events);
    P.NothingNamed();
    P.RunNamed(g, events);
    RunSameBrain(g, events);
    NothingOpened(stream, brain);
  }

  lemma NothingOpened(stream: Stream, brain: BrainState)
    requires Sound(brain) && brain.brainId == stream.brainId && P.Named(brain.actions) && !stream.brainId.Join?
    ensures Kept(Opened(stream, brain))
  {
    hide Sound, P.Named;
  }
}
