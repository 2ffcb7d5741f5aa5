// The acknowledgement of one committed record: the batch rule of
// BridgeCommitAckV2, which the store must meet or the commit fails
// (protocol/models.py, runtime/store.py).
module CommitAck {
  import opened Prelude
  import opened Values
  import opened State
  import opened Reducer
  import opened SemanticIngest
  import opened SemanticCommit
  import opened StoreCommit
  import E = Engine

  const MAX_DERIVED_EVENTS_PER_RECORD: nat := 8

  datatype Ack = Ack(
    rawId: Text,
    rawSequence: nat,
    derivedIds: seq<Text>,
    lastSequence: nat,
    status: PlanStatus,
    complete: bool)

  function AckOf(s: BrainState, rawId: Text, c: Committed): Ack {
    Ack(rawId, s.lastSequence + 1, seq(|c.plan.events|, i requires 0 <= i < |c.plan.events| => c.plan.events[i].eventId),
        s.lastSequence + 1 + |c.plan.events|, c.plan.status, c.plan.status.Applied?)
  }

  // _semantic_batch with the bounds of its fields.
  predicate BatchRule(a: Ack) {
    && |a.derivedIds| <= MAX_DERIVED_EVENTS_PER_RECORD
    && NoDuplicates(a.derivedIds)
    && a.rawId !in a.derivedIds
    && a.lastSequence == a.rawSequence + |a.derivedIds|
    && (a.complete <==> a.status.Applied?)
    && (a.status.Applied? ==> a.derivedIds != [])
    && (a.status.GapStatus? ==> |a.derivedIds| <= 1)
  }

  // The identifiers of the events that a plan derives from `raw`: each joins
  // the raw identifier with a role of its own.
  predicate DerivedFrom(events: seq<Event>, rawId: Text, roles: seq<Text>) {
    && |events| == |roles|
    && (forall i :: 0 <= i < |events| ==> events[i].eventId == Join(1, rawId, roles[i]))
    && NoDuplicates(roles)
  }

  predicate PlanRule(p: Plan, rawId: Text, roles: seq<Text>) {
    && DerivedFrom(p.events, rawId, roles) && |p.events| <= MAX_DERIVED_EVENTS_PER_RECORD
    && (p.status.Applied? ==> p.events != [])
    && (p.status.GapStatus? ==> |p.events| <= 1)
  }

  function Roles(p: Plan): seq<Text> {
    seq(|p.events|, i requires 0 <= i < |p.events| => RoleOf(p.events[i].eventId))
  }

  function RoleOf(id: Text): Text {
    if id.Join? then id.right else id
  }

  function Weight(t: Text): nat {
    match t
    case Join(_, a, b) => 1 + Weight(a) + Weight(b)
    case _ => 0
  }

  lemma TextIsNotItsPart(n: nat, a: Text, b: Text)
    ensures Join(n, a, b) != a
  {
    assert Weight(Join(n, a, b)) > Weight(a);
  }

  lemma GapObeysRule(stream: Stream, o: Observation, raw: Event, reason: Text, close: Option<Span>)
    ensures var p := GapPlan(stream, o, raw, reason, close); PlanRule(p, raw.eventId, Roles(p))
  {
  }

  lemma PreToolObeysRule(stream: Stream, o: Observation, raw: Event)
    ensures PreToolPlan(stream, o, raw).Ok? ==>
              var p := PreToolPlan(stream, o, raw).value; PlanRule(p, raw.eventId, Roles(p))
  {
  }

  lemma PostToolObeysRule(stream: Stream, o: Observation, raw: Event, matched: Option<Span>)
    ensures PostToolPlan(stream, o, raw, matched).Ok? ==>
              var p := PostToolPlan(stream, o, raw, matched).value; PlanRule(p, raw.eventId, Roles(p))
  {
    forall reason, close ensures var p := GapPlan(stream, o, raw, reason, close); PlanRule(p, raw.eventId, Roles(p)) {
      GapObeysRule(stream, o, raw, reason, close);
    }
    hide GapPlan;
  }

  lemma AttributedObeysRule(stream: Stream, o: Observation, raw: Event, matched: Option<Span>)
    ensures AttributedPlan(stream, o, raw, matched).Ok? ==>
              var p := AttributedPlan(stream, o, raw, matched).value; PlanRule(p, raw.eventId, Roles(p))
  {
    forall reason, close ensures var p := GapPlan(stream, o, raw, reason, close); PlanRule(p, raw.eventId, Roles(p)) {
      GapObeysRule(stream, o, raw, reason, close);
    }
    hide GapPlan;
  }

  lemma PlanObeysRule(stream: Stream, record: Record, raw: Event, matched: Option<Span>, forced: Option<Text>)
    requires BuildPlan(stream, record, raw, matched, forced).Ok?
    ensures var p := BuildPlan(stream, record, raw, matched, forced).value;
            PlanRule(p, raw.eventId, Roles(p))
  {
    if record.Observed? {
      hide PreToolPlan, PostToolPlan, AttributedPlan, GapPlan, PlanRule, Roles;
      PreToolObeysRule(stream, record.o, raw);
      PostToolObeysRule(stream, record.o, raw, matched);
      AttributedObeysRule(stream, record.o, raw, matched);
      if forced.Some? {
        GapObeysRule(stream, record.o, raw, forced.value, if matched.None? then None else StillOpen(matched.value));
      }
    }
  }

  lemma RuledAck(s: BrainState, rawId: Text, c: Committed)
    requires PlanRule(c.plan, rawId, Roles(c.plan))
    ensures BatchRule(AckOf(s, rawId, c))
  {
    var a := AckOf(s, rawId, c);
    forall i | 0 <= i < |a.derivedIds| ensures a.derivedIds[i] != rawId {
      TextIsNotItsPart(1, rawId, Roles(c.plan)[i]);
    }
  }

  lemma BatchSequence(s: BrainState, events: seq<Event>)
    requires Sequenced(s, events).Ok?
    ensures Sequenced(s, events).value.lastSequence == s.lastSequence + |events|
  {
    hide ReduceState, ReduceMany, Numbered;
    var batch := Numbered(events, s.lastSequence + 1);
    forall i | 0 <= i < |batch| ensures batch[i].sequence.Some? {
      NumberedAt(events, s.lastSequence + 1, i);
    }
    E.BatchAdvances(s, batch);
  }

  lemma {:induction false} NumberedAt(events: seq<Event>, from: nat, i: nat)
    requires i < |events|
    ensures Numbered(events, from)[i].sequence == Some(from + i)
  {
    if i > 0 {
      NumberedAt(events[1..], from + 1, i - 1);
    }
  }

  // Whatever record is committed, directly or through the fallback, its
  // acknowledgement meets the batch rule and names the sequence at which the
  // state has arrived: no commit fails on its own acknowledgement.
  lemma EveryAckIsAcceptable(stream: Stream, s: BrainState, record: Record, spans: seq<Span>, rawId: Text)
    requires Commit(stream, s, record, spans, rawId).Ok?
    ensures var c := Commit(stream, s, record, spans, rawId).value;
            BatchRule(AckOf(s, rawId, c)) && c.successor.lastSequence == AckOf(s, rawId, c).lastSequence
  {
    var raw, matched := RawEvent(stream, record, rawId), Matched(record, spans).0;
    var c := Commit(stream, s, record, spans, rawId).value;
    var used := CommitIs(stream, s, record, spans, rawId);
    RawIsPlain(stream, record, rawId);
    hide *;
    PlanObeysRule(stream, record, raw, matched, used);
    RuledAck(s, rawId, c);
    BatchSequence(s, [raw] + c.plan.events);
    hide *;
  }
}
