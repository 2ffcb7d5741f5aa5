// A bridge and the stream it feeds at the store: which records the store
// takes, what becomes of one that it refuses, and what is then stuck behind it
// (hermes/bridge.py, runtime/store.py).
module Streams {
  import opened Prelude
  import opened Values
  import opened State
  import opened Reducer
  import opened SemanticIngest
  import opened StoreCommit
  import opened SpanTable
  import B = Bridge
  import C = CaptureItems
  import D = Delivery
  import H = Handoff

  /* ---------------- captured items as records ---------------- */

  function CauseText(cause: C.Cause): Text {
    match cause
    case InvalidSourceSchema => Word(360)
    case CallbackInternal => Word(361)
    case QueueFull => Word(362)
    case OtherCause(name) => Join(8, name, name)
  }

  function CauseCounts(causes: multiset<C.Cause>): Payload {
    map c | c in causes :: CauseText(c) := Int(causes[c])
  }

  function RecordOf(stream: Stream, x: C.Item): Record {
    match x.body
    case Seen(c) =>
      Observed(Observation(stream.bridgeId, x.first, c.hook, c.context, c.toolName, c.args, c.result, c.payload,
                           c.status, c.errorType))
    case Lost(causes) => Gap(stream.bridgeId, x.first, x.last, CauseCounts(causes))
  }

  // What the store refuses at the cursor: a record with a blank session, turn
  // or API request id, and a span-opening hook without an identifier while its
  // stream's table has a free slot.
  predicate Refused(t: Store, x: C.Item) {
    var record := RecordOf(t.stream, x);
    !Enveloped(record) || (Anonymous(record) && !Full(t.spans))
  }

  lemma RecordFields(stream: Stream, x: C.Item)
    requires C.ValidItem(x)
    ensures First(RecordOf(stream, x)) == x.first && Last(RecordOf(stream, x)) == x.last
    ensures Anonymous(RecordOf(stream, x)) ==> !x.IsGap()
  {
  }

  lemma AtCursorExact(t: Store, x: C.Item)
    requires C.ValidItem(x)
    ensures AtCursor(t, RecordOf(t.stream, x)) <==> x.first == t.next
  {
    RecordFields(t.stream, x);
  }

  /* ---------------- the joined system ---------------- */

  datatype System = System(link: D.System, store: Store)

  datatype Step =
    // a step of the bridge or of the connection, other than a commit
    | LinkStep(step: D.Step)
    // one commit of the retained record, with the identifier of its raw event
    | SendStep(transport: D.Transport, rawId: Text)
    // anything else that happens to the brain
    | StateStep(event: Event)

  function Do(w: System, step: Step): System {
    match step
    case LinkStep(s) => if s.CommitStep? then w else w.(link := D.Do(w.link, s))
    case SendStep(transport, rawId) =>
      if !w.link.connected || w.link.bridge.retained.None? then w else CommitOnce(w, transport, rawId)
    case StateStep(e) => w.(store := SpanTable.Do(w.store, SpanTable.OtherStep(e)))
  }

  // The store decides; what it has taken stays taken, even if the answer is
  // lost. An identifier that is not new is never drawn.
  function CommitOnce(w: System, transport: D.Transport, rawId: Text): System
    requires w.link.bridge.retained.Some?
  {
    var record := RecordOf(w.store.stream, w.link.bridge.retained.value);
    if !Fresh(w.store, record, rawId) then w
    else
      var takes := Takes(w.store, record, rawId);
      var link := D.CommitOnce(w.link, transport, takes);
      System(link, if takes && link.server.log != w.link.server.log then Taken(w.store, record, rawId) else w.store)
  }

  function Run(w: System, steps: seq<Step>): System
    decreases |steps|
  {
    if steps == [] then w else Run(Do(w, steps[0]), steps[1..])
  }

  ghost predicate Good(w: System) {
    D.Safe(w.link) && Kept(w.store) && w.store.next == w.link.server.cursor
  }

  /* ---------------- every step ---------------- */

  lemma LinkFrame(y: D.System, s: D.Step)
    requires !s.CommitStep?
    ensures D.Do(y, s).server.cursor == y.server.cursor && D.Do(y, s).server.log == y.server.log
    ensures D.Do(y, s).acked == y.acked
  {
    hide B.Capture, B.CaptureReserved, B.Select, B.Attach, B.Seal, B.Disconnect, B.RequestClose;
  }

  lemma RetainedValid(y: D.System)
    requires D.Safe(y) && y.bridge.retained.Some?
    ensures C.ValidItem(y.bridge.retained.value)
  {
    D.LineStart(y);
    hide D.Safe, C.ValidItem;
  }

  lemma CommitLog(y: D.System, transport: D.Transport, takes: bool)
    requires D.Safe(y) && y.bridge.retained.Some?
    ensures var z, r := D.CommitOnce(y, transport, takes), y.bridge.retained.value;
            && (z.server.log != y.server.log ==>
                  takes && !D.AlreadyStored(y) && z.server.cursor == r.last + 1 && y.server.log == y.acked)
            && (z.server.log == y.server.log ==> z.server.cursor == y.server.cursor)
            && (!takes && !D.AlreadyStored(y) ==> z.acked == y.acked && z.server == y.server)
  {
    D.CommitDecided(y, takes);
    StoredCursor(y, takes);
    hide D.Safe, D.ServerCommit, D.AlreadyStored;
  }

  lemma StoredCursor(y: D.System, takes: bool)
    requires D.Safe(y) && y.bridge.retained.Some?
    ensures var r := y.bridge.retained.value;
            var server := D.ServerCommit(y.server, r, takes).0;
            && (server.log == y.server.log ==> server.cursor == y.server.cursor)
            && (D.AlreadyStored(y) ==> server.log == y.server.log)
            && (!D.AlreadyStored(y) ==> y.server.log == y.acked)
  {
    D.CommitDecided(y, takes);
    hide D.Safe;
  }

  // What one commit does, as one step of the link and the store's answer.
  lemma SendIs(w: System, transport: D.Transport, rawId: Text)
    requires w.link.bridge.retained.Some?
    requires Fresh(w.store, RecordOf(w.store.stream, w.link.bridge.retained.value), rawId)
    ensures var record := RecordOf(w.store.stream, w.link.bridge.retained.value);
            var takes, z := Takes(w.store, record, rawId), CommitOnce(w, transport, rawId);
            && z.link == D.CommitOnce(w.link, transport, takes)
            && (takes && z.link.server.log != w.link.server.log ==> z.store == Taken(w.store, record, rawId))
            && (!takes || z.link.server.log == w.link.server.log ==> z.store == w.store)
  {
    hide Fresh, Takes, Taken, D.CommitOnce, RecordOf;
  }

  lemma StaleIs(w: System, transport: D.Transport, rawId: Text)
    requires w.link.bridge.retained.Some?
    requires !Fresh(w.store, RecordOf(w.store.stream, w.link.bridge.retained.value), rawId)
    ensures CommitOnce(w, transport, rawId) == w
  {
    hide Fresh, Takes, Taken, D.CommitOnce, RecordOf;
  }

  lemma GoodParts(w: System)
    requires Good(w)
    ensures D.Safe(w.link) && Kept(w.store) && w.store.next == w.link.server.cursor
  {
    hide D.Safe, Kept;
  }

  lemma GoodWhole(w: System)
    requires D.Safe(w.link) && Kept(w.store) && w.store.next == w.link.server.cursor
    ensures Good(w)
  {
    hide D.Safe, Kept;
  }

  lemma CommitGood(w: System, transport: D.Transport, rawId: Text)
    requires Good(w) && w.link.bridge.retained.Some?
    ensures Good(CommitOnce(w, transport, rawId))
  {
    hide *;
    var x := w.link.bridge.retained.value;
    var record := RecordOf(w.store.stream, x);
    GoodParts(w);
    if Fresh(w.store, record, rawId) {
      var takes := Takes(w.store, record, rawId);
      SendIs(w, transport, rawId);
      RetainedValid(w.link);
      RecordFields(w.store.stream, x);
      CommitLog(w.link, transport, takes);
      D.CommitSafe(w.link, transport, takes);
      if takes {
        TakenKept(w.store, record, rawId);
      }
      GoodWhole(CommitOnce(w, transport, rawId));
    } else {
      StaleIs(w, transport, rawId);
    }
  }

  lemma OtherFrame(t: Store, e: Event)
    ensures var u := SpanTable.Do(t, SpanTable.OtherStep(e));
            u.next == t.next && u.spans == t.spans && u.stream == t.stream
  {
    hide Foreign, ReduceState;
  }

  lemma StepGood(w: System, step: Step)
    requires Good(w)
    ensures Good(Do(w, step))
  {
    hide D.Safe, Kept, CommitOnce, SpanTable.Do, D.Do;
    match step
    case LinkStep(s) =>
      if !s.CommitStep? {
        D.StepSafe(w.link, s);
        LinkFrame(w.link, s);
      }
    case SendStep(transport, rawId) =>
      if w.link.bridge.retained.Some? {
        CommitGood(w, transport, rawId);
        hide Good;
      }
    case StateStep(e) =>
      StepKept(w.store, SpanTable.OtherStep(e));
      OtherFrame(w.store, e);
  }

  // Every run keeps the log exact and the span table in order.
  lemma {:induction false} RunGood(w: System, steps: seq<Step>)
    requires Good(w)
    ensures Good(Run(w, steps))
    decreases |steps|
  {
    hide Good, Do;
    if steps != [] {
      StepGood(w, steps[0]);
      RunGood(Do(w, steps[0]), steps[1..]);
    }
  }

  /* ---------------- what the next round delivers ---------------- */

  // Disconnect, select, connect.
  function Ready(w: System): System {
    w.(link := D.Ready(w.link))
  }

  // The worker's next round, connected and answered.
  function Round(w: System, rawId: Text): System {
    Do(Ready(w), SendStep(D.Answered, rawId))
  }

  lemma RoundIsRun(w: System, rawId: Text)
    ensures Round(w, rawId) ==
            Run(w, [LinkStep(D.DisconnectStep), LinkStep(D.SelectStep), LinkStep(D.ConnectStep),
                    SendStep(D.Answered, rawId)])
  {
    var a, b, c, d := LinkStep(D.DisconnectStep), LinkStep(D.SelectStep), LinkStep(D.ConnectStep),
                      SendStep(D.Answered, rawId);
    hide D.Do;
    RunCons(w, a, [b, c, d]);
    RunCons(Do(w, a), b, [c, d]);
    RunCons(Do(Do(w, a), b), c, [d]);
    RunCons(Do(Do(Do(w, a), b), c), d, []);
    assert [a] + [b, c, d] == [a, b, c, d] && [b] + [c, d] == [b, c, d] && [c] + [d] == [c, d] && [d] + [] == [d];
    hide CommitOnce;
  }

  lemma RunCons(w: System, a: Step, rest: seq<Step>)
    ensures Run(w, [a] + rest) == Run(Do(w, a), rest)
  {
    hide Do;
    assert ([a] + rest)[1..] == rest;
  }

  // Whether the store takes the retained record, decided before it is sent.
  lemma RetainedTaken(w: System, rawId: Text)
    requires Good(w) && w.link.bridge.retained.Some? && !D.AlreadyStored(w.link)
    requires Fresh(w.store, RecordOf(w.store.stream, w.link.bridge.retained.value), rawId)
    ensures Takes(w.store, RecordOf(w.store.stream, w.link.bridge.retained.value), rawId) <==>
            !Refused(w.store, w.link.bridge.retained.value)
  {
    var x := w.link.bridge.retained.value;
    RetainedValid(w.link);
    D.LineStart(w.link);
    D.CommitDecided(w.link, false);
    AtCursorExact(w.store, x);
    TakesExact(w.store, RecordOf(w.store.stream, x), rawId);
    hide D.Safe, Kept, Fresh, Takes, C.ValidItem, RecordOf, AtCursor, D.ServerCommit, Anonymous, Full;
  }

  // From every good state with something waiting and the stream open, the next
  // round delivers the first of the line if and only if the server has it
  // already or it is not a record that the store refuses; otherwise nothing
  // moves, at either end.
  lemma RoundDelivers(w: System, rawId: Text)
    requires Good(w) && w.link.server.closed.None? && B.Line(w.link.bridge) != []
    requires Fresh(w.store, RecordOf(w.store.stream, B.Line(w.link.bridge)[0]), rawId)
    ensures var z, head := Round(w, rawId), B.Line(w.link.bridge)[0];
            if D.HeadStored(w.link) || !Refused(w.store, head) then
              z.link.acked == w.link.acked + [head] && z.link.server.log == z.link.acked &&
              B.Line(z.link.bridge) == B.Line(w.link.bridge)[1..]
            else
              z.link.acked == w.link.acked && z.link.server == w.link.server && z.store == w.store &&
              B.Line(z.link.bridge) == B.Line(w.link.bridge)
  {
    hide *;
    var c := Ready(w);
    var head := B.Line(w.link.bridge)[0];
    GoodParts(w);
    ReadyIs(w);
    D.RoundReady(w.link);
    ReadyGood(w);
    GoodParts(c);
    RoundIs(w, rawId);
    SendIs(c, D.Answered, rawId);
    var takes := Takes(w.store, RecordOf(w.store.stream, head), rawId);
    D.Answer(c.link, takes);
    HeadAndRetained(w.link, c.link);
    if !D.AlreadyStored(c.link) {
      RetainedTaken(c, rawId);
    }
    CommitLog(c.link, D.Answered, takes);
  }

  lemma ReadyIs(w: System)
    ensures Ready(w).link == D.Ready(w.link) && Ready(w).store == w.store
  {
    hide D.Ready;
  }

  lemma RoundIs(w: System, rawId: Text)
    requires Ready(w).link.connected && Ready(w).link.bridge.retained.Some?
    ensures Round(w, rawId) == CommitOnce(Ready(w), D.Answered, rawId)
  {
    hide Ready, CommitOnce;
  }

  lemma HeadAndRetained(y: D.System, c: D.System)
    requires B.Line(y.bridge) != [] && c.bridge.retained == Some(B.Line(y.bridge)[0])
    requires c.acked == y.acked && c.server == y.server
    ensures D.AlreadyStored(c) <==> D.HeadStored(y)
  {
    hide B.Line;
  }

  lemma ReadyGood(w: System)
    requires Good(w) && w.link.server.closed.None? && B.Line(w.link.bridge) != []
    ensures Good(Ready(w))
  {
    D.RoundReady(w.link);
    hide D.Safe, Kept, D.Ready, B.Line;
  }

  /* ---------------- a refused record stays for ever ---------------- */

  // The store refuses the first of the line, and does not have it.
  ghost predicate Stuck(w: System, x: C.Item) {
    && Good(w)
    && w.link.server.log == w.link.acked
    && B.Line(w.link.bridge) != [] && B.Line(w.link.bridge)[0] == x
    && Refused(w.store, x)
  }

  lemma PublishedHead(b: B.State, acked: seq<C.Item>, x: C.Item)
    requires D.Conserved(b, acked) && !b.sealed && B.Line(b) != [] && !B.Line(b)[0].IsGap()
    requires x.first == b.next && x.IsGap()
    ensures B.Line(B.PublishGap(b, x)) != [] && B.Line(B.PublishGap(b, x))[0] == B.Line(b)[0]
  {
    if B.Adjacent(b.gaps, x) {
      D.ExtendedLine(b, acked, x);
      LastIsGap(b, x);
    } else {
      D.NewGapLine(b, acked, x);
    }
    hide D.Conserved, B.Line, B.PublishGap;
  }

  lemma LastIsGap(b: B.State, x: C.Item)
    requires B.Adjacent(b.gaps, x)
    ensures b.gaps[|b.gaps| - 1].IsGap()
  {
  }

  lemma ObservedHead(b: B.State, acked: seq<C.Item>, x: C.Item)
    requires D.Conserved(b, acked) && !b.sealed && B.Line(b) != [] && !B.Line(b)[0].IsGap() && x.first == b.next
    ensures B.Line(B.PublishObservation(b, x)) != [] && B.Line(B.PublishObservation(b, x))[0] == B.Line(b)[0]
  {
    if |b.queue| < b.capacity {
      D.LineWithObservation(b, acked, x);
    } else {
      PublishedHead(b, acked, C.GapOf(x.first, C.QueueFull));
    }
    hide D.Conserved, B.Line, B.PublishGap;
  }

  // A capture joins the end of the line.
  lemma CaptureHead(b: B.State, acked: seq<C.Item>, shaped: B.Shaped)
    requires D.Conserved(b, acked) && B.Line(b) != [] && !B.Line(b)[0].IsGap()
    ensures B.Line(B.Capture(b, shaped)) != [] && B.Line(B.Capture(b, shaped))[0] == B.Line(b)[0]
  {
    var r := B.Capture(b, shaped);
    if b.sealed || b.next > B.MAX_CAPTURE_SEQUENCE {
      D.LineFields(b, r);
    } else {
      var t := B.Published(b, b.next, shaped);
      match shaped {
        case BadSchema => PublishedHead(b, acked, C.GapOf(b.next, C.InvalidSourceSchema));
        case Unshaped => PublishedHead(b, acked, C.GapOf(b.next, C.CallbackInternal));
        case Shaped(content) => ObservedHead(b, acked, C.Observation(b.next, content));
      }
      D.LineFields(t, r);
    }
    hide D.Conserved, B.Line, B.PublishGap, B.PublishObservation;
  }

  lemma ReservedHead(b: B.State, acked: seq<C.Item>, x: C.Item, shapes: bool)
    requires D.Conserved(b, acked) && B.Line(b) != [] && !B.Line(b)[0].IsGap() && B.CaptureReserved(b, x, shapes).Some?
    ensures var r := B.CaptureReserved(b, x, shapes).value.0; B.Line(r) != [] && B.Line(r)[0] == B.Line(b)[0]
  {
    var r := B.CaptureReserved(b, x, shapes).value.0;
    if x.first != b.next || b.sealed {
      D.LineFields(b, r);
    } else {
      var t := if x.IsGap() then B.PublishGap(b, x)
               else if shapes then B.PublishObservation(b, x) else B.PublishGap(b, C.GapOf(x.first, C.CallbackInternal));
      if x.IsGap() {
        PublishedHead(b, acked, x);
      } else if shapes {
        ObservedHead(b, acked, x);
      } else {
        PublishedHead(b, acked, C.GapOf(x.first, C.CallbackInternal));
      }
      D.LineFields(t, r);
    }
    hide D.Conserved, B.Line, B.PublishGap, B.PublishObservation;
  }

  // What a step of the link does to the bridge.
  function Stepped(y: D.System, s: D.Step): B.State
    requires !s.CommitStep?
  {
    match s
    case CallbackStep(shaped) => B.Capture(y.bridge, shaped)
    case ReservationStep(item, shapes) =>
      var r := B.CaptureReserved(y.bridge, item, shapes);
      if r.None? then y.bridge else r.value.0
    case SelectStep => B.Select(y.bridge)
    case ConnectStep =>
      var b := B.Attach(y.bridge, y.server.cursor);
      if y.connected || y.server.closed.Some? || b.None? then y.bridge else b.value
    case DisconnectStep => B.Disconnect(y.bridge)
    case RequestCloseStep => B.RequestClose(y.bridge)
    case SealStep => if y.bridge.closeRequested then B.Seal(y.bridge) else y.bridge
    case CloseStep => y.bridge
  }

  lemma SteppedIs(y: D.System, s: D.Step)
    requires !s.CommitStep?
    ensures D.Do(y, s).bridge == Stepped(y, s)
  {
    hide B.Capture, B.CaptureReserved, B.Select, B.Attach, B.Seal, B.Disconnect, B.RequestClose, D.ServerClose;
  }

  // No step of the link but a commit takes the first of the line away.
  lemma LinkHead(y: D.System, s: D.Step)
    requires D.Safe(y) && !s.CommitStep? && B.Line(y.bridge) != [] && !B.Line(y.bridge)[0].IsGap()
    ensures var z := D.Do(y, s); B.Line(z.bridge) != [] && B.Line(z.bridge)[0] == B.Line(y.bridge)[0]
  {
    D.SafeParts(y);
    SteppedIs(y, s);
    hide D.Do, D.Safe, D.Conserved, B.Line, B.Capture, B.CaptureReserved, B.Select, B.Attach, B.Seal, B.Disconnect,
         B.RequestClose;
    match s
    case CallbackStep(shaped) => CaptureHead(y.bridge, y.acked, shaped);
    case ReservationStep(item, shapes) =>
      if B.CaptureReserved(y.bridge, item, shapes).Some? {
        ReservedHead(y.bridge, y.acked, item, shapes);
      }
    case SelectStep => D.SelectLine(y.bridge);
    case ConnectStep =>
      if B.Attach(y.bridge, y.server.cursor).Some? {
        D.AttachLine(y.bridge, y.server.cursor);
      }
    case DisconnectStep => D.DisconnectLine(y.bridge);
    case RequestCloseStep => H.RequestLine(y.bridge);
    case SealStep => H.SealLine(y.bridge);
    case CloseStep =>
  }

  lemma StuckCommit(w: System, x: C.Item, transport: D.Transport, rawId: Text)
    requires Stuck(w, x) && w.link.bridge.retained.Some?
    ensures var z := CommitOnce(w, transport, rawId);
            && z.store == w.store && z.link.acked == w.link.acked && z.link.server == w.link.server
            && B.Line(z.link.bridge) == B.Line(w.link.bridge)
  {
    hide *;
    var record := RecordOf(w.store.stream, w.link.bridge.retained.value);
    StuckParts(w, x);
    GoodParts(w);
    D.RetainedIsFirst(w.link.bridge);
    if Fresh(w.store, record, rawId) {
      NotStored(w.link);
      RetainedTaken(w, rawId);
      SendIs(w, transport, rawId);
      CommitLog(w.link, transport, false);
      StuckLine(w.link, transport);
    } else {
      StaleIs(w, transport, rawId);
    }
  }

  lemma StuckParts(w: System, x: C.Item)
    requires Stuck(w, x)
    ensures Good(w) && w.link.server.log == w.link.acked && Refused(w.store, x)
    ensures B.Line(w.link.bridge) != [] && B.Line(w.link.bridge)[0] == x
  {
    hide Good, B.Line, Refused;
  }

  lemma StuckWhole(w: System, x: C.Item)
    requires Good(w) && w.link.server.log == w.link.acked && Refused(w.store, x)
    requires B.Line(w.link.bridge) != [] && B.Line(w.link.bridge)[0] == x
    ensures Stuck(w, x)
  {
    hide Good, B.Line, Refused;
  }

  lemma NotStored(y: D.System)
    requires y.bridge.retained.Some? && y.server.log == y.acked
    ensures !D.AlreadyStored(y)
  {
    assert |y.acked| != |y.acked + [y.bridge.retained.value]|;
  }

  lemma StuckLine(y: D.System, transport: D.Transport)
    requires D.Safe(y) && y.bridge.retained.Some? && !D.AlreadyStored(y)
    ensures B.Line(D.CommitOnce(y, transport, false).bridge) == B.Line(y.bridge)
  {
    var b := B.Attempt(y.bridge);
    D.CommitDecided(y, false);
    D.LineFields(y.bridge, b);
    D.DisconnectLine(b);
    hide D.Safe, B.Line, D.ServerCommit, D.AlreadyStored;
  }

  // One step leaves the log, the acknowledgements, the head and the table.
  ghost predicate Unmoved(w: System, z: System) {
    && z.link.acked == w.link.acked && z.link.server.log == w.link.server.log
    && z.store.spans == w.store.spans && z.store.stream == w.store.stream
    && B.Line(z.link.bridge) != [] && B.Line(w.link.bridge) != []
    && B.Line(z.link.bridge)[0] == B.Line(w.link.bridge)[0]
  }

  lemma DoIs(w: System, step: Step)
    ensures match step
            case LinkStep(s) =>
              Do(w, step).store == w.store &&
              Do(w, step).link == if s.CommitStep? then w.link else D.Do(w.link, s)
            case SendStep(transport, rawId) =>
              Do(w, step) == if !w.link.connected || w.link.bridge.retained.None? then w
                             else CommitOnce(w, transport, rawId)
            case StateStep(e) =>
              Do(w, step).link == w.link && Do(w, step).store == SpanTable.Do(w.store, SpanTable.OtherStep(e))
  {
    hide CommitOnce, SpanTable.Do, D.Do;
  }

  lemma StuckLink(w: System, x: C.Item, s: D.Step)
    requires Stuck(w, x)
    ensures Unmoved(w, Do(w, LinkStep(s)))
  {
    hide *;
    StuckParts(w, x);
    RefusedObserved(w.store, x);
    GoodParts(w);
    DoIs(w, LinkStep(s));
    if !s.CommitStep? {
      LinkFrame(w.link, s);
      LinkHead(w.link, s);
    }
    UnmovedWhole(w, Do(w, LinkStep(s)));
  }

  lemma StuckSend(w: System, x: C.Item, transport: D.Transport, rawId: Text)
    requires Stuck(w, x)
    ensures Unmoved(w, Do(w, SendStep(transport, rawId)))
  {
    hide *;
    StuckParts(w, x);
    DoIs(w, SendStep(transport, rawId));
    if w.link.connected && w.link.bridge.retained.Some? {
      StuckCommit(w, x, transport, rawId);
    }
    UnmovedWhole(w, Do(w, SendStep(transport, rawId)));
  }

  lemma StuckOther(w: System, x: C.Item, e: Event)
    requires Stuck(w, x)
    ensures Unmoved(w, Do(w, StateStep(e)))
  {
    hide *;
    StuckParts(w, x);
    DoIs(w, StateStep(e));
    OtherFrame(w.store, e);
    UnmovedWhole(w, Do(w, StateStep(e)));
  }

  lemma UnmovedWhole(w: System, z: System)
    requires z.link.acked == w.link.acked && z.link.server.log == w.link.server.log
    requires z.store.spans == w.store.spans && z.store.stream == w.store.stream
    requires B.Line(z.link.bridge) != [] && B.Line(w.link.bridge) != []
    requires B.Line(z.link.bridge)[0] == B.Line(w.link.bridge)[0]
    ensures Unmoved(w, z)
  {
    hide B.Line;
  }

  lemma StuckStep(w: System, x: C.Item, step: Step)
    requires Stuck(w, x)
    ensures Stuck(Do(w, step), x) && Unmoved(w, Do(w, step))
  {
    hide *;
    StuckParts(w, x);
    StepGood(w, step);
    match step {
      case LinkStep(s) => StuckLink(w, x, s);
      case SendStep(transport, rawId) => StuckSend(w, x, transport, rawId);
      case StateStep(e) => StuckOther(w, x, e);
    }
    UnmovedParts(w, Do(w, step));
    SameRefusal(w.store, Do(w, step).store, x);
    StuckWhole(Do(w, step), x);
  }

  lemma UnmovedParts(w: System, z: System)
    requires Unmoved(w, z)
    ensures z.link.acked == w.link.acked && z.link.server.log == w.link.server.log
    ensures z.store.spans == w.store.spans && z.store.stream == w.store.stream
    ensures B.Line(z.link.bridge) != [] && B.Line(w.link.bridge) != []
    ensures B.Line(z.link.bridge)[0] == B.Line(w.link.bridge)[0]
  {
    hide B.Line;
  }

  lemma RefusedObserved(t: Store, x: C.Item)
    requires Refused(t, x)
    ensures !x.IsGap()
  {
  }

  lemma SameRefusal(t: Store, u: Store, x: C.Item)
    requires u.spans == t.spans && u.stream == t.stream
    ensures Refused(u, x) <==> Refused(t, x)
  {
  }

  // Once a refused record is first in line, no run of captures, commits,
  // reconnections, closes or other events ever delivers anything again.
  lemma {:induction false} StuckForever(w: System, x: C.Item, steps: seq<Step>)
    requires Stuck(w, x)
    ensures var z := Run(w, steps);
            Stuck(z, x) && z.link.acked == w.link.acked && z.link.server.log == w.link.server.log
    decreases |steps|
  {
    hide Stuck, Do, Unmoved;
    if steps != [] {
      StuckStep(w, x, steps[0]);
      UnmovedParts(w, Do(w, steps[0]));
      StuckForever(Do(w, steps[0]), x, steps[1..]);
    }
  }

  /* ---------------- a stream that gets stuck at once ---------------- */

  function Begin(stream: Stream, brain: BrainState, capacity: nat): System {
    System(D.Start(capacity), Opened(stream, brain))
  }

  lemma BeginGood(stream: Stream, events: seq<Event>, brain: BrainState, capacity: nat)
    requires ReduceMany(Genesis(stream.brainId), events) == Ok(brain) && !stream.brainId.Join?
    ensures Good(Begin(stream, brain, capacity))
  {
    D.StartSafe(capacity);
    OpenedKeeps(stream, events, brain);
    hide D.Safe, Kept, ReduceMany;
  }

  function ContentOf(o: Observation): C.Content {
    C.Content(o.hook, o.context, o.toolName, o.args, o.result, o.payload, o.status, o.errorType)
  }

  function Captured(w: System, content: C.Content): System {
    Do(w, LinkStep(D.CallbackStep(B.Shaped(content))))
  }

  // On any brain, a new stream whose first capture is one that the store
  // refuses delivers nothing, ever.
  lemma RefusedStaysForever(stream: Stream, events: seq<Event>, brain: BrainState, capacity: nat, content: C.Content,
                            steps: seq<Step>)
    requires ReduceMany(Genesis(stream.brainId), events) == Ok(brain) && !stream.brainId.Join? && capacity >= 1
    requires Refused(Opened(stream, brain), C.Observation(1, content))
    ensures Run(Captured(Begin(stream, brain, capacity), content), steps).link.server.log == []
  {
    var w := Begin(stream, brain, capacity);
    BeginGood(stream, events, brain, capacity);
    CapturedStuck(stream, brain, capacity, content);
    hide *;
    StuckForever(Captured(w, content), C.Observation(1, content), steps);
  }

  // Such captures are legal observations: a tool call without an identifier,
  // a session finalized with an empty id, a tool call outside an API turn.
  lemma LegalCapturesStayForever(stream: Stream, events: seq<Event>, brain: BrainState, capacity: nat, steps: seq<Step>)
    requires ReduceMany(Genesis(stream.brainId), events) == Ok(brain) && !stream.brainId.Join? && capacity >= 1
    ensures forall o :: o in [NAMELESS_CALL, EMPTY_SESSION, OUTSIDE_TURN] ==>
              Run(Captured(Begin(stream, brain, capacity), ContentOf(o)), steps).link.server.log == []
  {
    forall o | o in [NAMELESS_CALL, EMPTY_SESSION, OUTSIDE_TURN]
      ensures Run(Captured(Begin(stream, brain, capacity), ContentOf(o)), steps).link.server.log == []
    {
      LegalRefused(Opened(stream, brain), o);
      RefusedStaysForever(stream, events, brain, capacity, ContentOf(o), steps);
    }
  }

  lemma LegalRefused(t: Store, o: Observation)
    requires t.spans == [] && o in [NAMELESS_CALL, EMPTY_SESSION, OUTSIDE_TURN]
    ensures Refused(t, C.Observation(1, ContentOf(o)))
  {
    assert Blank(Raw(""));
  }

  lemma CapturedStuck(stream: Stream, brain: BrainState, capacity: nat, content: C.Content)
    requires Good(Begin(stream, brain, capacity)) && capacity >= 1
    requires Refused(Opened(stream, brain), C.Observation(1, content))
    ensures var w := Captured(Begin(stream, brain, capacity), content);
            Stuck(w, C.Observation(1, content)) && w.link.server.log == []
  {
    hide *;
    var w0 := Begin(stream, brain, capacity);
    StepGood(w0, LinkStep(D.CallbackStep(B.Shaped(content))));
    CapturedIs(stream, brain, capacity, content);
    FirstCapture(capacity, content);
    StuckWhole(Captured(w0, content), C.Observation(1, content));
  }

  lemma CapturedIs(stream: Stream, brain: BrainState, capacity: nat, content: C.Content)
    ensures var w0 := Begin(stream, brain, capacity);
            && Captured(w0, content) == Do(w0, LinkStep(D.CallbackStep(B.Shaped(content))))
            && Captured(w0, content).link ==
               D.Start(capacity).(bridge := B.Capture(B.Initial(capacity), B.Shaped(content)))
            && Captured(w0, content).store == Opened(stream, brain)
    ensures D.Start(capacity).server.log == [] && D.Start(capacity).acked == []
  {
    hide B.Capture;
  }

  lemma FirstCapture(capacity: nat, content: C.Content)
    requires capacity >= 1
    ensures B.Line(B.Capture(B.Initial(capacity), B.Shaped(content))) == [C.Observation(1, content)]
  {
    var b := B.Capture(B.Initial(capacity), B.Shaped(content));
    assert b.queue == [C.Observation(1, content)] && b.gaps == [] && b.head.None? && b.retained.None?;
    assert C.OneOrNone(b.head) + b.queue == b.queue;
    C.FirstTaken(Some(b.queue[0]), [], []);
    assert C.OneOrNone(Some(b.queue[0])) + [] == b.queue;
  }
}
