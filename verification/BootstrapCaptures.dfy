// What a capture becomes in the bootstrap buffer: an observation whenever its
// queue has a free place, and otherwise a gap with its cause
// (hermes/registration.py, capture and _retain_new_gap_locked).
module BootstrapCaptures {
  import opened Prelude
  import opened CaptureItems
  import opened Bootstrap
  import opened BootstrapBooks
  import B = Bridge
  import P = Captures

  function Worth(s: State, shaped: B.Shaped): Body {
    match shaped
    case BadSchema => Lost(multiset{InvalidSourceSchema})
    case Unshaped => Lost(multiset{CallbackInternal})
    case Shaped(content) => if |s.queue| < s.capacity then Seen(content) else Lost(multiset{QueueFull})
  }

  // A callback adds its worth to the line under its own number; a gap joins the
  // newest range only when the queue is full.
  lemma CaptureAdds(s: State, handed: seq<Handed>, shaped: B.Shaped)
    requires Sound(s, handed) && s.next <= B.MAX_CAPTURE_SEQUENCE
    ensures var t, x := Capture(s, shaped), Item(s.next, s.next, Worth(s, shaped));
            && P.Joined(Line(s), Line(t), x) && t.next == s.next + 1
            && (|s.queue| < s.capacity ==> Line(t) == Line(s) + [x])
            && (!x.IsGap() ==> t.health == s.health.(pending := s.health.pending + 1))
  {
    hide RecordGap, Kept, Balanced, P.Joined, Line;
    match shaped
    case BadSchema => GapAdds(s, handed, InvalidSourceSchema);
    case Unshaped => GapAdds(s, handed, CallbackInternal);
    case Shaped(content) =>
      if |s.queue| < s.capacity {
        ObservationAdds(s, handed, content);
      } else {
        GapAdds(s, handed, QueueFull);
      }
  }

  lemma ObservationAdds(s: State, handed: seq<Handed>, content: Content)
    requires Sound(s, handed) && |s.queue| < s.capacity
    ensures var r, x := Reserve(s), Observation(s.next, content);
            Line(r.(queue := r.queue + [x])) == Line(s) + [x] && P.Joined(Line(s), Line(s) + [x], x)
  {
    var x := Observation(s.next, content);
    QueuedLine(s, handed, x);
    SameStores(s.(queue := s.queue + [x]), Reserve(s).(queue := s.queue + [x]));
    hide Kept, Balanced, Line;
  }

  lemma GapAdds(s: State, handed: seq<Handed>, cause: Cause)
    requires Sound(s, handed)
    ensures var t, x := RecordGap(Reserve(s), s.next, cause), GapOf(s.next, cause);
            && P.Joined(Line(s), Line(t), x) && t.next == s.next + 1
            && (|s.queue| < s.capacity ==> Line(t) == Line(s) + [x])
  {
    var gap, r := GapOf(s.next, cause), Reserve(s);
    NewestIsAbsent(s, handed, gap);
    SearchIgnoresBooks(s, r, gap);
    RetainFrame(s, gap);
    var t := RetainNewGap(r, gap);
    SameStores(RetainNewGap(s, gap), t);
    SameStores(t, Reconcile(t));
    RetainedJoins(s, handed, gap);
    hide Kept, Balanced, Line, ReplacePending, RetainNewGap, P.Joined, PendingDropped, PendingRanges;
    assert RecordGap(r, s.next, cause) == Reconcile(t);
  }

  lemma RetainedJoins(s: State, handed: seq<Handed>, gap: Item)
    requires Kept(s, handed) && gap.IsGap() && gap.first == s.next && gap.first == gap.last
    ensures P.Joined(Line(s), Line(RetainNewGap(s, gap)), gap)
    ensures |s.queue| < s.capacity ==> Line(RetainNewGap(s, gap)) == Line(s) + [gap]
  {
    if |s.queue| < s.capacity {
      QueuedLine(s, handed, gap);
    } else if Adjacent(s.overflow, gap) {
      ExtendedLine(s, handed, gap);
    } else {
      OverflowedLine(s, handed, gap);
    }
    hide Kept, Line;
  }

  // Past the last number a callback only marks the buffer as exhausted.
  lemma Exhausts(s: State, shaped: B.Shaped)
    requires s.next > B.MAX_CAPTURE_SEQUENCE
    ensures Line(Capture(s, shaped)) == Line(s) && Capture(s, shaped).next == s.next && Capture(s, shaped).exhausted
    ensures Capture(s, shaped).health == s.health
  {
    SameStores(s, Capture(s, shaped));
    hide Line, RecordGap;
  }
}
