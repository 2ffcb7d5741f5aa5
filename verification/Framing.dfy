// The line framer of one daemon connection (runtime/daemon.py,
// _handle_client): chunks of bytes in, request frames out.
module Framing {
  import opened Prelude

  newtype byte = x: int | 0 <= x < 256

  const LF: byte := 10
  const CR: byte := 13

  // A frame handed to the protocol, or the marker that stands for a line that
  // is too long.
  datatype Frame = Frame(bytes: seq<byte>) | Oversize

  /* ---------------- what the frames of a byte stream are ---------------- */

  // A complete line: one carriage return at its end is dropped.
  function LineFrame(line: seq<byte>, maximum: nat): Frame {
    if |line| > maximum then Oversize
    else if line != [] && line[|line| - 1] == CR then Frame(line[..|line| - 1])
    else Frame(line)
  }

  // The unfinished line at the end of the stream.
  function TailFrame(line: seq<byte>, maximum: nat): Frame {
    if |line| > maximum then Oversize else Frame(line)
  }

  // The frames of the complete lines, where `line` is what the first line has
  // so far.
  function Lines(line: seq<byte>, data: seq<byte>, maximum: nat): seq<Frame>
    decreases |data|
  {
    if data == [] then []
    else if data[0] == LF then [LineFrame(line, maximum)] + Lines([], data[1..], maximum)
    else Lines(line + [data[0]], data[1..], maximum)
  }

  // What is left after the last newline.
  function Rest(line: seq<byte>, data: seq<byte>): seq<byte>
    decreases |data|
  {
    if data == [] then line
    else if data[0] == LF then Rest([], data[1..])
    else Rest(line + [data[0]], data[1..])
  }

  lemma {:induction false} LinesConcat(line: seq<byte>, a: seq<byte>, b: seq<byte>, maximum: nat)
    ensures Lines(line, a + b, maximum) == Lines(line, a, maximum) + Lines(Rest(line, a), b, maximum)
    ensures Rest(line, a + b) == Rest(Rest(line, a), b)
    decreases |a|
  {
    if a == [] {
      assert a + b == b;
    } else {
      assert (a + b)[1..] == a[1..] + b;
      if a[0] == LF {
        LinesConcat([], a[1..], b, maximum);
      } else {
        LinesConcat(line + [a[0]], a[1..], b, maximum);
      }
    }
  }

  lemma {:induction false} NoNewline(line: seq<byte>, data: seq<byte>, maximum: nat)
    requires LF !in data
    ensures Lines(line, data, maximum) == [] && Rest(line, data) == line + data
    decreases |data|
  {
    if data == [] {
      assert line + data == line;
    } else {
      assert data[0] != LF && LF !in data[1..];
      NoNewline(line + [data[0]], data[1..], maximum);
      assert (line + [data[0]]) + data[1..] == line + data;
    }
  }

  /* ---------------- processing may stop ---------------- */

  // The frames handed on until `keep` says stop, after those already done.
  function Feed(done: seq<Frame>, frames: seq<Frame>, keep: seq<Frame> -> bool): (seq<Frame>, bool)
    decreases |frames|
  {
    if frames == [] then (done, true)
    else
      var now := done + [frames[0]];
      if keep(now) then Feed(now, frames[1..], keep) else (now, false)
  }

  lemma {:induction false} FeedConcat(done: seq<Frame>, a: seq<Frame>, b: seq<Frame>, keep: seq<Frame> -> bool)
    ensures Feed(done, a + b, keep) ==
            (var (now, running) := Feed(done, a, keep); if running then Feed(now, b, keep) else (now, false))
    decreases |a|
  {
    if a == [] {
      assert a + b == b;
    } else {
      assert (a + b)[1..] == a[1..] + b;
      FeedConcat(done + [a[0]], a[1..], b, keep);
    }
  }

  // Feeding hands on a prefix; the whole, when it is not stopped.
  lemma {:induction false} FeedPrefix(done: seq<Frame>, frames: seq<Frame>, keep: seq<Frame> -> bool)
    ensures Feed(done, frames, keep).0 <= done + frames
    ensures Feed(done, frames, keep).1 ==> Feed(done, frames, keep).0 == done + frames
    decreases |frames|
  {
    if frames == [] {
      assert done + frames == done;
    } else {
      assert (done + [frames[0]]) + frames[1..] == done + frames;
      FeedPrefix(done + [frames[0]], frames[1..], keep);
    }
  }

  // All that a connection hands on.
  function Handed(data: seq<byte>, eof: bool, maximum: nat, keep: seq<Frame> -> bool): seq<Frame> {
    var (done, running) := Feed([], Lines([], data, maximum), keep);
    if running && eof && Rest([], data) != [] then done + [TailFrame(Rest([], data), maximum)] else done
  }

  function Joined(chunks: seq<seq<byte>>): seq<byte> {
    if chunks == [] then [] else Joined(chunks[..|chunks| - 1]) + chunks[|chunks| - 1]
  }

  /* ---------------- the loops ---------------- */

  // chunk.find(b"\n", start)
  method Find(chunk: seq<byte>, start: nat) returns (at: int)
    requires start <= |chunk|
    ensures at < 0 ==> LF !in chunk[start..]
    ensures at >= 0 ==> start <= at < |chunk| && chunk[at] == LF && LF !in chunk[start..at]
  {
    var i := start;
    while i < |chunk|
      invariant start <= i <= |chunk|
      invariant LF !in chunk[start..i]
    {
      if chunk[i] == LF {
        return i;
      }
      i := i + 1;
    }
    assert chunk[start..] == chunk[start..|chunk|];
    return -1;
  }

  // Between reads: the buffer is the line so far, or empty with a line that
  // is already too long.
  ghost predicate Between(buffer: seq<byte>, discarding: bool, line: seq<byte>, maximum: nat) {
    if discarding then buffer == [] && |line| > maximum else buffer == line && |line| <= maximum
  }

  lemma ReadOn(line: seq<byte>, chunk: seq<byte>, cursor: nat, newline: nat, maximum: nat)
    requires cursor <= newline < |chunk| && chunk[newline] == LF && LF !in chunk[cursor..newline]
    ensures Lines(line, chunk[cursor..newline + 1], maximum) == [LineFrame(line + chunk[cursor..newline], maximum)]
    ensures Rest(line, chunk[cursor..newline + 1]) == []
  {
    var fragment := chunk[cursor..newline];
    assert chunk[cursor..newline + 1] == fragment + [LF];
    NoNewline(line, fragment, maximum);
    LinesConcat(line, fragment, [LF], maximum);
    assert [LF][1..] == [];
  }

  // One chunk: the inner loop.
  method HandleChunk(chunk: seq<byte>, buffer0: seq<byte>, discarding0: bool, ghost line: seq<byte>, maximum: nat,
                     keep: seq<Frame> -> bool, done: seq<Frame>)
    returns (buffer: seq<byte>, discarding: bool, frames: seq<Frame>, running: bool)
    requires Between(buffer0, discarding0, line, maximum)
    ensures (frames, running) == Feed(done, Lines(line, chunk, maximum), keep)
    ensures running ==> Between(buffer, discarding, Rest(line, chunk), maximum)
  {
    buffer, discarding, frames, running := buffer0, discarding0, done, true;
    var cursor := 0;
    ghost var now := line;
    assert chunk[..0] == [];
    while running
      invariant cursor <= |chunk|
      invariant (frames, running) == Feed(done, Lines(line, chunk[..cursor], maximum), keep)
      invariant now == Rest(line, chunk[..cursor])
      invariant running ==> Between(buffer, discarding, now, maximum)
      decreases |chunk| - cursor, running
    {
      var newline := Find(chunk, cursor);
      if newline < 0 {
        var tail := chunk[cursor..];
        assert chunk == chunk[..cursor] + tail;
        LinesConcat(line, chunk[..cursor], tail, maximum);
        NoNewline(now, tail, maximum);
        FeedConcat(done, Lines(line, chunk[..cursor], maximum), [], keep);
        if !discarding {
          buffer := buffer + tail;
          if |buffer| > maximum {
            buffer := [];
            discarding := true;
          }
        }
        return;
      }
      ghost var step := chunk[cursor..newline + 1];
      assert chunk[..newline + 1] == chunk[..cursor] + step;
      LinesConcat(line, chunk[..cursor], step, maximum);
      ReadOn(now, chunk, cursor, newline, maximum);
      var fragment := chunk[cursor..newline];
      FeedConcat(done, Lines(line, chunk[..cursor], maximum), [LineFrame(now + fragment, maximum)], keep);
      var frame;
      if discarding {
        discarding := false;
        frame := Oversize;
      } else {
        buffer := buffer + fragment;
        frame := LineFrame(buffer, maximum);
        buffer := [];
      }
      assert frame == LineFrame(now + fragment, maximum);
      FeedOne(frames, frame, keep);
      frames := frames + [frame];
      running := keep(frames);
      cursor := newline + 1;
      now := [];
    }
    assert chunk == chunk[..cursor] + chunk[cursor..];
    LinesConcat(line, chunk[..cursor], chunk[cursor..], maximum);
    FeedConcat(done, Lines(line, chunk[..cursor], maximum), Lines(now, chunk[cursor..], maximum), keep);
  }

  lemma FeedOne(done: seq<Frame>, frame: Frame, keep: seq<Frame> -> bool)
    ensures Feed(done, [frame], keep) == (done + [frame], keep(done + [frame]))
  {
    assert [frame][1..] == [];
  }

  // The whole connection: what is handed on depends on the bytes only, not on
  // how the reads split them.
  method HandleClient(chunks: seq<seq<byte>>, eof: bool, maximum: nat, keep: seq<Frame> -> bool)
    returns (frames: seq<Frame>)
    ensures frames == Handed(Joined(chunks), eof, maximum, keep)
  {
    var buffer: seq<byte>, discarding, running := [], false, true;
    frames := [];
    var i := 0;
    assert Joined([]) == [];
    while i < |chunks| && running
      invariant 0 <= i <= |chunks|
      invariant (frames, running) == Feed([], Lines([], Joined(chunks[..i]), maximum), keep)
      invariant running ==> Between(buffer, discarding, Rest([], Joined(chunks[..i])), maximum)
    {
      ghost var before := Joined(chunks[..i]);
      assert chunks[..i + 1][..i] == chunks[..i];
      assert Joined(chunks[..i + 1]) == before + chunks[i];
      LinesConcat([], before, chunks[i], maximum);
      FeedConcat([], Lines([], before, maximum), Lines(Rest([], before), chunks[i], maximum), keep);
      buffer, discarding, frames, running :=
        HandleChunk(chunks[i], buffer, discarding, Rest([], before), maximum, keep, frames);
      i := i + 1;
    }
    JoinedSplit(chunks, i);
    LinesConcat([], Joined(chunks[..i]), Joined(chunks[i..]), maximum);
    FeedConcat([], Lines([], Joined(chunks[..i]), maximum),
               Lines(Rest([], Joined(chunks[..i])), Joined(chunks[i..]), maximum), keep);
    if running {
      assert chunks[i..] == [];
      assert Joined(chunks[..i]) + [] == Joined(chunks[..i]);
      if eof {
        if discarding {
          frames := frames + [Oversize];
        } else if buffer != [] {
          frames := frames + [Frame(buffer)];
        }
      }
    }
  }

  lemma {:induction false} JoinedSplit(chunks: seq<seq<byte>>, i: nat)
    requires i <= |chunks|
    ensures Joined(chunks) == Joined(chunks[..i]) + Joined(chunks[i..])
    decreases |chunks| - i
  {
    if i == |chunks| {
      assert chunks[..i] == chunks && chunks[i..] == [];
      assert Joined(chunks) + [] == Joined(chunks);
    } else {
      var front := chunks[..|chunks| - 1];
      JoinedSplit(front, i);
      assert front[..i] == chunks[..i];
      assert front[i..] == chunks[i..][..|chunks[i..]| - 1];
    }
  }

  /* ---------------- the newline split ---------------- */

  // Lines joined with newlines, and an unfinished last one.
  function Written(lines: seq<seq<byte>>, tail: seq<byte>): seq<byte> {
    if lines == [] then tail else lines[0] + [LF] + Written(lines[1..], tail)
  }

  function LineFrames(lines: seq<seq<byte>>, maximum: nat): (r: seq<Frame>)
    ensures |r| == |lines| && forall i :: 0 <= i < |r| ==> r[i] == LineFrame(lines[i], maximum)
  {
    seq(|lines|, i requires 0 <= i < |lines| => LineFrame(lines[i], maximum))
  }

  // Reading back what was written line by line gives each line once, in
  // order, and the tail.
  lemma {:induction false} FramesOfLines(lines: seq<seq<byte>>, tail: seq<byte>, maximum: nat)
    requires LF !in tail && forall i :: 0 <= i < |lines| ==> LF !in lines[i]
    ensures Lines([], Written(lines, tail), maximum) == LineFrames(lines, maximum)
    ensures Rest([], Written(lines, tail)) == tail
    decreases |lines|
  {
    if lines == [] {
      NoNewline([], tail, maximum);
      assert [] + tail == tail;
    } else {
      var first := lines[0] + [LF];
      var more := Written(lines[1..], tail);
      assert Written(lines, tail) == first + more;
      LinesConcat([], first, more, maximum);
      NoNewline([], lines[0], maximum);
      LinesConcat([], lines[0], [LF], maximum);
      assert [] + lines[0] == lines[0] && [LF][1..] == [];
      FramesOfLines(lines[1..], tail, maximum);
      assert LineFrames(lines, maximum) == [LineFrame(lines[0], maximum)] + LineFrames(lines[1..], maximum);
    }
  }

  // Every byte stream is written that way, so the two lemmas together say
  // what the frames of any stream are.
  lemma {:induction false} EveryStreamIsLines(data: seq<byte>) returns (lines: seq<seq<byte>>, tail: seq<byte>)
    ensures LF !in tail && (forall i :: 0 <= i < |lines| ==> LF !in lines[i]) && Written(lines, tail) == data
    decreases |data|
  {
    if data == [] {
      lines, tail := [], [];
    } else {
      var more, rest := EveryStreamIsLines(data[1..]);
      if data[0] == LF {
        lines, tail := [[]] + more, rest;
        assert lines[1..] == more && [] + [LF] + data[1..] == data;
      } else if more == [] {
        lines, tail := [], [data[0]] + rest;
        assert [data[0]] + data[1..] == data;
      } else {
        lines, tail := [[data[0]] + more[0]] + more[1..], rest;
        assert lines[1..] == more[1..];
        assert [data[0]] + (more[0] + [LF] + Written(more[1..], rest)) == data;
        assert ([data[0]] + more[0]) + [LF] + Written(more[1..], rest) ==
               [data[0]] + (more[0] + [LF] + Written(more[1..], rest));
      }
    }
  }

  // With nothing to stop it, a connection hands on one frame for every line
  // and one for a non-empty tail at the end.
  lemma HandedWhole(lines: seq<seq<byte>>, tail: seq<byte>, eof: bool, maximum: nat, keep: seq<Frame> -> bool)
    requires LF !in tail && forall i :: 0 <= i < |lines| ==> LF !in lines[i]
    ensures var whole := LineFrames(lines, maximum) + (if eof && tail != [] then [TailFrame(tail, maximum)] else []);
            var handed := Handed(Written(lines, tail), eof, maximum, keep);
            handed <= whole && (Feed([], LineFrames(lines, maximum), keep).1 ==> handed == whole)
  {
    FramesOfLines(lines, tail, maximum);
    FeedPrefix([], LineFrames(lines, maximum), keep);
    assert [] + LineFrames(lines, maximum) == LineFrames(lines, maximum);
  }

  /* ---------------- requests that are written arrive ---------------- */

  // A request on a line of its own, with or without a carriage return.
  function Line(request: seq<byte>, carriage: bool): seq<byte> {
    if carriage then request + [CR] else request
  }

  // It fits, and its last byte is not taken for the end of the line.
  predicate Sendable(request: seq<byte>, carriage: bool, maximum: nat) {
    && LF !in request && |Line(request, carriage)| <= maximum
    && (!carriage && request != [] ==> request[|request| - 1] != CR)
  }

  // Requests written one to a line, in either style, are read back as they
  // were; a longer line is read as one oversize marker.
  lemma RequestsArrive(requests: seq<seq<byte>>, carriages: seq<bool>, tail: seq<byte>, maximum: nat)
    requires |carriages| == |requests| && LF !in tail
    requires forall i :: 0 <= i < |requests| ==> LF !in requests[i]
    requires forall i :: 0 <= i < |requests| ==>
               Sendable(requests[i], carriages[i], maximum) || |Line(requests[i], carriages[i])| > maximum
    ensures var lines := seq(|requests|, i requires 0 <= i < |requests| => Line(requests[i], carriages[i]));
            var frames := Lines([], Written(lines, tail), maximum);
            && |frames| == |requests|
            && forall i :: 0 <= i < |requests| ==>
                 frames[i] == if |Line(requests[i], carriages[i])| > maximum then Oversize else Frame(requests[i])
  {
    var lines := seq(|requests|, i requires 0 <= i < |requests| => Line(requests[i], carriages[i]));
    forall i | 0 <= i < |lines| ensures LF !in lines[i] {
    }
    FramesOfLines(lines, tail, maximum);
    forall i | 0 <= i < |requests|
      ensures LineFrame(lines[i], maximum) ==
              if |Line(requests[i], carriages[i])| > maximum then Oversize else Frame(requests[i])
    {
      LineArrives(requests[i], carriages[i], maximum);
    }
  }

  lemma LineArrives(request: seq<byte>, carriage: bool, maximum: nat)
    requires Sendable(request, carriage, maximum) || |Line(request, carriage)| > maximum
    ensures LineFrame(Line(request, carriage), maximum) ==
            if |Line(request, carriage)| > maximum then Oversize else Frame(request)
  {
    assert carriage ==> Line(request, carriage)[..|Line(request, carriage)| - 1] == request;
  }
}
