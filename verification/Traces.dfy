/**
 Projections of frame sequences: what one session contributed to a sequence, and
 which bytes its Data frames carry. Everything is built from the right, because
 every history in the model grows at its end.
 */
module Traces {
  import opened Basics
  import opened Frames

  /** The frames of one session, in order. */
  function Trace(frames: seq<Frame>, sid: u32): seq<Frame> {
    if frames == [] then []
    else
      var last := frames[|frames| - 1];
      Trace(frames[..|frames| - 1], sid) + (if last.sessionId == sid then [last] else [])
  }

  /** The frames of kinds that a server hands to a session: Data and Close. */
  function Body(frames: seq<Frame>): seq<Frame> {
    if frames == [] then []
    else
      var last := frames[|frames| - 1];
      Body(frames[..|frames| - 1]) + (if last.frameType in {Data, Close} then [last] else [])
  }

  /** The payloads of the Data frames, in order. */
  function Payloads(frames: seq<Frame>): seq<Bytes> {
    if frames == [] then []
    else
      var last := frames[|frames| - 1];
      Payloads(frames[..|frames| - 1]) + (if last.frameType.Data? then [last.payload] else [])
  }

  /** How many frames are Close frames. */
  function Closes(frames: seq<Frame>): nat {
    if frames == [] then 0
    else Closes(frames[..|frames| - 1]) + (if frames[|frames| - 1].frameType.Close? then 1 else 0)
  }

  lemma Append(frames: seq<Frame>, f: Frame, sid: u32)
    ensures Trace(frames + [f], sid) == Trace(frames, sid) + (if f.sessionId == sid then [f] else [])
    ensures Body(frames + [f]) == Body(frames) + (if f.frameType in {Data, Close} then [f] else [])
    ensures Payloads(frames + [f]) == Payloads(frames) + (if f.frameType.Data? then [f.payload] else [])
    ensures Closes(frames + [f]) == Closes(frames) + (if f.frameType.Close? then 1 else 0)
  {
    assert (frames + [f])[..|frames|] == frames;
  }

  lemma {:induction false} Concat(a: seq<Frame>, b: seq<Frame>, sid: u32)
    ensures Trace(a + b, sid) == Trace(a, sid) + Trace(b, sid)
    ensures Body(a + b) == Body(a) + Body(b)
    ensures Payloads(a + b) == Payloads(a) + Payloads(b)
    ensures Closes(a + b) == Closes(a) + Closes(b)
  {
    if b == [] {
      assert a + b == a;
    } else {
      var c := b[..|b| - 1];
      assert a + b == (a + c) + [b[|b| - 1]] && b == c + [b[|b| - 1]];
      Concat(a, c, sid);
      Append(a + c, b[|b| - 1], sid);
    }
  }

  /** One more frame in what a server hands to a session. */
  lemma BodyOneMore(frames: seq<Frame>, f: Frame, sid: u32)
    ensures Body(Trace(frames + [f], sid)) ==
            Body(Trace(frames, sid)) + (if f.sessionId == sid && f.frameType in {Data, Close} then [f] else [])
  {
    hide Trace, Body, Payloads, Closes;
    var t := Trace(frames, sid);
    Append(frames, f, sid);
    Append(t, f, sid);
    assert t + [] == t && Body(t) + [] == Body(t);
  }

  /** All four projections respect prefixes. */
  lemma Prefixes(a: seq<Frame>, b: seq<Frame>, sid: u32)
    requires a <= b
    ensures Trace(a, sid) <= Trace(b, sid) && Body(a) <= Body(b) && Payloads(a) <= Payloads(b)
    ensures Closes(a) <= Closes(b)
  {
    assert b == a + b[|a|..];
    Concat(a, b[|a|..], sid);
  }

  lemma {:induction false} PayloadsOfBody(frames: seq<Frame>)
    ensures Payloads(Body(frames)) == Payloads(frames)
  {
    if frames != [] {
      var init, last := frames[..|frames| - 1], frames[|frames| - 1];
      PayloadsOfBody(init);
      Append(Body(init), last, 0);
      assert Body(init) + [] == Body(init);
    }
  }

  lemma {:induction false} TraceHasSid(frames: seq<Frame>, sid: u32)
    ensures forall f | f in Trace(frames, sid) :: f.sessionId == sid && f in frames
  {
    if frames != [] {
      TraceHasSid(frames[..|frames| - 1], sid);
    }
  }

  /** A frame appears in its session's trace, after the trace of the frames before it. */
  lemma TraceAt(frames: seq<Frame>, i: nat)
    requires i < |frames|
    ensures var sid := frames[i].sessionId; var k := |Trace(frames[..i], sid)|;
            && k < |Trace(frames, sid)| && Trace(frames, sid)[k] == frames[i]
            && Trace(frames[..i], sid) == Trace(frames, sid)[..k]
  {
    var sid := frames[i].sessionId;
    Append(frames[..i], frames[i], sid);
    assert frames[..i] + [frames[i]] == frames[..i + 1];
    Prefixes(frames[..i + 1], frames, sid);
  }
}
