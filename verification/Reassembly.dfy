/**
 What receive_data does to its buffer, as a function: peel frames off the front
 until the bytes left are too few, or drop everything at an unknown type byte.
 */
module Reassembly {
  import opened Basics
  import opened Frames

  /** `discarded` holds the bytes the error path clears; it is empty when no error occurred. */
  datatype Drained = Drained(frames: seq<Frame>, rest: Bytes, discarded: Bytes)

  /** A buffer in which receive_data finds nothing to do. */
  predicate Settled(buf: Bytes) {
    Decode(buf).MoreDataRequired?
  }

  function Drain(buf: Bytes): (d: Drained)
    ensures Settled(d.rest)
    decreases |buf|
  {
    match Decode(buf)
    case MoreDataRequired => Drained([], buf, [])
    case DecodingFailed => Drained([], [], buf)
    case Decoded(frame, consumed) =>
      DecodedReencodes(buf);
      var d := Drain(buf[consumed..]);
      Drained([frame] + d.frames, d.rest, d.discarded)
  }

  /** What makes a settled buffer short: less than a header, or less than the header announces. */
  lemma SettledIsShort(buf: Bytes)
    requires Settled(buf)
    ensures |buf| < 7 || (1 <= buf[0] <= 5 && |buf| < 7 + buf[5] as int * 0x100 + buf[6])
    ensures |buf| <= 65541
  {
  }

  lemma DrainStep(buf: Bytes, frame: Frame, n: nat)
    requires Decode(buf) == Decoded(frame, n)
    ensures HDR_SIZE <= n <= |buf| && Fits(frame) && buf == Encode(frame) + buf[n..]
    ensures var d := Drain(buf[n..]); Drain(buf) == Drained([frame] + d.frames, d.rest, d.discarded)
  {
    hide Decode, Encode;
    DecodedReencodes(buf);
    assert buf == buf[..n] + buf[n..];
  }

  lemma Regroup(a: Bytes, b: Bytes, c: Bytes, d: Bytes)
    ensures a + (b + c + d) == (a + b) + c + d
  {
  }

  /** Conservation, byte for byte: the input is the emitted frames, the leftover and the discarded bytes. */
  lemma {:induction false} DrainConserves(buf: Bytes)
    ensures var d := Drain(buf);
            && AllFit(d.frames)
            && buf == EncodeAll(d.frames) + d.rest + d.discarded
            && (d.discarded == [] || (d.rest == [] && Decode(d.discarded).DecodingFailed?))
    decreases |buf|
  {
    hide Decode, Encode, Fits;
    match Decode(buf) {
      case Decoded(frame, n) =>
        hide Drain;
        DrainStep(buf, frame, n);
        DrainConserves(buf[n..]);
        var e := Drain(buf[n..]);
        assert ([frame] + e.frames)[1..] == e.frames;
        Regroup(Encode(frame), EncodeAll(e.frames), e.rest, e.discarded);
      case _ =>
        assert EncodeAll([]) == [];
    }
  }

  /** Draining x and then the leftover with y appended is draining x + y, unless x already failed. */
  lemma {:induction false} DrainConcat(x: Bytes, y: Bytes)
    ensures var d := Drain(x);
            if d.discarded == [] then
              var e := Drain(d.rest + y);
              Drain(x + y) == Drained(d.frames + e.frames, e.rest, e.discarded)
            else
              Drain(x + y) == Drained(d.frames, [], d.discarded + y)
    decreases |x|
  {
    hide Decode, Encode;
    DecodeExtends(x, y);
    if Decode(x).Decoded? {
      DecodedReencodes(x);
      var n := Decode(x).consumed;
      assert (x + y)[n..] == x[n..] + y;
      DrainConcat(x[n..], y);
    }
  }

  lemma DrainNothing()
    ensures Drain([]) == Drained([], [], [])
  {
  }

  lemma DrainSettled(buf: Bytes)
    requires Settled(buf)
    ensures Drain(buf) == Drained([], buf, [])
  {
  }

  /** Any prefix of a concatenation of encodings drains without an error. */
  lemma {:induction false} DrainOfFrames(frames: seq<Frame>, x: Bytes)
    requires AllFit(frames) && x <= EncodeAll(frames)
    ensures Drain(x).discarded == [] && Drain(x).frames <= frames
  {
    hide Decode, Encode;
    if frames == [] {
      assert x == [];
      DrainNothing();
    } else {
      var e := Encode(frames[0]);
      assert Fits(frames[0]);
      if |x| < |e| {
        assert x == e[..|x|];
        ProperPrefixWaits(frames[0], x);
        DrainSettled(x);
      } else {
        hide Drain;
        var rest := x[|e|..];
        assert x == e + rest && rest <= EncodeAll(frames[1..]);
        RoundTrip(frames[0], rest);
        DrainStep(x, frames[0], |e|);
        DrainOfFrames(frames[1..], rest);
        assert frames == [frames[0]] + frames[1..];
      }
    }
  }

  /** The reassembler's state after a run of fragments, and all it emitted. */
  datatype Fed = Fed(frames: seq<Frame>, buf: Bytes)

  function Feed(buf: Bytes, fragments: seq<Bytes>): Fed
    decreases fragments
  {
    if fragments == [] then Fed([], buf)
    else
      var d := Drain(buf + fragments[0]);
      var later := Feed(d.rest, fragments[1..]);
      Fed(d.frames + later.frames, later.buf)
  }

  /** One more fragment. */
  lemma {:induction false} FeedOneMore(buf: Bytes, fragments: seq<Bytes>, x: Bytes)
    ensures var fed := Feed(buf, fragments);
            var d := Drain(fed.buf + x);
            Feed(buf, fragments + [x]) == Fed(fed.frames + d.frames, d.rest)
    decreases fragments
  {
    hide Drain;
    if fragments == [] {
      assert Feed(Drain(buf + x).rest, []) == Fed([], Drain(buf + x).rest);
      assert [x][1..] == [] && Drain(buf + x).frames + [] == [] + Drain(buf + x).frames;
    } else {
      assert (fragments + [x])[1..] == fragments[1..] + [x];
      FeedOneMore(Drain(buf + fragments[0]).rest, fragments[1..], x);
    }
  }

  /** However many fragments of whatever content arrive, at most 65541 bytes are ever buffered. */
  lemma {:induction false} BufferStaysSmall(buf: Bytes, fragments: seq<Bytes>)
    requires Settled(buf)
    ensures Settled(Feed(buf, fragments).buf) && |Feed(buf, fragments).buf| <= 65541
    decreases fragments
  {
    hide Decode, Drain;
    if fragments == [] {
      SettledIsShort(buf);
    } else {
      BufferStaysSmall(Drain(buf + fragments[0]).rest, fragments[1..]);
    }
  }

  /**
   Fragmentation invariance: as long as the whole string has no unknown type
   byte, every way of cutting it up emits the same frames and leaves the same
   bytes as handing it over in one piece.
   */
  lemma {:induction false} FragmentationInvariance(buf: Bytes, fragments: seq<Bytes>)
    requires Settled(buf)
    requires Drain(buf + Flatten(fragments)).discarded == []
    ensures var whole := Drain(buf + Flatten(fragments));
            Feed(buf, fragments) == Fed(whole.frames, whole.rest)
    decreases fragments
  {
    if fragments == [] {
      assert buf + Flatten(fragments) == buf;
    } else {
      var x, y := buf + fragments[0], Flatten(fragments[1..]);
      assert buf + Flatten(fragments) == x + y;
      DrainConcat(x, y);
      DrainConserves(x);
      FragmentationInvariance(Drain(x).rest, fragments[1..]);
    }
  }

  /** If the frames drained from a prefix of encodings leave bytes over, those bytes start the next frame. */
  lemma LeftoverIsNextFrame(frames: seq<Frame>, x: Bytes)
    requires AllFit(frames) && x <= EncodeAll(frames)
    ensures var d := Drain(x);
            d.frames <= frames && x == EncodeAll(d.frames) + d.rest && d.rest <= EncodeAll(frames[|d.frames|..])
  {
    hide Decode, Encode, Drain;
    DrainOfFrames(frames, x);
    DrainConserves(x);
    var d := Drain(x);
    var tail := frames[|d.frames|..];
    assert frames == d.frames + tail;
    EncodeAllConcat(d.frames, tail);
    assert EncodeAll(frames)[|EncodeAll(d.frames)|..] == EncodeAll(tail);
  }

  /** All of the bytes give all of the frames. */
  lemma DrainOfAll(frames: seq<Frame>)
    requires AllFit(frames)
    ensures Drain(EncodeAll(frames)) == Drained(frames, [], [])
  {
    hide Decode, Drain, Encode;
    var x := EncodeAll(frames);
    DrainOfFrames(frames, x);
    LeftoverIsNextFrame(frames, x);
    var d := Drain(x);
    var tail := frames[|d.frames|..];
    assert frames == d.frames + tail;
    EncodeAllConcat(d.frames, tail);
    assert d.rest == EncodeAll(tail);
    if tail != [] {
      assert Fits(tail[0]);
      RoundTrip(tail[0], EncodeAll(tail[1..]));
    }
  }

  /** Every cut of a prefix of encoded frames is reassembled to those frames, without an error. */
  lemma EncodedFramesSurviveFragmentation(frames: seq<Frame>, fragments: seq<Bytes>)
    requires AllFit(frames) && Flatten(fragments) <= EncodeAll(frames)
    ensures var fed := Feed([], fragments);
            && fed.frames <= frames
            && EncodeAll(fed.frames) + fed.buf == Flatten(fragments)
            && (Flatten(fragments) == EncodeAll(frames) ==> fed == Fed(frames, []))
  {
    hide Drain, Encode, Feed;
    var x := Flatten(fragments);
    DrainOfFrames(frames, x);
    LeftoverIsNextFrame(frames, x);
    assert [] + x == x;
    FragmentationInvariance([], fragments);
    if x == EncodeAll(frames) {
      DrainOfAll(frames);
    }
  }

  /**
   A damaged stream: however it is cut, the frames before the first unknown type
   byte come out, the fragment that completes the bad header empties the buffer,
   and from the next fragment on the reassembler runs as if it were new.
   */
  lemma {:induction false} DamageIsLocal(buf: Bytes, fragments: seq<Bytes>) returns (k: nat)
    requires Settled(buf)
    requires Drain(buf + Flatten(fragments)).discarded != []
    ensures k < |fragments|
    ensures Feed(buf, fragments[..k + 1]) == Fed(Drain(buf + Flatten(fragments)).frames, [])
    ensures Drain(Feed(buf, fragments[..k]).buf + fragments[k]).discarded != []
    ensures Feed(buf, fragments) ==
            Fed(Drain(buf + Flatten(fragments)).frames + Feed([], fragments[k + 1..]).frames,
                Feed([], fragments[k + 1..]).buf)
    decreases fragments
  {
    hide Drain, Decode, Encode, EncodeAll, AllFit;
    if fragments == [] {
      assert buf + Flatten(fragments) == buf;
      DrainSettled(buf);
      assert false;
    }
    var x, y := buf + fragments[0], Flatten(fragments[1..]);
    assert buf + Flatten(fragments) == x + y;
    DrainConcat(x, y);
    DrainConserves(x);
    if Drain(x).discarded == [] {
      var j := DamageIsLocal(Drain(x).rest, fragments[1..]);
      k := j + 1;
      assert fragments[..k + 1][1..] == fragments[1..][..j + 1];
      assert fragments[..k][1..] == fragments[1..][..j];
      assert fragments[k + 1..] == fragments[1..][j + 1..];
    } else {
      k := 0;
      assert fragments[..1] == [fragments[0]];
      assert fragments[..1][1..] == [] && fragments[..0] == [];
    }
  }
}
