/**
 The multiplexer. `MuxState` is the value of its mutexed fields and the functions
 on it say what each operation does; the class `MuxHandle` is the mutable object,
 each of whose methods is proved to do just that.
 */
module Mux {
  import opened Basics
  import opened Frames
  import opened Reassembly

  type LinkId = nat

  /** How many encoded frames the channel to the sender task holds. */
  const QUEUE_CAPACITY: nat := 5

  datatype MuxState = MuxState(
    linkId: Option<LinkId>,
    sessions: set<u32>,
    nextSid: u32,
    recvBuf: Bytes,
    queue: seq<Bytes>)

  function NewMux(): MuxState {
    MuxState(None, {}, 0, [], [])
  }

  function ClearLink(m: MuxState): MuxState {
    m.(linkId := None)
  }

  function ClearSessions(m: MuxState): MuxState {
    m.(sessions := {})
  }

  function ClearBuffer(m: MuxState): MuxState {
    m.(recvBuf := [])
  }

  /** Three locks are taken one after the other, so other tasks may run in between. */
  function ResetMux(m: MuxState): MuxState {
    ClearBuffer(ClearSessions(ClearLink(m)))
  }

  function Successor(sid: u32): u32 {
    (sid + 1) % 0x1_0000_0000
  }

  predicate HasRoom(m: MuxState) {
    |m.queue| < QUEUE_CAPACITY
  }

  function Push(m: MuxState, encoded: Bytes): MuxState {
    m.(queue := m.queue + [encoded])
  }

  function Register(m: MuxState, sid: u32): MuxState {
    m.(sessions := m.sessions + {sid})
  }

  function Unregister(m: MuxState, sid: u32): MuxState {
    m.(sessions := m.sessions - {sid})
  }

  /** How many bytes the link accepts before its first refusal, when `accepts(i)` answers the i-th chunk. */
  function Transmitted(length: nat, mdu: nat, accepts: nat -> bool, i: nat): (n: nat)
    requires mdu > 0
    ensures n <= length
    decreases length
  {
    if length == 0 || !accepts(i) then 0
    else
      var n := Min(mdu, length);
      n + Transmitted(length - n, mdu, accepts, i + 1)
  }

  /** The pieces a frame is sent in. */
  function Chunks(data: Bytes, mdu: nat): seq<Bytes>
    requires mdu > 0
    decreases |data|
  {
    if data == [] then []
    else [data[..Min(mdu, |data|)]] + Chunks(data[Min(mdu, |data|)..], mdu)
  }

  /** Pieces of `mdu` bytes, except that the last may be shorter, and together they are the data. */
  lemma {:induction false} ChunksAreFull(data: Bytes, mdu: nat)
    requires mdu > 0
    ensures var chunks := Chunks(data, mdu);
            && Flatten(chunks) == data
            && (forall i | 0 <= i < |chunks| :: 0 < |chunks[i]| <= mdu)
            && (forall i | 0 <= i < |chunks| - 1 :: |chunks[i]| == mdu)
    decreases |data|
  {
    if data != [] {
      var n := Min(mdu, |data|);
      ChunksAreFull(data[n..], mdu);
      assert data == data[..n] + data[n..];
    }
  }

  /** How many of n chunks the link accepts before its first refusal. */
  function AcceptedChunks(n: nat, accepts: nat -> bool, i: nat): (k: nat)
    ensures k <= n
  {
    if n == 0 || !accepts(i) then 0 else 1 + AcceptedChunks(n - 1, accepts, i + 1)
  }

  function Tagged(link: LinkId, chunks: seq<Bytes>): seq<(LinkId, Bytes)> {
    seq(|chunks|, i requires 0 <= i < |chunks| => (link, chunks[i]))
  }

  /** Where a chunk starts, the rest of the data is the rest of the chunks. */
  lemma ChunkAt(data: Bytes, mdu: nat, done: nat, i: nat)
    requires mdu > 0 && done < |data| && i <= |Chunks(data, mdu)| && Chunks(data[done..], mdu) == Chunks(data, mdu)[i..]
    ensures var n := Min(mdu, |data| - done); var chunks := Chunks(data, mdu);
            i < |chunks| && chunks[i] == data[done..done + n] && Chunks(data[done + n..], mdu) == chunks[i + 1..]
  {
    var n, rest := Min(mdu, |data| - done), data[done..];
    assert rest[..n] == data[done..done + n] && rest[n..] == data[done + n..];
    assert Chunks(rest, mdu)[1..] == Chunks(data, mdu)[i..][1..];
  }

  lemma OneChunk(length: nat, count: nat, mdu: nat, accepts: nat -> bool, i: nat)
    requires mdu > 0 && length > 0 && count > 0
    ensures Transmitted(length, mdu, accepts, i) ==
            if accepts(i) then Min(mdu, length) + Transmitted(length - Min(mdu, length), mdu, accepts, i + 1) else 0
    ensures AcceptedChunks(count, accepts, i) ==
            if accepts(i) then 1 + AcceptedChunks(count - 1, accepts, i + 1) else 0
  {
  }

  lemma NoChunks(data: Bytes, mdu: nat, done: nat, accepts: nat -> bool, i: nat)
    requires mdu > 0 && done <= |data|
    ensures done == |data| ==> Chunks(data[done..], mdu) == []
    ensures Transmitted(0, mdu, accepts, i) == 0 && AcceptedChunks(0, accepts, i) == 0
  {
  }

  lemma Regrouped(before: Bytes, data: Bytes, done: nat, n: nat)
    requires done + n <= |data|
    ensures before + data[..done + n] == (before + data[..done]) + data[done..done + n]
  {
  }

  lemma NothingTagged(link: LinkId)
    ensures Tagged(link, []) == []
  {
  }

  lemma TaggedOneMore(link: LinkId, chunks: seq<Bytes>, i: nat)
    requires i < |chunks|
    ensures Tagged(link, chunks[..i + 1]) == Tagged(link, chunks[..i]) + [(link, chunks[i])]
  {
  }

  /** An unbounded channel: the sending half is in the sessions map, the receiving half with the session. */
  class Channel {
    var frames: seq<Frame>
    var receiverAlive: bool

    constructor ()
      ensures frames == [] && receiverAlive
    {
      frames := [];
      receiverAlive := true;
    }

    method Send(f: Frame) returns (ok: bool)
      modifies this`frames
      ensures ok == receiverAlive
      ensures frames == if ok then old(frames) + [f] else old(frames)
    {
      ok := receiverAlive;
      if ok {
        frames := frames + [f];
      }
    }

    /** None means that nothing is waiting. */
    method Recv() returns (f: Option<Frame>)
      modifies this`frames
      ensures old(frames) == [] ==> f == None && frames == []
      ensures old(frames) != [] ==> f.Some? && old(frames) == [f.value] + frames
    {
      if frames == [] {
        f := None;
      } else {
        f := Some(frames[0]);
        frames := frames[1..];
      }
    }
  }

  /** What the network node reports. */
  datatype Event =
    | LinkEstablished(link: LinkId, isInitiator: bool)
    | LinkClosed(link: LinkId)
    | LinkData(link: LinkId, data: Bytes)
    | PathUpdated

  /** The network node: what has been accepted for each link. */
  class Node {
    var sent: map<LinkId, Bytes>
    var packets: seq<(LinkId, Bytes)> // one for each call that was accepted

    constructor ()
      ensures sent == map[] && packets == []
    {
      sent := map[];
      packets := [];
    }

    /** The record after one more piece of data has been accepted for a link. */
    ghost function With(link: LinkId, data: Bytes): map<LinkId, Bytes>
      reads this
    {
      if data == [] then sent else sent[link := (if link in sent then sent[link] else []) + data]
    }

    /** Whether the link takes the chunk is up to the network. */
    method SendOnLink(link: LinkId, chunk: Bytes, accepted: bool) returns (ok: bool)
      modifies this
      ensures ok == accepted
      ensures sent == if ok then old(With(link, chunk)) else old(sent)
      ensures packets == if ok then old(packets) + [(link, chunk)] else old(packets)
    {
      ok := accepted;
      if ok {
        packets := packets + [(link, chunk)];
      }
      if ok && chunk != [] {
        var before := if link in sent then sent[link] else [];
        sent := sent[link := before + chunk];
      }
    }
  }

  class MuxHandle {
    var linkId: Option<LinkId>
    var sessions: map<u32, Channel>
    var nextSid: u32
    var recvBuf: Bytes
    var queue: seq<Bytes>

    ghost function State(): MuxState
      reads this
    {
      MuxState(linkId, sessions.Keys, nextSid, recvBuf, queue)
    }

    /** The queue respects its capacity and no two sessions share a channel. */
    ghost predicate Valid()
      reads this
    {
      && |queue| <= QUEUE_CAPACITY
      && forall a, b | a in sessions && b in sessions && a != b :: sessions[a] != sessions[b]
    }

    constructor ()
      ensures Valid() && State() == NewMux() && fresh(this)
      ensures linkId == None && sessions == map[] && nextSid == 0 && recvBuf == [] && queue == []
    {
      linkId := None;
      sessions := map[];
      nextSid := 0;
      recvBuf := [];
      queue := [];
    }

    method SetLinkId(id: LinkId)
      requires Valid()
      modifies this`linkId
      ensures Valid() && State() == old(State()).(linkId := Some(id))
    {
      linkId := Some(id);
    }

    method ClearLinkId()
      requires Valid()
      modifies this`linkId
      ensures Valid() && State() == ClearLink(old(State()))
    {
      linkId := None;
    }

    method Reset()
      requires Valid()
      modifies this
      ensures Valid() && State() == ResetMux(old(State()))
      ensures linkId == None && sessions == map[] && recvBuf == [] && nextSid == old(nextSid) && queue == old(queue)
    {
      linkId := None;
      sessions := map[];
      recvBuf := [];
    }

    method IsConnected() returns (connected: bool)
      ensures connected <==> linkId != None
    {
      connected := linkId.Some?;
    }

    method NextSessionId() returns (sid: u32)
      requires Valid()
      modifies this`nextSid
      ensures sid == Successor(old(nextSid)) == (if old(nextSid) == 0xFFFF_FFFF then 0 else old(nextSid) + 1)
      ensures Valid() && State() == old(State()).(nextSid := sid)
    {
      nextSid := (nextSid + 1) % 0x1_0000_0000;
      sid := nextSid;
    }

    /** A registration under an id that is taken replaces the older one. */
    method RegisterSession(sid: u32) returns (rx: Channel)
      requires Valid()
      modifies this`sessions
      ensures Valid() && State() == Register(old(State()), sid)
      ensures fresh(rx) && rx.frames == [] && rx.receiverAlive
      ensures sessions == old(sessions)[sid := rx]
    {
      rx := new Channel();
      sessions := sessions[sid := rx];
    }

    method DropSession(sid: u32)
      requires Valid()
      modifies this`sessions
      ensures Valid() && State() == Unregister(old(State()), sid)
      ensures sessions == old(sessions) - {sid}
    {
      sessions := sessions - {sid};
    }

    /** Waits while the queue is full; `accepted` is false when the caller would still be waiting. */
    method SendFrame(f: Frame) returns (accepted: bool)
      requires Valid()
      modifies this`queue
      ensures Valid() && accepted == HasRoom(old(State()))
      ensures State() == if accepted then Push(old(State()), Encode(f)) else old(State())
      ensures accepted <==> |old(queue)| < 5
      ensures queue == if accepted then old(queue) + [Encode(f)] else old(queue)
    {
      var encoded := EncodeFrame(f);
      accepted := |queue| < QUEUE_CAPACITY;
      if accepted {
        queue := queue + [encoded];
      }
    }

    /** The frame goes to the channel registered under its session id, and nowhere else. */
    method Dispatch(f: Frame)
      requires Valid()
      modifies set sid | sid in sessions :: sessions[sid]
      ensures Valid() && State() == old(State()) && sessions == old(sessions)
      ensures forall sid | sid in sessions ::
                && sessions[sid].receiverAlive == old(sessions[sid].receiverAlive)
                && sessions[sid].frames ==
                     if sid == f.sessionId && old(sessions[sid].receiverAlive)
                     then old(sessions[sid].frames) + [f] else old(sessions[sid].frames)
    {
      if f.sessionId in sessions {
        var tx := sessions[f.sessionId];
        var _ := tx.Send(f);
      }
    }

    /** Buffers the data and takes every complete frame off the front. */
    method ReceiveData(data: Bytes) returns (frames: seq<Frame>)
      requires Valid()
      modifies this`recvBuf
      ensures frames == Drain(old(recvBuf) + data).frames
      ensures Valid() && State() == old(State()).(recvBuf := Drain(old(recvBuf) + data).rest)
    {
      recvBuf := recvBuf + data;
      ghost var whole := Drain(recvBuf);
      frames := [];
      while true
        invariant whole.frames == frames + Drain(recvBuf).frames
        invariant whole.rest == Drain(recvBuf).rest
        decreases |recvBuf|
      {
        match Decode(recvBuf) {
          case Decoded(frame, consumed) =>
            DecodedReencodes(recvBuf);
            assert frames + ([frame] + Drain(recvBuf[consumed..]).frames) ==
                   frames + [frame] + Drain(recvBuf[consumed..]).frames;
            recvBuf := recvBuf[consumed..];
            frames := frames + [frame];
          case MoreDataRequired =>
            break;
          case DecodingFailed =>
            recvBuf := [];
            break;
        }
      }
    }

    /**
     The chunk loop: hands the data over chunk by chunk, up to the first refusal, and only
     to this link.
     */
    method SendChunks(node: Node, link: LinkId, data: Bytes, mdu: nat, accepts: nat -> bool) returns (ok: bool)
      requires mdu > 0
      modifies node
      ensures node.sent == old(node.With(link, data[..Transmitted(|data|, mdu, accepts, 0)]))
      ensures ok <==> Transmitted(|data|, mdu, accepts, 0) == |data|
      ensures var chunks := Chunks(data, mdu); var k := AcceptedChunks(|chunks|, accepts, 0);
              node.packets == old(node.packets) + Tagged(link, chunks[..k]) && (ok <==> k == |chunks|)
    {
      hide Chunks, Tagged, Transmitted, AcceptedChunks;
      var done, i := 0, 0;
      ok := true;
      ghost var chunks := Chunks(data, mdu);
      assert data[0..] == data && chunks[0..] == chunks;
      assert chunks[..0] == [] && Tagged(link, []) == [] by { NothingTagged(link); }
      assert node.packets + [] == node.packets && data[..0] == [];
      while ok && done < |data|
        invariant done <= |data|
        invariant node.sent == old(node.With(link, data[..done]))
        invariant Transmitted(|data|, mdu, accepts, 0) ==
                  done + (if ok then Transmitted(|data| - done, mdu, accepts, i) else 0)
        invariant !ok ==> done < |data| && i < |chunks|
        invariant i <= |chunks| && Chunks(data[done..], mdu) == chunks[i..]
        invariant node.packets == old(node.packets) + Tagged(link, chunks[..i])
        invariant AcceptedChunks(|chunks|, accepts, 0) ==
                  i + (if ok then AcceptedChunks(|chunks| - i, accepts, i) else 0)
        decreases |data| - done, ok
      {
        var n := Min(mdu, |data| - done);
        ChunkAt(data, mdu, done, i);
        TaggedOneMore(link, chunks, i);
        OneChunk(|data| - done, |chunks| - i, mdu, accepts, i);
        ok := node.SendOnLink(link, data[done..done + n], accepts(i));
        if ok {
          ghost var before := old(if link in node.sent then node.sent[link] else []);
          Regrouped(before, data, done, n);
          done, i := done + n, i + 1;
        }
      }
      NoChunks(data, mdu, done, accepts, i);
    }

    /**
     One turn of the sender task: take a frame off the queue, read the link once,
     and send the frame there; a refused chunk clears the link.
     */
    method SenderTurn(node: Node, mdu: nat, accepts: nat -> bool)
      requires Valid() && mdu > 0
      modifies this`queue, this`linkId, node
      ensures Valid()
      ensures old(queue) == [] ==> queue == [] && linkId == old(linkId)
      ensures old(queue) != [] ==> queue == old(queue)[1..]
      ensures old(queue) == [] || old(linkId).None? ==>
                linkId == old(linkId) && node.sent == old(node.sent)
      ensures old(queue) != [] && old(linkId).Some? ==>
                var data, link := old(queue)[0], old(linkId).value;
                var n := Transmitted(|data|, mdu, accepts, 0);
                && node.sent == old(node.With(link, data[..n]))
                && linkId == (if n == |data| then Some(link) else None)
    {
      if queue != [] {
        var data := queue[0];
        queue := queue[1..];
        if linkId.Some? {
          var ok := SendChunks(node, linkId.value, data, mdu, accepts);
          if !ok {
            linkId := None;
          }
        }
      }
    }
  }
}
