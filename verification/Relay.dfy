/**
 The two loops of a TCP relay and its ending, as they run when no other task
 interferes. Module Loops ties them to the steps that Sessions and System interleave.
 */
module Relay {
  import opened Basics
  import opened Frames
  import opened Traces
  import opened Mux
  import opened Sessions

  /** What the local socket answers to a read. */
  datatype ReadResult = Got(bytes: Bytes) | EndOfFile | ReadError

  function DataFrames(sid: u32, results: seq<ReadResult>): seq<Bytes> {
    if results == [] || !results[|results| - 1].Got? then []
    else DataFrames(sid, results[..|results| - 1]) + [Encode(Frame(Data, sid, results[|results| - 1].bytes))]
  }

  /** How many reads find room: one queue slot each, up to the first that is not data. */
  function Accepted(results: seq<ReadResult>, room: nat): (n: nat)
    ensures n <= |results| && n <= room
  {
    if results == [] || !results[0].Got? || room == 0 then 0 else 1 + Accepted(results[1..], room - 1)
  }

  lemma {:induction false} AcceptedIs(results: seq<ReadResult>, room: nat, n: nat)
    requires n <= |results| && n <= room && forall i | 0 <= i < n :: results[i].Got?
    requires n < |results| && results[n].Got? ==> n == room
    ensures Accepted(results, room) == n
    decreases n
  {
    if n > 0 {
      AcceptedIs(results[1..], room - 1, n - 1);
    }
  }

  /**
   TCP to RNS: every read becomes one Data frame in the queue, in order, until the
   socket ends or the queue is full; then the loop waits, holding its last read.
   */
  method TcpToRns(sid: u32, mux: MuxHandle, results: seq<ReadResult>) returns (sent: nat, waiting: bool)
    requires mux.Valid()
    modifies mux`queue
    ensures mux.Valid() && sent <= |results| && forall i | 0 <= i < sent :: results[i].Got?
    ensures mux.queue == old(mux.queue) + DataFrames(sid, results[..sent])
    ensures waiting <==> sent < |results| && results[sent].Got?
    ensures waiting ==> |mux.queue| == QUEUE_CAPACITY
    ensures sent == Accepted(results, QUEUE_CAPACITY - |old(mux.queue)|)
  {
    sent, waiting := 0, false;
    while sent < |results| && results[sent].Got?
      invariant mux.Valid() && sent <= |results| && !waiting
      invariant forall i | 0 <= i < sent :: results[i].Got?
      invariant mux.queue == old(mux.queue) + DataFrames(sid, results[..sent])
      invariant |mux.queue| == |old(mux.queue)| + sent
    {
      var f := Frame(Data, sid, results[sent].bytes);
      var accepted := mux.SendFrame(f);
      if !accepted {
        waiting := true;
        break;
      }
      assert results[..sent + 1][..sent] == results[..sent];
      sent := sent + 1;
    }
    AcceptedIs(results, QUEUE_CAPACITY - |old(mux.queue)|, sent);
  }

  predicate EndsRelay(f: Frame) {
    f.frameType in {Close, ConnectErr}
  }

  /** What a write that fails after n bytes still wrote. */
  function CutShort(payload: Bytes, n: nat): Bytes {
    payload[..Min(n, |payload|)]
  }

  /** What the writer has written, how many frames it has taken, and whether it is over. */
  datatype Outcome = Outcome(written: Bytes, used: nat, ended: bool)

  /** `failsAfter(i)` says whether, and after how many bytes, the write for the i-th frame fails. */
  function Relayed(frames: seq<Frame>, failsAfter: nat -> Option<nat>): Outcome {
    if frames == [] then Outcome([], 0, false)
    else
      var before, f := Relayed(frames[..|frames| - 1], failsAfter), frames[|frames| - 1];
      if before.ended then before
      else match f.frameType
        case Data =>
          (match failsAfter(|frames| - 1)
           case None => Outcome(before.written + f.payload, before.used + 1, false)
           case Some(n) => Outcome(before.written + CutShort(f.payload, n), before.used + 1, true))
        case Close => Outcome(before.written, before.used + 1, true)
        case ConnectErr => Outcome(before.written, before.used + 1, true)
        case _ => Outcome(before.written, before.used + 1, false)
  }

  lemma RelayedOneMore(frames: seq<Frame>, failsAfter: nat -> Option<nat>, k: nat)
    requires k < |frames|
    ensures Relayed(frames[..k + 1], failsAfter) ==
            var before, f := Relayed(frames[..k], failsAfter), frames[k];
            if before.ended then before
            else match f.frameType
              case Data =>
                (match failsAfter(k)
                 case None => Outcome(before.written + f.payload, before.used + 1, false)
                 case Some(n) => Outcome(before.written + CutShort(f.payload, n), before.used + 1, true))
              case Close => Outcome(before.written, before.used + 1, true)
              case ConnectErr => Outcome(before.written, before.used + 1, true)
              case _ => Outcome(before.written, before.used + 1, false)
  {
    assert frames[..k + 1][..k] == frames[..k];
  }

  lemma {:induction false} RelayedStops(frames: seq<Frame>, failsAfter: nat -> Option<nat>, k: nat)
    requires k <= |frames| && Relayed(frames[..k], failsAfter).ended
    ensures Relayed(frames, failsAfter) == Relayed(frames[..k], failsAfter)
    decreases |frames|
  {
    if k == |frames| {
      assert frames[..k] == frames;
    } else {
      var init := frames[..|frames| - 1];
      assert init[..k] == frames[..k];
      RelayedStops(init, failsAfter, k);
    }
  }

  /**
   What is written are the payloads of the Data frames, in order and nothing else, up to
   the first Close or ConnectErr or the first write that fails; that one goes out in part.
   */
  lemma {:induction false} RelayedIsPayloads(frames: seq<Frame>, failsAfter: nat -> Option<nat>)
    ensures var r := Relayed(frames, failsAfter);
            && r.used <= |frames| && (forall i | 0 <= i < r.used - 1 :: !EndsRelay(frames[i]))
            && (!r.ended ==> r.used == |frames| && r.written == Flatten(Payloads(frames)) && forall f | f in frames :: !EndsRelay(f))
            && (r.ended ==> r.used > 0)
            && (r.ended && EndsRelay(frames[r.used - 1]) ==> r.written == Flatten(Payloads(frames[..r.used])))
            && (r.ended && !EndsRelay(frames[r.used - 1]) ==>
                  && frames[r.used - 1].frameType.Data? && failsAfter(r.used - 1).Some?
                  && r.written == Flatten(Payloads(frames[..r.used - 1])) +
                                  CutShort(frames[r.used - 1].payload, failsAfter(r.used - 1).value))
    decreases |frames|
  {
    hide Payloads, Flatten, CutShort;
    if frames == [] {
      NothingCarried();
    } else {
      hide Relayed;
      var k := |frames| - 1;
      var init, f := frames[..k], frames[k];
      RelayedIsPayloads(init, failsAfter);
      assert frames[..k + 1] == frames;
      RelayedOneMore(frames, failsAfter, k);
      var r := Relayed(init, failsAfter);
      if r.ended {
        assert init[..r.used] == frames[..r.used] && init[..r.used - 1] == frames[..r.used - 1];
        assert init[r.used - 1] == frames[r.used - 1];
      } else {
        CarriesOneMore(frames, k);
        assert r.written + [] == r.written;
      }
    }
  }

  /** RNS to TCP: the writer's loop over what its channel holds. */
  method RnsToTcp(rx: Channel, failsAfter: nat -> Option<nat>)
      returns (written: Bytes, used: nat, ended: bool)
    modifies rx`frames
    ensures Outcome(written, used, ended) == Relayed(old(rx.frames), failsAfter)
    ensures used <= |old(rx.frames)| && rx.frames == old(rx.frames)[used..]
  {
    hide Relayed;
    written, used, ended := [], 0, false;
    ghost var all := rx.frames;
    assert all[..0] == [];
    NothingRelayed(failsAfter);
    while rx.frames != []
      invariant used <= |all| && rx.frames == all[used..]
      invariant Relayed(all[..used], failsAfter) == Outcome(written, used, false) && !ended
      decreases |rx.frames|
    {
      var next := rx.Recv();
      var f := next.value;
      assert all[used..][0] == f && all[used..][1..] == rx.frames;
      RelayedOneMore(all, failsAfter, used);
      used := used + 1;
      match f.frameType {
        case Data =>
          match failsAfter(used - 1) {
            case None => written := written + f.payload;
            case Some(n) => written := written + CutShort(f.payload, n); ended := true;
          }
        case Close => ended := true;
        case ConnectErr => ended := true;
        case _ =>
      }
      if ended {
        RelayedStops(all, failsAfter, used);
        return;
      }
    }
    assert all[..used] == all;
  }

  lemma NothingRelayed(failsAfter: nat -> Option<nat>)
    ensures Relayed([], failsAfter) == Outcome([], 0, false)
  {
  }

  // ---------------------------------------------------------------------------
  // Datagrams
  // ---------------------------------------------------------------------------

  /** Which datagrams the writer of a UDP relay has sent, how many frames it has taken, and whether it is over. */
  datatype Datagrams = Datagrams(sent: seq<Bytes>, used: nat, ended: bool)

  /**
   `results(i)` says what becomes of the datagram in the i-th frame: sent; dropped, as
   its address is not admitted or the client's port not known yet; or malformed or
   failed, which ends the writer.
   */
  function RelayedUdp(frames: seq<Frame>, results: nat -> WriteResult): Datagrams {
    if frames == [] then Datagrams([], 0, false)
    else
      var before, f := RelayedUdp(frames[..|frames| - 1], results), frames[|frames| - 1];
      if before.ended then before else OneDatagram(before, f, results(|frames| - 1))
  }

  function OneDatagram(before: Datagrams, f: Frame, result: WriteResult): Datagrams {
    match f.frameType
    case Data =>
      (match result
       case Whole => Datagrams(before.sent + [f.payload], before.used + 1, false)
       case Skipped => Datagrams(before.sent, before.used + 1, false)
       case Fails(_) => Datagrams(before.sent, before.used + 1, true))
    case Close => Datagrams(before.sent, before.used + 1, true)
    case _ => Datagrams(before.sent, before.used + 1, false)
  }

  lemma UdpOneMore(frames: seq<Frame>, results: nat -> WriteResult, k: nat)
    requires k < |frames|
    ensures RelayedUdp(frames[..k + 1], results) ==
            var before := RelayedUdp(frames[..k], results);
            if before.ended then before else OneDatagram(before, frames[k], results(k))
  {
    assert frames[..k + 1][..k] == frames[..k];
  }

  lemma {:induction false} UdpStops(frames: seq<Frame>, results: nat -> WriteResult, k: nat)
    requires k <= |frames| && RelayedUdp(frames[..k], results).ended
    ensures RelayedUdp(frames, results) == RelayedUdp(frames[..k], results)
    decreases |frames|
  {
    if k == |frames| {
      assert frames[..k] == frames;
    } else {
      var init := frames[..|frames| - 1];
      assert init[..k] == frames[..k];
      UdpStops(init, results, k);
    }
  }

  /** The writer goes on to the first Close or failed datagram, and ignores ConnectErr. */
  lemma {:induction false} UdpEnds(frames: seq<Frame>, results: nat -> WriteResult)
    ensures var r := RelayedUdp(frames, results);
            && r.used <= |frames| && (!r.ended ==> r.used == |frames|) && (r.ended ==> r.used > 0)
            && (forall i | 0 <= i < (if r.ended then r.used - 1 else r.used) ::
                  !frames[i].frameType.Close? && (frames[i].frameType.Data? ==> !results(i).Fails?))
            && (r.ended ==>
                  || frames[r.used - 1].frameType.Close?
                  || (frames[r.used - 1].frameType.Data? && results(r.used - 1).Fails?))
    decreases |frames|
  {
    if frames != [] {
      hide RelayedUdp;
      var k := |frames| - 1;
      UdpEnds(frames[..k], results);
      UdpOneMore(frames, results, k);
      assert frames[..k + 1] == frames;
    }
  }

  lemma UdpUsed(frames: seq<Frame>, results: nat -> WriteResult)
    ensures var r := RelayedUdp(frames, results); r.used <= |frames| && (!r.ended ==> r.used == |frames|)
  {
    UdpEnds(frames, results);
  }

  /** A writer that is over takes no more. */
  lemma UdpIsOver(frames: seq<Frame>, results: nat -> WriteResult)
    requires frames != [] && RelayedUdp(frames[..|frames| - 1], results).ended
    ensures var r := RelayedUdp(frames[..|frames| - 1], results);
            && RelayedUdp(frames, results) == r && r.used < |frames|
            && frames[..|frames| - 1][..r.used] == frames[..r.used]
  {
    UdpUsed(frames[..|frames| - 1], results);
  }

  lemma PayloadsOneMore(init: seq<Frame>, f: Frame)
    ensures Payloads(init + [f]) == if f.frameType.Data? then Payloads(init) + [f.payload] else Payloads(init)
  {
    hide Payloads;
    Append(init, f, 0);
    assert Payloads(init) + [] == Payloads(init);
  }

  lemma UdpUnfold(init: seq<Frame>, f: Frame, results: nat -> WriteResult)
    ensures RelayedUdp(init + [f], results) ==
            var before := RelayedUdp(init, results);
            if before.ended then before else OneDatagram(before, f, results(|init|))
  {
    assert (init + [f])[..|init|] == init;
  }

  /** One more frame, in what the writer has sent and in what it could have sent. */
  lemma UdpGoesOn(init: seq<Frame>, f: Frame, results: nat -> WriteResult)
    requires !RelayedUdp(init, results).ended
    ensures var r, r' := RelayedUdp(init, results), RelayedUdp(init + [f], results);
            && r.used == |init| && r'.used == |init| + 1
            && r'.sent == (if f.frameType.Data? && results(|init|).Whole? then r.sent + [f.payload] else r.sent)
  {
    UdpUnfold(init, f, results);
    UdpUsed(init, results);
    hide RelayedUdp;
  }

  /** What it sends are payloads of the Data frames it has taken, in order. */
  lemma {:induction false} UdpIsPayloads(frames: seq<Frame>, results: nat -> WriteResult)
    ensures var r := RelayedUdp(frames, results);
            r.used <= |frames| && Subsequence(r.sent, Payloads(frames[..r.used]))
    decreases |frames|
  {
    hide Payloads, Subsequence;
    if frames == [] {
      NothingSentYet();
    } else {
      var init, f := frames[..|frames| - 1], frames[|frames| - 1];
      UdpIsPayloads(init, results);
      var r := RelayedUdp(init, results);
      if r.ended {
        UdpIsOver(frames, results);
      } else {
        hide RelayedUdp;
        assert frames == init + [f];
        UdpGoesOn(init, f, results);
        PayloadsOneMore(init, f);
        assert init[..|init|] == init && frames[..|frames|] == frames;
        SubsequenceGrows(r.sent, Payloads(init), f.payload);
      }
    }
  }

  /** All of them if none is dropped. */
  lemma {:induction false} UdpSendsAll(frames: seq<Frame>, results: nat -> WriteResult)
    requires forall i | 0 <= i < RelayedUdp(frames, results).used :: results(i).Whole?
    ensures var r := RelayedUdp(frames, results); r.used <= |frames| && r.sent == Payloads(frames[..r.used])
    decreases |frames|
  {
    hide Payloads;
    if frames == [] {
      NothingSentYet();
    } else {
      hide RelayedUdp;
      var init, f := frames[..|frames| - 1], frames[|frames| - 1];
      assert frames == init + [f];
      if RelayedUdp(init, results).ended {
        UdpIsOver(frames, results);
        UdpSendsAll(init, results);
      } else {
        UdpGoesOn(init, f, results);
        UdpSendsAll(init, results);
        PayloadsOneMore(init, f);
        assert init[..|init|] == init && frames[..|frames|] == frames;
      }
    }
  }

  /** And none of them if all are. */
  lemma {:induction false} UdpSendsNothing(frames: seq<Frame>, results: nat -> WriteResult)
    requires forall i | 0 <= i < RelayedUdp(frames, results).used :: results(i).Skipped?
    ensures RelayedUdp(frames, results).sent == []
    decreases |frames|
  {
    if frames != [] {
      hide RelayedUdp;
      var init, f := frames[..|frames| - 1], frames[|frames| - 1];
      assert frames == init + [f];
      if RelayedUdp(init, results).ended {
        UdpIsOver(frames, results);
      } else {
        UdpGoesOn(init, f, results);
      }
      UdpSendsNothing(init, results);
    }
  }

  lemma NothingSentYet()
    ensures Payloads([]) == [] && Subsequence<Bytes>([], [])
  {
  }

  /** RNS to UDP: the writer's loop over what its channel holds. */
  method RnsToUdp(rx: Channel, results: nat -> WriteResult) returns (sent: seq<Bytes>, used: nat, ended: bool)
    modifies rx`frames
    ensures Datagrams(sent, used, ended) == RelayedUdp(old(rx.frames), results)
    ensures used <= |old(rx.frames)| && rx.frames == old(rx.frames)[used..]
  {
    hide RelayedUdp;
    sent, used, ended := [], 0, false;
    ghost var all := rx.frames;
    assert RelayedUdp(all[..0], results) == Datagrams([], 0, false) by { NoDatagrams(all, results); }
    while rx.frames != []
      invariant used <= |all| && rx.frames == all[used..]
      invariant RelayedUdp(all[..used], results) == Datagrams(sent, used, false) && !ended
      decreases |rx.frames|
    {
      var next := rx.Recv();
      var f := next.value;
      assert all[used..][0] == f && all[used..][1..] == rx.frames;
      UdpOneMore(all, results, used);
      used := used + 1;
      match f.frameType {
        case Data =>
          match results(used - 1) {
            case Whole => sent := sent + [f.payload];
            case Skipped =>
            case Fails(_) => ended := true;
          }
        case Close => ended := true;
        case _ =>
      }
      if ended {
        UdpStops(all, results, used);
        return;
      }
    }
    assert all[..used] == all;
  }

  lemma NoDatagrams(frames: seq<Frame>, results: nat -> WriteResult)
    ensures RelayedUdp(frames[..0], results) == Datagrams([], 0, false)
  {
  }

  lemma NothingCarried()
    ensures Flatten(Payloads([])) == []
  {
  }

  lemma CarriesOneMore(frames: seq<Frame>, k: nat)
    requires k < |frames|
    ensures Flatten(Payloads(frames[..k + 1])) ==
            Flatten(Payloads(frames[..k])) + (if frames[k].frameType.Data? then frames[k].payload else [])
  {
    hide Payloads, Flatten;
    assert frames[..k + 1] == frames[..k] + [frames[k]];
    Append(frames[..k], frames[k], 0);
    if frames[k].frameType.Data? {
      FlattenConcat(Payloads(frames[..k]), [frames[k].payload]);
      FlattenOne(frames[k].payload);
    } else {
      assert Payloads(frames[..k]) + [] == Payloads(frames[..k]);
      assert Flatten(Payloads(frames[..k])) + [] == Flatten(Payloads(frames[..k]));
    }
  }

  /** The end of a relay: Close, as soon as the queue has room, and only then drop_session. */
  method FinishRelay(sid: u32, mux: MuxHandle) returns (done: bool)
    requires mux.Valid()
    modifies mux`queue, mux`sessions
    ensures mux.Valid() && done == HasRoom(old(mux.State()))
    ensures mux.State() == if done then Unregister(Push(old(mux.State()), Encode(Frame(Close, sid, []))), sid)
                           else old(mux.State())
    ensures done ==> mux.queue == old(mux.queue) + [Encode(Frame(Close, sid, []))] && mux.sessions == old(mux.sessions) - {sid}
  {
    done := mux.SendFrame(Frame(Close, sid, []));
    if done {
      mux.DropSession(sid);
    }
  }
}
