/**
 The loops of relay.rs and client.rs against the steps of the session tasks. Each
 loop was verified as a method that runs by itself; here a task that takes its steps
 one after the other, with nothing in between, is shown to do the same.
 */
module Loops {
  import opened Basics
  import opened Frames
  import opened Traces
  import opened Mux
  import opened Sessions
  import opened Endpoints
  import opened EndpointProofs
  import opened System
  import opened Client
  import opened Relay

  // ---------------------------------------------------------------------------
  // Waiting for a verdict
  // ---------------------------------------------------------------------------

  /** Where the wait loop goes after a frame; a TCP client lets its session be when it is refused. */
  function AfterFrame(f: Frame): Phase {
    match f.frameType
    case ConnectOk => Relaying
    case ConnectErr => Done
    case _ => Waiting
  }

  /** Up to k steps of the wait. */
  function AwaitSteps(ss: Session, k: nat): Session {
    if k == 0 then ss
    else
      var before := AwaitSteps(ss, k - 1);
      if before.phase.Waiting? && before.taken < |before.inbox| then
        TaskNext(false, before, true, AwaitFrame(AfterFrame(before.inbox[before.taken])))
      else before
  }

  lemma OneWait(ss: Session)
    requires ss.phase.Waiting? && ss.taken < |ss.inbox|
    ensures var f := ss.inbox[ss.taken];
            && TaskEnabled(false, ss, true, AwaitFrame(AfterFrame(f)))
            && var after := TaskNext(false, ss, true, AwaitFrame(AfterFrame(f)));
               after.inbox == ss.inbox && after.taken == ss.taken + 1 && after.phase == AfterFrame(f)
  {
  }

  /** The steps take the frames the loop takes, and end in the phase its result calls for. */
  lemma {:induction false} AwaitStepsMatchLoop(ss: Session, k: nat)
    requires ss.phase.Waiting? && ss.taken + k <= |ss.inbox|
    ensures var w, after := Awaited(ss.inbox[ss.taken..][..k]), AwaitSteps(ss, k);
            && after.inbox == ss.inbox && after.taken == ss.taken + w.used
            && after.phase == (match w.verdict
                               case None => Waiting
                               case Some(verdict) => if verdict.Connected? then Relaying else Done)
  {
    hide TaskNext, TaskEnabled;
    var frames := ss.inbox[ss.taken..];
    if k == 0 {
      assert frames[..0] == [];
    } else {
      AwaitStepsMatchLoop(ss, k - 1);
      AwaitedIsFirstVerdict(frames[..k - 1]);
      assert frames[..k][..k - 1] == frames[..k - 1];
      var before := AwaitSteps(ss, k - 1);
      if before.phase.Waiting? {
        assert before.inbox[before.taken] == frames[k - 1];
        OneWait(before);
      }
    }
  }

  // ---------------------------------------------------------------------------
  // Writing
  // ---------------------------------------------------------------------------

  function ResultFor(f: Frame, fails: Option<nat>): WriteResult {
    if f.frameType.Data? && fails.Some? then Fails(Min(fails.value, |f.payload|)) else Whole
  }

  /** Up to k steps of the writer of a TCP session. */
  function WriteSteps(ss: Session, failsAfter: nat -> Option<nat>, k: nat): Session
    requires !ss.udp
    ensures !WriteSteps(ss, failsAfter, k).udp
  {
    if k == 0 then ss
    else
      var before := WriteSteps(ss, failsAfter, k - 1);
      if before.writing && before.taken < |before.inbox| then
        TaskNext(true, before, true, Write(ResultFor(before.inbox[before.taken], failsAfter(k - 1))))
      else before
  }

  /** The steps take the frames the loop takes, write the bytes it writes, and end when it does. */
  lemma {:induction false} WriteStepsMatchLoop(ss: Session, failsAfter: nat -> Option<nat>, k: nat)
    requires !ss.udp && ss.writing && ss.partial == [] && ss.taken + k <= |ss.inbox|
    ensures var r, after := Relayed(ss.inbox[ss.taken..][..k], failsAfter), WriteSteps(ss, failsAfter, k);
            && after.inbox == ss.inbox && after.taken == ss.taken + r.used
            && after.writing == !r.ended && (!r.ended ==> r.used == k && after.partial == [])
            && Written(after) == Written(ss) + r.written
  {
    hide Relayed, TaskNext, TaskEnabled, Written, Sent;
    var frames := ss.inbox[ss.taken..];
    if k == 0 {
      assert frames[..0] == [];
      NothingRelayed(failsAfter);
      assert Written(ss) + [] == Written(ss);
    } else {
      WriteStepsMatchLoop(ss, failsAfter, k - 1);
      var before := WriteSteps(ss, failsAfter, k - 1);
      var r := Relayed(frames[..k - 1], failsAfter);
      RelayedIsOneWriteMore(frames, failsAfter, k - 1);
      if before.writing {
        assert before.inbox[before.taken] == frames[k - 1];
        OneWrite(before, failsAfter(k - 1));
        var out := Sent(frames[k - 1], failsAfter(k - 1));
        assert Written(ss) + r.written + out == Written(ss) + (r.written + out);
      }
    }
  }

  lemma RelayedIsOneWriteMore(frames: seq<Frame>, failsAfter: nat -> Option<nat>, k: nat)
    requires k < |frames|
    ensures var r, f := Relayed(frames[..k], failsAfter), frames[k];
            Relayed(frames[..k + 1], failsAfter) ==
              if r.ended then r
              else Outcome(r.written + Sent(f, failsAfter(k)), r.used + 1,
                           EndsRelay(f) || (f.frameType.Data? && failsAfter(k).Some?))
  {
    hide Relayed;
    RelayedOneMore(frames, failsAfter, k);
    var r := Relayed(frames[..k], failsAfter);
    assert r.written + [] == r.written;
  }

  /** What one write step writes. */
  function Sent(f: Frame, fails: Option<nat>): Bytes {
    if !f.frameType.Data? then []
    else if fails.Some? then CutShort(f.payload, fails.value)
    else f.payload
  }

  lemma OneWrite(ss: Session, fails: Option<nat>)
    requires !ss.udp && ss.writing && ss.partial == [] && ss.taken < |ss.inbox|
    ensures var f := ss.inbox[ss.taken];
            var after := TaskNext(true, ss, true, Write(ResultFor(f, fails)));
            && Written(after) == Written(ss) + Sent(f, fails)
            && after.inbox == ss.inbox && after.taken == ss.taken + 1
            && after.writing == !(EndsRelay(f) || (f.frameType.Data? && fails.Some?))
            && (after.writing ==> after.partial == [])
  {
    hide Flatten;
    var f := ss.inbox[ss.taken];
    FlattenConcat(ss.written, [f.payload]);
    FlattenOne(f.payload);
    assert Flatten(ss.written) + [] == Flatten(ss.written);
    assert Flatten(ss.written) + f.payload + [] == Flatten(ss.written) + f.payload;
  }

  // ---------------------------------------------------------------------------
  // Writing datagrams
  // ---------------------------------------------------------------------------

  /** A datagram that cannot be sent goes out not even in part; other frames have no result. */
  function DatagramResult(f: Frame, result: WriteResult): WriteResult {
    if !f.frameType.Data? then Whole else if result.Fails? then Fails(0) else result
  }

  /** Up to k steps of the writer of a UDP session. */
  function DatagramSteps(ss: Session, results: nat -> WriteResult, k: nat): (after: Session)
    requires ss.udp
    ensures after.udp
  {
    if k == 0 then ss
    else
      var before := DatagramSteps(ss, results, k - 1);
      if before.writing && before.taken < |before.inbox| then
        TaskNext(true, before, true, Write(DatagramResult(before.inbox[before.taken], results(k - 1))))
      else before
  }

  lemma OneDatagramStep(ss: Session, result: WriteResult)
    requires ss.udp && ss.writing && ss.taken < |ss.inbox|
    ensures var f := ss.inbox[ss.taken];
            && TaskEnabled(true, ss, true, Write(DatagramResult(f, result)))
            && var after := TaskNext(true, ss, true, Write(DatagramResult(f, result)));
               && after.inbox == ss.inbox && after.taken == ss.taken + 1
               && Datagrams(after.written, after.taken, !after.writing) ==
                    OneDatagram(Datagrams(ss.written, ss.taken, false), f, result)
  {
  }

  /** What was sent and taken before makes no difference to one more frame. */
  lemma DatagramShift(before: Datagrams, sent: seq<Bytes>, used: nat, f: Frame, result: WriteResult)
    ensures var o := OneDatagram(before, f, result);
            OneDatagram(Datagrams(sent + before.sent, used + before.used, before.ended), f, result) ==
              Datagrams(sent + o.sent, used + o.used, o.ended)
    ensures OneDatagram(before, f, result).used == before.used + 1
  {
    assert sent + before.sent + [f.payload] == sent + (before.sent + [f.payload]);
  }

  /** The steps take the frames the loop takes, send what it sends, and end when it does. */
  lemma {:induction false} DatagramStepsMatchLoop(ss: Session, results: nat -> WriteResult, k: nat)
    requires ss.udp && ss.writing && ss.taken + k <= |ss.inbox|
    ensures var r, after := RelayedUdp(ss.inbox[ss.taken..][..k], results), DatagramSteps(ss, results, k);
            && after.inbox == ss.inbox && (!r.ended ==> r.used == k)
            && Datagrams(after.written, after.taken, !after.writing) ==
                 Datagrams(ss.written + r.sent, ss.taken + r.used, r.ended)
  {
    hide TaskNext, TaskEnabled, OneDatagram;
    var frames := ss.inbox[ss.taken..];
    if k == 0 {
      NoDatagrams(frames, results);
      assert ss.written + [] == ss.written;
    } else {
      hide RelayedUdp;
      DatagramStepsMatchLoop(ss, results, k - 1);
      UdpOneMore(frames, results, k - 1);
      var before, r := DatagramSteps(ss, results, k - 1), RelayedUdp(frames[..k - 1], results);
      if before.writing {
        assert before.inbox[before.taken] == frames[k - 1];
        OneDatagramStep(before, results(k - 1));
        DatagramShift(r, ss.written, ss.taken, frames[k - 1], results(k - 1));
      }
    }
  }

  // ---------------------------------------------------------------------------
  // Reading
  // ---------------------------------------------------------------------------

  /** The reader of session sid has read nothing that is not in the queue. */
  predicate ReaderFree(e: Endpoint, sid: u32) {
    sid in e.tasks && e.tasks[sid].reader == Reading(None)
  }

  predicate Readable(results: seq<ReadResult>) {
    forall r | r in results && r.Got? :: 0 < |r.bytes| <= READ_SIZE
  }

  /** The reader takes turns at reading and at sending, until the socket ends or the queue is full. */
  function ReadSteps(mdu: nat, e: Endpoint, sid: u32, results: seq<ReadResult>): Endpoint
    requires ReaderFree(e, sid) && Readable(results)
    decreases results
  {
    if results == [] || !results[0].Got? then e
    else
      var e1 := LocalNext(mdu, e, Task(sid, Read(results[0].bytes)));
      if !HasRoom(e1.mux) then e1
      else
        var e2 := LocalNext(mdu, e1, Task(sid, SendData));
        ReadSteps(mdu, e2, sid, results[1..])
  }

  lemma OneRead(mdu: nat, e: Endpoint, sid: u32, bytes: Bytes)
    requires ReaderFree(e, sid) && 0 < |bytes| <= READ_SIZE
    ensures var e1 := LocalNext(mdu, e, Task(sid, Read(bytes)));
            && e1.mux == e.mux && e1.enqueued == e.enqueued
            && sid in e1.tasks && e1.tasks[sid].reader == Reading(Some(bytes))
            && (HasRoom(e1.mux) ==>
                  var e2 := LocalNext(mdu, e1, Task(sid, SendData));
                  && ReaderFree(e2, sid)
                  && e2.mux == Push(e.mux, Encode(Frame(Data, sid, bytes)))
                  && e2.enqueued == e.enqueued + [Frame(Data, sid, bytes)])
  {
    hide Encode;
  }

  lemma {:induction false} DataFramesCons(sid: u32, r: ReadResult, results: seq<ReadResult>)
    requires r.Got? && forall q | q in results :: q.Got?
    ensures DataFrames(sid, [r] + results) == [Encode(Frame(Data, sid, r.bytes))] + DataFrames(sid, results)
    decreases |results|
  {
    hide Encode;
    if results == [] {
      assert [r][..0] == [] && [r] + [] == [r];
      assert DataFrames(sid, [r][..0]) == [];
    } else {
      var init, last := results[..|results| - 1], results[|results| - 1];
      assert ([r] + results)[..|results|] == [r] + init;
      DataFramesCons(sid, r, init);
    }
  }

  /** One turn with room in the queue. */
  lemma ReadStepsOnce(mdu: nat, e: Endpoint, sid: u32, results: seq<ReadResult>) returns (e2: Endpoint)
    requires ReaderFree(e, sid) && Readable(results) && results != [] && results[0].Got? && HasRoom(e.mux)
    ensures ReaderFree(e2, sid) && e2.mux == Push(e.mux, Encode(Frame(Data, sid, results[0].bytes)))
    ensures Readable(results[1..]) && ReadSteps(mdu, e, sid, results) == ReadSteps(mdu, e2, sid, results[1..])
  {
    hide Encode, LocalNext, LocalEnabled;
    OneRead(mdu, e, sid, results[0].bytes);
    ReadEnabled(e, sid, results[0].bytes);
    var e1 := LocalNext(mdu, e, Task(sid, Read(results[0].bytes)));
    SendEnabled(e1, sid, results[0].bytes);
    e2 := LocalNext(mdu, e1, Task(sid, SendData));
  }

  /** And without: nothing more happens, or the reader waits with what it has read. */
  lemma ReadStepsEnd(mdu: nat, e: Endpoint, sid: u32, results: seq<ReadResult>)
    requires ReaderFree(e, sid) && Readable(results)
    requires results == [] || !results[0].Got? || !HasRoom(e.mux)
    ensures var after := ReadSteps(mdu, e, sid, results);
            && after.mux == e.mux && sid in after.tasks
            && after.tasks[sid].reader ==
                 if results != [] && results[0].Got? then Reading(Some(results[0].bytes)) else Reading(None)
  {
    hide Encode, LocalNext, LocalEnabled;
    if results != [] && results[0].Got? {
      OneRead(mdu, e, sid, results[0].bytes);
      ReadEnabled(e, sid, results[0].bytes);
    }
  }

  /** The steps put the frames into the queue that the loop puts there, and wait exactly if it waits. */
  lemma {:induction false} ReadStepsMatchLoop(mdu: nat, e: Endpoint, sid: u32, results: seq<ReadResult>)
    requires ReaderFree(e, sid) && Readable(results) && |e.mux.queue| <= QUEUE_CAPACITY
    ensures var n, after := Accepted(results, QUEUE_CAPACITY - |e.mux.queue|), ReadSteps(mdu, e, sid, results);
            && (forall i | 0 <= i < n :: results[i].Got?)
            && after.mux == e.mux.(queue := e.mux.queue + DataFrames(sid, results[..n]))
            && sid in after.tasks
            && after.tasks[sid].reader ==
                 if n < |results| && results[n].Got? then Reading(Some(results[n].bytes)) else Reading(None)
    decreases results
  {
    hide Encode, DataFrames, ReadSteps, ReaderFree, Readable;
    if results != [] && results[0].Got? && HasRoom(e.mux) {
      var e2 := ReadStepsOnce(mdu, e, sid, results);
      ReadStepsMatchLoop(mdu, e2, sid, results[1..]);
      var n := Accepted(results[1..], QUEUE_CAPACITY - |e2.mux.queue|);
      assert results[..n + 1] == [results[0]] + results[1..][..n];
      DataFramesCons(sid, results[0], results[1..][..n]);
      var f := [Encode(Frame(Data, sid, results[0].bytes))];
      assert e.mux.queue + f + DataFrames(sid, results[1..][..n]) ==
             e.mux.queue + (f + DataFrames(sid, results[1..][..n]));
    } else {
      ReadStepsEnd(mdu, e, sid, results);
      NoDataFrames(sid);
      assert results[..0] == [] && e.mux.queue + [] == e.mux.queue;
    }
  }

  lemma NoDataFrames(sid: u32)
    ensures DataFrames(sid, []) == []
  {
  }

  lemma ReadEnabled(e: Endpoint, sid: u32, bytes: Bytes)
    requires ReaderFree(e, sid) && 0 < |bytes| <= READ_SIZE
    ensures LocalEnabled(e, Task(sid, Read(bytes)))
  {
  }

  lemma SendEnabled(e: Endpoint, sid: u32, bytes: Bytes)
    requires sid in e.tasks && e.tasks[sid].reader == Reading(Some(bytes)) && HasRoom(e.mux)
    ensures LocalEnabled(e, Task(sid, SendData))
  {
  }

  // ---------------------------------------------------------------------------
  // Ending
  // ---------------------------------------------------------------------------

  /**
   The last two steps of a session do what `FinishRelay` does: Close is enqueued once
   there is room, and not before, and then the registration goes.
   */
  lemma EndingMatchesFinish(mdu: nat, e: Endpoint, sid: u32)
    requires sid in e.tasks && e.tasks[sid].phase.Closing?
    ensures LocalEnabled(e, Task(sid, SendClose)) <==> |e.mux.queue| < 5
    ensures HasRoom(e.mux) ==>
              var e1 := LocalNext(mdu, e, Task(sid, SendClose));
              && e1.mux == e.mux.(queue := e.mux.queue + [Encode(Frame(Close, sid, []))])
              && e1.enqueued == e.enqueued + [Frame(Close, sid, [])]
              && LocalEnabled(e1, Task(sid, DropRegistration))
              && var e2 := LocalNext(mdu, e1, Task(sid, DropRegistration));
                 && e2.mux == e1.mux.(sessions := e.mux.sessions - {sid}) && e2.enqueued == e1.enqueued
                 && sid in e2.tasks && e2.tasks[sid].phase.Done?
  {
    hide Encode;
  }

  // ---------------------------------------------------------------------------
  // Dispatching
  // ---------------------------------------------------------------------------

  /** The object has the endpoint's mux state, and each channel holds what its session has not received yet. */
  ghost predicate Mirrors(mux: MuxHandle, e: Endpoint)
    reads mux, mux.sessions.Values
  {
    && mux.State() == e.mux
    && forall sid | sid in mux.sessions ::
         && sid in e.tasks && e.tasks[sid].taken <= |e.tasks[sid].inbox|
         && mux.sessions[sid].receiverAlive == Listening(e.tasks[sid])
         && mux.sessions[sid].frames == e.tasks[sid].inbox[e.tasks[sid].taken..]
  }

  /** Dispatching on the object is delivering in the model. */
  method DispatchIsDeliver(mux: MuxHandle, f: Frame, ghost e: Endpoint, ghost link: LinkId)
    requires mux.Valid() && Mirrors(mux, e)
    modifies set sid | sid in mux.sessions :: mux.sessions[sid]
    ensures mux.Valid() && Mirrors(mux, Deliver(e, f, link))
  {
    hide Deliver;
    mux.Dispatch(f);
    DeliverFills(e, f, link);
  }

  /** What a delivery does, session by session. */
  lemma DeliverFills(e: Endpoint, f: Frame, link: LinkId)
    ensures var e' := Deliver(e, f, link);
            && e'.mux == e.mux && e'.tasks.Keys == e.tasks.Keys
            && forall sid | sid in e.tasks ::
                 e'.tasks[sid] == if sid == f.sessionId && Open(e, sid)
                                  then e.tasks[sid].(inbox := e.tasks[sid].inbox + [f], via := Some(link))
                                  else e.tasks[sid]
  {
  }
}
