/**
 How much a slow link can leave waiting: what relays have read and the link has
 not been handed yet is bounded, whatever the speed of the sockets.
 */
module Backpressure {
  import opened Basics
  import opened Frames
  import opened Traces
  import opened Mux
  import opened Sessions
  import opened Endpoints
  import opened EndpointProofs
  import opened System
  import opened Invariant
  import opened SystemProofs
  import opened Theorems

  /** The bytes that the Data frames of some sessions carry. */
  function DataBytes(frames: seq<Frame>, sids: set<u32>): nat {
    if frames == [] then 0
    else
      var last := frames[|frames| - 1];
      DataBytes(frames[..|frames| - 1], sids)
      + (if last.frameType.Data? && last.sessionId in sids then |last.payload| else 0)
  }

  /** How many frames have been handed to a link in full, or dropped for want of one. */
  function HandedOver(e: Endpoint): nat {
    if e.sender.Sending? && e.started > 0 then e.started - 1 else e.started
  }

  /** What a reader has read and not yet put into the queue. */
  function Held(ss: Session): nat {
    if ss.reader.Reading? && ss.reader.held.Some? then |ss.reader.held.value| else 0
  }

  // ---------------------------------------------------------------------------
  // Sums over sessions
  // ---------------------------------------------------------------------------

  ghost function Total(f: u32 -> int, sids: set<u32>): int {
    if sids == {} then 0
    else
      var sid :| sid in sids;
      f(sid) + Total(f, sids - {sid})
  }

  lemma {:induction false} TotalExtract(f: u32 -> int, sids: set<u32>, sid: u32)
    requires sid in sids
    ensures Total(f, sids) == f(sid) + Total(f, sids - {sid})
    decreases sids
  {
    var first :| first in sids && Total(f, sids) == f(first) + Total(f, sids - {first});
    if first != sid {
      TotalExtract(f, sids - {first}, sid);
      TotalExtract(f, sids - {sid}, first);
      assert sids - {first} - {sid} == sids - {sid} - {first};
    }
  }

  lemma {:induction false} TotalAdds(f: u32 -> int, g: u32 -> int, h: u32 -> int, sids: set<u32>)
    requires forall sid | sid in sids :: f(sid) == g(sid) + h(sid)
    ensures Total(f, sids) == Total(g, sids) + Total(h, sids)
    decreases sids
  {
    if sids != {} {
      var sid :| sid in sids;
      TotalExtract(f, sids, sid);
      TotalExtract(g, sids, sid);
      TotalExtract(h, sids, sid);
      TotalAdds(f, g, h, sids - {sid});
    }
  }

  lemma {:induction false} TotalSame(f: u32 -> int, g: u32 -> int, sids: set<u32>)
    requires forall sid | sid in sids :: f(sid) == g(sid)
    ensures Total(f, sids) == Total(g, sids)
    decreases sids
  {
    if sids != {} {
      var sid :| sid in sids;
      TotalExtract(f, sids, sid);
      TotalExtract(g, sids, sid);
      TotalSame(f, g, sids - {sid});
    }
  }

  lemma OneMore(limit: nat, n: nat)
    ensures limit * (n + 1) == limit * n + limit
  {
  }

  /** Nothing outside `busy`, and at most `limit` for each session in it. */
  lemma {:induction false} TotalBounded(f: u32 -> int, limit: nat, sids: set<u32>, busy: set<u32>)
    requires busy <= sids
    requires forall sid | sid in sids :: f(sid) <= (if sid in busy then limit else 0)
    ensures Total(f, sids) <= limit * |busy|
    decreases sids
  {
    if sids != {} {
      var sid :| sid in sids;
      TotalExtract(f, sids, sid);
      TotalBounded(f, limit, sids - {sid}, busy - {sid});
      if sid in busy {
        OneMore(limit, |busy - {sid}|);
      } else {
        assert busy - {sid} == busy;
      }
    }
  }

  // ---------------------------------------------------------------------------
  // Bytes in the queue
  // ---------------------------------------------------------------------------

  lemma {:induction false} DataBytesConcat(a: seq<Frame>, b: seq<Frame>, sids: set<u32>)
    ensures DataBytes(a + b, sids) == DataBytes(a, sids) + DataBytes(b, sids)
  {
    if b == [] {
      assert a + b == a;
    } else {
      assert (a + b)[..|a + b| - 1] == a + b[..|b| - 1];
      DataBytesConcat(a, b[..|b| - 1], sids);
    }
  }

  lemma {:induction false} DataBytesBounded(frames: seq<Frame>, sids: set<u32>, limit: nat)
    requires forall i | 0 <= i < |frames| ::
               frames[i].frameType.Data? && frames[i].sessionId in sids ==> |frames[i].payload| <= limit
    ensures DataBytes(frames, sids) <= limit * |frames|
  {
    if frames != [] {
      DataBytesBounded(frames[..|frames| - 1], sids, limit);
      OneMore(limit, |frames| - 1);
    }
  }

  /** The bytes of one session's Data frames. */
  ghost function SentBy(frames: seq<Frame>): u32 -> int {
    (sid: u32) => |Flatten(Payloads(Trace(frames, sid)))|
  }

  /** Summed over some sessions, the traces account for every data byte of theirs. */
  lemma {:induction false} SentAddsUp(frames: seq<Frame>, sids: set<u32>)
    ensures Total(SentBy(frames), sids) == DataBytes(frames, sids)
  {
    hide Payloads, Trace, Flatten;
    if frames == [] {
      NothingSent(sids);
    } else {
      var init, f := frames[..|frames| - 1], frames[|frames| - 1];
      assert frames == init + [f];
      forall sid: u32
        ensures SentBy(frames)(sid) ==
                SentBy(init)(sid) + (if f.sessionId == sid && f.frameType.Data? then |f.payload| else 0)
      {
        OneFrameSent(init, f, sid);
      }
      SentAddsUp(init, sids);
      if f.frameType.Data? && f.sessionId in sids {
        var sid := f.sessionId;
        TotalExtract(SentBy(frames), sids, sid);
        TotalExtract(SentBy(init), sids, sid);
        TotalSame(SentBy(frames), SentBy(init), sids - {sid});
      } else {
        TotalSame(SentBy(frames), SentBy(init), sids);
      }
    }
  }

  lemma {:induction false} NothingSent(sids: set<u32>)
    ensures Total(SentBy([]), sids) == 0
    decreases sids
  {
    if sids != {} {
      var sid :| sid in sids;
      TotalExtract(SentBy([]), sids, sid);
      NothingSent(sids - {sid});
    }
  }

  lemma OneFrameSent(init: seq<Frame>, f: Frame, sid: u32)
    ensures |Flatten(Payloads(Trace(init + [f], sid)))| ==
            |Flatten(Payloads(Trace(init, sid)))|
            + (if f.sessionId == sid && f.frameType.Data? then |f.payload| else 0)
  {
    hide Payloads, Trace, Flatten;
    var t := Trace(init, sid);
    Append(init, f, sid);
    if f.sessionId == sid {
      Append(t, f, sid);
      if f.frameType.Data? {
        FlattenConcat(Payloads(t), [f.payload]);
        FlattenOne(f.payload);
      } else {
        assert Payloads(t) + [] == Payloads(t);
      }
    } else {
      assert t + [] == t;
    }
  }

  // ---------------------------------------------------------------------------
  // One endpoint
  // ---------------------------------------------------------------------------

  /** These sessions exist, and their reads are limited to `limit` bytes at a time. */
  predicate ReadsAtMost(e: Endpoint, sids: set<u32>, limit: nat) {
    forall sid | sid in sids :: sid in e.tasks && ReadLimit(e.tasks[sid].udp) <= limit
  }

  /** Those of some sessions whose reader waits for room in the queue. */
  function Waiters(e: Endpoint, sids: set<u32>): set<u32> {
    set sid | sid in sids && sid in e.tasks && Held(e.tasks[sid]) > 0
  }

  function TcpSessions(e: Endpoint): set<u32> {
    set sid | sid in e.tasks && !e.tasks[sid].udp
  }

  function ReadBy(e: Endpoint): u32 -> int {
    (sid: u32) => if sid in e.tasks then |Flatten(e.tasks[sid].chunks)| else 0
  }

  function HeldBy(e: Endpoint): u32 -> int {
    (sid: u32) => if sid in e.tasks then Held(e.tasks[sid]) else 0
  }

  /** A reader that was aborted while it waited for room drops what it held. */
  ghost function AbandonedBy(e: Endpoint): u32 -> int {
    (sid: u32) =>
      if sid in e.tasks && e.tasks[sid].reader.Stopped?
      then |Flatten(e.tasks[sid].chunks)| - |Flatten(Payloads(Trace(e.enqueued, sid)))|
      else 0
  }

  /** Data bytes of some sessions in the queue and in the sender task's hands, and bytes that their readers hold. */
  ghost function Unsent(e: Endpoint, sids: set<u32>): int
    requires HandedOver(e) <= |e.enqueued|
  {
    DataBytes(e.enqueued[HandedOver(e)..], sids) + Total(HeldBy(e), sids)
  }

  lemma QueuedFramesAreFew(e: Endpoint)
    requires QueueInv(e)
    ensures HandedOver(e) <= |e.enqueued| <= HandedOver(e) + QUEUE_CAPACITY + 1
  {
  }

  lemma PayloadIsListed(t: seq<Frame>, k: nat)
    requires k < |t| && t[k].frameType.Data?
    ensures exists i :: 0 <= i < |Payloads(t)| && Payloads(t)[i] == t[k].payload
  {
    hide Payloads;
    Append(t[..k], t[k], 0);
    assert t[..k] + [t[k]] == t[..k + 1];
    Prefixes(t[..k + 1], t, 0);
    assert Payloads(t)[|Payloads(t[..k])|] == t[k].payload;
  }

  lemma DataFramesAreSmall(e: Endpoint, i: nat)
    requires EndpointInv(e) && i < |e.enqueued|
    requires e.enqueued[i].frameType.Data? && e.enqueued[i].sessionId in e.tasks
    ensures |e.enqueued[i].payload| <= ReadLimit(e.tasks[e.enqueued[i].sessionId].udp)
  {
    hide Payloads, Trace, ScriptInv, WaitInv, WriterInv, QueueInv, SpansInv, WiresInv;
    var sid := e.enqueued[i].sessionId;
    var t := Trace(e.enqueued, sid);
    TraceAt(e.enqueued, i);
    PayloadIsListed(t, |Trace(e.enqueued[..i], sid)|);
    assert TaskInv(e, sid);
    var k :| 0 <= k < |Payloads(t)| && Payloads(t)[k] == e.enqueued[i].payload;
    EnqueuedWasRead(e, sid);
    assert e.tasks[sid].chunks[k] == e.enqueued[i].payload;
  }

  lemma ReadIsAccountedFor(e: Endpoint, sid: u32)
    requires EndpointInv(e) && sid in e.tasks
    ensures ReadBy(e)(sid) == SentBy(e.enqueued)(sid) + HeldBy(e)(sid) + AbandonedBy(e)(sid)
    ensures AbandonedBy(e)(sid) >= 0
    ensures HeldBy(e)(sid) <= ReadLimit(e.tasks[sid].udp)
  {
    hide Payloads, Trace, Flatten, ScriptInv, WaitInv, WriterInv, QueueInv, SpansInv, WiresInv;
    assert TaskInv(e, sid);
    var ss, sent := e.tasks[sid], Payloads(Trace(e.enqueued, sid));
    if ss.reader.Reading? && ss.reader.held.Some? {
      FlattenConcat(sent, [ss.reader.held.value]);
      FlattenOne(ss.reader.held.value);
    } else if ss.reader.Stopped? {
      FlattenPrefix(sent, ss.chunks);
    }
  }

  /** All bytes that sessions read are in frames they enqueued, held by their readers, or dropped by an abort. */
  lemma ReadAddsUp(e: Endpoint, sids: set<u32>)
    requires EndpointInv(e) && sids <= e.tasks.Keys
    ensures Total(ReadBy(e), sids) ==
            DataBytes(e.enqueued, sids) + Total(HeldBy(e), sids) + Total(AbandonedBy(e), sids)
  {
    hide EndpointInv, DataBytes, ReadBy, HeldBy, AbandonedBy, SentBy;
    SentAddsUp(e.enqueued, sids);
    forall sid | sid in sids
      ensures ReadBy(e)(sid) == SentBy(e.enqueued)(sid) + HeldBy(e)(sid) + AbandonedBy(e)(sid)
    {
      ReadIsAccountedFor(e, sid);
    }
    var both := (sid: u32) => SentBy(e.enqueued)(sid) + HeldBy(e)(sid);
    TotalAdds(both, SentBy(e.enqueued), HeldBy(e), sids);
    TotalAdds(ReadBy(e), both, AbandonedBy(e), sids);
  }

  lemma HeldIsBounded(e: Endpoint, sids: set<u32>, limit: nat)
    requires EndpointInv(e) && ReadsAtMost(e, sids, limit)
    ensures Total(HeldBy(e), sids) <= limit * |Waiters(e, sids)|
  {
    hide EndpointInv, ReadLimit, Held;
    forall sid | sid in sids
      ensures HeldBy(e)(sid) <= limit
    {
      ReadIsAccountedFor(e, sid);
    }
    TotalBounded(HeldBy(e), limit, sids, Waiters(e, sids));
  }

  lemma QueueIsBounded(e: Endpoint, sids: set<u32>, limit: nat)
    requires EndpointInv(e) && ReadsAtMost(e, sids, limit)
    ensures HandedOver(e) <= |e.enqueued|
    ensures DataBytes(e.enqueued[HandedOver(e)..], sids) <= limit * (QUEUE_CAPACITY + 1)
  {
    hide EndpointInv, ReadLimit, DataBytes;
    QueueOf(e);
    QueuedFramesAreFew(e);
    var h := HandedOver(e);
    forall i | 0 <= i < |e.enqueued[h..]| && e.enqueued[h..][i].frameType.Data? && e.enqueued[h..][i].sessionId in sids
      ensures |e.enqueued[h..][i].payload| <= limit
    {
      DataFramesAreSmall(e, h + i);
    }
    DataBytesBounded(e.enqueued[h..], sids, limit);
    Monotone(limit, |e.enqueued[h..]|, QUEUE_CAPACITY + 1);
  }

  lemma Monotone(limit: nat, a: nat, b: nat)
    requires a <= b
    ensures limit * a <= limit * b
  {
  }

  lemma QueueOf(e: Endpoint)
    requires EndpointInv(e)
    ensures QueueInv(e)
  {
  }

  /**
   Conservation and the bound, for any endpoint with the invariant and any of its
   sessions: all bytes that their relays read are in frames handed over, waiting, or
   dropped by an abort; and what waits is at most six frames and one read for each of
   their readers that is waiting.
   */
  lemma EndpointBackpressure(e: Endpoint, sids: set<u32>, limit: nat)
    requires EndpointInv(e) && ReadsAtMost(e, sids, limit)
    ensures HandedOver(e) <= |e.enqueued|
    ensures Total(ReadBy(e), sids) ==
            DataBytes(e.enqueued[..HandedOver(e)], sids) + Unsent(e, sids) + Total(AbandonedBy(e), sids)
    ensures Unsent(e, sids) <= limit * (QUEUE_CAPACITY + 1) + limit * |Waiters(e, sids)|
  {
    hide EndpointInv, DataBytes, Total, Waiters, HandedOver, ReadLimit;
    QueueIsBounded(e, sids, limit);
    var h := HandedOver(e);
    assert e.enqueued == e.enqueued[..h] + e.enqueued[h..];
    DataBytesConcat(e.enqueued[..h], e.enqueued[h..], sids);
    ReadAddsUp(e, sids);
    HeldIsBounded(e, sids, limit);
  }

  /**
   The bound in every reachable state, at the client and at every server endpoint. Of
   its TCP sessions at most 4096 bytes wait for each of the five queued frames, the
   one the sender task has, and every waiting reader; with UDP sessions counted too,
   the bound has room for their headers. And every byte is accounted for.
   */
  lemma BackpressureBound(mdu: nat, s: System, e: Endpoint)
    requires Reachable(mdu, s) && EndOf(s, e)
    ensures HandedOver(e) <= |e.enqueued|
    ensures var all := e.tasks.Keys;
            && Total(ReadBy(e), all) ==
                 DataBytes(e.enqueued[..HandedOver(e)], all) + Unsent(e, all) + Total(AbandonedBy(e), all)
            && Unsent(e, all) <= (4096 + 22) * (5 + 1 + |Waiters(e, all)|)
    ensures var tcp := TcpSessions(e);
            && Total(ReadBy(e), tcp) ==
                 DataBytes(e.enqueued[..HandedOver(e)], tcp) + Unsent(e, tcp) + Total(AbandonedBy(e), tcp)
            && Unsent(e, tcp) <= 4096 * (5 + 1 + |Waiters(e, tcp)|)
  {
    hide Reachable, EndOf, EndpointInv, Unsent, Total, HandedOver, DataBytes, Waiters;
    EndpointOf(mdu, s, e);
    EndpointBackpressure(e, e.tasks.Keys, READ_SIZE + UDP_HEADER);
    EndpointBackpressure(e, TcpSessions(e), READ_SIZE);
  }
}
