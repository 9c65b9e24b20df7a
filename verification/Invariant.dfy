/** What holds in every reachable state of the system, and what follows for the frames on a link. */
module Invariant {
  import opened Basics
  import opened Frames
  import opened Reassembly
  import opened Traces
  import opened Mux
  import opened Sessions
  import opened Endpoints
  import opened EndpointProofs
  import opened System
  import opened ConnectPayload

  /** The client's event loop is dispatching this link. */
  predicate Live(s: System, link: LinkId) {
    s.phase == Dispatching(link)
  }

  ghost predicate Connects(frames: seq<Frame>, sid: u32) {
    exists f :: f in frames && f.frameType.Connect? && f.sessionId == sid
  }

  // ---------------------------------------------------------------------------
  // One link: the client on one side, the mux of this link on the other
  // ---------------------------------------------------------------------------

  /** The server routed, decoded and buffered exactly the bytes delivered so far. */
  ghost predicate UpBytes(c: Endpoint, sv: Endpoint, link: LinkId, up: nat) {
    && up <= |Out(c, link)| && AllFit(Routed(sv, link) + sv.todo)
    && EncodeAll(Routed(sv, link) + sv.todo) + sv.mux.recvBuf == Out(c, link)[..up]
  }

  /** So did the client, as long as it dispatches this link; what it routed stays what the server sent. */
  ghost predicate DownBytes(c: Endpoint, live: bool, sv: Endpoint, link: LinkId, down: nat) {
    && down <= |Out(sv, link)|
    && (live ==> EncodeAll(Routed(c, link) + c.todo) + c.mux.recvBuf == Out(sv, link)[..down])
    && (live ==> AllFit(c.todo)) && AllFit(Routed(c, link))
    && EncodeAll(Routed(c, link)) <= Out(sv, link)
    && (link !in c.links ==> down == 0)
  }

  /** A server sends frames for a session only after a Connect for it came over this link. */
  ghost predicate Asked(sv: Endpoint, link: LinkId) {
    forall sid: u32 | sid in sv.tasks || Trace(sv.enqueued, sid) != [] :: Connects(Routed(sv, link), sid)
  }

  /**
   Every Connect that was routed has been answered: a valid one by the session it asked
   for, an invalid one by a ConnectErr and nothing else.
   */
  ghost predicate Answered(sv: Endpoint, link: LinkId) {
    forall f | f in Routed(sv, link) && f.frameType.Connect? :: AnswerTo(sv, f)
  }

  ghost predicate AnswerTo(sv: Endpoint, f: Frame) {
    match DecodeRequest(f.payload)
    case Some(request) =>
      f.sessionId in sv.tasks && sv.tasks[f.sessionId].asked == Some(request) && sv.tasks[f.sessionId].udp == request.udp
    case None =>
      var t := Trace(sv.enqueued, f.sessionId);
      f.sessionId !in sv.tasks && Refused(t) && t[0].payload == INVALID_PAYLOAD
  }

  /** A server session got the Data and Close frames of its id that came over its link, in order. */
  ghost predicate ServerInbox(sv: Endpoint, link: LinkId, sid: u32)
    requires sid in sv.tasks
  {
    var due := Body(Trace(Routed(sv, link), sid));
    && sv.tasks[sid].via == Some(link)
    && sv.tasks[sid].inbox <= due
    && (Open(sv, sid) ==> sv.tasks[sid].inbox == due)
  }

  ghost predicate ServerShape(sv: Endpoint, link: LinkId) {
    && sv.server
    && link in sv.links && sv.links[link].lo == 0
    && (forall l | l in sv.links :: l == link)
    && sv.forgotten == {}
    && EndpointInv(sv)
  }

  ghost predicate ServerInv(sv: Endpoint, link: LinkId) {
    && ServerShape(sv, link)
    && Asked(sv, link) && Answered(sv, link)
    && (forall sid | sid in sv.tasks :: ServerInbox(sv, link, sid))
  }

  ghost predicate LinkInv(s: System, link: LinkId) {
    var sv := Peer(s, link);
    && ServerInv(sv, link)
    && UpBytes(s.client, sv, link, Count(s.up, link))
    && DownBytes(s.client, Live(s, link), sv, link, Count(s.down, link))
  }

  // ---------------------------------------------------------------------------
  // The client
  // ---------------------------------------------------------------------------

  /** The link whose frames the registered sessions have been getting. */
  function Current(phase: ClientPhase): Option<LinkId> {
    match phase
    case Dispatching(link) => Some(link)
    case Resetting(link) => Some(link)
    case _ => None
  }

  /** A registered session got every frame of its id that the current link brought, while it had a receiver. */
  ghost predicate RegisteredInbox(c: Endpoint, phase: ClientPhase, sid: u32)
    requires sid in c.tasks
  {
    var ss := c.tasks[sid];
    && !ss.phase.Allocated?
    && match Current(phase)
       case Some(link) =>
         var brought := Trace(Routed(c, link), sid);
         && ss.inbox <= brought && (Listening(ss) ==> ss.inbox == brought)
         && (ss.inbox != [] ==> ss.via == Some(link))
       case None => ss.inbox == []
  }

  /** Every session got, in order, what one link brought for its id. */
  ghost predicate ClientInbox(c: Endpoint, sid: u32)
    requires sid in c.tasks
  {
    var ss := c.tasks[sid];
    ss.inbox != [] ==>
      ss.via.Some? && ss.via.value in c.links && ss.inbox <= Trace(Routed(c, ss.via.value), sid)
  }

  ghost predicate PhaseInv(c: Endpoint, phase: ClientPhase, links: set<LinkId>) {
    && (forall l | l in c.links :: l in links)
    && match phase
       case Reconnecting => c.todo == [] && c.mux.recvBuf == []
       case Establishing(link) => link in links && link !in c.links && c.todo == [] && c.mux.recvBuf == []
       case Dispatching(link) => link in c.links
       case Resetting(link) => link in c.links && c.todo == []
       case Emptying => c.todo == []
  }

  ghost predicate ClientInv(c: Endpoint, phase: ClientPhase, links: set<LinkId>, issued: nat) {
    && !c.server && EndpointInv(c)
    && PhaseInv(c, phase, links)
    && c.mux.nextSid == issued
    && (forall sid | sid in c.tasks :: 1 <= sid <= issued)
    && (forall sid | sid in c.mux.sessions :: sid in c.tasks && RegisteredInbox(c, phase, sid))
    && (forall sid | sid in c.tasks :: ClientInbox(c, sid))
  }

  ghost predicate SystemInv(s: System) {
    && ClientInv(s.client, s.phase, s.links, s.issued)
    && (forall link | link in s.servers || link in s.up || link in s.down :: link in s.links)
    && (forall link | link in s.links :: LinkInv(s, link))
  }

  /** Session ids wrap at 2^32; nothing is claimed once they have. */
  ghost predicate Inv(s: System) {
    s.issued < 0x1_0000_0000 ==> SystemInv(s)
  }

  // ---------------------------------------------------------------------------
  // What follows for frames
  // ---------------------------------------------------------------------------

  lemma PrefixTransitive<T>(a: seq<T>, b: seq<T>, c: seq<T>)
    requires a <= b && b <= c
    ensures a <= c
  {
  }

  lemma SliceFits(frames: seq<Frame>, lo: nat, hi: nat)
    requires AllFit(frames) && lo <= hi <= |frames|
    ensures AllFit(frames[lo..hi])
  {
  }

  lemma WireIsPrefix(e: Endpoint, link: LinkId)
    requires EndpointInv(e) && link in e.links
    ensures SpanOk(e, link) && Out(e, link) <= EncodeAll(FramesOn(e, link))
    ensures AllFit(FramesOn(e, link)) && AllFit(e.enqueued)
  {
    hide EncodeAll, TasksInv;
    assert SpanOk(e, link) && WireInv(e, link);
    SliceFits(e.enqueued, e.links[link].lo, e.links[link].hi);
  }

  /** Reassembled frames and leftover that make up a prefix of the wire are a prefix of the frames on it. */
  lemma ReassembledArePrefix(frames: seq<Frame>, got: seq<Frame>, left: Bytes)
    requires AllFit(frames) && AllFit(got) && EncodeAll(got) + left <= EncodeAll(frames)
    ensures got <= frames
    ensures left <= EncodeAll(frames[|got|..])
  {
    hide Encode, EncodeAll, AllFit;
    PrefixTransitive(EncodeAll(got), EncodeAll(got) + left, EncodeAll(frames));
    EncodeAllPrefix(got, frames);
    assert frames == got + frames[|got|..];
    EncodeAllConcat(got, frames[|got|..]);
    CancelPrefix(EncodeAll(got), left, EncodeAll(frames[|got|..]));
  }

  lemma CancelPrefix(a: Bytes, b: Bytes, c: Bytes)
    requires a + b <= a + c
    ensures b <= c
  {
    assert (a + b)[|a|..] == b && (a + c)[|a|..] == c;
  }

  /** The frames the server received over a link are a prefix of those the client started on it. */
  lemma UpFrames(c: Endpoint, sv: Endpoint, link: LinkId, up: nat)
    requires EndpointInv(c) && UpBytes(c, sv, link, up)
    ensures link in c.links ==>
              && SpanOk(c, link)
              && Routed(sv, link) + sv.todo <= FramesOn(c, link)
              && sv.mux.recvBuf <= EncodeAll(FramesOn(c, link)[|Routed(sv, link) + sv.todo|..])
    ensures link !in c.links ==> Routed(sv, link) + sv.todo == [] && sv.mux.recvBuf == []
  {
    hide EndpointInv, EncodeAll, Routed;
    var got := Routed(sv, link) + sv.todo;
    if link in c.links {
      WireIsPrefix(c, link);
      PrefixTransitive(EncodeAll(got) + sv.mux.recvBuf, Out(c, link), EncodeAll(FramesOn(c, link)));
      ReassembledArePrefix(FramesOn(c, link), got, sv.mux.recvBuf);
    } else {
      assert EncodeAll(got) == [];
      NoBytesNoFrames(got);
    }
  }

  lemma NoBytesNoFrames(frames: seq<Frame>)
    requires EncodeAll(frames) == []
    ensures frames == []
  {
  }

  /** The frames the client routed for a link are a prefix of those the server started on it. */
  lemma DownFrames(c: Endpoint, live: bool, sv: Endpoint, link: LinkId, down: nat)
    requires ServerShape(sv, link) && DownBytes(c, live, sv, link, down)
    ensures SpanOk(sv, link) && FramesOn(sv, link) <= sv.enqueued
    ensures Routed(c, link) <= sv.enqueued
    ensures live ==>
              && Routed(c, link) + c.todo <= FramesOn(sv, link)
              && c.mux.recvBuf <= EncodeAll(FramesOn(sv, link)[|Routed(c, link) + c.todo|..])
  {
    hide EndpointInv, EncodeAll, Routed;
    WireIsPrefix(sv, link);
    var frames := FramesOn(sv, link);
    PrefixTransitive(EncodeAll(Routed(c, link)), Out(sv, link), EncodeAll(frames));
    assert EncodeAll(Routed(c, link)) + [] <= EncodeAll(frames);
    ReassembledArePrefix(frames, Routed(c, link), []);
    if live {
      var got := Routed(c, link) + c.todo;
      PrefixTransitive(EncodeAll(got) + c.mux.recvBuf, Out(sv, link), EncodeAll(frames));
      ReassembledArePrefix(frames, got, c.mux.recvBuf);
    }
  }

  // ---------------------------------------------------------------------------
  // A Connect is the first frame of its session
  // ---------------------------------------------------------------------------

  lemma ConnectOpensTrace(c: Endpoint, i: nat)
    requires EndpointInv(c) && !c.server
    requires i < |c.enqueued| && c.enqueued[i].frameType.Connect?
    ensures Trace(c.enqueued[..i], c.enqueued[i].sessionId) == []
    ensures c.enqueued[i].sessionId in c.tasks
  {
    hide QueueInv, SpansInv, WiresInv, Trace, ReaderInv, WaitInv, WriterInv, Closes;
    var sid := c.enqueued[i].sessionId;
    var t := Trace(c.enqueued, sid);
    TraceAt(c.enqueued, i);
    var k := |Trace(c.enqueued[..i], sid)|;
    assert t[k].frameType.Connect?;
    if sid in c.tasks {
      assert TaskInv(c, sid);
      assert Script(t, Connect);
    } else {
      assert false;
    }
  }

  /** Before the Connect of a session, a link carries nothing for that session, nor did the queue before this link. */
  lemma ConnectIsFirst(c: Endpoint, link: LinkId, i: nat)
    requires EndpointInv(c) && !c.server && link in c.links && SpanOk(c, link)
    requires i < |FramesOn(c, link)| && FramesOn(c, link)[i].frameType.Connect?
    ensures var f := FramesOn(c, link)[i];
            && f.sessionId in c.tasks
            && Trace(FramesOn(c, link)[..i], f.sessionId) == []
            && Trace(c.enqueued[..c.links[link].lo], f.sessionId) == []
  {
    hide EndpointInv, Trace;
    var lo := c.links[link].lo;
    ConnectOpensTrace(c, lo + i);
    var sid := FramesOn(c, link)[i].sessionId;
    assert c.enqueued[..lo + i] == c.enqueued[..lo] + FramesOn(c, link)[..i];
    Concat(c.enqueued[..lo], FramesOn(c, link)[..i], sid);
  }

  lemma FindConnect(frames: seq<Frame>, sid: u32) returns (i: nat)
    requires Connects(frames, sid)
    ensures i < |frames| && frames[i].frameType.Connect? && frames[i].sessionId == sid
  {
    var f :| f in frames && f.frameType.Connect? && f.sessionId == sid;
    i :| i < |frames| && frames[i] == f;
  }

  lemma ConnectsGrows(a: seq<Frame>, b: seq<Frame>, sid: u32)
    requires Connects(a, sid) && a <= b
    ensures Connects(b, sid)
  {
    var f :| f in a && f.frameType.Connect? && f.sessionId == sid;
    assert f in b;
  }

  /** A session that some link's server was asked for belongs to the client, and this link carries all it sent. */
  lemma AskedByClient(c: Endpoint, sv: Endpoint, link: LinkId, up: nat, sid: u32)
    requires EndpointInv(c) && !c.server && UpBytes(c, sv, link, up)
    requires Connects(Routed(sv, link) + sv.todo, sid)
    ensures link in c.links && SpanOk(c, link) && sid in c.tasks
    ensures Trace(c.enqueued[..c.links[link].lo], sid) == []
    ensures Connects(FramesOn(c, link), sid)
  {
    hide EndpointInv, Trace, Routed;
    UpFrames(c, sv, link, up);
    var i := FindConnect(Routed(sv, link) + sv.todo, sid);
    ConnectIsFirst(c, link, i);
    ConnectsGrows(Routed(sv, link) + sv.todo, FramesOn(c, link), sid);
  }

  /** What a link carries for a session whose Connect it carried is a prefix of what the session ever sent. */
  lemma LinkCarriesPrefix(c: Endpoint, link: LinkId, frames: seq<Frame>, sid: u32)
    requires SpanOk(c, link) && frames <= FramesOn(c, link)
    requires Trace(c.enqueued[..c.links[link].lo], sid) == []
    ensures Trace(frames, sid) <= Trace(c.enqueued, sid)
  {
    hide Trace;
    var lo := c.links[link].lo;
    Concat(c.enqueued[..lo], frames, sid);
    assert c.enqueued[..lo] + frames <= c.enqueued;
    Prefixes(c.enqueued[..lo] + frames, c.enqueued, sid);
  }
}
