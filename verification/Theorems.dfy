/** The main results, about every reachable state of the system. */
module Theorems {
  import opened Basics
  import opened Frames
  import opened Reassembly
  import opened Traces
  import opened ConnectPayload
  import opened Mux
  import opened Sessions
  import opened Endpoints
  import opened EndpointProofs
  import opened System
  import opened Invariant
  import opened SystemProofs

  // ---------------------------------------------------------------------------
  // End-to-end transparency
  // ---------------------------------------------------------------------------

  /**
   The writer wrote nothing but what the reader read, in the same order: datagrams with
   gaps, and a byte stream without any, payload by payload and byte by byte.
   */
  ghost predicate Transparent(writer: Session, reader: Session) {
    && Subsequence(writer.written, reader.chunks)
    && (!writer.udp ==> writer.written <= reader.chunks && Written(writer) <= Flatten(reader.chunks))
  }

  lemma PrefixChain(writer: Session, server: bool, due: seq<Bytes>, reader: Session)
    requires WaitInv(server, writer) && WriterInv(writer) && Payloads(writer.inbox[..writer.openedAt]) == []
    requires Payloads(writer.inbox) <= due <= reader.chunks
    ensures Transparent(writer, reader)
  {
    hide Payloads, Flatten, WriterInv, Subsequence;
    WrittenFromInbox(server, writer);
    PrefixTransitive(Payloads(writer.inbox), due, reader.chunks);
    FlattenPrefix(Payloads(writer.inbox), reader.chunks);
    SubsequenceOfPrefix(writer.written, Payloads(writer.inbox), reader.chunks);
    if !writer.udp {
      PrefixTransitive(writer.written, Payloads(writer.inbox), reader.chunks);
    }
  }

  /** What a session has enqueued as Data is a prefix of what its reader read. */
  lemma EnqueuedWasRead(e: Endpoint, sid: u32)
    requires EndpointInv(e) && sid in e.tasks
    ensures Payloads(Trace(e.enqueued, sid)) <= e.tasks[sid].chunks
  {
    hide Payloads, Trace, ScriptInv, WaitInv, WriterInv, QueueInv, SpansInv, WiresInv;
    assert TaskInv(e, sid);
  }

  lemma SessionParts(e: Endpoint, sid: u32)
    requires EndpointInv(e) && sid in e.tasks
    ensures WaitInv(e.server, e.tasks[sid]) && WriterInv(e.tasks[sid])
    ensures ScriptInv(e.server, e.tasks[sid], Trace(e.enqueued, sid))
  {
    hide Payloads, Trace, ScriptInv, WaitInv, WriterInv, QueueInv, SpansInv, WiresInv;
    assert TaskInv(e, sid);
  }

  /** Where a server session's frames come from: a prefix of what its link carries, which holds all the client sent. */
  lemma ServerSessionSource(s: System, link: LinkId, sid: u32)
    requires SystemInv(s) && link in s.servers && sid in s.servers[link].tasks
    ensures EndpointInv(s.client) && EndpointInv(s.servers[link]) && s.servers[link].server
    ensures ServerInbox(s.servers[link], link, sid)
    ensures link in s.client.links && SpanOk(s.client, link) && sid in s.client.tasks
    ensures Connects(FramesOn(s.client, link), sid)
    ensures Routed(s.servers[link], link) <= FramesOn(s.client, link)
    ensures Trace(s.client.enqueued[..s.client.links[link].lo], sid) == []
  {
    hide EndpointInv, Body, Trace, EncodeAll, Routed, UpBytes, DownBytes;
    var c, sv := s.client, s.servers[link];
    assert LinkInv(s, link);
    assert ServerInbox(sv, link, sid);
    var got := Routed(sv, link);
    ConnectsGrows(got, got + sv.todo, sid);
    AskedByClient(c, sv, link, Count(s.up, link), sid);
    UpFrames(c, sv, link, Count(s.up, link));
    PrefixTransitive(got, got + sv.todo, FramesOn(c, link));
  }

  /**
   Client to server: whatever a server session of any link has written to its
   target is a prefix of what the client session of the same id has read.
   */
  lemma UploadIsTransparent(mdu: nat, s: System, link: LinkId, sid: u32)
    requires Reachable(mdu, s)
    requires link in s.servers && sid in s.servers[link].tasks
    ensures sid in s.client.tasks
    ensures Transparent(s.servers[link].tasks[sid], s.client.tasks[sid])
  {
    hide Reachable, SystemInv, EndpointInv, Payloads, Body, Trace, WriterInv, Routed;
    ReachableInv(mdu, s);
    ServerSessionSource(s, link, sid);
    var c, sv := s.client, s.servers[link];
    var t := Trace(Routed(sv, link), sid);
    LinkCarriesPrefix(c, link, Routed(sv, link), sid);
    Prefixes(sv.tasks[sid].inbox, Body(t), sid);
    PayloadsOfBody(t);
    Prefixes(t, Trace(c.enqueued, sid), sid);
    EnqueuedWasRead(c, sid);
    SessionParts(sv, sid);
    NoPayloads();
    assert sv.tasks[sid].inbox[..sv.tasks[sid].openedAt] == [];
    PrefixTransitive(Payloads(sv.tasks[sid].inbox), Payloads(Trace(c.enqueued, sid)), c.tasks[sid].chunks);
    PrefixChain(sv.tasks[sid], true, Payloads(Trace(c.enqueued, sid)), c.tasks[sid]);
  }

  /** The first frame a server sends for a session is the verdict; without a session there is no other. */
  lemma VerdictFirst(sv: Endpoint, sid: u32)
    requires EndpointInv(sv) && sv.server
    ensures var t := Trace(sv.enqueued, sid);
            && (t != [] ==> IsVerdict(t[0]))
            && (sid !in sv.tasks ==> Payloads(t) == [])
  {
    hide Trace, ReaderInv, WaitInv, WriterInv, QueueInv, SpansInv, WiresInv;
    var t := Trace(sv.enqueued, sid);
    if sid in sv.tasks {
      assert TaskInv(sv, sid);
    } else if t != [] {
      assert Refused(t);
      assert t == [t[0]] && t[..0] == [];
    }
  }

  /** What reached a client session's channel is a prefix of what one server session enqueued for it. */
  lemma InboxComesFromServer(mdu: nat, s: System, sid: u32) returns (link: LinkId)
    requires Reachable(mdu, s)
    requires sid in s.client.tasks && s.client.tasks[sid].inbox != []
    ensures s.client.tasks[sid].via == Some(link) && link in s.links && link in s.client.links
    ensures s.client.tasks[sid].inbox <= Trace(Routed(s.client, link), sid)
    ensures Routed(s.client, link) <= Peer(s, link).enqueued
    ensures s.client.tasks[sid].inbox <= Trace(Peer(s, link).enqueued, sid)
    ensures EndpointInv(Peer(s, link)) && Peer(s, link).server
  {
    hide Reachable, EndpointInv, Trace, EncodeAll, Routed;
    ReachableInv(mdu, s);
    assert ClientInbox(s.client, sid);
    link := s.client.tasks[sid].via.value;
    assert LinkInv(s, link);
    DownFrames(s.client, Live(s, link), Peer(s, link), link, Count(s.down, link));
    Prefixes(Routed(s.client, link), Peer(s, link).enqueued, sid);
    PrefixTransitive(s.client.tasks[sid].inbox, Trace(Routed(s.client, link), sid), Trace(Peer(s, link).enqueued, sid));
  }

  /**
   The handshake loses nothing. The first frame a client session ever receives is
   its verdict: while it waits it has skipped no frame, and when its relay starts
   it has taken the ConnectOk and nothing else. A TCP session that has taken a
   ConnectOk relays, or closes and drops its registration.
   */
  lemma HandshakeLosesNothing(mdu: nat, s: System, sid: u32)
    requires Reachable(mdu, s) && sid in s.client.tasks
    ensures var ss := s.client.tasks[sid];
            && (ss.inbox != [] ==> ss.inbox[0].frameType.ConnectOk? || ss.inbox[0].frameType.ConnectErr?)
            && (ss.phase.Waiting? ==> ss.taken == 0)
            && (!ss.reader.Off? ==> ss.openedAt == 1 && ss.inbox != [] && ss.inbox[0].frameType.ConnectOk?)
            && (!ss.udp && 0 < ss.taken <= |ss.inbox| && ss.inbox[0].frameType.ConnectOk? && ss.phase.Done? ==> ss.dropped)
  {
    hide Reachable, SystemInv, EndpointInv, Trace, WriterInv, ScriptInv, WaitInv;
    ReachableInv(mdu, s);
    ClientParts(s);
    SessionParts(s.client, sid);
    RegistrationsAreExact(mdu, s, s.client, sid);
    var ss := s.client.tasks[sid];
    if ss.inbox != [] {
      var link := InboxComesFromServer(mdu, s, sid);
      VerdictFirst(Peer(s, link), sid);
    }
    FirstFrameDecides(ss);
  }

  /** If the first frame is a verdict, the wait has taken it or nothing. */
  lemma FirstFrameDecides(ss: Session)
    requires WaitInv(false, ss) && (ss.inbox != [] ==> IsVerdict(ss.inbox[0]))
    requires !ss.reader.Off? ==> (ss.dropped <==> ss.phase.Done?)
    ensures ss.phase.Waiting? ==> ss.taken == 0
    ensures !ss.reader.Off? ==> ss.openedAt == 1 && ss.inbox != [] && ss.inbox[0].frameType.ConnectOk?
    ensures !ss.udp && 0 < ss.taken <= |ss.inbox| && ss.inbox[0].frameType.ConnectOk? && ss.phase.Done? ==> ss.dropped
  {
  }

  /** A session that has received nothing has written nothing. */
  lemma NothingWritten(ss: Session)
    requires ss.openedAt <= ss.taken <= |ss.inbox| && WriterInv(ss)
    requires Payloads(ss.inbox[ss.openedAt..ss.taken]) == []
    ensures ss.written == [] && Written(ss) == []
  {
  }

  lemma OpenerCarriesNoData(frames: seq<Frame>)
    requires frames != [] && !frames[0].frameType.Data?
    ensures Payloads(frames[..1]) == []
  {
    assert frames[..1] == [] + [frames[0]];
    Append([], frames[0], 0);
    NoPayloads();
  }

  lemma SlicePayloads(frames: seq<Frame>, lo: nat, hi: nat)
    requires lo <= hi <= |frames| && Payloads(frames) == []
    ensures Payloads(frames[lo..hi]) == []
  {
    hide Payloads, Trace, Body, Closes;
    Concat(frames[..lo], frames[lo..hi], 0);
    assert frames[..lo] + frames[lo..hi] == frames[..hi];
    Prefixes(frames[..hi], frames, 0);
  }

  /**
   Server to client: a client session either has written nothing, or its frames
   all came over one link, from the server session of the same id there, and what
   it has written is a prefix of what that session has read.
   */
  lemma DownloadIsTransparent(mdu: nat, s: System, sid: u32)
    requires Reachable(mdu, s) && sid in s.client.tasks
    ensures var ss := s.client.tasks[sid];
            || (ss.written == [] && Written(ss) == [])
            || (&& ss.via.Some? && ss.via.value in s.servers && sid in s.servers[ss.via.value].tasks
                && Transparent(ss, s.servers[ss.via.value].tasks[sid]))
  {
    hide Reachable, EndpointInv, Trace, WriterInv, ScriptInv, Payloads, Flatten;
    ReachableInv(mdu, s);
    ClientParts(s);
    SessionParts(s.client, sid);
    var ss := s.client.tasks[sid];
    NoPayloads();
    if ss.inbox == [] || ss.reader.Off? {
      OffWroteNothing(ss);
    } else {
      var link := InboxComesFromServer(mdu, s, sid);
      var sv := Peer(s, link);
      HandshakeLosesNothing(mdu, s, sid);
      OpenerCarriesNoData(ss.inbox);
      VerdictFirst(sv, sid);
      Prefixes(ss.inbox, Trace(sv.enqueued, sid), sid);
      if sid in sv.tasks {
        assert link in s.servers;
        EnqueuedWasRead(sv, sid);
        PrefixTransitive(Payloads(ss.inbox), Payloads(Trace(sv.enqueued, sid)), sv.tasks[sid].chunks);
        PrefixChain(ss, false, Payloads(Trace(sv.enqueued, sid)), sv.tasks[sid]);
      } else {
        SlicePayloads(ss.inbox, ss.openedAt, ss.taken);
        NothingWritten(ss);
      }
    }
  }

  lemma OffWroteNothing(ss: Session)
    requires ss.openedAt <= ss.taken <= |ss.inbox| && WriterInv(ss)
    requires ss.inbox == [] || ss.reader.Off?
    ensures ss.written == [] && Written(ss) == []
  {
    assert ss.inbox == [] ==> ss.inbox[ss.openedAt..ss.taken] == [];
    NoPayloads();
  }

  // ---------------------------------------------------------------------------
  // The wire
  // ---------------------------------------------------------------------------

  /** On every link, in both directions, the bytes sent are a prefix of whole encoded frames. */
  lemma WireCarriesWholeFrames(mdu: nat, s: System, link: LinkId)
    requires Reachable(mdu, s) && link in s.links
    ensures link in s.client.links ==>
              SpanOk(s.client, link) && Out(s.client, link) <= EncodeAll(FramesOn(s.client, link))
    ensures var sv := Peer(s, link);
            SpanOk(sv, link) && Out(sv, link) <= EncodeAll(FramesOn(sv, link)) && FramesOn(sv, link) <= sv.enqueued
  {
    hide Reachable, EndpointInv, EncodeAll, UpBytes, DownBytes;
    ReachableInv(mdu, s);
    assert LinkInv(s, link);
    WireIsPrefix(Peer(s, link), link);
    if link in s.client.links {
      WireIsPrefix(s.client, link);
    }
  }

  /** The server never meets an unknown type byte, whatever fragment is delivered to it next. */
  lemma ServerDecodingNeverFails(mdu: nat, s: System, link: LinkId, n: nat)
    requires Reachable(mdu, s) && Enabled(s, DeliverUp(link, n))
    ensures var k := Count(s.up, link);
            Drain(s.servers[link].mux.recvBuf + Out(s.client, link)[k..k + n]).discarded == []
  {
    hide Reachable, EndpointInv, Drain, UpBytes, DownBytes, ServerInv;
    ReachableInv(mdu, s);
    assert LinkInv(s, link);
    DeliverUpBytes(s.client, s.servers[link], link, Count(s.up, link), n);
  }

  /** Nor does the client. */
  lemma ClientDecodingNeverFails(mdu: nat, s: System, n: nat)
    requires Reachable(mdu, s) && Enabled(s, DeliverDown(n))
    ensures var link := s.phase.link; var k := Count(s.down, link);
            Drain(s.client.mux.recvBuf + Out(Peer(s, link), link)[k..k + n]).discarded == []
  {
    hide Reachable, EndpointInv, Drain, UpBytes, DownBytes, ServerInv;
    ReachableInv(mdu, s);
    var link := s.phase.link;
    LiveIsLink(s, link);
    assert LinkInv(s, link);
    ServerParts(Peer(s, link), link);
    DeliverDownBytes(s.client, Peer(s, link), link, Count(s.down, link), n);
  }

  /** The Connect requests a server decodes from a link are, in order, those the client started on it. */
  lemma RequestsInOrder(mdu: nat, s: System, link: LinkId)
    requires Reachable(mdu, s) && link in s.servers && link in s.client.links
    ensures SpanOk(s.client, link)
    ensures Requested(Routed(s.servers[link], link)) <= Requested(FramesOn(s.client, link))
  {
    hide Reachable, EndpointInv, EncodeAll, Routed;
    ReachableInv(mdu, s);
    assert LinkInv(s, link);
    var sv := s.servers[link];
    UpFrames(s.client, sv, link, Count(s.up, link));
    PrefixTransitive(Routed(sv, link), Routed(sv, link) + sv.todo, FramesOn(s.client, link));
    RequestedPrefix(Routed(sv, link), FramesOn(s.client, link));
  }

  // ---------------------------------------------------------------------------
  // Independent queues
  // ---------------------------------------------------------------------------

  /**
   The multiplexer is a family of queues, upwards: there is one number n for the
   whole link such that every session the server can still deliver to has received
   exactly its own Data and Close frames among the first n frames the client
   enqueued, and every other session a prefix of them.
   */
  lemma UploadRefinesQueue(mdu: nat, s: System, link: LinkId) returns (n: nat)
    requires Reachable(mdu, s) && link in s.servers
    ensures n <= |s.client.enqueued|
    ensures forall sid | Open(s.servers[link], sid) ::
              s.servers[link].tasks[sid].inbox == Body(Trace(s.client.enqueued[..n], sid))
    ensures forall sid | sid in s.servers[link].tasks ::
              s.servers[link].tasks[sid].inbox <= Body(Trace(s.client.enqueued[..n], sid))
  {
    hide Reachable, SystemInv, EndpointInv, Body, Trace, Routed, Listening;
    ReachableInv(mdu, s);
    var c, sv := s.client, s.servers[link];
    n := if link in c.links then c.links[link].lo + |Routed(sv, link)| else 0;
    if sid :| sid in sv.tasks {
      ServerSessionSource(s, link, sid);
    } else {
      n := 0;
    }
    forall sid | sid in sv.tasks
      ensures n <= |c.enqueued| && sv.tasks[sid].inbox <= Body(Trace(c.enqueued[..n], sid))
      ensures Open(sv, sid) ==> sv.tasks[sid].inbox == Body(Trace(c.enqueued[..n], sid))
    {
      ServerSessionSource(s, link, sid);
      var lo, got := c.links[link].lo, Routed(sv, link);
      assert c.enqueued[..n] == c.enqueued[..lo] + got;
      Concat(c.enqueued[..lo], got, sid);
      assert Trace(c.enqueued[..n], sid) == Trace(got, sid);
    }
  }

  lemma ServerEndpoint(s: System, link: LinkId)
    requires SystemInv(s) && link in s.servers
    ensures EndpointInv(s.servers[link])
  {
    hide EndpointInv, UpBytes, DownBytes;
    assert LinkInv(s, link);
  }

  /**
   And downwards: one number n for the link the client is on, such that every session
   the client can still deliver to has received exactly its frames among the first n
   that the server of that link enqueued, and every other registered one a prefix.
   */
  lemma DownloadRefinesQueue(mdu: nat, s: System) returns (n: nat)
    requires Reachable(mdu, s) && s.phase.Dispatching?
    ensures n <= |Peer(s, s.phase.link).enqueued|
    ensures forall sid | Open(s.client, sid) ::
              s.client.tasks[sid].inbox == Trace(Peer(s, s.phase.link).enqueued[..n], sid)
    ensures forall sid | sid in s.client.mux.sessions ::
              sid in s.client.tasks && s.client.tasks[sid].inbox <= Trace(Peer(s, s.phase.link).enqueued[..n], sid)
  {
    hide Reachable, EndpointInv, Trace, EncodeAll, Routed, UpBytes, Asked, ServerInbox, ClientInbox, Listening;
    ReachableInv(mdu, s);
    var link := s.phase.link;
    LiveIsLink(s, link);
    assert LinkInv(s, link);
    DownFrames(s.client, true, Peer(s, link), link, Count(s.down, link));
    n := |Routed(s.client, link)|;
    assert Peer(s, link).enqueued[..n] == Routed(s.client, link);
    forall sid | sid in s.client.mux.sessions
      ensures sid in s.client.tasks && s.client.tasks[sid].inbox <= Trace(Peer(s, link).enqueued[..n], sid)
      ensures Open(s.client, sid) ==> s.client.tasks[sid].inbox == Trace(Peer(s, link).enqueued[..n], sid)
    {
      assert RegisteredInbox(s.client, s.phase, sid);
    }
  }

  // ---------------------------------------------------------------------------
  // Isolation
  // ---------------------------------------------------------------------------

  lemma SameConnectSameLink(c: Endpoint, a: LinkId, b: LinkId, sid: u32)
    requires EndpointInv(c) && !c.server
    requires SpanOk(c, a) && SpanOk(c, b)
    requires Connects(FramesOn(c, a), sid) && Connects(FramesOn(c, b), sid)
    ensures a == b
  {
    hide Trace, QueueInv, SpansInv, WiresInv, TasksInv;
    var i := FindConnect(FramesOn(c, a), sid);
    var j := FindConnect(FramesOn(c, b), sid);
    var x, y := c.links[a].lo + i, c.links[b].lo + j;
    ConnectOpensTrace(c, x);
    ConnectOpensTrace(c, y);
    if x != y {
      var lo, hi := if x < y then x else y, if x < y then y else x;
      TraceAt(c.enqueued[..hi], lo);
      assert false;
    }
  }

  /** Of one client's links, only the one that carried a session's Connect has frames enqueued for it. */
  lemma OneLinkPerSession(mdu: nat, s: System, a: LinkId, b: LinkId, sid: u32)
    requires Reachable(mdu, s) && a in s.links && b in s.links
    requires sid in Peer(s, a).tasks || Trace(Peer(s, a).enqueued, sid) != []
    requires sid in Peer(s, b).tasks || Trace(Peer(s, b).enqueued, sid) != []
    ensures a == b
    ensures a in s.client.links && SpanOk(s.client, a) && Connects(FramesOn(s.client, a), sid)
  {
    hide Reachable, EndpointInv, Trace, EncodeAll, Routed;
    ReachableInv(mdu, s);
    AskedOn(s, a, sid);
    AskedOn(s, b, sid);
    SameConnectSameLink(s.client, a, b, sid);
  }

  lemma AskedOn(s: System, link: LinkId, sid: u32)
    requires SystemInv(s) && link in s.links
    requires sid in Peer(s, link).tasks || Trace(Peer(s, link).enqueued, sid) != []
    ensures link in s.client.links && SpanOk(s.client, link) && sid in s.client.tasks
    ensures Connects(FramesOn(s.client, link), sid)
  {
    hide EndpointInv, Trace, EncodeAll, Routed;
    assert LinkInv(s, link);
    var sv := Peer(s, link);
    ConnectsGrows(Routed(sv, link), Routed(sv, link) + sv.todo, sid);
    AskedByClient(s.client, sv, link, Count(s.up, link), sid);
  }

  /** After the Connect that opens it, a session's frames are its Data and Close frames. */
  lemma BodyAfterConnect(t: seq<Frame>)
    requires t != [] && t[0].frameType.Connect?
    ensures Body(t) == Body(t[1..])
  {
    hide Body, Trace, Payloads, Closes;
    assert t == [t[0]] + t[1..];
    Concat([t[0]], t[1..], 0);
    assert [t[0]] == [] + [t[0]];
    Append([], t[0], 0);
    NoTrace();
    assert [] + Body(t[1..]) == Body(t[1..]);
  }

  lemma ConnectLeads(c: Endpoint, link: LinkId, sid: u32)
    requires EndpointInv(c) && !c.server && link in c.links && SpanOk(c, link) && Connects(FramesOn(c, link), sid)
    ensures var t := Trace(FramesOn(c, link), sid); t != [] && t[0].frameType.Connect?
  {
    hide EndpointInv, Trace;
    var i := FindConnect(FramesOn(c, link), sid);
    ConnectIsFirst(c, link, i);
    TraceAt(FramesOn(c, link), i);
    assert |Trace(FramesOn(c, link)[..i], sid)| == 0;
  }

  /**
   Link isolation at the server: the client put the session's Connect on this link,
   and what the session received are the Data and Close frames of its id that the
   client put on this link after the Connect, in order. Of the links of this client
   no other has a session of that id.
   */
  lemma ServerSessionsAreIsolated(mdu: nat, s: System, link: LinkId, sid: u32)
    requires Reachable(mdu, s)
    requires link in s.servers && sid in s.servers[link].tasks
    ensures link in s.client.links && SpanOk(s.client, link)
    ensures var t := Trace(FramesOn(s.client, link), sid);
            && t != [] && t[0].frameType.Connect?
            && s.servers[link].tasks[sid].inbox <= Body(t[1..])
            && forall f | f in t :: f.sessionId == sid && f in FramesOn(s.client, link)
    ensures forall other | other in s.servers && other != link :: sid !in s.servers[other].tasks
  {
    hide Reachable, SystemInv, EndpointInv, Trace, Body, Routed;
    ReachableInv(mdu, s);
    ClientParts(s);
    ServerSessionSource(s, link, sid);
    var sv, frames := s.servers[link], FramesOn(s.client, link);
    ConnectLeads(s.client, link, sid);
    BodyAfterConnect(Trace(frames, sid));
    TraceHasSid(frames, sid);
    Prefixes(Routed(sv, link), frames, sid);
    Prefixes(Trace(Routed(sv, link), sid), Trace(frames, sid), sid);
    PrefixTransitive(sv.tasks[sid].inbox, Body(Trace(Routed(sv, link), sid)), Body(Trace(frames, sid)));
    ServersAreLinks(s);
    forall other | other in s.servers && other != link
      ensures sid !in s.servers[other].tasks
    {
      if sid in s.servers[other].tasks {
        OneLinkPerSession(mdu, s, link, other, sid);
        assert false;
      }
    }
  }

  lemma ServersAreLinks(s: System)
    requires SystemInv(s)
    ensures forall link | link in s.servers :: link in s.links
  {
  }

  // ---------------------------------------------------------------------------
  // Close
  // ---------------------------------------------------------------------------

  lemma OneCloseEach(e: Endpoint, sid: u32)
    requires EndpointInv(e)
    ensures Closes(Trace(e.enqueued, sid)) <= 1
  {
    hide Trace, ReaderInv, WaitInv, WriterInv, QueueInv, SpansInv, WiresInv;
    var t := Trace(e.enqueued, sid);
    if sid in e.tasks {
      assert TaskInv(e, sid);
      RefusedHasNoClose(t);
    } else {
      assert StrayTrace(e.server, t);
      RefusedHasNoClose(t);
    }
  }

  lemma RefusedHasNoClose(t: seq<Frame>)
    ensures Refused(t) || t == [] ==> Closes(t) == 0
  {
    if Refused(t) {
      assert t == [] + [t[0]];
      Append([], t[0], 0);
    }
  }

  /** Close does not echo: each end enqueues at most one per session, and of the client's links only one has a server that does. */
  lemma AtMostTwoCloses(mdu: nat, s: System, sid: u32, link: LinkId)
    requires Reachable(mdu, s) && link in s.links
    ensures Closes(Trace(s.client.enqueued, sid)) <= 1
    ensures Closes(Trace(Peer(s, link).enqueued, sid)) <= 1
    ensures Closes(Trace(Peer(s, link).enqueued, sid)) == 1 ==>
              forall other | other in s.links && other != link :: Trace(Peer(s, other).enqueued, sid) == []
  {
    hide Reachable, EndpointInv, Trace;
    ReachableInv(mdu, s);
    ClientParts(s);
    OneCloseEach(s.client, sid);
    assert LinkInv(s, link);
    OneCloseEach(Peer(s, link), sid);
    RefusedHasNoClose(Trace(Peer(s, link).enqueued, sid));
    if Closes(Trace(Peer(s, link).enqueued, sid)) == 1 {
      forall other | other in s.links && other != link
        ensures Trace(Peer(s, other).enqueued, sid) == []
      {
        if Trace(Peer(s, other).enqueued, sid) != [] {
          OneLinkPerSession(mdu, s, link, other, sid);
          assert false;
        }
      }
    }
  }

  /**
   The server's side of the handshake: nothing, or exactly one verdict and it comes
   first; nothing follows a ConnectErr, and only Data and Close follow a ConnectOk.
   */
  lemma OneVerdict(mdu: nat, s: System, link: LinkId, sid: u32)
    requires Reachable(mdu, s) && link in s.links
    ensures var t := Trace(Peer(s, link).enqueued, sid);
            || t == []
            || (|t| == 1 && t[0].frameType.ConnectErr?)
            || (&& t[0].frameType.ConnectOk?
                && forall i | 1 <= i < |t| :: t[i].frameType in {Data, Close})
  {
    hide Reachable, EndpointInv, Trace;
    ReachableInv(mdu, s);
    assert LinkInv(s, link);
    ServerScript(Peer(s, link), sid);
  }

  lemma ServerScript(sv: Endpoint, sid: u32)
    requires EndpointInv(sv) && sv.server
    ensures var t := Trace(sv.enqueued, sid);
            || t == []
            || (|t| == 1 && t[0].frameType.ConnectErr?)
            || (&& t[0].frameType.ConnectOk?
                && forall i | 1 <= i < |t| :: t[i].frameType in {Data, Close})
  {
    hide Trace, ReaderInv, WaitInv, WriterInv, QueueInv, SpansInv, WiresInv, WriterEnd, Payloads;
    if sid in sv.tasks {
      assert TaskInv(sv, sid);
    } else {
      assert StrayTrace(sv.server, Trace(sv.enqueued, sid));
    }
  }

  // ---------------------------------------------------------------------------
  // What every session does in the end
  // ---------------------------------------------------------------------------

  /** One of the endpoints of a system. */
  ghost predicate EndOf(s: System, e: Endpoint) {
    e == s.client || exists link :: link in s.servers && e == s.servers[link]
  }

  lemma EndpointOf(mdu: nat, s: System, e: Endpoint)
    requires Reachable(mdu, s) && EndOf(s, e)
    ensures EndpointInv(e)
  {
    hide Reachable, SystemInv, EndpointInv;
    ReachableInv(mdu, s);
    ClientParts(s);
    if e != s.client {
      var link :| link in s.servers && e == s.servers[link];
      ServerEndpoint(s, link);
    }
  }

  lemma ScriptOf(e: Endpoint, sid: u32)
    requires EndpointInv(e) && sid in e.tasks
    ensures ScriptInv(e.server, e.tasks[sid], Trace(e.enqueued, sid))
    ensures RegistrationLaw(e, sid)
  {
    hide Trace, Payloads, ScriptInv, ReaderInv, WaitInv, WriterInv, WriterEnd, QueueInv, SpansInv, WiresInv;
    assert TaskInv(e, sid);
  }

  /**
   A session that relays sends its Close exactly when the relay is over, as an empty
   frame, and before it drops its registration; one that the server refuses sends the
   ConnectErr with the reason, and nothing else. At both ends, in every state.
   */
  lemma EndedSessionsSaidSo(mdu: nat, s: System, e: Endpoint, sid: u32)
    requires Reachable(mdu, s) && EndOf(s, e) && sid in e.tasks
    ensures var ss, t := e.tasks[sid], Trace(e.enqueued, sid);
            && (!ss.reader.Off? ==> (Closes(t) == 1 <==> ss.phase.Dropping? || ss.phase.Done?))
            && (!ss.reader.Off? && !ss.phase.Relaying? ==> OneSideOver(e.server, ss))
            && (forall f | f in t && f.frameType.Close? :: f == Frame(Close, sid, []))
            && (e.server && ss.reader.Off? && (ss.phase.Dropping? || ss.phase.Done?) ==>
                  ss.refusal.Some? && t == [Frame(ConnectErr, sid, ss.refusal.value)])
  {
    hide Reachable, EndpointInv, EndOf, Trace, Closes, EncodeRequest, ValidUtf8;
    EndpointOf(mdu, s, e);
    ScriptOf(e, sid);
    TraceHasSid(e.enqueued, sid);
    var t := Trace(e.enqueued, sid);
    forall f | f in t && f.frameType.Close?
      ensures f == Frame(Close, sid, [])
    {
      var i :| 0 <= i < |t| && t[i] == f;
    }
  }

  /**
   When a session is registered: from its registration until it drops it, which at a
   server and after a relay it does as its last act, or until a reset; never otherwise.
   */
  lemma RegistrationsAreExact(mdu: nat, s: System, e: Endpoint, sid: u32)
    requires Reachable(mdu, s) && EndOf(s, e) && sid in e.tasks
    ensures var ss := e.tasks[sid];
            && (sid in e.mux.sessions <==> !ss.phase.Allocated? && !ss.dropped && sid !in e.forgotten)
            && (ss.dropped ==> ss.phase.Done?)
            && (e.server || !ss.reader.Off? ==> (ss.dropped <==> ss.phase.Done?))
            && (!e.server && !ss.udp && ss.reader.Off? ==> (ss.dropped ==> Closes(Trace(e.enqueued, sid)) == 1))
  {
    hide Reachable, EndpointInv, EndOf, Trace, Closes, EncodeRequest, ValidUtf8;
    EndpointOf(mdu, s, e);
    ScriptOf(e, sid);
  }

  /** And a server never resets: there a session is registered until it is done. */
  lemma ServersForgetNothing(mdu: nat, s: System, link: LinkId, sid: u32)
    requires Reachable(mdu, s) && link in s.servers && sid in s.servers[link].tasks
    ensures sid in s.servers[link].mux.sessions <==> !s.servers[link].tasks[sid].phase.Done?
  {
    hide Reachable, SystemInv, EndpointInv, EndOf, Trace, Closes, ServerInv;
    ReachableInv(mdu, s);
    assert EndOf(s, s.servers[link]) by { ServerIsEnd(s, link); }
    RegistrationsAreExact(mdu, s, s.servers[link], sid);
    ServerKeepsAll(s, link);
    EndpointOf(mdu, s, s.servers[link]);
    ScriptOf(s.servers[link], sid);
    NotAllocated(s.servers[link].tasks[sid], Trace(s.servers[link].enqueued, sid));
  }

  lemma ServerIsEnd(s: System, link: LinkId)
    requires link in s.servers
    ensures EndOf(s, s.servers[link])
  {
  }

  lemma ServerKeepsAll(s: System, link: LinkId)
    requires SystemInv(s) && link in s.servers
    ensures s.servers[link].server && s.servers[link].forgotten == {}
  {
    hide EndpointInv, UpBytes, DownBytes, Asked, Answered, ServerInbox, ClientInv;
    assert LinkInv(s, link);
  }

  lemma NotAllocated(ss: Session, t: seq<Frame>)
    requires ScriptInv(true, ss, t)
    ensures !ss.phase.Allocated?
  {
    hide Script, Closes, Begins, Ended, Over;
  }

  /**
   While a relay runs, neither direction stops early. A reader that has stopped has sent
   all it read; later an abort costs at most one read. A writer has met no frame that
   ends it, and one that has stopped has just taken such a frame, or failed to write,
   or emptied the channel of a registration that is gone.
   */
  lemma RelaysRunToTheirEnd(mdu: nat, s: System, e: Endpoint, sid: u32)
    requires Reachable(mdu, s) && EndOf(s, e) && sid in e.tasks
    ensures var ss, sent := e.tasks[sid], Payloads(Trace(e.enqueued, sid));
            && ss.openedAt <= ss.taken <= |ss.inbox|
            && (ss.phase.Relaying? && ss.reader.Stopped? ==> sent == ss.chunks)
            && (ss.reader.Stopped? ==> sent <= ss.chunks && |ss.chunks| <= |sent| + 1)
            && (ss.writing ==> forall i | ss.openedAt <= i < ss.taken ::
                  !ss.inbox[i].frameType.Close? && (ss.inbox[i].frameType.ConnectErr? ==> ss.udp))
            && (ss.phase.Relaying? && !ss.writing ==>
                  || (ss.openedAt < ss.taken && ss.inbox[ss.taken - 1].frameType.Close?)
                  || (ss.openedAt < ss.taken && ss.inbox[ss.taken - 1].frameType.ConnectErr? && !ss.udp)
                  || |ss.handled| < |Payloads(ss.inbox[ss.openedAt..ss.taken])|
                  || (sid !in e.mux.sessions && ss.taken == |ss.inbox|))
  {
    hide Reachable, EndpointInv, EndOf, Trace, Payloads, ScriptInv, WriterInv;
    EndpointOf(mdu, s, e);
    SessionParts(e, sid);
    ReaderOf(e, sid);
  }

  lemma ReaderOf(e: Endpoint, sid: u32)
    requires EndpointInv(e) && sid in e.tasks
    ensures var ss := e.tasks[sid];
            && ReaderInv(ss.reader, ss.phase.Relaying?, ss.chunks, Payloads(Trace(e.enqueued, sid)))
            && ss.openedAt <= ss.taken <= |ss.inbox| && WriterEnd(ss, sid in e.mux.sessions)
  {
    hide Trace, Payloads, ScriptInv, ReaderInv, WaitInv, WriterInv, WriterEnd, QueueInv, SpansInv, WiresInv;
    assert TaskInv(e, sid);
    SessionBounds(e.server, e.tasks[sid], Trace(e.enqueued, sid));
  }

  // ---------------------------------------------------------------------------
  // Requests and answers
  // ---------------------------------------------------------------------------

  /**
   Every Connect that a server has routed is answered, and by nothing but its answer: a
   valid one by a session for just that request, TCP or UDP as it says, an invalid one
   by a single ConnectErr.
   */
  lemma EveryConnectIsAnswered(mdu: nat, s: System, link: LinkId, f: Frame)
    requires Reachable(mdu, s) && link in s.servers && f in Routed(s.servers[link], link) && f.frameType.Connect?
    ensures var sv := s.servers[link];
            match DecodeRequest(f.payload)
            case Some(request) =>
              && f.sessionId in sv.tasks
              && sv.tasks[f.sessionId].asked == Some(request) && sv.tasks[f.sessionId].udp == request.udp
            case None =>
              && f.sessionId !in sv.tasks
              && Trace(sv.enqueued, f.sessionId) == [Frame(ConnectErr, f.sessionId, INVALID_PAYLOAD)]
  {
    hide Reachable, EndpointInv, Trace, DecodeRequest, UpBytes, DownBytes, Routed;
    ReachableInv(mdu, s);
    assert LinkInv(s, link);
    assert AnswerTo(s.servers[link], f);
    TraceHasSid(s.servers[link].enqueued, f.sessionId);
  }

  /** The Connect that a server session was opened for. */
  lemma SessionWasAsked(s: System, link: LinkId, sid: u32) returns (k: nat)
    requires SystemInv(s) && link in s.servers && sid in s.servers[link].tasks
    ensures var routed, ss := Routed(s.servers[link], link), s.servers[link].tasks[sid];
            && k < |routed| && routed[k].frameType.Connect? && routed[k].sessionId == sid
            && ss.asked.Some? && DecodeRequest(routed[k].payload) == ss.asked && ss.udp == ss.asked.value.udp
  {
    hide EndpointInv, Trace, Routed, DecodeRequest, UpBytes, DownBytes, ServerInbox, ClientInv;
    assert LinkInv(s, link);
    k := FindConnect(Routed(s.servers[link], link), sid);
    assert AnswerTo(s.servers[link], Routed(s.servers[link], link)[k]);
  }

  /** A Connect in the queue history carries the request of its session. */
  lemma ConnectCarriesRequest(c: Endpoint, i: nat)
    requires EndpointInv(c) && !c.server
    requires i < |c.enqueued| && c.enqueued[i].frameType.Connect?
    ensures c.enqueued[i].sessionId in c.tasks
    ensures var asked := c.tasks[c.enqueued[i].sessionId].asked;
            && asked.Some? && ValidUtf8(asked.value.host) && c.enqueued[i].payload == EncodeRequest(asked.value)
            && asked.value.udp == c.tasks[c.enqueued[i].sessionId].udp
  {
    hide EndpointInv, Trace, Closes, EncodeRequest, ValidUtf8;
    ConnectOpensTrace(c, i);
    TraceAt(c.enqueued, i);
    ScriptOf(c, c.enqueued[i].sessionId);
  }

  /**
   From end to end: a server session is for the request that the client session of its
   id has sent, as far as the encoding preserves it, and that is the very same request,
   with the same protocol, exactly if the host is at most 255 bytes long.
   */
  lemma RequestsReachTheServer(mdu: nat, s: System, link: LinkId, sid: u32)
    requires Reachable(mdu, s) && link in s.servers && sid in s.servers[link].tasks
    ensures sid in s.client.tasks && s.client.tasks[sid].asked.Some?
    ensures var ss, request := s.servers[link].tasks[sid], s.client.tasks[sid].asked.value;
            && request.udp == s.client.tasks[sid].udp
            && ss.asked.Some? && ss.asked == DecodeRequest(EncodeRequest(request)) && ss.udp == ss.asked.value.udp
            && (ss.asked == Some(request) <==> |request.host| <= 255)
            && (|request.host| <= 255 ==> ss.udp == s.client.tasks[sid].udp)
  {
    hide Reachable, SystemInv, EndpointInv, Trace, Routed, DecodeRequest, EncodeRequest, ValidUtf8;
    ReachableInv(mdu, s);
    ClientParts(s);
    ServerSessionSource(s, link, sid);
    var c, sv := s.client, s.servers[link];
    var k := SessionWasAsked(s, link, sid);
    assert FramesOn(c, link)[k] == Routed(sv, link)[k];
    ConnectCarriesRequest(c, c.links[link].lo + k);
    RequestRoundTrip(c.tasks[sid].asked.value);
  }

  /**
   And back: the first frame a client session receives is the verdict of the server
   session of its id, ConnectOk or ConnectErr with the reason given there, or else the
   server's answer to a request that did not decode.
   */
  lemma VerdictIsTheServers(mdu: nat, s: System, sid: u32) returns (link: LinkId)
    requires Reachable(mdu, s) && sid in s.client.tasks && s.client.tasks[sid].inbox != []
    ensures s.client.tasks[sid].via == Some(link) && link in s.links
    ensures var verdict, sv := s.client.tasks[sid].inbox[0], Peer(s, link);
            if sid !in sv.tasks then verdict == Frame(ConnectErr, sid, INVALID_PAYLOAD)
            else match sv.tasks[sid].refusal
              case Some(reason) => verdict == Frame(ConnectErr, sid, reason)
              case None => verdict == Frame(ConnectOk, sid, []) && !sv.tasks[sid].reader.Off?
  {
    hide Reachable, EndpointInv, Trace, Closes, EncodeRequest, ValidUtf8, Routed;
    link := InboxComesFromServer(mdu, s, sid);
    var sv := Peer(s, link);
    TraceHasSid(sv.enqueued, sid);
    assert Trace(sv.enqueued, sid)[0] in Trace(sv.enqueued, sid);
    if sid in sv.tasks {
      ScriptOf(sv, sid);
    } else {
      StrayOf(sv, sid);
    }
  }

  lemma StrayOf(e: Endpoint, sid: u32)
    requires EndpointInv(e) && sid !in e.tasks
    ensures StrayTrace(e.server, Trace(e.enqueued, sid))
  {
    hide Trace, QueueInv, SpansInv, WiresInv, TaskInv;
  }
}
