/** Every step of the system keeps its invariant, so every run does. */
module SystemProofs {
  import opened Basics
  import opened Frames
  import opened Reassembly
  import opened Traces
  import opened ConnectPayload
  import opened Mux
  import opened Sessions
  import opened Endpoints
  import opened EndpointProofs
  import opened System
  import opened Invariant

  // ---------------------------------------------------------------------------
  // Frames around the interesting steps
  // ---------------------------------------------------------------------------

  /** A link is untouched by what happens elsewhere. */
  lemma LinkFrame(s: System, s': System, link: LinkId)
    requires LinkInv(s, link)
    requires Peer(s', link) == Peer(s, link)
    requires Count(s'.up, link) == Count(s.up, link) && Count(s'.down, link) == Count(s.down, link)
    requires link in s'.client.links <==> link in s.client.links
    requires Out(s.client, link) <= Out(s'.client, link)
    requires Routed(s'.client, link) == Routed(s.client, link)
    requires Live(s', link) ==>
               Live(s, link) && s'.client.todo == s.client.todo && s'.client.mux.recvBuf == s.client.mux.recvBuf
    ensures LinkInv(s', link)
  {
    hide ServerInv, EncodeAll, Peer, Out, Routed;
  }

  lemma ClientGrowsKeepsClient(c: Endpoint, c': Endpoint, phase: ClientPhase, links: set<LinkId>, issued: nat)
    requires ClientInv(c, phase, links, issued) && Grows(c, c') && EndpointInv(c')
    ensures ClientInv(c', phase, links, issued)
  {
    hide EndpointInv, Trace;
    forall sid | sid in c'.mux.sessions
      ensures sid in c'.tasks && RegisteredInbox(c', phase, sid)
    {
      assert RegisteredInbox(c, phase, sid);
    }
    forall sid | sid in c'.tasks
      ensures ClientInbox(c', sid)
    {
      assert ClientInbox(c, sid);
    }
  }

  lemma ClientLocalKeepsInv(mdu: nat, s: System, step: LocalStep)
    requires SystemInv(s) && LocalEnabled(s.client, step)
    ensures SystemInv(s.(client := LocalNext(mdu, s.client, step)))
  {
    hide EndpointInv, LocalNext, LinkInv, ClientInv;
    var c, c' := s.client, LocalNext(mdu, s.client, step);
    ClientParts(s);
    LocalKeepsInv(mdu, c, step);
    LocalGrows(mdu, c, step);
    ClientGrowsKeepsClient(c, c', s.phase, s.links, s.issued);
    var s' := s.(client := c');
    forall link | link in s'.links
      ensures LinkInv(s', link)
    {
      LinkFrame(s, s', link);
    }
  }

  lemma ClientParts(s: System)
    requires SystemInv(s)
    ensures EndpointInv(s.client) && !s.client.server
    ensures ClientInv(s.client, s.phase, s.links, s.issued)
  {
  }

  // ---------------------------------------------------------------------------
  // Server endpoints
  // ---------------------------------------------------------------------------

  /** Replacing one server endpoint leaves every other link alone. */
  lemma OneServerChanges(s: System, s': System, link: LinkId)
    requires SystemInv(s) && link in s.servers
    requires s'.servers == s.servers[link := Peer(s', link)]
    requires s'.client == s.client && s'.phase == s.phase && s'.links == s.links && s'.issued == s.issued
    requires s'.down == s.down
    requires s'.up == s.up || s'.up == s.up[link := Count(s'.up, link)]
    requires LinkInv(s', link)
    ensures SystemInv(s')
  {
    hide LinkInv, ClientInv;
    assert link in s.links;
    forall l | l in s'.links
      ensures LinkInv(s', l)
    {
      if l != link {
        LinkFrame(s, s', l);
      }
    }
  }

  lemma ServerGrowsKeepsServer(sv: Endpoint, sv': Endpoint, link: LinkId)
    requires ServerInv(sv, link) && Grows(sv, sv') && EndpointInv(sv')
    ensures ServerInv(sv', link)
  {
    hide EndpointInv, Trace, Body, Answered;
    forall sid | sid in sv'.tasks
      ensures ServerInbox(sv', link, sid)
    {
      assert ServerInbox(sv, link, sid);
    }
    forall sid: u32 | sid in sv'.tasks || Trace(sv'.enqueued, sid) != []
      ensures Connects(Routed(sv', link), sid)
    {
      assert sid in sv.tasks || Trace(sv.enqueued, sid) != [];
    }
    assert Answered(sv', link) by { GrowsKeepsAnswers(sv, sv', link); }
  }

  lemma GrowsKeepsAnswers(sv: Endpoint, sv': Endpoint, link: LinkId)
    requires Answered(sv, link) && Grows(sv, sv') && Routed(sv', link) == Routed(sv, link)
    ensures Answered(sv', link)
  {
    hide Trace, DecodeRequest;
    forall f | f in Routed(sv', link) && f.frameType.Connect?
      ensures AnswerTo(sv', f)
    {
      assert AnswerTo(sv, f);
    }
  }

  lemma GrowsKeepsLink(s: System, s': System, link: LinkId)
    requires LinkInv(s, link) && link in s.servers && link in s'.servers
    requires s' == s.(servers := s'.servers)
    requires Grows(s.servers[link], s'.servers[link]) && ServerInv(s'.servers[link], link)
    ensures LinkInv(s', link)
  {
    hide ServerInv, EncodeAll, EndpointInv;
    var sv, sv' := s.servers[link], s'.servers[link];
    assert link in sv.links <==> link in sv'.links;
    assert link in sv.links ==> LogGrows(sv.links[link], sv'.links[link]);
    assert Routed(sv', link) == Routed(sv, link) && Out(sv, link) <= Out(sv', link);
  }

  lemma ServerLocalKeepsInv(mdu: nat, s: System, link: LinkId, step: LocalStep)
    requires SystemInv(s) && link in s.servers && LocalEnabled(s.servers[link], step)
    ensures SystemInv(s.(servers := s.servers[link := LocalNext(mdu, s.servers[link], step)]))
  {
    hide EndpointInv, LocalNext, LocalEnabled, ClientInv, UpBytes, DownBytes, Grows, Asked, ServerInbox;
    var sv := s.servers[link];
    var sv' := LocalNext(mdu, sv, step);
    assert LinkInv(s, link);
    LocalKeepsInv(mdu, sv, step);
    LocalGrows(mdu, sv, step);
    ServerGrowsKeepsServer(sv, sv', link);
    var s' := s.(servers := s.servers[link := sv']);
    GrowsKeepsLink(s, s', link);
    OneServerChanges(s, s', link);
  }

  lemma NewServerInv(link: LinkId)
    ensures ServerInv(NewServer(link), link)
  {
    NewEndpointInv(true);
    AttachKeepsInv(NewEndpoint(true), link);
  }

  // ---------------------------------------------------------------------------
  // Session ids
  // ---------------------------------------------------------------------------

  lemma AllocateKeepsEndpoint(c: Endpoint, sid: u32, nextSid: u32, udp: bool)
    requires EndpointInv(c) && !c.server && sid !in c.tasks
    ensures EndpointInv(c.(mux := c.mux.(nextSid := nextSid), tasks := c.tasks[sid := NewSession(udp)]))
  {
    hide QueueInv, SpansInv, DisjointSpans, WiresInv, Trace, SessionInv, WriterEnd;
    var c' := c.(mux := c.mux.(nextSid := nextSid), tasks := c.tasks[sid := NewSession(udp)]);
    assert QueueInv(c') && SpansInv(c') && DisjointSpans(c') && WiresInv(c') by { SameSending(c, c'); }
    assert Trace(c.enqueued, sid) == [];
    NewSessionInv(udp);
    forall x | x in c'.tasks
      ensures TaskInv(c', x)
    {
      if x != sid {
        assert TaskInv(c, x);
      }
    }
  }

  lemma NewSessionInv(udp: bool)
    ensures SessionInv(false, NewSession(udp), []) && WriterEnd(NewSession(udp), false)
  {
  }

  lemma ServerSessionInv(request: Request, link: LinkId)
    ensures SessionInv(true, ServerSession(request, link), []) && WriterEnd(ServerSession(request, link), true)
  {
  }

  lemma AllocateKeepsInv(s: System, udp: bool)
    requires SystemInv(s) && s.accepted > 0 && s.issued + 1 < 0x1_0000_0000
    ensures SystemInv(AllocateSession(s, udp))
  {
    hide EndpointInv, EncodeAll, LinkInv, Trace;
    var s' := AllocateSession(s, udp);
    var c, c' := s.client, s'.client;
    var sid := Successor(c.mux.nextSid);
    assert sid == s.issued + 1;
    AllocateKeepsEndpoint(c, sid, sid, udp);
    forall x | x in c'.mux.sessions
      ensures x in c'.tasks && RegisteredInbox(c', s'.phase, x)
    {
      assert RegisteredInbox(c, s.phase, x);
    }
    forall x | x in c'.tasks
      ensures ClientInbox(c', x)
    {
      if x != sid {
        assert ClientInbox(c, x);
      }
    }
    forall link | link in s'.links
      ensures LinkInv(s', link)
    {
      LinkFrame(s, s', link);
    }
  }

  lemma TraceOfConnected(frames: seq<Frame>, sid: u32)
    requires Connects(frames, sid)
    ensures Trace(frames, sid) != []
  {
    var i := FindConnect(frames, sid);
    TraceAt(frames, i);
  }

  /** Before its Connect is sent, no server has heard of a session. */
  lemma UnknownBeforeConnect(s: System, link: LinkId, sid: u32)
    requires SystemInv(s) && link in s.links
    requires Trace(s.client.enqueued, sid) == []
    ensures sid !in Peer(s, link).tasks && Trace(Peer(s, link).enqueued, sid) == []
  {
    hide EndpointInv, EncodeAll, Trace, Routed;
    var c, sv := s.client, Peer(s, link);
    assert LinkInv(s, link);
    if Connects(Routed(sv, link), sid) {
      ConnectsGrows(Routed(sv, link), Routed(sv, link) + sv.todo, sid);
      AskedByClient(c, sv, link, Count(s.up, link), sid);
      TraceOfConnected(FramesOn(c, link), sid);
      LinkCarriesPrefix(c, link, FramesOn(c, link), sid);
      assert false;
    }
  }

  /** And no link brings it anything. */
  lemma NothingBeforeConnect(s: System, link: LinkId, sid: u32)
    requires SystemInv(s) && link in s.links
    requires Trace(s.client.enqueued, sid) == []
    ensures Trace(Routed(s.client, link), sid) == []
  {
    hide EndpointInv, EncodeAll, Trace, Routed;
    assert LinkInv(s, link);
    DownFrames(s.client, Live(s, link), Peer(s, link), link, Count(s.down, link));
    Prefixes(Routed(s.client, link), Peer(s, link).enqueued, sid);
    UnknownBeforeConnect(s, link, sid);
  }

  lemma RegisteringKeepsSession(ss: Session, t: seq<Frame>)
    requires SessionInv(false, ss, t) && WriterEnd(ss, false) && ss.phase.Allocated?
    ensures SessionInv(false, ss.(phase := Registered), t) && !ss.dropped
    ensures WriterEnd(ss.(phase := Registered), true)
  {
    hide Closes, Script, Payloads, Subsequence;
  }

  lemma RegisterKeepsEndpoint(c: Endpoint, sid: u32)
    requires EndpointInv(c) && !c.server && sid in c.tasks && c.tasks[sid].phase.Allocated?
    ensures EndpointInv(RegisterAtClient(c, sid))
  {
    hide QueueInv, SpansInv, DisjointSpans, WiresInv, Trace, SessionInv, WriterEnd;
    var c' := RegisterAtClient(c, sid);
    assert QueueInv(c') && SpansInv(c') && DisjointSpans(c') && WiresInv(c') by { SameSending(c, c'); }
    assert TaskInv(c, sid);
    RegisteringKeepsSession(c.tasks[sid], Trace(c.enqueued, sid));
    forall x | x in c'.tasks
      ensures TaskInv(c', x)
    {
      assert TaskInv(c, x);
    }
  }

  lemma RegisterKeepsInv(s: System, sid: u32)
    requires SystemInv(s) && sid in s.client.tasks && s.client.tasks[sid].phase.Allocated?
    ensures SystemInv(s.(client := RegisterAtClient(s.client, sid)))
  {
    hide EndpointInv, EncodeAll, LinkInv, Trace, SessionInv;
    var s' := s.(client := RegisterAtClient(s.client, sid));
    var c, c' := s.client, s'.client;
    RegisterKeepsEndpoint(c, sid);
    AllocatedIsSilent(c, sid);
    forall x | x in c'.mux.sessions
      ensures x in c'.tasks && RegisteredInbox(c', s'.phase, x)
    {
      if x == sid {
        if Current(s.phase).Some? {
          NothingBeforeConnect(s, Current(s.phase).value, sid);
        }
      } else {
        assert RegisteredInbox(c, s.phase, x);
      }
    }
    forall x | x in c'.tasks
      ensures ClientInbox(c', x)
    {
      assert ClientInbox(c, x);
    }
    forall link | link in s'.links
      ensures LinkInv(s', link)
    {
      LinkFrame(s, s', link);
    }
  }

  lemma AllocatedIsSilent(c: Endpoint, sid: u32)
    requires EndpointInv(c) && sid in c.tasks && c.tasks[sid].phase.Allocated?
    ensures Trace(c.enqueued, sid) == [] && c.tasks[sid].inbox == []
  {
    assert TaskInv(c, sid);
  }

  // ---------------------------------------------------------------------------
  // Links coming and going
  // ---------------------------------------------------------------------------

  lemma FreshLinkInv(s: System, link: LinkId)
    requires link !in s.servers && link !in s.client.links && link !in s.up && link !in s.down && !Live(s, link)
    ensures LinkInv(s, link)
  {
    NewServerInv(link);
    var sv := NewServer(link);
    assert Routed(sv, link) + sv.todo == [] && Out(s.client, link) == [];
  }

  lemma CreateLinkKeepsInv(s: System, link: LinkId)
    requires SystemInv(s) && s.phase.Reconnecting? && link !in s.links
    ensures SystemInv(s.(phase := Establishing(link), links := s.links + {link}))
  {
    hide EndpointInv, ServerInv, EncodeAll, Trace;
    var s' := s.(phase := Establishing(link), links := s.links + {link});
    forall sid | sid in s'.client.mux.sessions
      ensures sid in s'.client.tasks && RegisteredInbox(s'.client, s'.phase, sid)
    {
      assert RegisteredInbox(s.client, s.phase, sid);
    }
    forall l | l in s'.links
      ensures LinkInv(s', l)
    {
      if l == link {
        FreshLinkInv(s', link);
      } else {
        LinkFrame(s, s', l);
      }
    }
  }

  lemma SetupClosedKeepsInv(s: System)
    requires SystemInv(s) && s.phase.Establishing?
    ensures SystemInv(s.(phase := Reconnecting))
  {
    hide EndpointInv, LinkInv, Trace;
    var s' := s.(phase := Reconnecting);
    forall sid | sid in s'.client.mux.sessions
      ensures sid in s'.client.tasks && RegisteredInbox(s'.client, s'.phase, sid)
    {
      assert RegisteredInbox(s.client, s.phase, sid);
    }
    forall l | l in s'.links
      ensures LinkInv(s', l)
    {
      LinkFrame(s, s', l);
    }
  }

  lemma EstablishedKeepsClient(c: Endpoint, link: LinkId, links: set<LinkId>, issued: nat)
    requires ClientInv(c, Establishing(link), links, issued)
    ensures ClientInv(AttachLink(c, link), Dispatching(link), links, issued)
  {
    hide EndpointInv, Trace;
    var c' := AttachLink(c, link);
    AttachKeepsInv(c, link);
    NoTrace();
    forall sid | sid in c'.mux.sessions
      ensures sid in c'.tasks && RegisteredInbox(c', Dispatching(link), sid)
    {
      assert RegisteredInbox(c, Establishing(link), sid);
    }
    forall sid | sid in c'.tasks
      ensures ClientInbox(c', sid)
    {
      assert ClientInbox(c, sid);
    }
  }

  lemma EstablishedKeepsInv(s: System)
    requires SystemInv(s) && s.phase.Establishing?
    ensures SystemInv(s.(client := AttachLink(s.client, s.phase.link), phase := Dispatching(s.phase.link)))
  {
    hide EndpointInv, LinkInv, RegisteredInbox, ClientInbox;
    var link := s.phase.link;
    var s' := s.(client := AttachLink(s.client, link), phase := Dispatching(link));
    EstablishedKeepsClient(s.client, link, s.links, s.issued);
    forall l | l in s'.links
      ensures LinkInv(s', l)
    {
      if l == link {
        EstablishedKeepsLink(s, s', link);
      } else {
        LinkFrame(s, s', l);
      }
    }
  }

  lemma EstablishedKeepsLink(s: System, s': System, link: LinkId)
    requires LinkInv(s, link) && link !in s.client.links && s.client.todo == [] && s.client.mux.recvBuf == []
    requires s' == s.(client := AttachLink(s.client, link), phase := Dispatching(link))
    ensures LinkInv(s', link)
  {
    hide ServerInv, EncodeAll;
    assert Routed(s'.client, link) + s'.client.todo == [];
    NothingEncoded();
    assert Out(s'.client, link) == Out(s.client, link) == [];
  }

  lemma NoTrace()
    ensures forall sid: u32 :: Trace([], sid) == []
    ensures Body([]) == []
  {
  }

  /** Clearing a mutexed field loses nothing the sender task still owes a link. */
  lemma ClearingKeepsSending(c: Endpoint, c': Endpoint)
    requires QueueInv(c) && SpansInv(c) && DisjointSpans(c) && WiresInv(c)
    requires c'.sender == c.sender && c'.mux.queue == c.mux.queue && c'.enqueued == c.enqueued
    requires c'.started == c.started && c'.links == c.links
    requires c'.mux.linkId == c.mux.linkId || c'.mux.linkId == None
    ensures QueueInv(c') && SpansInv(c') && DisjointSpans(c') && WiresInv(c')
  {
    hide EncodeAll, Encode, AllFit;
    forall l | l in c'.links
      ensures SpanOk(c', l) && WireInv(c', l)
    {
      assert SpanOk(c, l) && WireInv(c, l);
    }
  }

  lemma ClearingKeepsEndpoint(c: Endpoint, mux: MuxState)
    requires EndpointInv(c) && (mux == ClearLink(c.mux) || mux == ClearBuffer(c.mux))
    ensures EndpointInv(c.(mux := mux))
  {
    hide QueueInv, SpansInv, DisjointSpans, WiresInv, TasksInv;
    ClearingKeepsSending(c, c.(mux := mux));
    SameTasks(c, c.(mux := mux));
  }

  /** Every registration that is cleared is remembered. */
  lemma ForgettingKeepsTask(c: Endpoint, sid: u32)
    requires sid in c.tasks && TaskInv(c, sid)
    ensures TaskInv(ForgetSessions(c), sid)
  {
    hide SessionInv, Trace, Payloads;
    assert c.tasks[sid].openedAt <= c.tasks[sid].taken <= |c.tasks[sid].inbox| by {
      SessionBounds(c.server, c.tasks[sid], Trace(c.enqueued, sid));
    }
  }

  lemma SessionBounds(server: bool, ss: Session, t: seq<Frame>)
    requires SessionInv(server, ss, t)
    ensures ss.openedAt <= ss.taken <= |ss.inbox|
  {
    hide ScriptInv, ReaderInv, WriterInv;
  }

  lemma ForgettingKeepsEndpoint(c: Endpoint)
    requires EndpointInv(c)
    ensures EndpointInv(ForgetSessions(c))
  {
    hide QueueInv, SpansInv, DisjointSpans, WiresInv, TaskInv, Trace;
    var c' := ForgetSessions(c);
    ClearingKeepsSending(c, c');
    forall sid | sid in c'.tasks
      ensures TaskInv(c', sid)
    {
      ForgettingKeepsTask(c, sid);
    }
  }

  /** The three steps of reset: the phase moves on, and one field of the mux is cleared. */
  lemma ResetKeepsInv(s: System, c': Endpoint, phase: ClientPhase)
    requires SystemInv(s)
    requires match s.phase
             case Dispatching(link) =>
               c' == s.client.(mux := ClearLink(s.client.mux)) && phase == Resetting(link) && s.client.todo == []
             case Resetting(_) => c' == ForgetSessions(s.client) && phase == Emptying
             case Emptying => c' == s.client.(mux := ClearBuffer(s.client.mux)) && phase == Reconnecting
             case _ => false
    ensures SystemInv(s.(client := c', phase := phase))
  {
    hide EndpointInv, LinkInv, Trace;
    var s' := s.(client := c', phase := phase);
    if s.phase.Resetting? {
      ForgettingKeepsEndpoint(s.client);
    } else {
      ClearingKeepsEndpoint(s.client, c'.mux);
    }
    forall sid | sid in s'.client.mux.sessions
      ensures sid in s'.client.tasks && RegisteredInbox(s'.client, s'.phase, sid)
    {
      assert RegisteredInbox(s.client, s.phase, sid);
    }
    forall sid | sid in s'.client.tasks
      ensures ClientInbox(s'.client, sid)
    {
      assert ClientInbox(s.client, sid);
    }
    forall l | l in s'.links
      ensures LinkInv(s', l)
    {
      LinkFrame(s, s', l);
    }
  }

  lemma ServerEventKeepsInv(s: System, s': System)
    requires SystemInv(s)
    requires s'.client == s.client && s'.phase == s.phase && s'.links == s.links && s'.issued == s.issued
    requires s'.up == s.up && s'.down == s.down
    requires forall link :: link in s'.servers ==> link in s.links
    requires forall link :: Peer(s', link) == Peer(s, link)
    ensures SystemInv(s')
  {
    hide LinkInv, ClientInv, Peer;
    forall l | l in s'.links
      ensures LinkInv(s', l)
    {
      LinkFrame(s, s', l);
    }
  }

  // ---------------------------------------------------------------------------
  // Bytes arriving
  // ---------------------------------------------------------------------------

  /** Bytes that continue a prefix of encoded frames are reassembled without an error and without a loss. */
  lemma ReceiveIsExact(frames: seq<Frame>, got: seq<Frame>, buf: Bytes, data: Bytes)
    requires AllFit(frames) && AllFit(got)
    requires EncodeAll(got) + buf + data <= EncodeAll(frames)
    ensures var d := Drain(buf + data);
            && d.discarded == []
            && AllFit(got + d.frames)
            && EncodeAll(got + d.frames) + d.rest == EncodeAll(got) + buf + data
  {
    hide Drain, Encode, EncodeAll, Decode;
    var x := buf + data;
    assert EncodeAll(got) + x == EncodeAll(got) + buf + data;
    ReassembledArePrefix(frames, got, x);
    SliceFits(frames, |got|, |frames|);
    DrainOfFrames(frames[|got|..], x);
    DrainConserves(x);
    var d := Drain(x);
    EncodeAllConcat(got, d.frames);
    assert EncodeAll(d.frames) + d.rest + d.discarded == EncodeAll(d.frames) + d.rest;
    assert EncodeAll(got) + (EncodeAll(d.frames) + d.rest) == EncodeAll(got) + EncodeAll(d.frames) + d.rest;
  }

  lemma ReceiveKeepsEndpoint(e: Endpoint, data: Bytes)
    requires EndpointInv(e)
    ensures EndpointInv(ReceiveBytes(e, data))
  {
    hide QueueInv, SpansInv, DisjointSpans, WiresInv, SessionInv, Trace, Drain;
    var e' := ReceiveBytes(e, data);
    SameSending(e, e');
    SameTasks(e, e');
  }

  lemma SliceOfPrefix(a: Bytes, k: nat, n: nat)
    requires k + n <= |a|
    ensures a[..k] + a[k..k + n] == a[..k + n]
  {
  }

  /** Delivery to the server: never a decoding error, and every byte accounted for. */
  lemma DeliverUpBytes(c: Endpoint, sv: Endpoint, link: LinkId, k: nat, n: nat)
    requires EndpointInv(c) && UpBytes(c, sv, link, k) && k + n <= |Out(c, link)|
    ensures var data := Out(c, link)[k..k + n];
            && Drain(sv.mux.recvBuf + data).discarded == []
            && UpBytes(c, ReceiveBytes(sv, data), link, k + n)
  {
    hide EndpointInv, EncodeAll, Drain;
    var data := Out(c, link)[k..k + n];
    var got := Routed(sv, link) + sv.todo;
    SliceOfPrefix(Out(c, link), k, n);
    if link in c.links {
      WireIsPrefix(c, link);
    }
    var frames := if link in c.links then FramesOn(c, link) else [];
    PrefixTransitive(EncodeAll(got) + sv.mux.recvBuf + data, Out(c, link), EncodeAll(frames));
    ReceiveIsExact(frames, got, sv.mux.recvBuf, data);
    var d := Drain(sv.mux.recvBuf + data);
    assert got + d.frames == Routed(sv, link) + (sv.todo + d.frames);
  }

  lemma DeliverUpKeepsLink(s: System, s': System, link: LinkId, n: nat)
    requires SystemInv(s) && link in s.servers && LinkInv(s, link)
    requires var k := Count(s.up, link);
             && k + n <= |Out(s.client, link)|
             && s' == s.(servers := s.servers[link := ReceiveBytes(s.servers[link], Out(s.client, link)[k..k + n])],
                         up := s.up[link := k + n])
    ensures LinkInv(s', link)
  {
    hide EndpointInv, EncodeAll, Drain, Trace, ServerInbox, ClientInv, Asked, UpBytes, LinkInv;
    var sv, k := s.servers[link], Count(s.up, link);
    LinkParts(s, link);
    ClientParts(s);
    DeliverUpBytes(s.client, sv, link, k, n);
    ReceiveKeepsServer(sv, Out(s.client, link)[k..k + n], link);
    LinkFromParts(s', link);
  }

  lemma LinkParts(s: System, link: LinkId)
    requires LinkInv(s, link)
    ensures ServerInv(Peer(s, link), link) && UpBytes(s.client, Peer(s, link), link, Count(s.up, link))
    ensures DownBytes(s.client, Live(s, link), Peer(s, link), link, Count(s.down, link))
  {
  }

  lemma LinkFromParts(s: System, link: LinkId)
    requires ServerInv(Peer(s, link), link) && UpBytes(s.client, Peer(s, link), link, Count(s.up, link))
    requires DownBytes(s.client, Live(s, link), Peer(s, link), link, Count(s.down, link))
    ensures LinkInv(s, link)
  {
  }

  lemma DeliverUpKeepsInv(mdu: nat, s: System, link: LinkId, n: nat)
    requires SystemInv(s) && Enabled(s, DeliverUp(link, n))
    ensures SystemInv(Next(mdu, s, DeliverUp(link, n)))
  {
    hide ClientInv, LinkInv, ReceiveBytes;
    var s' := Next(mdu, s, DeliverUp(link, n));
    DeliverUpKeepsLink(s, s', link, n);
    OneServerChanges(s, s', link);
  }

  lemma ReceiveKeepsServer(sv: Endpoint, data: Bytes, link: LinkId)
    requires ServerInv(sv, link)
    ensures ServerInv(ReceiveBytes(sv, data), link)
  {
    hide EndpointInv, Drain, Trace, Body;
    var sv' := ReceiveBytes(sv, data);
    ReceiveKeepsEndpoint(sv, data);
    forall sid | sid in sv'.tasks
      ensures ServerInbox(sv', link, sid)
    {
      assert ServerInbox(sv, link, sid);
    }
  }

  /** Delivery to the client, likewise. */
  lemma DeliverDownBytes(c: Endpoint, sv: Endpoint, link: LinkId, k: nat, n: nat)
    requires ServerShape(sv, link) && DownBytes(c, true, sv, link, k) && k + n <= |Out(sv, link)| && link in c.links
    ensures var data := Out(sv, link)[k..k + n];
            && Drain(c.mux.recvBuf + data).discarded == []
            && DownBytes(ReceiveBytes(c, data), true, sv, link, k + n)
  {
    hide EndpointInv, EncodeAll, Drain;
    var data := Out(sv, link)[k..k + n];
    var got := Routed(c, link) + c.todo;
    SliceOfPrefix(Out(sv, link), k, n);
    WireIsPrefix(sv, link);
    PrefixTransitive(EncodeAll(got) + c.mux.recvBuf + data, Out(sv, link), EncodeAll(FramesOn(sv, link)));
    ReceiveIsExact(FramesOn(sv, link), got, c.mux.recvBuf, data);
    var d := Drain(c.mux.recvBuf + data);
    assert got + d.frames == Routed(c, link) + (c.todo + d.frames);
  }

  lemma ReceiveKeepsClient(c: Endpoint, data: Bytes, link: LinkId, links: set<LinkId>, issued: nat)
    requires ClientInv(c, Dispatching(link), links, issued)
    ensures ClientInv(ReceiveBytes(c, data), Dispatching(link), links, issued)
  {
    hide EndpointInv, Trace, Drain;
    var c' := ReceiveBytes(c, data);
    ReceiveKeepsEndpoint(c, data);
    forall sid | sid in c'.mux.sessions
      ensures sid in c'.tasks && RegisteredInbox(c', Dispatching(link), sid)
    {
      assert RegisteredInbox(c, Dispatching(link), sid);
    }
    forall sid | sid in c'.tasks
      ensures ClientInbox(c', sid)
    {
      assert ClientInbox(c, sid);
    }
  }

  /** What happens to the client on its live link concerns no other link. */
  lemma LiveLinkChanges(s: System, s': System, link: LinkId)
    requires SystemInv(s) && Live(s, link)
    requires s' == s.(client := s'.client, down := s.down[link := Count(s'.down, link)])
    requires ClientInv(s'.client, s.phase, s.links, s.issued)
    requires forall l :: l in s'.client.links <==> l in s.client.links
    requires forall l | l in s.client.links :: Out(s'.client, l) == Out(s.client, l)
    requires forall l | l != link :: Routed(s'.client, l) == Routed(s.client, l)
    requires LinkInv(s', link)
    ensures SystemInv(s')
  {
    hide EndpointInv, LinkInv, ClientInv;
    assert link in s.links by { LiveIsLink(s, link); }
    forall l | l in s'.links
      ensures LinkInv(s', l)
    {
      if l != link {
        LinkFrame(s, s', l);
      }
    }
  }

  lemma LiveIsLink(s: System, link: LinkId)
    requires ClientInv(s.client, s.phase, s.links, s.issued) && Live(s, link)
    ensures link in s.links && link in s.client.links
  {
  }

  lemma DeliverDownKeepsLink(s: System, s': System, link: LinkId, n: nat)
    requires SystemInv(s) && Live(s, link) && LinkInv(s, link) && link in s.client.links
    requires var k := Count(s.down, link);
             && k + n <= |Out(Peer(s, link), link)|
             && s' == s.(client := ReceiveBytes(s.client, Out(Peer(s, link), link)[k..k + n]),
                         down := s.down[link := k + n])
    ensures LinkInv(s', link)
  {
    hide EndpointInv, EncodeAll, Drain, ServerInv, ClientInv, DownBytes, LinkInv;
    var sv, k := Peer(s, link), Count(s.down, link);
    LinkParts(s, link);
    ServerParts(sv, link);
    DeliverDownBytes(s.client, sv, link, k, n);
    assert UpBytes(s'.client, sv, link, Count(s.up, link));
    LinkFromParts(s', link);
  }

  lemma DeliverDownKeepsInv(mdu: nat, s: System, n: nat)
    requires SystemInv(s) && Enabled(s, DeliverDown(n))
    ensures SystemInv(Next(mdu, s, DeliverDown(n)))
  {
    hide EndpointInv, Drain, ClientInv, LinkInv;
    var s', link := Next(mdu, s, DeliverDown(n)), s.phase.link;
    var k := Count(s.down, link);
    LiveIsLink(s, link);
    ReceiveKeepsClient(s.client, Out(Peer(s, link), link)[k..k + n], link, s.links, s.issued);
    DeliverDownKeepsLink(s, s', link, n);
    LiveLinkChanges(s, s', link);
  }

  lemma ServerParts(sv: Endpoint, link: LinkId)
    requires ServerInv(sv, link)
    ensures ServerShape(sv, link)
  {
  }

  // ---------------------------------------------------------------------------
  // Frames being routed
  // ---------------------------------------------------------------------------

  lemma TakeTodoKeepsWire(e: Endpoint, link: LinkId, l: LinkId)
    requires e.todo != [] && SpanOk(e, l) && WireInv(e, l)
    ensures SpanOk(TakeTodo(e, link), l) && WireInv(TakeTodo(e, link), l)
  {
    hide EncodeAll, WireOk;
    assert FramesOn(TakeTodo(e, link), l) == FramesOn(e, l);
  }

  lemma TakeTodoKeepsEndpoint(e: Endpoint, link: LinkId)
    requires EndpointInv(e) && e.todo != []
    ensures EndpointInv(TakeTodo(e, link))
  {
    hide SessionInv, Trace, WireInv, Encode, AllFit;
    var e' := TakeTodo(e, link);
    forall l | l in e'.links
      ensures SpanOk(e', l) && WireInv(e', l)
    {
      TakeTodoKeepsWire(e, link, l);
    }
    SameTasks(e, e');
  }

  /** A frame arriving in an open channel does not bring its writer back. */
  lemma DeliveryKeepsEnd(ss: Session, f: Frame, via: Option<nat>)
    requires ss.openedAt <= ss.taken <= |ss.inbox| && WriterEnd(ss, true)
    ensures WriterEnd(ss.(inbox := ss.inbox + [f], via := via), true)
  {
    hide Payloads;
    assert (ss.inbox + [f])[ss.openedAt..ss.taken] == ss.inbox[ss.openedAt..ss.taken];
  }

  lemma DeliverKeepsTask(e: Endpoint, f: Frame, link: LinkId)
    requires Open(e, f.sessionId) && TaskInv(e, f.sessionId) && !e.tasks[f.sessionId].phase.Allocated?
    ensures f.sessionId in Deliver(e, f, link).tasks && TaskInv(Deliver(e, f, link), f.sessionId)
  {
    hide SessionInv, Trace, WriterEnd;
    var ss, t := e.tasks[f.sessionId], Trace(e.enqueued, f.sessionId);
    SessionBounds(e.server, ss, t);
    DeliveryKeepsSession(e.server, ss, f, Some(link), t);
    DeliveryKeepsEnd(ss, f, Some(link));
  }

  lemma DeliverKeepsEndpoint(e: Endpoint, f: Frame, link: LinkId)
    requires EndpointInv(e)
    requires f.sessionId in e.mux.sessions && f.sessionId in e.tasks ==> !e.tasks[f.sessionId].phase.Allocated?
    ensures EndpointInv(Deliver(e, f, link))
  {
    hide QueueInv, SpansInv, DisjointSpans, WiresInv, SessionInv, Trace, WriterEnd;
    var e' := Deliver(e, f, link);
    SameSending(e, e');
    forall x | x in e'.tasks
      ensures TaskInv(e', x)
    {
      assert TaskInv(e, x);
      if x == f.sessionId && Open(e, x) {
        DeliverKeepsTask(e, f, link);
      }
    }
  }

  /** A frame that is routed is one more in the log of its link. */
  lemma RouteLogs(c: Endpoint, link: LinkId, l: LinkId)
    requires c.todo != [] && link in c.links
    ensures Routed(RouteAtClient(c, link), l) == Routed(c, l) + (if l == link then [c.todo[0]] else [])
  {
    hide Listening;
    assert Routed(c, l) + [] == Routed(c, l);
  }

  /** Its session's channel takes it exactly if it can. */
  lemma RouteFills(c: Endpoint, link: LinkId, sid: u32)
    requires c.todo != [] && sid in c.tasks
    ensures var f, c' := c.todo[0], RouteAtClient(c, link);
            && sid in c'.tasks
            && c'.tasks[sid] ==
                 if f.sessionId == sid && Open(c, sid)
                 then c.tasks[sid].(inbox := c.tasks[sid].inbox + [f], via := Some(link)) else c.tasks[sid]
  {
    hide Listening;
  }

  lemma RouteFillsInbox(c: Endpoint, link: LinkId, sid: u32)
    requires c.todo != [] && sid in c.tasks && link in c.links
    ensures var f, c' := c.todo[0], RouteAtClient(c, link);
            && Trace(Routed(c', link), sid) ==
                 Trace(Routed(c, link), sid) + (if f.sessionId == sid then [f] else [])
            && (forall l | l != link :: Routed(c', l) == Routed(c, l))
            && sid in c'.tasks
            && c'.tasks[sid] ==
                 if f.sessionId == sid && Open(c, sid)
                 then c.tasks[sid].(inbox := c.tasks[sid].inbox + [f], via := Some(link)) else c.tasks[sid]
  {
    hide Trace, Open, RouteAtClient, Routed;
    RouteFills(c, link, sid);
    RouteLogs(c, link, link);
    Append(Routed(c, link), c.todo[0], sid);
    forall l | l != link
      ensures Routed(RouteAtClient(c, link), l) == Routed(c, l)
    {
      RouteLogs(c, link, l);
      assert Routed(c, l) + [] == Routed(c, l);
    }
  }

  lemma RouteKeepsRegistered(c: Endpoint, link: LinkId, sid: u32)
    requires c.todo != [] && sid in c.tasks && link in c.links && sid in c.mux.sessions
    requires RegisteredInbox(c, Dispatching(link), sid)
    ensures sid in RouteAtClient(c, link).tasks && RegisteredInbox(RouteAtClient(c, link), Dispatching(link), sid)
  {
    hide Trace, RouteAtClient, Routed;
    RouteFillsInbox(c, link, sid);
    assert Trace(Routed(c, link), sid) + [] == Trace(Routed(c, link), sid);
  }

  lemma RouteKeepsInbox(c: Endpoint, link: LinkId, sid: u32)
    requires c.todo != [] && sid in c.tasks && link in c.links && ClientInbox(c, sid)
    requires sid in c.mux.sessions ==> RegisteredInbox(c, Dispatching(link), sid)
    ensures sid in RouteAtClient(c, link).tasks && ClientInbox(RouteAtClient(c, link), sid)
  {
    hide Trace, RouteAtClient, Routed, Listening;
    var c' := RouteAtClient(c, link);
    assert forall l :: l in c'.links <==> l in c.links by { RouteKeepsLinks(c, link); }
    RouteFillsInbox(c, link, sid);
  }

  lemma RouteKeepsLinks(c: Endpoint, link: LinkId)
    requires c.todo != []
    ensures var c' := RouteAtClient(c, link);
            && (forall l :: l in c'.links <==> l in c.links)
            && c'.tasks.Keys == c.tasks.Keys && c'.mux == c.mux && c'.server == c.server
            && c'.todo == c.todo[1..]
  {
  }

  lemma RouteKeepsClientEndpoint(c: Endpoint, link: LinkId)
    requires EndpointInv(c) && c.todo != []
    requires var sid := c.todo[0].sessionId;
             sid in c.mux.sessions && sid in c.tasks ==> !c.tasks[sid].phase.Allocated?
    ensures EndpointInv(RouteAtClient(c, link))
  {
    hide EndpointInv;
    TakeTodoKeepsEndpoint(c, link);
    DeliverKeepsEndpoint(TakeTodo(c, link), c.todo[0], link);
  }

  lemma RouteKeepsClient(c: Endpoint, link: LinkId, links: set<LinkId>, issued: nat)
    requires ClientInv(c, Dispatching(link), links, issued) && c.todo != []
    ensures ClientInv(RouteAtClient(c, link), Dispatching(link), links, issued)
  {
    hide EndpointInv, RouteAtClient, ClientInbox, RegisteredInbox;
    var c', sid := RouteAtClient(c, link), c.todo[0].sessionId;
    if sid in c.mux.sessions {
      RegisteredIsUp(c, Dispatching(link), sid);
    }
    RouteKeepsClientEndpoint(c, link);
    RouteKeepsLinks(c, link);
    forall x | x in c'.mux.sessions
      ensures x in c'.tasks && RegisteredInbox(c', Dispatching(link), x)
    {
      RouteKeepsRegistered(c, link, x);
    }
    forall x | x in c'.tasks
      ensures ClientInbox(c', x)
    {
      RouteKeepsInbox(c, link, x);
    }
  }

  lemma RegisteredIsUp(c: Endpoint, phase: ClientPhase, sid: u32)
    requires sid in c.tasks && RegisteredInbox(c, phase, sid)
    ensures !c.tasks[sid].phase.Allocated?
  {
  }

  lemma RouteDownBytes(c: Endpoint, sv: Endpoint, link: LinkId, down: nat)
    requires DownBytes(c, true, sv, link, down) && c.todo != [] && link in c.links
    ensures DownBytes(RouteAtClient(c, link), true, sv, link, down)
  {
    hide EncodeAll;
    var f, c' := c.todo[0], RouteAtClient(c, link);
    assert Routed(c', link) == Routed(c, link) + [f];
    assert Routed(c', link) + c'.todo == Routed(c, link) + c.todo;
    EncodeAllConcat(Routed(c', link), c'.todo);
  }

  lemma RouteDownKeepsInv(mdu: nat, s: System)
    requires SystemInv(s) && Enabled(s, RouteDown)
    ensures SystemInv(Next(mdu, s, RouteDown))
  {
    hide EndpointInv, EncodeAll, ServerInv, ClientInv, DownBytes;
    var s', link := Next(mdu, s, RouteDown), s.phase.link;
    LiveIsLink(s, link);
    assert LinkInv(s, link);
    RouteKeepsClient(s.client, link, s.links, s.issued);
    RouteDownBytes(s.client, Peer(s, link), link, Count(s.down, link));
    LiveLinkChangesBack(s, s', link);
  }

  lemma LiveLinkChangesBack(s: System, s': System, link: LinkId)
    requires SystemInv(s) && Live(s, link) && link in s.links && link in s.client.links
    requires s.client.todo != [] && s' == s.(client := RouteAtClient(s.client, link))
    requires ClientInv(s'.client, s.phase, s.links, s.issued)
    requires DownBytes(s'.client, true, Peer(s, link), link, Count(s.down, link))
    ensures SystemInv(s')
  {
    hide EndpointInv, EncodeAll, ServerInv, ClientInv, DownBytes;
    assert LinkInv(s, link);
    assert UpBytes(s'.client, Peer(s, link), link, Count(s.up, link));
    assert LinkInv(s', link);
    forall l | l in s'.links
      ensures LinkInv(s', l)
    {
      if l != link {
        LinkFrame(s, s', l);
      }
    }
  }

  /** A Connect that reaches the server is the first thing it hears of that session. */
  lemma ConnectIsNew(c: Endpoint, sv: Endpoint, link: LinkId, up: nat)
    requires EndpointInv(c) && !c.server && UpBytes(c, sv, link, up) && Asked(sv, link)
    requires sv.todo != [] && sv.todo[0].frameType.Connect?
    ensures var sid := sv.todo[0].sessionId;
            sid !in sv.tasks && Trace(sv.enqueued, sid) == [] && Trace(Routed(sv, link), sid) == []
  {
    hide EndpointInv, EncodeAll, Trace, Routed;
    var got, sid := Routed(sv, link), sv.todo[0].sessionId;
    UpFrames(c, sv, link, up);
    assert (got + sv.todo)[|got|] == sv.todo[0];
    ConnectIsFirst(c, link, |got|);
    assert FramesOn(c, link)[..|got|] == got;
    if Connects(got, sid) {
      TraceOfConnected(got, sid);
      assert false;
    }
  }

  lemma OpenKeepsEndpoint(e: Endpoint, sid: u32, request: Request, link: LinkId)
    requires EndpointInv(e) && e.server && sid !in e.tasks && Trace(e.enqueued, sid) == []
    ensures EndpointInv(OpenSession(e, sid, request, link))
  {
    hide QueueInv, SpansInv, DisjointSpans, WiresInv, SessionInv, Trace, WriterEnd;
    var e' := OpenSession(e, sid, request, link);
    SameSending(e, e');
    ServerSessionInv(request, link);
    forall x | x in e'.tasks
      ensures TaskInv(e', x)
    {
      if x != sid {
        assert TaskInv(e, x);
      }
    }
  }

  lemma RefuseKeepsEndpoint(e: Endpoint, sid: u32)
    requires EndpointInv(e) && e.server && sid !in e.tasks && Trace(e.enqueued, sid) == [] && HasRoom(e.mux)
    ensures EndpointInv(Enqueue(e, Frame(ConnectErr, sid, INVALID_PAYLOAD)))
  {
    hide QueueInv, SpansInv, DisjointSpans, WiresInv, SessionInv, Trace, Encode;
    var f := Frame(ConnectErr, sid, INVALID_PAYLOAD);
    var e' := Enqueue(e, f);
    EnqueueKeepsQueue(e, f);
    EnqueueKeepsSpans(e, f);
    forall x: u32
      ensures Trace(e'.enqueued, x) == if x == sid then [f] else Trace(e.enqueued, x)
    {
      Append(e.enqueued, f, x);
    }
    forall x | x in e'.tasks
      ensures TaskInv(e', x)
    {
      assert TaskInv(e, x);
    }
  }

  /** The bookkeeping of routed frames: a routed frame is one more in its session's trace. */
  lemma RoutedGrows(e: Endpoint, link: LinkId, sid: u32)
    requires e.todo != [] && link in e.links
    ensures var e', f := TakeTodo(e, link), e.todo[0];
            && Routed(e', link) == Routed(e, link) + [f]
            && Trace(Routed(e', link), sid) == Trace(Routed(e, link), sid) + (if f.sessionId == sid then [f] else [])
            && Body(Trace(Routed(e', link), sid)) ==
                 Body(Trace(Routed(e, link), sid))
                 + (if f.sessionId == sid && f.frameType in {Data, Close} then [f] else [])
  {
    hide Trace, Body;
    Append(Routed(e, link), e.todo[0], sid);
    BodyOneMore(Routed(e, link), e.todo[0], sid);
  }

  lemma AskedGrows(sv: Endpoint, sv': Endpoint, link: LinkId)
    requires Asked(sv, link) && sv.todo != [] && link in sv.links
    requires Routed(sv', link) == Routed(sv, link) + [sv.todo[0]]
    requires forall sid: u32 | sid in sv'.tasks || Trace(sv'.enqueued, sid) != [] ::
               || sid in sv.tasks || Trace(sv.enqueued, sid) != []
               || (sv.todo[0].frameType.Connect? && sv.todo[0].sessionId == sid)
    ensures Asked(sv', link)
  {
    hide Trace, Routed;
    forall sid: u32 | sid in sv'.tasks || Trace(sv'.enqueued, sid) != []
      ensures Connects(Routed(sv', link), sid)
    {
      if sid in sv.tasks || Trace(sv.enqueued, sid) != [] {
        ConnectsGrows(Routed(sv, link), Routed(sv', link), sid);
      } else {
        assert sv.todo[0] in Routed(sv', link);
      }
    }
  }

  /** What routing a Connect does to sessions and queue. */
  lemma RouteConnectChanges(sv: Endpoint, link: LinkId)
    requires sv.todo != [] && sv.todo[0].frameType.Connect? && link in sv.links
    ensures var f, sv' := sv.todo[0], RouteAtServer(sv, link);
            && sv'.server == sv.server && sv'.forgotten == sv.forgotten && Routed(sv', link) == Routed(sv, link) + [f]
            && sv'.links.Keys == sv.links.Keys && sv'.links[link].lo == sv.links[link].lo
            && match DecodeRequest(f.payload)
               case Some(request) =>
                 && sv'.tasks == sv.tasks[f.sessionId := ServerSession(request, link)]
                 && sv'.mux.sessions == sv.mux.sessions + {f.sessionId} && sv'.enqueued == sv.enqueued
               case None =>
                 && sv'.tasks == sv.tasks && sv'.mux.sessions == sv.mux.sessions
                 && sv'.enqueued == sv.enqueued + [Frame(ConnectErr, f.sessionId, INVALID_PAYLOAD)]
  {
    hide DecodeRequest, Encode;
  }

  lemma RouteConnectKeepsEndpoint(sv: Endpoint, link: LinkId)
    requires EndpointInv(sv) && sv.server && sv.todo != [] && sv.todo[0].frameType.Connect?
    requires RouteNeedsRoom(sv.todo[0]) ==> HasRoom(sv.mux)
    requires sv.todo[0].sessionId !in sv.tasks && Trace(sv.enqueued, sv.todo[0].sessionId) == []
    ensures EndpointInv(RouteAtServer(sv, link))
  {
    hide EndpointInv, Trace, DecodeRequest, Encode;
    var f, e1 := sv.todo[0], TakeTodo(sv, link);
    TakeTodoKeepsEndpoint(sv, link);
    match DecodeRequest(f.payload) {
      case Some(request) => OpenKeepsEndpoint(e1, f.sessionId, request, link);
      case None => RefuseKeepsEndpoint(e1, f.sessionId);
    }
  }

  lemma RouteConnectTraces(sv: Endpoint, link: LinkId, x: u32)
    requires sv.todo != [] && sv.todo[0].frameType.Connect? && link in sv.links
    ensures var f := sv.todo[0];
            Trace(RouteAtServer(sv, link).enqueued, x) ==
              Trace(sv.enqueued, x)
              + (if DecodeRequest(f.payload).None? && x == f.sessionId
                 then [Frame(ConnectErr, f.sessionId, INVALID_PAYLOAD)] else [])
  {
    hide Trace, DecodeRequest, RouteAtServer;
    RouteConnectChanges(sv, link);
    Append(sv.enqueued, Frame(ConnectErr, sv.todo[0].sessionId, INVALID_PAYLOAD), x);
    assert Trace(sv.enqueued, x) + [] == Trace(sv.enqueued, x);
  }

  /** The Connect just routed is answered, and earlier ones, all of other sessions, still are. */
  lemma RouteConnectKeepsAnswers(sv: Endpoint, link: LinkId)
    requires Answered(sv, link) && sv.todo != [] && sv.todo[0].frameType.Connect? && link in sv.links
    requires sv.todo[0].sessionId !in sv.tasks && Trace(sv.enqueued, sv.todo[0].sessionId) == []
    requires Trace(Routed(sv, link), sv.todo[0].sessionId) == []
    ensures Answered(RouteAtServer(sv, link), link)
  {
    hide Trace, DecodeRequest, RouteAtServer, Routed;
    var f, sv' := sv.todo[0], RouteAtServer(sv, link);
    RouteConnectChanges(sv, link);
    forall g | g in Routed(sv', link) && g.frameType.Connect?
      ensures AnswerTo(sv', g)
    {
      RouteConnectTraces(sv, link, g.sessionId);
      if g in Routed(sv, link) {
        var i :| 0 <= i < |Routed(sv, link)| && Routed(sv, link)[i] == g;
        TraceAt(Routed(sv, link), i);
        assert AnswerTo(sv, g) && g.sessionId != f.sessionId;
        assert Trace(sv.enqueued, g.sessionId) + [] == Trace(sv.enqueued, g.sessionId);
      } else {
        assert g == f;
      }
    }
  }

  lemma RouteConnectKeepsInbox(sv: Endpoint, link: LinkId, x: u32)
    requires sv.todo != [] && sv.todo[0].frameType.Connect? && link in sv.links
    requires Trace(Routed(sv, link), sv.todo[0].sessionId) == []
    requires x in sv.tasks ==> ServerInbox(sv, link, x) && x != sv.todo[0].sessionId
    ensures x in RouteAtServer(sv, link).tasks ==> ServerInbox(RouteAtServer(sv, link), link, x)
  {
    hide Trace, Body, DecodeRequest, RouteAtServer, Routed;
    var f, sv' := sv.todo[0], RouteAtServer(sv, link);
    RouteConnectChanges(sv, link);
    BodyOneMore(Routed(sv, link), f, x);
    NoTrace();
    assert Body(Trace(Routed(sv, link), x)) + [] == Body(Trace(Routed(sv, link), x));
  }

  lemma RouteConnectKeepsServer(c: Endpoint, sv: Endpoint, link: LinkId, up: nat)
    requires EndpointInv(c) && !c.server && UpBytes(c, sv, link, up) && ServerInv(sv, link)
    requires sv.todo != [] && sv.todo[0].frameType.Connect?
    requires RouteNeedsRoom(sv.todo[0]) ==> HasRoom(sv.mux)
    ensures ServerInv(RouteAtServer(sv, link), link)
  {
    hide EndpointInv, Trace, DecodeRequest, Routed, UpBytes, RouteAtServer, ServerInbox, Answered, AnswerTo, RouteNeedsRoom;
    var sv' := RouteAtServer(sv, link);
    ConnectIsNew(c, sv, link, up);
    RouteConnectKeepsEndpoint(sv, link);
    RouteConnectChanges(sv, link);
    RouteConnectKeepsAnswers(sv, link);
    forall x: u32 | x in sv'.tasks || Trace(sv'.enqueued, x) != []
      ensures x in sv.tasks || Trace(sv.enqueued, x) != [] || x == sv.todo[0].sessionId
    {
      RouteConnectTraces(sv, link, x);
    }
    AskedGrows(sv, sv', link);
    forall x | x in sv'.tasks
      ensures ServerInbox(sv', link, x)
    {
      RouteConnectKeepsInbox(sv, link, x);
    }
  }

  lemma RoutedSame(sv: Endpoint, link: LinkId)
    requires sv.todo != []
    ensures Routed(RouteAtServer(sv, link), link) == Routed(TakeTodo(sv, link), link)
    ensures RouteAtServer(sv, link).todo == sv.todo[1..] && RouteAtServer(sv, link).mux.recvBuf == sv.mux.recvBuf
  {
  }

  lemma RouteOtherKeepsEndpoint(sv: Endpoint, link: LinkId)
    requires EndpointInv(sv) && sv.server && sv.todo != [] && !sv.todo[0].frameType.Connect?
    ensures EndpointInv(RouteAtServer(sv, link))
  {
    hide EndpointInv;
    var f, e1 := sv.todo[0], TakeTodo(sv, link);
    TakeTodoKeepsEndpoint(sv, link);
    if f.sessionId in e1.tasks {
      ServersNeverAllocate(e1, f.sessionId);
    }
    DeliverKeepsEndpoint(e1, f, link);
  }

  /** One session at a server when a frame other than Connect is routed. */
  lemma RouteOtherFills(sv: Endpoint, link: LinkId, sid: u32)
    requires sv.todo != [] && !sv.todo[0].frameType.Connect? && sid in sv.tasks
    ensures var f, sv' := sv.todo[0], RouteAtServer(sv, link);
            && sv'.tasks.Keys == sv.tasks.Keys && sv'.mux == sv.mux && sv'.enqueued == sv.enqueued
            && sv'.tasks[sid] ==
                 if f.sessionId == sid && f.frameType in {Data, Close} && Open(sv, sid)
                 then sv.tasks[sid].(inbox := sv.tasks[sid].inbox + [f], via := Some(link)) else sv.tasks[sid]
  {
    hide Listening;
  }

  lemma RouteOtherKeepsInbox(sv: Endpoint, link: LinkId, sid: u32)
    requires sv.todo != [] && !sv.todo[0].frameType.Connect? && sid in sv.tasks && link in sv.links
    requires ServerInbox(sv, link, sid)
    ensures sid in RouteAtServer(sv, link).tasks && ServerInbox(RouteAtServer(sv, link), link, sid)
  {
    hide Trace, Body, Routed, RouteAtServer;
    RouteOtherFills(sv, link, sid);
    assert Routed(RouteAtServer(sv, link), link) == Routed(TakeTodo(sv, link), link) by { RoutedSame(sv, link); }
    RoutedGrows(sv, link, sid);
  }

  lemma RouteOtherChanges(sv: Endpoint, link: LinkId)
    requires sv.todo != [] && !sv.todo[0].frameType.Connect? && ServerShape(sv, link)
    ensures var sv' := RouteAtServer(sv, link);
            && sv'.tasks.Keys == sv.tasks.Keys && sv'.enqueued == sv.enqueued
            && sv'.server == sv.server && sv'.forgotten == sv.forgotten
            && (forall x | x in sv.tasks ::
                  sv'.tasks[x].asked == sv.tasks[x].asked && sv'.tasks[x].udp == sv.tasks[x].udp)
            && link in sv'.links && sv'.links[link].lo == 0 && (forall l | l in sv'.links :: l == link)
            && Routed(sv', link) == Routed(sv, link) + [sv.todo[0]]
  {
    hide EndpointInv;
  }

  lemma RouteOtherKeepsAnswers(sv: Endpoint, link: LinkId)
    requires Answered(sv, link) && sv.todo != [] && !sv.todo[0].frameType.Connect? && ServerShape(sv, link)
    ensures Answered(RouteAtServer(sv, link), link)
  {
    hide EndpointInv, Trace, DecodeRequest, RouteAtServer, Routed;
    RouteOtherChanges(sv, link);
    forall f | f in Routed(RouteAtServer(sv, link), link) && f.frameType.Connect?
      ensures AnswerTo(RouteAtServer(sv, link), f)
    {
      assert AnswerTo(sv, f);
    }
  }

  lemma RouteOtherKeepsServer(sv: Endpoint, link: LinkId)
    requires ServerInv(sv, link) && sv.todo != [] && !sv.todo[0].frameType.Connect?
    ensures ServerInv(RouteAtServer(sv, link), link)
  {
    hide EndpointInv, RouteAtServer, ServerInbox, Routed, Trace, Answered;
    var sv' := RouteAtServer(sv, link);
    RouteOtherChanges(sv, link);
    RouteOtherKeepsEndpoint(sv, link);
    AskedGrows(sv, sv', link);
    assert Answered(sv', link) by { RouteOtherKeepsAnswers(sv, link); }
    forall x | x in sv'.tasks
      ensures ServerInbox(sv', link, x)
    {
      RouteOtherKeepsInbox(sv, link, x);
    }
  }

  lemma ServersNeverAllocate(e: Endpoint, sid: u32)
    requires EndpointInv(e) && e.server && sid in e.tasks
    ensures !e.tasks[sid].phase.Allocated?
  {
    assert TaskInv(e, sid);
  }

  lemma RouteUpKeepsInv(mdu: nat, s: System, link: LinkId)
    requires SystemInv(s) && Enabled(s, RouteUp(link))
    ensures SystemInv(Next(mdu, s, RouteUp(link)))
  {
    hide EndpointInv, EncodeAll, ClientInv, ServerInv, RouteAtServer, RouteNeedsRoom;
    var s', sv := Next(mdu, s, RouteUp(link)), s.servers[link];
    ClientParts(s);
    assert LinkInv(s, link);
    if sv.todo[0].frameType.Connect? {
      RouteConnectKeepsServer(s.client, sv, link, Count(s.up, link));
    } else {
      RouteOtherKeepsServer(sv, link);
    }
    assert link in sv.links by { ServerParts(sv, link); }
    RouteUpBytes(s.client, sv, link, Count(s.up, link));
    RouteKeepsOut(sv, link);
    RouteDownUnaffected(s.client, Live(s, link), sv, link, Count(s.down, link));
    OneServerChanges(s, s', link);
  }

  lemma RouteKeepsOut(sv: Endpoint, link: LinkId)
    requires sv.todo != []
    ensures Out(RouteAtServer(sv, link), link) == Out(sv, link)
  {
  }

  lemma RouteDownUnaffected(c: Endpoint, live: bool, sv: Endpoint, link: LinkId, down: nat)
    requires DownBytes(c, live, sv, link, down) && sv.todo != []
    ensures DownBytes(c, live, RouteAtServer(sv, link), link, down)
  {
    hide EncodeAll, RouteAtServer;
    RouteKeepsOut(sv, link);
  }

  lemma RouteUpBytes(c: Endpoint, sv: Endpoint, link: LinkId, up: nat)
    requires UpBytes(c, sv, link, up) && sv.todo != [] && link in sv.links
    ensures UpBytes(c, RouteAtServer(sv, link), link, up)
  {
    hide EncodeAll, Routed, RouteAtServer, Trace, Body;
    RoutedSame(sv, link);
    RoutedGrows(sv, link, 0);
    var sv' := RouteAtServer(sv, link);
    assert Routed(sv', link) + sv'.todo == Routed(sv, link) + sv.todo;
  }

  // ---------------------------------------------------------------------------
  // All steps, all runs
  // ---------------------------------------------------------------------------

  lemma InitInv()
    ensures SystemInv(Init())
  {
    NewEndpointInv(false);
  }

  lemma StepKeepsInv(mdu: nat, s: System, step: Step)
    requires Inv(s) && Enabled(s, step)
    ensures Inv(Next(mdu, s, step))
  {
    hide ClientInv, LinkInv, EndpointInv, LocalNext, LocalEnabled, RouteAtServer, RouteAtClient, ReceiveBytes;
    var s' := Next(mdu, s, step);
    if s'.issued < 0x1_0000_0000 {
      assert SystemInv(s);
      match step
      case ClientLocal(local) => ClientLocalKeepsInv(mdu, s, local);
      case ServerLocal(link, local) => ServerLocalKeepsInv(mdu, s, link, local);
      case AcceptConnection => ServerEventKeepsInv(s, s');
      case Allocate(udp) => AllocateKeepsInv(s, udp);
      case RegisterSession(sid) => RegisterKeepsInv(s, sid);
      case CreateLink(link) => CreateLinkKeepsInv(s, link);
      case SetupClosed => SetupClosedKeepsInv(s);
      case ClientEstablished => EstablishedKeepsInv(s);
      case ClientClosed => ResetKeepsInv(s, s'.client, Resetting(s.phase.link));
      case SessionsCleared => ResetKeepsInv(s, s'.client, Emptying);
      case BufferCleared => ResetKeepsInv(s, s'.client, Reconnecting);
      case ServerEstablished(link) => ServerEventKeepsInv(s, s');
      case ServerClosed(link) => ServerEventKeepsInv(s, s');
      case DeliverUp(link, n) => DeliverUpKeepsInv(mdu, s, link, n);
      case DeliverDown(n) => DeliverDownKeepsInv(mdu, s, n);
      case RouteUp(link) => RouteUpKeepsInv(mdu, s, link);
      case RouteDown => RouteDownKeepsInv(mdu, s);
    }
  }

  /** A run from a state with the invariant keeps it, however its steps interleave. */
  lemma {:induction false} RunKeepsInv(mdu: nat, start: System, steps: seq<Step>)
    requires Inv(start) && Run(mdu, start, steps).Some?
    ensures Inv(Run(mdu, start, steps).value)
    decreases |steps|
  {
    hide Inv, Enabled, Next;
    if steps != [] {
      RunKeepsInv(mdu, start, steps[..|steps| - 1]);
      StepKeepsInv(mdu, Run(mdu, start, steps[..|steps| - 1]).value, steps[|steps| - 1]);
    }
  }

  lemma ReachableInv(mdu: nat, s: System)
    requires Reachable(mdu, s)
    ensures SystemInv(s)
  {
    hide SystemInv, Next, Enabled;
    var steps :| Run(mdu, Init(), steps) == Some(s);
    InitInv();
    RunKeepsInv(mdu, Init(), steps);
  }
}
