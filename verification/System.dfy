/**
 The whole system as a transition system: one client endpoint that keeps
 reconnecting, one server endpoint for every link that was ever established, and
 the links between them. Each step is something one task, or the network, does
 between two await points; a run is any sequence of enabled steps.

 The network is assumed to deliver on every link an in-order prefix of the bytes
 handed to it, to give every link a new id, to report data of a link only
 between its established and its closed event, and to report to the dispatching
 client only the close of its own link.
 */
module System {
  import opened Basics
  import opened Frames
  import opened Reassembly
  import opened Mux
  import opened Sessions
  import opened Endpoints
  import opened ConnectPayload

  datatype ClientPhase =
    | Reconnecting
    | Establishing(link: LinkId)
    | Dispatching(link: LinkId)
    | Resetting(link: LinkId)    // reset has cleared the link id
    | Emptying                   // reset has cleared the sessions too

  datatype System = System(
    client: Endpoint,
    phase: ClientPhase,
    accepted: nat,                 // connections accepted on a live link that have no session id yet
    issued: nat,                // history: how many session ids were issued
    links: set<LinkId>,            // every id create_link ever returned
    servers: map<LinkId, Endpoint>,// the mux of every established link, with the tasks that share it
    table: set<LinkId>,            // the keys of link_muxes
    up: map<LinkId, nat>,          // bytes delivered to the server, by link
    down: map<LinkId, nat>)        // bytes delivered to the client, by link

  function Init(): System {
    System(NewEndpoint(false), Reconnecting, 0, 0, {}, map[], {}, map[], map[])
  }

  function Count(m: map<LinkId, nat>, link: LinkId): nat {
    if link in m then m[link] else 0
  }

  /** The mux a server makes for a new link. */
  function NewServer(link: LinkId): Endpoint {
    AttachLink(NewEndpoint(true), link)
  }

  /** The server's end of a link; before the server hears of the link, the mux it is going to make. */
  function Peer(s: System, link: LinkId): Endpoint {
    if link in s.servers then s.servers[link] else NewServer(link)
  }

  datatype Step =
    | ClientLocal(step: LocalStep)
    | ServerLocal(link: LinkId, serverStep: LocalStep)
    | AcceptConnection               // is_connected held
    | Allocate(udp: bool)
    | RegisterSession(sid: u32)
    | CreateLink(link: LinkId)
    | SetupClosed                    // the new link closed before it was established
    | ClientEstablished
    | ClientClosed                   // LinkClosed in the dispatch phase: reset, lock by lock
    | SessionsCleared
    | BufferCleared
    | ServerEstablished(link: LinkId)
    | ServerClosed(link: LinkId)
    | DeliverUp(link: LinkId, n: nat)
    | DeliverDown(n: nat)
    | RouteUp(link: LinkId)          // the server's event loop handles one decoded frame
    | RouteDown                      // the client's event loop handles one decoded frame

  /** The server's event loop finishes one event before it takes the next. */
  predicate ServerIdle(s: System) {
    forall link | link in s.servers :: s.servers[link].todo == []
  }

  predicate RouteNeedsRoom(f: Frame) {
    f.frameType.Connect? && DecodeRequest(f.payload).None?
  }

  predicate Enabled(s: System, step: Step) {
    match step
    case ClientLocal(step) => LocalEnabled(s.client, step)
    case ServerLocal(link, step) => link in s.servers && LocalEnabled(s.servers[link], step)
    case AcceptConnection => s.client.mux.linkId.Some?
    case Allocate(_) => s.accepted > 0
    case RegisterSession(sid) => sid in s.client.tasks && s.client.tasks[sid].phase.Allocated?
    case CreateLink(link) => s.phase.Reconnecting? && link !in s.links
    case SetupClosed => s.phase.Establishing?
    case ClientEstablished => s.phase.Establishing?
    case ClientClosed => s.phase.Dispatching? && s.client.todo == []
    case SessionsCleared => s.phase.Resetting?
    case BufferCleared => s.phase.Emptying?
    case ServerEstablished(link) => link in s.links && link !in s.servers && ServerIdle(s)
    case ServerClosed(link) => link in s.table && ServerIdle(s)
    case DeliverUp(link, n) =>
      && link in s.table && link in s.servers && ServerIdle(s)
      && Count(s.up, link) + n <= |Out(s.client, link)|
    case DeliverDown(n) =>
      && s.phase.Dispatching? && s.client.todo == []
      && Count(s.down, s.phase.link) + n <= |Out(Peer(s, s.phase.link), s.phase.link)|
    case RouteUp(link) =>
      && link in s.servers && s.servers[link].todo != []
      && (RouteNeedsRoom(s.servers[link].todo[0]) ==> HasRoom(s.servers[link].mux))
    case RouteDown => s.phase.Dispatching? && s.client.todo != []
  }

  // ---------------------------------------------------------------------------
  // What the event loops do to an endpoint
  // ---------------------------------------------------------------------------

  /** receive_data: the decoded frames wait in todo. */
  function ReceiveBytes(e: Endpoint, data: Bytes): Endpoint {
    var d := Drain(e.mux.recvBuf + data);
    e.(mux := e.mux.(recvBuf := d.rest), todo := e.todo + d.frames)
  }

  /** Takes the first decoded frame. */
  function TakeTodo(e: Endpoint, link: LinkId): Endpoint
    requires e.todo != []
  {
    e.(todo := e.todo[1..],
       links := if link in e.links
                then e.links[link := e.links[link].(routed := e.links[link].routed + [e.todo[0]])]
                else e.links)
  }

  /** Whether dispatch can put a frame into the session's channel: it is registered and its receiver exists. */
  predicate Open(e: Endpoint, sid: u32) {
    sid in e.mux.sessions && sid in e.tasks && Listening(e.tasks[sid])
  }

  /** dispatch: into the channel of the registered session, or nowhere. */
  function Deliver(e: Endpoint, f: Frame, link: LinkId): Endpoint {
    if Open(e, f.sessionId) then
      var ss := e.tasks[f.sessionId];
      e.(tasks := e.tasks[f.sessionId := ss.(inbox := ss.inbox + [f], via := Some(link))])
    else e
  }

  function RouteAtClient(e: Endpoint, link: LinkId): Endpoint
    requires e.todo != []
  {
    Deliver(TakeTodo(e, link), e.todo[0], link)
  }

  /** A valid Connect registers a session and spawns its task. */
  function OpenSession(e: Endpoint, sid: u32, request: Request, link: LinkId): Endpoint {
    e.(mux := Register(e.mux, sid), tasks := e.tasks[sid := ServerSession(request, link)])
  }

  function RouteAtServer(e: Endpoint, link: LinkId): Endpoint
    requires e.todo != []
  {
    var f := e.todo[0];
    var e1 := TakeTodo(e, link);
    match f.frameType
    case Connect =>
      (match DecodeRequest(f.payload)
       case Some(request) => OpenSession(e1, f.sessionId, request, link)
       case None => Enqueue(e1, Frame(ConnectErr, f.sessionId, INVALID_PAYLOAD)))
    case Data => Deliver(e1, f, link)
    case Close => Deliver(e1, f, link)
    case _ => e1
  }

  function AllocateSession(s: System, udp: bool): System {
    var sid := Successor(s.client.mux.nextSid);
    s.(client := s.client.(mux := s.client.mux.(nextSid := sid),
                           tasks := s.client.tasks[sid := NewSession(udp)]),
       accepted := if s.accepted > 0 then s.accepted - 1 else 0,
       issued := s.issued + 1)
  }

  function ForgetSessions(e: Endpoint): Endpoint {
    e.(mux := ClearSessions(e.mux), forgotten := e.forgotten + e.mux.sessions)
  }

  function RegisterAtClient(e: Endpoint, sid: u32): Endpoint
    requires sid in e.tasks
  {
    e.(mux := Register(e.mux, sid), tasks := e.tasks[sid := e.tasks[sid].(phase := Registered)])
  }

  function Next(mdu: nat, s: System, step: Step): System
    requires Enabled(s, step)
  {
    match step
    case ClientLocal(step) => s.(client := LocalNext(mdu, s.client, step))
    case ServerLocal(link, step) => s.(servers := s.servers[link := LocalNext(mdu, s.servers[link], step)])
    case AcceptConnection => s.(accepted := s.accepted + 1)
    case Allocate(udp) => AllocateSession(s, udp)
    case RegisterSession(sid) => s.(client := RegisterAtClient(s.client, sid))
    case CreateLink(link) => s.(phase := Establishing(link), links := s.links + {link})
    case SetupClosed => s.(phase := Reconnecting)
    case ClientEstablished => s.(client := AttachLink(s.client, s.phase.link), phase := Dispatching(s.phase.link))
    case ClientClosed => s.(client := s.client.(mux := ClearLink(s.client.mux)), phase := Resetting(s.phase.link))
    case SessionsCleared => s.(client := ForgetSessions(s.client), phase := Emptying)
    case BufferCleared => s.(client := s.client.(mux := ClearBuffer(s.client.mux)), phase := Reconnecting)
    case ServerEstablished(link) => s.(servers := s.servers[link := NewServer(link)], table := s.table + {link})
    case ServerClosed(link) => s.(table := s.table - {link})
    case DeliverUp(link, n) =>
      var k := Count(s.up, link);
      s.(servers := s.servers[link := ReceiveBytes(s.servers[link], Out(s.client, link)[k..k + n])],
         up := s.up[link := k + n])
    case DeliverDown(n) =>
      var link := s.phase.link;
      var k := Count(s.down, link);
      s.(client := ReceiveBytes(s.client, Out(Peer(s, link), link)[k..k + n]), down := s.down[link := k + n])
    case RouteUp(link) => s.(servers := s.servers[link := RouteAtServer(s.servers[link], link)])
    case RouteDown => s.(client := RouteAtClient(s.client, s.phase.link))
  }

  // ---------------------------------------------------------------------------
  // Runs
  // ---------------------------------------------------------------------------

  /** Where a run leads from a state, if every step of it is enabled when it is taken. */
  function Run(mdu: nat, start: System, steps: seq<Step>): Option<System>
    decreases |steps|
  {
    if steps == [] then Some(start)
    else
      var last := steps[|steps| - 1];
      match Run(mdu, start, steps[..|steps| - 1])
      case None => None
      case Some(s) => if Enabled(s, last) then Some(Next(mdu, s, last)) else None
  }

  /** A state the system can be in, before the session ids have wrapped around. */
  ghost predicate Reachable(mdu: nat, s: System) {
    s.issued < 0x1_0000_0000 && exists steps :: Run(mdu, Init(), steps) == Some(s)
  }
}
