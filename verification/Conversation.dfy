/**
 Whole conversations, step by step: that sessions can in fact be opened, relay both
 ways, end and be refused. The results about all states say what never happens; these
 say that what should happen can.
 */
module Conversation {
  import opened Basics
  import opened Frames
  import opened Reassembly
  import opened Traces
  import opened Mux
  import opened Sessions
  import opened Endpoints
  import opened System
  import opened ConnectPayload
  import opened Examples

  /** Some run leads from one state to another. */
  ghost predicate Leads(mdu: nat, s: System, s': System) {
    exists steps :: Run(mdu, s, steps) == Some(s')
  }

  lemma LeadsOn(mdu: nat, a: System, b: System, c: System)
    requires Leads(mdu, a, b) && Leads(mdu, b, c)
    ensures Leads(mdu, a, c)
  {
    hide Run;
    var ab :| Run(mdu, a, ab) == Some(b);
    var bc :| Run(mdu, b, bc) == Some(c);
    RunConcat(mdu, a, ab, bc);
    assert Run(mdu, a, ab + bc) == Some(c);
  }

  lemma OneStep(mdu: nat, s: System, step: Step)
    requires Enabled(s, step)
    ensures Leads(mdu, s, Next(mdu, s, step))
  {
    hide Next, Enabled;
    assert [step][..0] == [];
    assert Run(mdu, s, []) == Some(s);
    assert Run(mdu, s, [step]) == Some(Next(mdu, s, step));
  }

  lemma NoStep(mdu: nat, s: System)
    ensures Leads(mdu, s, s)
  {
    assert Run(mdu, s, []) == Some(s);
  }

  // ---------------------------------------------------------------------------
  // One end
  // ---------------------------------------------------------------------------

  /** An endpoint with one link and session 1, at rest: everything enqueued is out, everything received is routed. */
  function EndAt(server: bool, ss: Session, registered: bool, sent: seq<Frame>, got: seq<Frame>, link: LinkId): Endpoint {
    Endpoint(server, MuxState(Some(link), if registered then {1} else {}, if server then 0 else 1, [], []),
             Idle, map[1 := ss], [], sent, |sent|, {}, map[link := LinkLog(0, |sent|, EncodeAll(sent), got)])
  }

  /** Local steps, one after the other. */
  ghost predicate LocalLeads(mdu: nat, e: Endpoint, steps: seq<LocalStep>, e': Endpoint)
    decreases |steps|
  {
    if steps == [] then e' == e
    else LocalEnabled(e, steps[0]) && LocalLeads(mdu, LocalNext(mdu, e, steps[0]), steps[1..], e')
  }

  lemma {:induction false} ClientLeads(mdu: nat, s: System, steps: seq<LocalStep>, e': Endpoint)
    requires LocalLeads(mdu, s.client, steps, e')
    ensures Leads(mdu, s, s.(client := e'))
    decreases |steps|
  {
    hide LocalNext, LocalEnabled, Leads;
    if steps == [] {
      NoStep(mdu, s);
    } else {
      var e1 := LocalNext(mdu, s.client, steps[0]);
      OneStep(mdu, s, ClientLocal(steps[0]));
      ClientLeads(mdu, s.(client := e1), steps[1..], e');
      LeadsOn(mdu, s, s.(client := e1), s.(client := e'));
    }
  }

  lemma {:induction false} ServerLeads(mdu: nat, s: System, link: LinkId, steps: seq<LocalStep>, e': Endpoint)
    requires link in s.servers && LocalLeads(mdu, s.servers[link], steps, e')
    ensures Leads(mdu, s, s.(servers := s.servers[link := e']))
    decreases |steps|
  {
    hide LocalNext, LocalEnabled, Leads;
    if steps == [] {
      NoStep(mdu, s);
      assert s.servers[link := e'] == s.servers;
    } else {
      var e1 := LocalNext(mdu, s.servers[link], steps[0]);
      var s1 := s.(servers := s.servers[link := e1]);
      OneStep(mdu, s, ServerLocal(link, steps[0]));
      ServerLeads(mdu, s1, link, steps[1..], e');
      assert s1.servers[link := e'] == s.servers[link := e'];
      LeadsOn(mdu, s, s1, s.(servers := s.servers[link := e']));
    }
  }

  /** A step of the session that enqueues nothing. */
  lemma Moves(mdu: nat, server: bool, ss: Session, sent: seq<Frame>, got: seq<Frame>, link: LinkId, step: TaskStep)
    requires TaskEnabled(server, ss, true, step) && Emits(1, ss, step) == None && !step.DropRegistration?
    ensures LocalLeads(mdu, EndAt(server, ss, true, sent, got, link), [Task(1, step)],
                       EndAt(server, TaskNext(server, ss, true, step), true, sent, got, link))
  {
    hide TaskEnabled, TaskNext, Emits, EncodeAll;
    var e := EndAt(server, ss, true, sent, got, link);
    assert LocalNext(mdu, e, Task(1, step)) == EndAt(server, TaskNext(server, ss, true, step), true, sent, got, link);
  }

  lemma Drops(mdu: nat, server: bool, ss: Session, sent: seq<Frame>, got: seq<Frame>, link: LinkId)
    requires ss.phase.Dropping?
    ensures LocalLeads(mdu, EndAt(server, ss, true, sent, got, link), [Task(1, DropRegistration)],
                       EndAt(server, ss.(phase := Done, dropped := true), false, sent, got, link))
  {
    hide EncodeAll;
    var e := EndAt(server, ss, true, sent, got, link);
    assert LocalNext(mdu, e, Task(1, DropRegistration)) ==
           EndAt(server, ss.(phase := Done, dropped := true), false, sent, got, link);
  }

  /** The frame is taken off the queue and goes out in one chunk. */
  const PASS_ON: seq<LocalStep> := [TakeFrame, ReadLink, ChunkSent]

  /** The endpoint with one frame in the queue. */
  function Queued(server: bool, ss: Session, sent: seq<Frame>, got: seq<Frame>, link: LinkId, f: Frame): Endpoint {
    Enqueue(EndAt(server, ss, true, sent, got, link), f)
  }

  lemma PassesOn(mdu: nat, server: bool, ss: Session, sent: seq<Frame>, got: seq<Frame>, link: LinkId, f: Frame)
    requires mdu >= |Encode(f)|
    ensures LocalLeads(mdu, Queued(server, ss, sent, got, link, f), PASS_ON,
                       EndAt(server, ss, true, sent + [f], got, link))
  {
    hide Encode, EncodeAll, LocalLeads;
    var e := Queued(server, ss, sent, got, link, f);
    var data := Encode(f);
    var e1 := LocalNext(mdu, e, TakeFrame);
    var e2 := LocalNext(mdu, e1, ReadLink);
    var e3 := LocalNext(mdu, e2, ChunkSent);
    assert data[..|data|] == data && data[|data|..] == [] && data != [] by { NotEmpty(f); }
    EncodeAllConcat(sent, [f]);
    EncodeAllOne(f);
    assert [data][1..] == [] && e2.sender == Sending(link, data);
    assert e3 == EndAt(server, ss, true, sent + [f], got, link);
    ThreeSteps(mdu, e, TakeFrame, ReadLink, ChunkSent);
  }

  lemma NotEmpty(f: Frame)
    ensures Encode(f) != []
  {
  }

  lemma ThreeSteps(mdu: nat, e: Endpoint, a: LocalStep, b: LocalStep, c: LocalStep)
    requires LocalEnabled(e, a) && LocalEnabled(LocalNext(mdu, e, a), b)
    requires LocalEnabled(LocalNext(mdu, LocalNext(mdu, e, a), b), c)
    ensures LocalLeads(mdu, e, [a, b, c], LocalNext(mdu, LocalNext(mdu, LocalNext(mdu, e, a), b), c))
  {
    hide LocalNext, LocalEnabled;
    var e1 := LocalNext(mdu, e, a);
    var e2 := LocalNext(mdu, e1, b);
    var e3 := LocalNext(mdu, e2, c);
    assert LocalLeads(mdu, e3, [], e3);
    assert [c][1..] == [] && LocalLeads(mdu, e2, [c], e3);
    assert [b, c][1..] == [c] && LocalLeads(mdu, e1, [b, c], e3);
    assert [a, b, c][1..] == [b, c];
  }

  /** A step of the session that enqueues a frame, and the frame going out. */
  lemma Sends(mdu: nat, server: bool, ss: Session, sent: seq<Frame>, got: seq<Frame>, link: LinkId, step: TaskStep, f: Frame)
    requires TaskEnabled(server, ss, true, step) && Emits(1, ss, step) == Some(f) && mdu >= |Encode(f)|
    ensures LocalLeads(mdu, EndAt(server, ss, true, sent, got, link), [Task(1, step)] + PASS_ON,
                       EndAt(server, TaskNext(server, ss, true, step), true, sent + [f], got, link))
  {
    hide TaskEnabled, TaskNext, Encode, EncodeAll;
    var e := EndAt(server, ss, true, sent, got, link);
    assert !step.DropRegistration?;
    assert LocalNext(mdu, e, Task(1, step)) == Queued(server, TaskNext(server, ss, true, step), sent, got, link, f);
    PassesOn(mdu, server, TaskNext(server, ss, true, step), sent, got, link, f);
    assert ([Task(1, step)] + PASS_ON)[1..] == PASS_ON;
  }

  /** The session after a frame was dispatched to it. */
  function Received(ss: Session, registered: bool, f: Frame, link: LinkId): Session {
    if registered && Listening(ss) then ss.(inbox := ss.inbox + [f], via := Some(link)) else ss
  }

  lemma Arrives(server: bool, ss: Session, registered: bool, sent: seq<Frame>, got: seq<Frame>, link: LinkId, f: Frame)
    requires Fits(f) && f.sessionId == 1 && (server ==> f.frameType in {Data, Close})
    ensures var e := EndAt(server, ss, registered, sent, got, link);
            && ReceiveBytes(e, Encode(f)) == e.(todo := [f])
            && (if server then RouteAtServer(e.(todo := [f]), link) else RouteAtClient(e.(todo := [f]), link)) ==
                 EndAt(server, Received(ss, registered, f, link), registered, sent, got + [f], link)
  {
    hide Encode, Drain, EncodeAll, Listening;
    EncodeAllOne(f);
    DrainOfAll([f]);
    var e := EndAt(server, ss, registered, sent, got, link);
    assert [] + Encode(f) == Encode(f) && [] + [f] == [f] && [f][1..] == [];
  }

  // ---------------------------------------------------------------------------
  // Both ends
  // ---------------------------------------------------------------------------

  /** Client and server at rest; what each has sent, the other has got. */
  function Both(c: Session, inUse: bool, sv: Session, open: bool, up: seq<Frame>, down: seq<Frame>, link: LinkId): System {
    System(EndAt(false, c, inUse, up, down, link), Dispatching(link), 0, 1, {link},
           map[link := EndAt(true, sv, open, down, up, link)], {link},
           map[link := |EncodeAll(up)|], map[link := |EncodeAll(down)|])
  }

  lemma NextBytes(sent: seq<Frame>, f: Frame)
    ensures |EncodeAll(sent)| + |Encode(f)| == |EncodeAll(sent + [f])|
    ensures EncodeAll(sent + [f])[|EncodeAll(sent)|..|EncodeAll(sent)| + |Encode(f)|] == Encode(f)
  {
    EncodeAllConcat(sent, [f]);
    EncodeAllOne(f);
  }

  /** The server gets the bytes of a frame that is out. */
  lemma BytesUp(mdu: nat, s: System, e: Endpoint, link: LinkId, up: seq<Frame>, f: Frame)
    requires s.servers == map[link := e] && s.table == {link} && e.todo == []
    requires Count(s.up, link) == |EncodeAll(up)| && Out(s.client, link) == EncodeAll(up + [f])
    requires ReceiveBytes(e, Encode(f)) == e.(todo := [f])
    ensures Leads(mdu, s, s.(servers := map[link := e.(todo := [f])], up := s.up[link := |EncodeAll(up + [f])|]))
  {
    hide Leads, Encode, EncodeAll, ReceiveBytes;
    NextBytes(up, f);
    OneStep(mdu, s, DeliverUp(link, |Encode(f)|));
    assert s.servers[link := e.(todo := [f])] == map[link := e.(todo := [f])];
  }

  /** And routes the frame. */
  lemma RoutesUp(mdu: nat, s: System, e: Endpoint, link: LinkId, f: Frame)
    requires s.servers == map[link := e] && e.todo == [f] && !f.frameType.Connect?
    ensures Leads(mdu, s, s.(servers := map[link := RouteAtServer(e, link)]))
  {
    hide Leads, RouteAtServer;
    OneStep(mdu, s, RouteUp(link));
    assert s.servers[link := RouteAtServer(e, link)] == map[link := RouteAtServer(e, link)];
  }

  lemma GetsUp(mdu: nat, c: Session, sv: Session, open: bool, up: seq<Frame>, down: seq<Frame>, link: LinkId, f: Frame)
    requires Fits(f) && f.sessionId == 1 && f.frameType in {Data, Close}
    ensures Leads(mdu, Both(c, true, sv, open, up, down, link).(client := EndAt(false, c, true, up + [f], down, link)),
                  Both(c, true, Received(sv, open, f, link), open, up + [f], down, link))
  {
    hide Leads, Encode, EncodeAll, Received, RouteAtServer, ReceiveBytes;
    var s1 := Both(c, true, sv, open, up, down, link).(client := EndAt(false, c, true, up + [f], down, link));
    var e := EndAt(true, sv, open, down, up, link);
    Arrives(true, sv, open, down, up, link, f);
    BytesUp(mdu, s1, e, link, up, f);
    var s2 := s1.(servers := map[link := e.(todo := [f])], up := s1.up[link := |EncodeAll(up + [f])|]);
    RoutesUp(mdu, s2, e.(todo := [f]), link, f);
    assert s1.up[link := |EncodeAll(up + [f])|] == map[link := |EncodeAll(up + [f])|];
    LeadsOn(mdu, s1, s2, Both(c, true, Received(sv, open, f, link), open, up + [f], down, link));
  }

  /** From the client to the server. */
  lemma FrameUp(mdu: nat, c: Session, sv: Session, open: bool, up: seq<Frame>, down: seq<Frame>, link: LinkId,
                step: TaskStep, f: Frame)
    requires TaskEnabled(false, c, true, step) && Emits(1, c, step) == Some(f) && mdu >= |Encode(f)|
    requires Fits(f) && f.sessionId == 1 && f.frameType in {Data, Close}
    ensures Leads(mdu, Both(c, true, sv, open, up, down, link),
                  Both(TaskNext(false, c, true, step), true, Received(sv, open, f, link), open, up + [f], down, link))
  {
    hide Leads, Encode, EncodeAll, TaskEnabled, TaskNext, Emits, Received, LocalLeads, EndAt;
    var s, c' := Both(c, true, sv, open, up, down, link), TaskNext(false, c, true, step);
    var s1 := s.(client := EndAt(false, c', true, up + [f], down, link));
    Sends(mdu, false, c, up, down, link, step, f);
    ClientLeads(mdu, s, [Task(1, step)] + PASS_ON, s1.client);
    GetsUp(mdu, c', sv, open, up, down, link, f);
    LeadsOn(mdu, s, s1, Both(c', true, Received(sv, open, f, link), open, up + [f], down, link));
  }

  /** The client gets the bytes of a frame that is out. */
  lemma BytesDown(mdu: nat, s: System, e: Endpoint, link: LinkId, down: seq<Frame>, f: Frame)
    requires s.servers == map[link := e] && s.phase == Dispatching(link) && s.client.todo == []
    requires Count(s.down, link) == |EncodeAll(down)| && Out(e, link) == EncodeAll(down + [f])
    requires ReceiveBytes(s.client, Encode(f)) == s.client.(todo := [f])
    ensures Leads(mdu, s, s.(client := s.client.(todo := [f]), down := s.down[link := |EncodeAll(down + [f])|]))
  {
    hide Leads, Encode, EncodeAll, ReceiveBytes, NewServer;
    NextBytes(down, f);
    OneStep(mdu, s, DeliverDown(|Encode(f)|));
  }

  lemma RoutesDown(mdu: nat, s: System, link: LinkId, f: Frame)
    requires s.phase == Dispatching(link) && s.client.todo == [f]
    ensures Leads(mdu, s, s.(client := RouteAtClient(s.client, link)))
  {
    hide Leads, RouteAtClient;
    OneStep(mdu, s, RouteDown);
  }

  lemma GetsDown(mdu: nat, c: Session, inUse: bool, sv: Session, up: seq<Frame>, down: seq<Frame>, link: LinkId, f: Frame)
    requires Fits(f) && f.sessionId == 1
    ensures Leads(mdu, Both(c, inUse, sv, true, up, down, link).(servers := map[link := EndAt(true, sv, true, down + [f], up, link)]),
                  Both(Received(c, inUse, f, link), inUse, sv, true, up, down + [f], link))
  {
    hide Leads, Encode, EncodeAll, Received, RouteAtClient, ReceiveBytes;
    var e := EndAt(true, sv, true, down + [f], up, link);
    var s1 := Both(c, inUse, sv, true, up, down, link).(servers := map[link := e]);
    Arrives(false, c, inUse, up, down, link, f);
    BytesDown(mdu, s1, e, link, down, f);
    var s2 := s1.(client := s1.client.(todo := [f]), down := s1.down[link := |EncodeAll(down + [f])|]);
    RoutesDown(mdu, s2, link, f);
    assert s1.down[link := |EncodeAll(down + [f])|] == map[link := |EncodeAll(down + [f])|];
    LeadsOn(mdu, s1, s2, Both(Received(c, inUse, f, link), inUse, sv, true, up, down + [f], link));
  }

  /** And from the server to the client. */
  lemma FrameDown(mdu: nat, c: Session, inUse: bool, sv: Session, up: seq<Frame>, down: seq<Frame>, link: LinkId,
                  step: TaskStep, f: Frame)
    requires TaskEnabled(true, sv, true, step) && Emits(1, sv, step) == Some(f) && mdu >= |Encode(f)|
    requires Fits(f) && f.sessionId == 1
    ensures Leads(mdu, Both(c, inUse, sv, true, up, down, link),
                  Both(Received(c, inUse, f, link), inUse, TaskNext(true, sv, true, step), true, up, down + [f], link))
  {
    hide Leads, Encode, EncodeAll, TaskEnabled, TaskNext, Emits, Received, LocalLeads, EndAt;
    var s, sv' := Both(c, inUse, sv, true, up, down, link), TaskNext(true, sv, true, step);
    var e1 := EndAt(true, sv', true, down + [f], up, link);
    Sends(mdu, true, sv, down, up, link, step, f);
    ServerLeads(mdu, s, link, [Task(1, step)] + PASS_ON, e1);
    assert s.servers[link := e1] == map[link := e1];
    GetsDown(mdu, c, inUse, sv', up, down, link, f);
    LeadsOn(mdu, s, s.(servers := map[link := e1]), Both(Received(c, inUse, f, link), inUse, sv', true, up, down + [f], link));
  }

  /** A step at the client that sends nothing. */
  lemma AtClient(mdu: nat, c: Session, sv: Session, open: bool, up: seq<Frame>, down: seq<Frame>, link: LinkId, step: TaskStep)
    requires TaskEnabled(false, c, true, step) && Emits(1, c, step) == None && !step.DropRegistration?
    ensures Leads(mdu, Both(c, true, sv, open, up, down, link),
                  Both(TaskNext(false, c, true, step), true, sv, open, up, down, link))
  {
    hide Leads, EncodeAll, TaskEnabled, TaskNext, Emits, LocalLeads, EndAt;
    Moves(mdu, false, c, up, down, link, step);
    ClientLeads(mdu, Both(c, true, sv, open, up, down, link), [Task(1, step)],
                EndAt(false, TaskNext(false, c, true, step), true, up, down, link));
  }

  lemma AtServer(mdu: nat, c: Session, inUse: bool, sv: Session, up: seq<Frame>, down: seq<Frame>, link: LinkId, step: TaskStep)
    requires TaskEnabled(true, sv, true, step) && Emits(1, sv, step) == None && !step.DropRegistration?
    ensures Leads(mdu, Both(c, inUse, sv, true, up, down, link),
                  Both(c, inUse, TaskNext(true, sv, true, step), true, up, down, link))
  {
    hide Leads, EncodeAll, TaskEnabled, TaskNext, Emits, LocalLeads, EndAt;
    var s, e1 := Both(c, inUse, sv, true, up, down, link), EndAt(true, TaskNext(true, sv, true, step), true, down, up, link);
    Moves(mdu, true, sv, down, up, link, step);
    ServerLeads(mdu, s, link, [Task(1, step)], e1);
    assert s.servers[link := e1] == map[link := e1];
  }

  lemma ClientDrops(mdu: nat, c: Session, sv: Session, open: bool, up: seq<Frame>, down: seq<Frame>, link: LinkId)
    requires c.phase.Dropping?
    ensures Leads(mdu, Both(c, true, sv, open, up, down, link),
                  Both(c.(phase := Done, dropped := true), false, sv, open, up, down, link))
  {
    hide Leads, EncodeAll, LocalLeads, EndAt;
    Drops(mdu, false, c, up, down, link);
    ClientLeads(mdu, Both(c, true, sv, open, up, down, link), [Task(1, DropRegistration)],
                EndAt(false, c.(phase := Done, dropped := true), false, up, down, link));
  }

  lemma ServerDrops(mdu: nat, c: Session, inUse: bool, sv: Session, up: seq<Frame>, down: seq<Frame>, link: LinkId)
    requires sv.phase.Dropping?
    ensures Leads(mdu, Both(c, inUse, sv, true, up, down, link),
                  Both(c, inUse, sv.(phase := Done, dropped := true), false, up, down, link))
  {
    hide Leads, EncodeAll, LocalLeads, EndAt;
    var s, e1 := Both(c, inUse, sv, true, up, down, link), EndAt(true, sv.(phase := Done, dropped := true), false, down, up, link);
    Drops(mdu, true, sv, down, up, link);
    ServerLeads(mdu, s, link, [Task(1, DropRegistration)], e1);
    assert s.servers[link := e1] == map[link := e1];
  }

  // ---------------------------------------------------------------------------
  // A TCP session from beginning to end
  // ---------------------------------------------------------------------------

  const OK: Frame := Frame(ConnectOk, 1, [])
  const CLOSING: Frame := Frame(Close, 1, [])

  function Asking(): Session {
    NewSession(false).(phase := Waiting, asked := Some(REQUEST))
  }

  /** The request has arrived, and the server is about to decide. */
  lemma Asks(mdu: nat, link: LinkId)
    requires mdu >= |Encode(OPENING)|
    ensures Leads(mdu, Init(), Both(Asking(), true, ServerSession(REQUEST, link), true, [OPENING], [], link))
  {
    hide Run, Encode, EncodeAll, EncodeRequest, Drain, Init;
    var s := ArrivingRun(mdu, link);
    assert Leads(mdu, Init(), s);
    EncodeAllOne(OPENING);
    NothingBuffered();
    hide Leads;
    OneStep(mdu, s, DeliverDown(0));
    var s' := Next(mdu, s, DeliverDown(0));
    assert [] + Out(Opened(link), link)[0..0] == [];
    assert s'.client == EndAt(false, Asking(), true, [OPENING], [], link);
    assert Opened(link) == EndAt(true, ServerSession(REQUEST, link), true, [], [OPENING], link) by {
      var none: set<u32> := {};
      assert none + {1} == {1};
    }
    assert s' == Both(Asking(), true, ServerSession(REQUEST, link), true, [OPENING], [], link);
    LeadsOn(mdu, Init(), s, s');
  }

  lemma NothingBuffered()
    ensures Drain([]) == Drained([], [], []) && EncodeAll([]) == []
  {
  }

  function RelayingClient(link: LinkId): Session {
    Asking().(phase := Relaying, inbox := [OK], taken := 1, via := Some(link),
              reader := Reading(None), writing := true, openedAt := 1)
  }

  function RelayingServer(link: LinkId): Session {
    ServerSession(REQUEST, link).(phase := Relaying, reader := Reading(None), writing := true)
  }

  /** The server accepts; both ends relay. */
  lemma Connects(mdu: nat, link: LinkId)
    requires mdu >= |Encode(OPENING)| && mdu >= 7
    ensures Leads(mdu, Init(), Both(RelayingClient(link), true, RelayingServer(link), true, [OPENING], [OK], link))
  {
    hide Leads, EncodeAll, Both, Encode;
    var c, sv := Asking(), ServerSession(REQUEST, link);
    Asks(mdu, link);
    assert |Encode(OK)| == 7;
    assert [] + [OK] == [OK];
    FrameDown(mdu, c, true, sv, [OPENING], [], link, Accept, OK);
    var c1 := Received(c, true, OK, link);
    assert TaskNext(true, sv, true, Accept) == RelayingServer(link);
    AtClient(mdu, c1, RelayingServer(link), true, [OPENING], [OK], link, AwaitFrame(Relaying));
    assert TaskNext(false, c1, true, AwaitFrame(Relaying)) == RelayingClient(link);
    LeadsOn(mdu, Init(), Both(c, true, sv, true, [OPENING], [], link), Both(c1, true, RelayingServer(link), true, [OPENING], [OK], link));
    LeadsOn(mdu, Init(), Both(c1, true, RelayingServer(link), true, [OPENING], [OK], link),
            Both(RelayingClient(link), true, RelayingServer(link), true, [OPENING], [OK], link));
  }

  /** A relay with nothing under way. */
  predicate AtRest(ss: Session) {
    ss.phase.Relaying? && ss.reader == Reading(None) && ss.writing && ss.taken == |ss.inbox|
  }

  /** The session that has read a chunk and sent it. */
  function Read1(ss: Session, x: Bytes): Session {
    ss.(chunks := ss.chunks + [x])
  }

  /** The session that has received the chunk and written it. */
  function Wrote(ss: Session, x: Bytes, link: LinkId): Session {
    ss.(inbox := ss.inbox + [Frame(Data, 1, x)], taken := ss.taken + 1, via := Some(link),
        handled := ss.handled + [x], written := ss.written + [x])
  }

  /** What the client reads, the server writes. */
  lemma Uploads(mdu: nat, c: Session, sv: Session, up: seq<Frame>, down: seq<Frame>, link: LinkId, x: Bytes)
    requires AtRest(c) && AtRest(sv) && 0 < |x| <= READ_SIZE && mdu >= 7 + |x|
    ensures Leads(mdu, Both(c, true, sv, true, up, down, link),
                  Both(Read1(c, x), true, Wrote(sv, x, link), true, up + [Frame(Data, 1, x)], down, link))
  {
    hide Leads, Both, Encode;
    var f, held := Frame(Data, 1, x), c.(reader := Reading(Some(x)), chunks := c.chunks + [x]);
    AtClient(mdu, c, sv, true, up, down, link, Read(x));
    FrameUp(mdu, held, sv, true, up, down, link, SendData, f);
    assert TaskNext(false, held, true, SendData) == Read1(c, x);
    var got := Received(sv, true, f, link);
    AtServer(mdu, Read1(c, x), true, got, up + [f], down, link, Write(Whole));
    assert TaskNext(true, got, true, Write(Whole)) == Wrote(sv, x, link);
    LeadsOn(mdu, Both(c, true, sv, true, up, down, link), Both(held, true, sv, true, up, down, link),
            Both(Read1(c, x), true, got, true, up + [f], down, link));
    LeadsOn(mdu, Both(c, true, sv, true, up, down, link), Both(Read1(c, x), true, got, true, up + [f], down, link),
            Both(Read1(c, x), true, Wrote(sv, x, link), true, up + [f], down, link));
  }

  /** What the server reads, the client writes. */
  lemma Downloads(mdu: nat, c: Session, sv: Session, up: seq<Frame>, down: seq<Frame>, link: LinkId, x: Bytes)
    requires AtRest(c) && AtRest(sv) && 0 < |x| <= READ_SIZE && mdu >= 7 + |x|
    ensures Leads(mdu, Both(c, true, sv, true, up, down, link),
                  Both(Wrote(c, x, link), true, Read1(sv, x), true, up, down + [Frame(Data, 1, x)], link))
  {
    hide Leads, Both, Encode;
    var f, held := Frame(Data, 1, x), sv.(reader := Reading(Some(x)), chunks := sv.chunks + [x]);
    AtServer(mdu, c, true, sv, up, down, link, Read(x));
    FrameDown(mdu, c, true, held, up, down, link, SendData, f);
    assert TaskNext(true, held, true, SendData) == Read1(sv, x);
    var got := Received(c, true, f, link);
    AtClient(mdu, got, Read1(sv, x), true, up, down + [f], link, Write(Whole));
    assert TaskNext(false, got, true, Write(Whole)) == Wrote(c, x, link);
    LeadsOn(mdu, Both(c, true, sv, true, up, down, link), Both(c, true, held, true, up, down, link),
            Both(got, true, Read1(sv, x), true, up, down + [f], link));
    LeadsOn(mdu, Both(c, true, sv, true, up, down, link), Both(got, true, Read1(sv, x), true, up, down + [f], link),
            Both(Wrote(c, x, link), true, Read1(sv, x), true, up, down + [f], link));
  }

  function ClientOver(c: Session): Session {
    c.(phase := Done, dropped := true, reader := Stopped)
  }

  function ServerOver(sv: Session, link: LinkId): Session {
    sv.(phase := Done, dropped := true, inbox := sv.inbox + [CLOSING], taken := sv.taken + 1, via := Some(link), writing := false)
  }

  /** The client's socket ends: it sends its Close and drops the session. */
  lemma ClientEnds(mdu: nat, c: Session, sv: Session, up: seq<Frame>, down: seq<Frame>, link: LinkId)
    requires AtRest(c) && AtRest(sv) && mdu >= 7
    ensures Leads(mdu, Both(c, true, sv, true, up, down, link),
                  Both(ClientOver(c), false, Received(sv, true, CLOSING, link), true, up + [CLOSING], down, link))
  {
    hide Leads, Both, Encode;
    var s := Both(c, true, sv, true, up, down, link);
    var stopped := c.(reader := Stopped);
    var closing := stopped.(phase := Closing);
    var dropping := stopped.(phase := Dropping);
    var got := Received(sv, true, CLOSING, link);
    assert |Encode(CLOSING)| == 7;
    AtClient(mdu, c, sv, true, up, down, link, StopReader);
    AtClient(mdu, stopped, sv, true, up, down, link, EndRelay);
    FrameUp(mdu, closing, sv, true, up, down, link, SendClose, CLOSING);
    ClientDrops(mdu, dropping, got, true, up + [CLOSING], down, link);
    LeadsOn(mdu, s, Both(stopped, true, sv, true, up, down, link), Both(closing, true, sv, true, up, down, link));
    LeadsOn(mdu, s, Both(closing, true, sv, true, up, down, link), Both(dropping, true, got, true, up + [CLOSING], down, link));
    LeadsOn(mdu, s, Both(dropping, true, got, true, up + [CLOSING], down, link),
            Both(ClientOver(c), false, got, true, up + [CLOSING], down, link));
  }

  /** The server takes the Close, sends its own and drops the session; the client's channel is gone by then. */
  lemma ServerEnds(mdu: nat, c: Session, sv: Session, up: seq<Frame>, down: seq<Frame>, link: LinkId)
    requires AtRest(sv) && mdu >= 7
    ensures Leads(mdu, Both(c, false, Received(sv, true, CLOSING, link), true, up, down, link),
                  Both(c, false, ServerOver(sv, link), false, up, down + [CLOSING], link))
  {
    hide Leads, Both, Encode;
    var got := Received(sv, true, CLOSING, link);
    var s := Both(c, false, got, true, up, down, link);
    var ended := got.(taken := got.taken + 1, writing := false);
    var closing := ended.(phase := Closing);
    var dropping := ended.(phase := Dropping);
    assert |Encode(CLOSING)| == 7;
    AtServer(mdu, c, false, got, up, down, link, Write(Whole));
    AtServer(mdu, c, false, ended, up, down, link, EndRelay);
    FrameDown(mdu, c, false, closing, up, down, link, SendClose, CLOSING);
    ServerDrops(mdu, c, false, dropping, up, down + [CLOSING], link);
    LeadsOn(mdu, s, Both(c, false, ended, true, up, down, link), Both(c, false, closing, true, up, down, link));
    LeadsOn(mdu, s, Both(c, false, closing, true, up, down, link), Both(c, false, dropping, true, up, down + [CLOSING], link));
    LeadsOn(mdu, s, Both(c, false, dropping, true, up, down + [CLOSING], link),
            Both(c, false, ServerOver(sv, link), false, up, down + [CLOSING], link));
  }

  /**
   A whole session is possible, with any one read in each direction: it opens, each side
   writes what the other read, and both sides say Close once and are no longer registered.
   */
  lemma SessionsCanComplete(mdu: nat, link: LinkId, x: Bytes, y: Bytes) returns (s: System)
    requires 0 < |x| <= READ_SIZE && 0 < |y| <= READ_SIZE
    requires mdu >= |Encode(OPENING)| && mdu >= 7 + |x| && mdu >= 7 + |y|
    ensures Reachable(mdu, s) && link in s.servers && 1 in s.client.tasks && 1 in s.servers[link].tasks
    ensures var c, sv := s.client.tasks[1], s.servers[link].tasks[1];
            && c.phase.Done? && c.chunks == [x] && c.written == [y] && 1 !in s.client.mux.sessions
            && sv.phase.Done? && sv.chunks == [y] && sv.written == [x] && 1 !in s.servers[link].mux.sessions
    ensures s.client.enqueued == [OPENING, Frame(Data, 1, x), CLOSING]
    ensures s.servers[link].enqueued == [OK, Frame(Data, 1, y), CLOSING]
  {
    hide Leads, Encode, EncodeAll, EncodeRequest, Init;
    var c0, d0 := RelayingClient(link), RelayingServer(link);
    var c1, d1 := Read1(c0, x), Wrote(d0, x, link);
    var c2, d2 := Wrote(c1, y, link), Read1(d1, y);
    var up, down := [OPENING] + [Frame(Data, 1, x)], [OK] + [Frame(Data, 1, y)];
    s := Both(ClientOver(c2), false, ServerOver(d2, link), false, up + [CLOSING], down + [CLOSING], link);
    assert Leads(mdu, Init(), s) by {
      hide Both, RelayingClient, RelayingServer, Read1, Wrote, ClientOver, ServerOver, AtRest, Received;
      Connects(mdu, link);
      StillAtRest(link, x, y);
      Uploads(mdu, c0, d0, [OPENING], [OK], link, x);
      LeadsOn(mdu, Init(), Both(c0, true, d0, true, [OPENING], [OK], link), Both(c1, true, d1, true, up, [OK], link));
      Downloads(mdu, c1, d1, up, [OK], link, y);
      LeadsOn(mdu, Init(), Both(c1, true, d1, true, up, [OK], link), Both(c2, true, d2, true, up, down, link));
      ClientEnds(mdu, c2, d2, up, down, link);
      ServerEnds(mdu, ClientOver(c2), d2, up + [CLOSING], down, link);
      LeadsOn(mdu, Init(), Both(c2, true, d2, true, up, down, link),
              Both(ClientOver(c2), false, Received(d2, true, CLOSING, link), true, up + [CLOSING], down, link));
      LeadsOn(mdu, Init(), Both(ClientOver(c2), false, Received(d2, true, CLOSING, link), true, up + [CLOSING], down, link), s);
    }
    LedToIsReachable(mdu, s);
  }

  lemma StillAtRest(link: LinkId, x: Bytes, y: Bytes)
    ensures AtRest(RelayingClient(link)) && AtRest(RelayingServer(link))
    ensures AtRest(Read1(RelayingClient(link), x)) && AtRest(Wrote(RelayingServer(link), x, link))
    ensures AtRest(Wrote(Read1(RelayingClient(link), x), y, link))
    ensures AtRest(Read1(Wrote(RelayingServer(link), x, link), y))
  {
  }

  lemma LedToIsReachable(mdu: nat, s: System)
    requires Leads(mdu, Init(), s) && s.issued < 0x1_0000_0000
    ensures Reachable(mdu, s)
  {
  }

  // ---------------------------------------------------------------------------
  // A session that is refused
  // ---------------------------------------------------------------------------

  /** A refusal reaches the client with its reason; the server's session is over, and the client's stays registered. */
  lemma SessionsCanBeRefused(mdu: nat, link: LinkId, reason: Bytes) returns (s: System)
    requires |reason| <= MAX_PAYLOAD && mdu >= |Encode(OPENING)| && mdu >= 7 + |reason|
    ensures Reachable(mdu, s) && link in s.servers && 1 in s.client.tasks && 1 in s.servers[link].tasks
    ensures var c, sv := s.client.tasks[1], s.servers[link].tasks[1];
            && c.phase.Done? && c.inbox == [Frame(ConnectErr, 1, reason)] && c.taken == 1 && 1 in s.client.mux.sessions
            && sv.phase.Done? && 1 !in s.servers[link].mux.sessions
    ensures s.client.enqueued == [OPENING] && s.servers[link].enqueued == [Frame(ConnectErr, 1, reason)]
  {
    hide Leads, Encode, EncodeAll, EncodeRequest, Init;
    var c, sv, f := Asking(), ServerSession(REQUEST, link), Frame(ConnectErr, 1, reason);
    var refused := sv.(phase := Dropping, refusal := Some(reason));
    var told := c.(inbox := [f], via := Some(link));
    var over := told.(phase := Done, taken := 1);
    s := Both(over, true, refused.(phase := Done, dropped := true), false, [OPENING], [f], link);
    assert Leads(mdu, Init(), s) by {
      Asks(mdu, link);
      FrameDown(mdu, c, true, sv, [OPENING], [], link, Refuse(reason), f);
      assert Received(c, true, f, link) == told && [] + [f] == [f];
      hide Both;
      LeadsOn(mdu, Init(), Both(c, true, sv, true, [OPENING], [], link), Both(told, true, refused, true, [OPENING], [f], link));
      AtClient(mdu, told, refused, true, [OPENING], [f], link, AwaitFrame(Done));
      LeadsOn(mdu, Init(), Both(told, true, refused, true, [OPENING], [f], link), Both(over, true, refused, true, [OPENING], [f], link));
      ServerDrops(mdu, over, true, refused, [OPENING], [f], link);
      LeadsOn(mdu, Init(), Both(over, true, refused, true, [OPENING], [f], link), s);
    }
    LedToIsReachable(mdu, s);
  }

  /** Without an answer the wait ends by the clock, and the client's registration stays. */
  lemma SessionsCanTimeOut(mdu: nat, link: LinkId) returns (s: System)
    requires mdu >= |Encode(OPENING)|
    ensures Reachable(mdu, s) && 1 in s.client.tasks
    ensures var c := s.client.tasks[1];
            c.phase.Done? && !c.dropped && c.inbox == [] && 1 in s.client.mux.sessions
    ensures s.client.enqueued == [OPENING]
  {
    hide Leads, Encode, EncodeAll, EncodeRequest, Init;
    var c, sv := Asking(), ServerSession(REQUEST, link);
    s := Both(c.(phase := Done), true, sv, true, [OPENING], [], link);
    assert Leads(mdu, Init(), s) by {
      Asks(mdu, link);
      AtClient(mdu, c, sv, true, [OPENING], [], link, GiveUp(Done));
      hide Both;
      LeadsOn(mdu, Init(), Both(c, true, sv, true, [OPENING], [], link), s);
    }
    LedToIsReachable(mdu, s);
  }

  /** A connection that ends before it has asked for anything leaves its registration behind and sends nothing. */
  lemma SessionsCanBeAbandoned(mdu: nat, link: LinkId) returns (s: System)
    ensures Reachable(mdu, s) && 1 in s.client.tasks && 1 in s.client.mux.sessions
    ensures s.client.tasks[1].phase.Done? && s.client.enqueued == []
  {
    hide Leads, Run, Init, EncodeRequest;
    var r := RegisteredRun(mdu, link);
    assert Leads(mdu, Init(), r) by { RunLeads(mdu, Init(), OpeningSteps(link)[..5], r); }
    var step := ClientLocal(Task(1, Abandon));
    OneStep(mdu, r, step);
    s := Next(mdu, r, step);
    LeadsOn(mdu, Init(), r, s);
    LedToIsReachable(mdu, s);
  }

  lemma RunLeads(mdu: nat, s: System, steps: seq<Step>, s': System)
    requires Run(mdu, s, steps) == Some(s')
    ensures Leads(mdu, s, s')
  {
  }
}
