/** Runs that show that the states some results are about do occur. */
module Examples {
  import opened Basics
  import opened Frames
  import opened Reassembly
  import opened Mux
  import opened Sessions
  import opened Endpoints
  import opened System
  import opened ConnectPayload

  lemma EmptyRun(mdu: nat, s: System)
    ensures Run(mdu, s, []) == Some(s)
  {
  }

  /** One more step of a run. */
  lemma Extend(mdu: nat, start: System, steps: seq<Step>, k: nat, s: System) returns (s': System)
    requires k < |steps| && Run(mdu, start, steps[..k]) == Some(s) && Enabled(s, steps[k])
    ensures s' == Next(mdu, s, steps[k]) && Run(mdu, start, steps[..k + 1]) == Some(s')
  {
    hide Enabled, Next;
    assert steps[..k + 1][..k] == steps[..k];
    s' := Next(mdu, s, steps[k]);
  }

  /** A run may be continued by a run from where it leads. */
  lemma {:induction false} RunConcat(mdu: nat, start: System, a: seq<Step>, b: seq<Step>)
    requires Run(mdu, start, a).Some?
    ensures Run(mdu, start, a + b) == Run(mdu, Run(mdu, start, a).value, b)
    decreases |b|
  {
    hide Enabled, Next;
    if b == [] {
      assert a + b == a;
    } else {
      assert (a + b)[..|a + b| - 1] == a + b[..|b| - 1];
      RunConcat(mdu, start, a, b[..|b| - 1]);
    }
  }

  /** A TCP connection to port 80 of host "a". */
  const REQUEST: Request := Request([97], 80, false)

  const OPENING: Frame := Frame(Connect, 1, EncodeRequest(REQUEST))

  /** A client connects; its first session asks for a connection, and the sender task has read the link for that frame. */
  function OpeningSteps(link: LinkId): seq<Step> {
    [CreateLink(link), ClientEstablished, AcceptConnection, Allocate(false), RegisterSession(1),
     ClientLocal(Task(1, SendConnect(REQUEST.host, REQUEST.port))), ClientLocal(TakeFrame), ClientLocal(ReadLink)]
  }

  /** The client once its first session is registered. */
  function Registered1(link: LinkId): Endpoint {
    AttachLink(NewEndpoint(false), link).(
      mux := NewMux().(linkId := Some(link), nextSid := 1, sessions := {1}),
      tasks := map[1 := NewSession(false).(phase := Registered)])
  }

  lemma AcceptedRun(mdu: nat, link: LinkId) returns (s: System)
    ensures Run(mdu, Init(), OpeningSteps(link)[..3]) == Some(s)
    ensures s == System(AttachLink(NewEndpoint(false), link), Dispatching(link), 1, 0, {link}, map[], {}, map[], map[])
  {
    hide Run;
    var steps := OpeningSteps(link);
    s := Init();
    assert Run(mdu, s, steps[..0]) == Some(s) by { EmptyRun(mdu, s); }
    s := Extend(mdu, Init(), steps, 0, s);
    s := Extend(mdu, Init(), steps, 1, s);
    s := Extend(mdu, Init(), steps, 2, s);
  }

  lemma RegisteredRun(mdu: nat, link: LinkId) returns (s: System)
    ensures Run(mdu, Init(), OpeningSteps(link)[..5]) == Some(s)
    ensures s == System(Registered1(link), Dispatching(link), 0, 1, {link}, map[], {}, map[], map[])
  {
    hide Run;
    s := AcceptedRun(mdu, link);
    s := Extend(mdu, Init(), OpeningSteps(link), 3, s);
    s := Extend(mdu, Init(), OpeningSteps(link), 4, s);
  }

  /** And once its Connect is about to go out. */
  function Opening(link: LinkId): Endpoint {
    Registered1(link).(
      tasks := map[1 := NewSession(false).(phase := Waiting, asked := Some(REQUEST))],
      sender := Sending(link, Encode(OPENING)),
      enqueued := [OPENING],
      started := 1,
      links := map[link := LinkLog(0, 1, [], [])])
  }

  lemma OpeningRun(mdu: nat, link: LinkId) returns (s: System)
    ensures Run(mdu, Init(), OpeningSteps(link)) == Some(s)
    ensures s == System(Opening(link), Dispatching(link), 0, 1, {link}, map[], {}, map[], map[])
  {
    hide Run, Encode, EncodeRequest;
    var steps := OpeningSteps(link);
    s := RegisteredRun(mdu, link);
    s := Extend(mdu, Init(), steps, 5, s);
    s := Extend(mdu, Init(), steps, 6, s);
    s := Extend(mdu, Init(), steps, 7, s);
    assert steps[..8] == steps;
  }

  /** The server hears of the link and gets the Connect, which the link takes in one chunk. */
  function ArrivingSteps(link: LinkId): seq<Step> {
    [ServerEstablished(link), ClientLocal(ChunkSent), DeliverUp(link, |Encode(OPENING)|), RouteUp(link)]
  }

  lemma OpeningDecodes()
    ensures Drain([] + Encode(OPENING)) == Drained([OPENING], [], [])
    ensures DecodeRequest(OPENING.payload) == Some(REQUEST)
  {
    hide Drain, Encode, EncodeRequest, DecodeRequest;
    assert [] + Encode(OPENING) == Encode(OPENING);
    EncodeAllOne(OPENING);
    DrainOfAll([OPENING]);
    HostIsText();
    RequestRoundTrip(REQUEST);
  }

  lemma HostIsText()
    ensures ValidUtf8(REQUEST.host)
  {
    assert REQUEST.host[1..] == [];
  }

  /** The server's mux for the link once it has opened the session. */
  function Opened(link: LinkId): Endpoint {
    OpenSession(NewServer(link), 1, REQUEST, link).(
      links := map[link := LinkLog(0, 0, [], [OPENING])])
  }

  /** The client once the Connect is out. */
  function Sent(link: LinkId): Endpoint {
    Opening(link).(sender := Idle, links := map[link := LinkLog(0, 1, Encode(OPENING), [])])
  }

  lemma SentRun(mdu: nat, link: LinkId, start: System) returns (s: System)
    requires mdu >= |Encode(OPENING)|
    requires start == System(Opening(link), Dispatching(link), 0, 1, {link}, map[], {}, map[], map[])
    ensures Run(mdu, start, ArrivingSteps(link)[..2]) == Some(s)
    ensures s == System(Sent(link), Dispatching(link), 0, 1, {link}, map[link := NewServer(link)], {link}, map[], map[])
  {
    hide Run, Encode, EncodeRequest, NewServer;
    var steps := ArrivingSteps(link);
    s := start;
    assert Run(mdu, s, steps[..0]) == Some(s) by { EmptyRun(mdu, s); }
    s := Extend(mdu, start, steps, 0, s);
    s := Extend(mdu, start, steps, 1, s);
    var data := Encode(OPENING);
    assert data[..|data|] == data && data[|data|..] == [] && [] + data == data;
  }

  lemma OpeningArrives(link: LinkId)
    ensures ReceiveBytes(NewServer(link), Encode(OPENING)) == NewServer(link).(todo := [OPENING])
    ensures RouteAtServer(NewServer(link).(todo := [OPENING]), link) == Opened(link)
  {
    hide Encode, Drain, EncodeRequest, DecodeRequest;
    OpeningDecodes();
    assert [] + [OPENING] == [OPENING] && [OPENING][1..] == [];
  }

  lemma DeliveredRun(mdu: nat, link: LinkId, start: System) returns (s: System)
    requires mdu >= |Encode(OPENING)|
    requires start == System(Opening(link), Dispatching(link), 0, 1, {link}, map[], {}, map[], map[])
    ensures Run(mdu, start, ArrivingSteps(link)[..3]) == Some(s)
    ensures s == System(Sent(link), Dispatching(link), 0, 1, {link}, map[link := NewServer(link).(todo := [OPENING])],
                        {link}, map[link := |Encode(OPENING)|], map[])
  {
    hide Run, Encode, EncodeRequest, ReceiveBytes, NewServer;
    s := SentRun(mdu, link, start);
    OpeningArrives(link);
    assert NewServer(link).todo == [] by { NothingToDo(link); }
    var data := Encode(OPENING);
    assert Out(s.client, link)[0..0 + |data|] == data;
    s := Extend(mdu, start, ArrivingSteps(link), 2, s);
  }

  lemma RoutingOpening(mdu: nat, link: LinkId, s: System)
    requires s.servers == map[link := NewServer(link).(todo := [OPENING])]
    ensures Enabled(s, RouteUp(link))
    ensures Next(mdu, s, RouteUp(link)) == s.(servers := map[link := Opened(link)])
  {
    hide Encode, Drain, EncodeRequest, DecodeRequest, RouteAtServer, Opened;
    OpeningArrives(link);
    OpeningDecodes();
  }

  lemma ArrivingRun(mdu: nat, link: LinkId) returns (s: System)
    requires mdu >= |Encode(OPENING)|
    ensures Run(mdu, Init(), OpeningSteps(link) + ArrivingSteps(link)) == Some(s)
    ensures s == System(Sent(link), Dispatching(link), 0, 1, {link}, map[link := Opened(link)],
                        {link}, map[link := |Encode(OPENING)|], map[])
  {
    hide Run, Encode, Enabled, Next, Init, NewServer, Opened;
    var start := OpeningRun(mdu, link);
    var steps := ArrivingSteps(link);
    RunConcat(mdu, Init(), OpeningSteps(link), steps);
    s := DeliveredRun(mdu, link, start);
    RoutingOpening(mdu, link, s);
    s := Extend(mdu, start, steps, 3, s);
    assert steps[..4] == steps;
  }

  lemma NothingToDo(link: LinkId)
    ensures NewServer(link).todo == [] && Opened(link).todo == [] && Open(Opened(link), 1)
  {
  }
}
