/** The server's event loop over its table of muxes, one per incoming link. */
module Server {
  import opened Basics
  import opened Frames
  import opened Reassembly
  import opened Traces
  import opened ConnectPayload
  import opened Mux
  import opened Endpoints
  import opened System

  /** A session task that was started, with the receiving half of its channel. */
  datatype Spawned = Spawned(link: LinkId, sid: u32, request: Request, rx: Channel)

  /** Two muxes that are not the same object and share no channel. */
  ghost predicate Separate(a: MuxHandle, b: MuxHandle)
    reads a, b
  {
    a != b && forall x, y | x in a.sessions && y in b.sessions :: a.sessions[x] != b.sessions[y]
  }

  /** What a channel holds, and whether its receiver still exists. */
  datatype Inlet = Inlet(frames: seq<Frame>, alive: bool)

  /** What becomes of the channel registered under an id, if there is one, when a frame of its link is routed. */
  function Inflow(inlet: Option<Inlet>, f: Frame, sid: u32): Option<Inlet> {
    if f.sessionId != sid then inlet
    else match f.frameType
      case Connect => if DecodeRequest(f.payload).Some? then Some(Inlet([], true)) else inlet
      case Data => Taken(inlet, f)
      case Close => Taken(inlet, f)
      case _ => inlet
  }

  function Taken(inlet: Option<Inlet>, f: Frame): Option<Inlet> {
    if inlet.Some? && inlet.value.alive then Some(Inlet(inlet.value.frames + [f], true)) else inlet
  }

  function Inbound(inlet: Option<Inlet>, frames: seq<Frame>, sid: u32): Option<Inlet> {
    if frames == [] then inlet
    else Inflow(Inbound(inlet, frames[..|frames| - 1], sid), frames[|frames| - 1], sid)
  }

  lemma InboundOneMore(inlet: Option<Inlet>, frames: seq<Frame>, k: nat, sid: u32)
    requires k < |frames|
    ensures Inbound(inlet, frames[..k + 1], sid) == Inflow(Inbound(inlet, frames[..k], sid), frames[k], sid)
  {
    assert frames[..k + 1][..k] == frames[..k];
  }

  lemma {:induction false} InboundConcat(inlet: Option<Inlet>, a: seq<Frame>, b: seq<Frame>, sid: u32)
    ensures Inbound(inlet, a + b, sid) == Inbound(Inbound(inlet, a, sid), b, sid)
  {
    if b == [] {
      assert a + b == a;
    } else {
      assert (a + b)[..|a + b| - 1] == a + b[..|b| - 1];
      InboundConcat(inlet, a, b[..|b| - 1], sid);
    }
  }

  /** What arrives later is taken after what arrived before. */
  lemma InboundAfter()
    ensures forall a, b, sid :: Inbound(None, a + b, sid) == Inbound(Inbound(None, a, sid), b, sid)
  {
    forall a, b, sid
      ensures Inbound(None, a + b, sid) == Inbound(Inbound(None, a, sid), b, sid)
    {
      InboundConcat(None, a, b, sid);
    }
  }

  lemma NothingFed()
    ensures forall link :: FedAfter([], link) == None
  {
  }

  lemma NothingInbound()
    ensures forall inlet, sid :: Inbound(inlet, [], sid) == inlet
  {
  }

  /** The Connect that opens a session. */
  predicate Opens(f: Frame, sid: u32) {
    f.frameType.Connect? && f.sessionId == sid && DecodeRequest(f.payload).Some?
  }

  /** The k-th frame is the last one that opened the session; none has if k is 0. */
  predicate LastOpening(frames: seq<Frame>, sid: u32, k: nat) {
    && k <= |frames|
    && (forall i | k <= i < |frames| :: !Opens(frames[i], sid))
    && (k > 0 ==> Opens(frames[k - 1], sid))
  }

  function InboundFrom(frames: seq<Frame>, sid: u32, k: nat): Option<Inlet>
    requires k <= |frames|
  {
    if k == 0 then None else Some(Inlet(Body(Trace(frames[k..], sid)), true))
  }

  lemma InboundFromOneMore(frames: seq<Frame>, f: Frame, sid: u32, k: nat)
    requires k <= |frames| && !Opens(f, sid)
    ensures InboundFrom(frames + [f], sid, k) == Inflow(InboundFrom(frames, sid, k), f, sid)
  {
    hide Body, Trace, DecodeRequest;
    assert (frames + [f])[k..] == frames[k..] + [f];
    BodyOneMore(frames[k..], f, sid);
    var held := Body(Trace(frames[k..], sid));
    assert held + [] == held;
  }

  lemma InboundFromOpening(frames: seq<Frame>, f: Frame, sid: u32, inlet: Option<Inlet>)
    requires Opens(f, sid)
    ensures InboundFrom(frames + [f], sid, |frames| + 1) == Inflow(inlet, f, sid)
  {
    assert (frames + [f])[|frames| + 1..] == [];
    NothingInBody(sid);
  }

  /**
   The channel under an id holds exactly the Data and Close frames of that id that
   came over its link since the last valid Connect for it, and there is none before one came.
   */
  lemma {:induction false} InboundSinceConnect(frames: seq<Frame>, sid: u32) returns (k: nat)
    ensures LastOpening(frames, sid, k) && Inbound(None, frames, sid) == InboundFrom(frames, sid, k)
  {
    hide Inflow, InboundFrom, Opens;
    if frames == [] {
      k := 0;
      assert InboundFrom(frames, sid, 0) == None by { NoneInbound(frames, sid); }
    } else {
      var init, f := frames[..|frames| - 1], frames[|frames| - 1];
      assert frames == init + [f];
      k := InboundSinceConnect(init, sid);
      if Opens(f, sid) {
        k := |frames|;
        InboundFromOpening(init, f, sid, Inbound(None, init, sid));
      } else {
        InboundFromOneMore(init, f, sid, k);
      }
    }
  }

  lemma NoneInbound(frames: seq<Frame>, sid: u32)
    ensures InboundFrom(frames, sid, 0) == None
  {
  }

  lemma NothingInBody(sid: u32)
    ensures Body(Trace([], sid)) == []
  {
  }

  /** What a link's mux has been fed, if it has one: events of other links make no difference. */
  function FedNext(fed: Option<Fed>, event: Event, link: LinkId): Option<Fed> {
    match event
    case LinkEstablished(l, isInitiator) => if l == link && !isInitiator then Some(Fed([], [])) else fed
    case LinkClosed(l) => if l == link then None else fed
    case LinkData(l, data) => if l == link then FedMore(fed, data) else fed
    case PathUpdated => fed
  }

  function FedMore(fed: Option<Fed>, data: Bytes): Option<Fed> {
    match fed
    case None => None
    case Some(f) => var d := Drain(f.buf + data); Some(Fed(f.frames + d.frames, d.rest))
  }

  function FedAfter(events: seq<Event>, link: LinkId): Option<Fed> {
    if events == [] then None
    else FedNext(FedAfter(events[..|events| - 1], link), events[|events| - 1], link)
  }

  lemma FedOneMore(events: seq<Event>, k: nat, link: LinkId)
    requires k < |events|
    ensures FedAfter(events[..k + 1], link) == FedNext(FedAfter(events[..k], link), events[k], link)
  {
    assert events[..k + 1][..k] == events[..k];
  }

  /** The fragments of one link. */
  function DataOf(events: seq<Event>, link: LinkId): seq<Bytes> {
    if events == [] then []
    else
      var last := events[|events| - 1];
      DataOf(events[..|events| - 1], link) + (if last.LinkData? && last.link == link then [last.data] else [])
  }

  predicate Restarts(event: Event, link: LinkId) {
    event == LinkClosed(link) || event == LinkEstablished(link, false)
  }

  /** The k-th event is the last one that made or ended the link's mux; there is none if k is 0. */
  predicate LastRestart(events: seq<Event>, link: LinkId, k: nat) {
    && k <= |events|
    && (forall i | k <= i < |events| :: !Restarts(events[i], link))
    && (k > 0 ==> Restarts(events[k - 1], link))
  }

  function FedFrom(events: seq<Event>, link: LinkId, k: nat): Option<Fed>
    requires k <= |events|
  {
    if k > 0 && events[k - 1].LinkEstablished? then Some(Feed([], DataOf(events[k..], link))) else None
  }

  lemma FedFromOneMore(events: seq<Event>, last: Event, link: LinkId, k: nat)
    requires k <= |events| && !Restarts(last, link)
    ensures FedFrom(events + [last], link, k) == FedNext(FedFrom(events, link, k), last, link)
  {
    hide Drain, Feed, DataOf;
    assert (events + [last])[k..] == events[k..] + [last];
    DataOfOneMore(events[k..], last, link);
    if last.LinkData? && last.link == link {
      FeedOneMore([], DataOf(events[k..], link), last.data);
    }
  }

  lemma FedFromRestart(events: seq<Event>, last: Event, link: LinkId, fed: Option<Fed>)
    requires Restarts(last, link)
    ensures FedFrom(events + [last], link, |events| + 1) == FedNext(fed, last, link)
  {
    assert (events + [last])[|events| + 1..] == [];
    FedNothing(link);
  }

  /**
   What a link's mux has been fed are the fragments of this link since its
   establishment, in order; events of other links, and data before it, are no part of it.
   */
  lemma {:induction false} FedSinceEstablished(events: seq<Event>, link: LinkId) returns (k: nat)
    ensures LastRestart(events, link, k) && FedAfter(events, link) == FedFrom(events, link, k)
  {
    hide FedNext, FedFrom;
    if events == [] {
      k := 0;
      assert FedFrom(events, link, 0) == None by { NoneFedFrom(events, link); }
    } else {
      var init, last := events[..|events| - 1], events[|events| - 1];
      assert events == init + [last];
      k := FedSinceEstablished(init, link);
      if Restarts(last, link) {
        k := |events|;
        FedFromRestart(init, last, link, FedAfter(init, link));
      } else {
        FedFromOneMore(init, last, link, k);
      }
    }
  }

  lemma NoneFedFrom(events: seq<Event>, link: LinkId)
    ensures FedFrom(events, link, 0) == None
  {
  }

  lemma DataOfOneMore(events: seq<Event>, last: Event, link: LinkId)
    ensures DataOf(events + [last], link) ==
            if last.LinkData? && last.link == link then DataOf(events, link) + [last.data] else DataOf(events, link)
  {
    assert (events + [last])[..|events|] == events;
    assert DataOf(events, link) + [] == DataOf(events, link);
  }

  lemma FedNothing(link: LinkId)
    ensures Feed([], DataOf([], link)) == Fed([], [])
  {
  }

  /**
   A link on its own. The channel under a session id holds the Data and Close frames of
   that id, reassembled from the fragments of this link since its establishment, that
   came after the last valid Connect for the id.
   */
  lemma ChannelsAreOwn(events: seq<Event>, link: LinkId, sid: u32) returns (k: nat, j: nat)
    requires FedAfter(events, link).Some?
    ensures LastRestart(events, link, k) && 0 < k && events[k - 1] == LinkEstablished(link, false)
    ensures var frames := Feed([], DataOf(events[k..], link)).frames;
            && FedAfter(events, link).value.frames == frames
            && LastOpening(frames, sid, j)
            && Inbound(None, frames, sid) ==
                 if j == 0 then None else Some(Inlet(Body(Trace(frames[j..], sid)), true))
  {
    hide FedAfter, Feed, Inbound, Body, Trace, DataOf, LastOpening;
    k := FedSinceEstablished(events, link);
    j := InboundSinceConnect(FedAfter(events, link).value.frames, sid);
    assert j <= |FedAfter(events, link).value.frames| by { OpeningIsInside(FedAfter(events, link).value.frames, sid, j); }
  }

  lemma OpeningIsInside(frames: seq<Frame>, sid: u32, k: nat)
    requires LastOpening(frames, sid, k)
    ensures k <= |frames|
  {
  }

  ghost function InletOf(mux: MuxHandle, sid: u32): Option<Inlet>
    reads mux, mux.sessions.Values
  {
    if sid in mux.sessions then Some(Inlet(mux.sessions[sid].frames, mux.sessions[sid].receiverAlive)) else None
  }

  class Server {
    var linkMuxes: map<LinkId, MuxHandle>
    var spawned: seq<Spawned>

    /** Every link has a mux of its own, and no two muxes share a channel. */
    ghost predicate Valid()
      reads this, linkMuxes.Values
    {
      && (forall l | l in linkMuxes :: linkMuxes[l].Valid())
      && (forall a, b | a in linkMuxes && b in linkMuxes && a != b :: Separate(linkMuxes[a], linkMuxes[b]))
    }

    constructor ()
      ensures Valid() && linkMuxes == map[] && spawned == []
    {
      linkMuxes := map[];
      spawned := [];
    }

    /** Only incoming links get a mux. */
    method OnLinkEstablished(link: LinkId, isInitiator: bool)
      requires Valid()
      modifies this`linkMuxes
      ensures Valid() && linkMuxes.Keys == old(linkMuxes.Keys) + (if isInitiator then {} else {link})
      ensures forall l | l in old(linkMuxes) && (isInitiator || l != link) :: linkMuxes[l] == old(linkMuxes[l])
      ensures !isInitiator ==> fresh(linkMuxes[link]) && linkMuxes[link].State() == NewMux().(linkId := Some(link))
    {
      if !isInitiator {
        var mux := new MuxHandle();
        mux.SetLinkId(link);
        linkMuxes := linkMuxes[link := mux];
      }
    }

    /** Closing forgets the mux; the sessions that share it are not told. */
    method OnLinkClosed(link: LinkId)
      requires Valid()
      modifies this`linkMuxes
      ensures Valid() && linkMuxes == old(linkMuxes) - {link}
    {
      linkMuxes := linkMuxes - {link};
    }

    /** The bytes go into the reassembly buffer of their own link only. */
    method OnLinkData(link: LinkId, data: Bytes) returns (frames: seq<Frame>)
      requires Valid()
      modifies if link in linkMuxes then {linkMuxes[link]} else {}
      ensures Valid()
      ensures link !in linkMuxes ==> frames == []
      ensures link in linkMuxes ==>
                && frames == Drain(old(linkMuxes[link].recvBuf) + data).frames
                && linkMuxes[link].State() ==
                     old(linkMuxes[link].State()).(recvBuf := Drain(old(linkMuxes[link].recvBuf) + data).rest)
                && linkMuxes[link].sessions == old(linkMuxes[link].sessions)
      ensures forall l | l in linkMuxes && l != link :: unchanged(linkMuxes[l])
    {
      if link in linkMuxes {
        frames := linkMuxes[link].ReceiveData(data);
      } else {
        frames := [];
      }
    }

    /** A valid request registers a session with a channel of its own and starts its task. */
    method OpenSession(link: LinkId, sid: u32, request: Request)
      requires Valid() && link in linkMuxes
      modifies this`spawned, linkMuxes[link]
      ensures Valid() && (forall l | l in linkMuxes && l != link :: unchanged(linkMuxes[l]))
      ensures linkMuxes[link].State() == Register(old(linkMuxes[link].State()), sid)
      ensures linkMuxes[link].sessions == old(linkMuxes[link].sessions)[sid := linkMuxes[link].sessions[sid]]
      ensures var rx := linkMuxes[link].sessions[sid];
              && fresh(rx) && rx.frames == [] && rx.receiverAlive
              && spawned == old(spawned) + [Spawned(link, sid, request, rx)]
    {
      var mux := linkMuxes[link];
      assert forall l | l in linkMuxes && l != link :: Separate(mux, linkMuxes[l]) && Separate(linkMuxes[l], mux);
      var rx := mux.RegisterSession(sid);
      spawned := spawned + [Spawned(link, sid, request, rx)];
      assert forall l | l in linkMuxes && l != link :: Separate(mux, linkMuxes[l]) && Separate(linkMuxes[l], mux);
    }

    /**
     Connect: a valid request opens a session; the ConnectErr for an invalid one may
     have to wait for room, and then done is false. No other link and no other session
     is touched.
     */
    method RouteConnect(link: LinkId, f: Frame) returns (done: bool)
      requires Valid() && link in linkMuxes && f.frameType.Connect?
      modifies this`spawned, linkMuxes[link]
      ensures forall l | l in linkMuxes && l != link :: unchanged(linkMuxes[l])
      ensures Valid() && (done <==> !RouteNeedsRoom(f) || HasRoom(old(linkMuxes[link].State())))
      ensures RouteNeedsRoom(f) ==>
                && spawned == old(spawned) && linkMuxes[link].sessions == old(linkMuxes[link].sessions)
                && linkMuxes[link].State() ==
                     if done then Push(old(linkMuxes[link].State()), Encode(Frame(ConnectErr, f.sessionId, INVALID_PAYLOAD)))
                     else old(linkMuxes[link].State())
      ensures !RouteNeedsRoom(f) ==>
                && linkMuxes[link].State() == Register(old(linkMuxes[link].State()), f.sessionId)
                && linkMuxes[link].sessions ==
                     old(linkMuxes[link].sessions)[f.sessionId := linkMuxes[link].sessions[f.sessionId]]
                && var rx := linkMuxes[link].sessions[f.sessionId];
                   && fresh(rx) && rx.frames == [] && rx.receiverAlive
                   && spawned == old(spawned) + [Spawned(link, f.sessionId, DecodeRequest(f.payload).value, rx)]
    {
      hide DecodeRequest, Encode;
      match DecodeRequest(f.payload) {
        case Some(request) =>
          OpenSession(link, f.sessionId, request);
          done := true;
        case None =>
          done := linkMuxes[link].SendFrame(Frame(ConnectErr, f.sessionId, INVALID_PAYLOAD));
      }
    }

    /**
     All other frames: Data and Close go to the channel registered for their session
     on this link, if its receiver is alive; verdicts are ignored. No channel of
     another link is touched.
     */
    method RouteOther(link: LinkId, f: Frame)
      requires Valid() && link in linkMuxes && !f.frameType.Connect?
      modifies set sid | sid in linkMuxes[link].sessions :: linkMuxes[link].sessions[sid]
      ensures Valid()
      ensures forall sid | sid in linkMuxes[link].sessions ::
                linkMuxes[link].sessions[sid].frames ==
                  if f.frameType in {Data, Close} && sid == f.sessionId
                     && old(linkMuxes[link].sessions[sid].receiverAlive)
                  then old(linkMuxes[link].sessions[sid].frames) + [f]
                  else old(linkMuxes[link].sessions[sid].frames)
      ensures forall sid | sid in linkMuxes[link].sessions ::
                linkMuxes[link].sessions[sid].receiverAlive == old(linkMuxes[link].sessions[sid].receiverAlive)
      ensures forall l, sid | l in linkMuxes && l != link && sid in linkMuxes[l].sessions ::
                unchanged(linkMuxes[l].sessions[sid])
    {
      if f.frameType in {Data, Close} {
        linkMuxes[link].Dispatch(f);
      }
      assert forall l | l in linkMuxes && l != link :: Separate(linkMuxes[link], linkMuxes[l]);
    }

    /** A Connect; while its ConnectErr waits for room, the sender task takes a frame off the queue. */
    method ConnectArrives(link: LinkId, f: Frame, node: Node, mdu: nat, accepts: nat -> bool)
      requires Valid() && link in linkMuxes && f.frameType.Connect? && mdu > 0
      modifies this`spawned, linkMuxes[link], node
      ensures Valid() && linkMuxes[link].recvBuf == old(linkMuxes[link].recvBuf)
      ensures forall l | l in linkMuxes && l != link :: unchanged(linkMuxes[l])
      ensures RouteNeedsRoom(f) ==> linkMuxes[link].sessions == old(linkMuxes[link].sessions)
      ensures !RouteNeedsRoom(f) ==>
                && f.sessionId in linkMuxes[link].sessions
                && var rx := linkMuxes[link].sessions[f.sessionId];
                   && linkMuxes[link].sessions == old(linkMuxes[link].sessions)[f.sessionId := rx]
                   && fresh(rx) && rx.frames == [] && rx.receiverAlive
    {
      hide DecodeRequest, Encode;
      if RouteNeedsRoom(f) && |linkMuxes[link].queue| == QUEUE_CAPACITY {
        linkMuxes[link].SenderTurn(node, mdu, accepts);
      }
      var done := RouteConnect(link, f);
      assert done;
    }

    /** One decoded frame: every channel of its link changes as `Inflow` says, and no channel of another link. */
    method Route(link: LinkId, f: Frame, node: Node, mdu: nat, accepts: nat -> bool)
      requires Valid() && link in linkMuxes && mdu > 0
      modifies this`spawned, linkMuxes[link], node
      modifies set sid | sid in linkMuxes[link].sessions :: linkMuxes[link].sessions[sid]
      ensures Valid() && linkMuxes == old(linkMuxes) && linkMuxes[link].recvBuf == old(linkMuxes[link].recvBuf)
      ensures forall sid :: InletOf(linkMuxes[link], sid) == Inflow(old(InletOf(linkMuxes[link], sid)), f, sid)
      ensures forall l | l in linkMuxes && l != link :: unchanged(linkMuxes[l])
      ensures forall l, sid | l in linkMuxes && l != link :: InletOf(linkMuxes[l], sid) == old(InletOf(linkMuxes[l], sid))
      ensures forall sid | sid in linkMuxes[link].sessions ::
                || fresh(linkMuxes[link].sessions[sid])
                || (sid in old(linkMuxes[link].sessions)
                    && linkMuxes[link].sessions[sid] == old(linkMuxes[link].sessions[sid]))
    {
      hide DecodeRequest;
      if f.frameType.Connect? {
        ConnectArrives(link, f, node, mdu, accepts);
      } else {
        RouteOther(link, f);
      }
    }

    /**
     A whole LinkData event: the bytes are reassembled with what the link's own buffer
     held, and every channel of the link receives its frames, in order. Nothing of any
     other link changes.
     */
    method HandleLinkData(link: LinkId, data: Bytes, node: Node, mdu: nat, accepts: nat -> bool)
      requires Valid() && mdu > 0
      modifies this`spawned, node, if link in linkMuxes then {linkMuxes[link]} else {}
      modifies set sid | link in linkMuxes && sid in linkMuxes[link].sessions :: linkMuxes[link].sessions[sid]
      ensures Valid() && linkMuxes == old(linkMuxes)
      ensures link in linkMuxes ==>
                var d := Drain(old(linkMuxes[link].recvBuf) + data);
                && linkMuxes[link].recvBuf == d.rest
                && forall sid :: InletOf(linkMuxes[link], sid) == Inbound(old(InletOf(linkMuxes[link], sid)), d.frames, sid)
      ensures forall l | l in linkMuxes && l != link :: linkMuxes[l].recvBuf == old(linkMuxes[l].recvBuf)
      ensures forall l, sid | l in linkMuxes && l != link :: InletOf(linkMuxes[l], sid) == old(InletOf(linkMuxes[l], sid))
      ensures forall l, sid | l in linkMuxes && sid in linkMuxes[l].sessions ::
                || fresh(linkMuxes[l].sessions[sid])
                || (sid in old(linkMuxes[l].sessions) && linkMuxes[l].sessions[sid] == old(linkMuxes[l].sessions[sid]))
    {
      hide Drain, Inflow, Inbound;
      if link in linkMuxes {
        var frames := OnLinkData(link, data);
        NothingInbound();
        for k := 0 to |frames|
          invariant Valid() && linkMuxes == old(linkMuxes)
          invariant linkMuxes[link].recvBuf == Drain(old(linkMuxes[link].recvBuf) + data).rest
          invariant forall sid :: InletOf(linkMuxes[link], sid) == Inbound(old(InletOf(linkMuxes[link], sid)), frames[..k], sid)
          invariant forall l | l in linkMuxes && l != link :: unchanged(linkMuxes[l])
          invariant forall l, sid | l in linkMuxes && l != link :: InletOf(linkMuxes[l], sid) == old(InletOf(linkMuxes[l], sid))
          invariant forall sid | sid in linkMuxes[link].sessions ::
                      || fresh(linkMuxes[link].sessions[sid])
                      || (sid in old(linkMuxes[link].sessions)
                          && linkMuxes[link].sessions[sid] == old(linkMuxes[link].sessions[sid]))
        {
          forall sid
            ensures Inbound(old(InletOf(linkMuxes[link], sid)), frames[..k + 1], sid) ==
                    Inflow(InletOf(linkMuxes[link], sid), frames[k], sid)
          {
            InboundOneMore(old(InletOf(linkMuxes[link], sid)), frames, k, sid);
          }
          Route(link, frames[k], node, mdu, accepts);
        }
        assert frames[..|frames|] == frames;
      }
    }

    /** The link has a mux exactly if it has been fed, and buffer and channels are as that calls for. */
    ghost predicate Serves(link: LinkId, fed: Option<Fed>)
      reads this, linkMuxes.Values, set l, sid | l in linkMuxes && sid in linkMuxes[l].sessions :: linkMuxes[l].sessions[sid]
    {
      && (link in linkMuxes <==> fed.Some?)
      && (fed.Some? ==>
            && linkMuxes[link].recvBuf == fed.value.buf
            && forall sid :: InletOf(linkMuxes[link], sid) == Inbound(None, fed.value.frames, sid))
    }

    /** One event of any link: every link, this one and all others, is served as its own events call for. */
    method HandleEvent(event: Event, node: Node, mdu: nat, accepts: nat -> bool, ghost fed: LinkId -> Option<Fed>)
      requires Valid() && mdu > 0
      requires forall link :: Serves(link, fed(link))
      modifies this, node, linkMuxes.Values
      modifies set l, sid | l in linkMuxes && sid in linkMuxes[l].sessions :: linkMuxes[l].sessions[sid]
      ensures Valid()
      ensures forall link :: Serves(link, FedNext(fed(link), event, link))
      ensures forall l | l in linkMuxes :: fresh(linkMuxes[l]) || (l in old(linkMuxes) && linkMuxes[l] == old(linkMuxes[l]))
      ensures forall l, sid | l in linkMuxes && sid in linkMuxes[l].sessions ::
                || fresh(linkMuxes[l].sessions[sid])
                || (l in old(linkMuxes) && sid in old(linkMuxes[l].sessions)
                    && linkMuxes[l].sessions[sid] == old(linkMuxes[l].sessions[sid]))
    {
      hide Drain, Inbound;
      match event {
        case LinkEstablished(link, isInitiator) =>
          OnLinkEstablished(link, isInitiator);
          NothingInbound();
        case LinkClosed(link) =>
          OnLinkClosed(link);
        case LinkData(link, data) =>
          HandleLinkData(link, data, node, mdu, accepts);
          InboundAfter();
        case PathUpdated =>
      }
    }

    /**
     The event loop of a new server, over any events of any links with any data. In the
     end every link has the mux, the buffer and, under every session id, the channel
     that its own events call for; what the others sent under the same ids is without
     effect on it.
     */
    method RunServer(events: seq<Event>, node: Node, mdu: nat, accepts: nat -> bool)
      requires Valid() && linkMuxes == map[] && mdu > 0
      modifies this, node
      ensures Valid()
      ensures forall link :: Serves(link, FedAfter(events, link))
    {
      hide Serves, FedNext;
      NothingFed();
      assert forall link :: Serves(link, None) by { NothingServed(); }
      var k := 0;
      while k < |events|
        invariant k <= |events| && Valid()
        invariant forall l | l in linkMuxes :: fresh(linkMuxes[l])
        invariant forall l, sid | l in linkMuxes && sid in linkMuxes[l].sessions :: fresh(linkMuxes[l].sessions[sid])
        invariant forall link :: Serves(link, FedAfter(events[..k], link))
      {
        ghost var fed := (link: LinkId) => FedAfter(events[..k], link);
        HandleEvent(events[k], node, mdu, accepts, fed);
        ghost var longer := events[..k + 1];
        forall link
          ensures Serves(link, FedAfter(longer, link))
        {
          FedOneMore(events, k, link);
          assert Serves(link, FedNext(fed(link), events[k], link));
        }
        k := k + 1;
      }
      assert events[..|events|] == events;
    }

    lemma NothingServed()
      requires linkMuxes == map[]
      ensures forall link :: Serves(link, None)
    {
    }
  }
}
