/** The main results for many clients that share one server, each for a client and its session ids. */
module WorldTheorems {
  import opened Basics
  import opened Frames
  import opened Reassembly
  import opened Traces
  import opened Mux
  import opened Sessions
  import opened Endpoints
  import opened System
  import opened Invariant
  import opened SystemProofs
  import opened Theorems
  import opened Examples
  import opened World

  lemma ServerIsInView(w: World, id: ClientId, link: LinkId)
    requires id in w.clients && Owns(w, id, link)
    ensures link in w.servers <==> link in View(w, id).servers
    ensures link in w.servers ==> View(w, id).servers[link] == w.servers[link]
    ensures link in View(w, id).links && Count(View(w, id).up, link) == Count(w.up, link)
    ensures View(w, id).client == w.clients[id].endpoint
  {
  }

  /** Every mux of the server belongs to some client's link. */
  lemma ServersAreOwned(mdu: nat, w: World)
    requires Possible(mdu, w)
    ensures Known(w)
  {
    hide Permitted, Moved, Known;
    var ids, moves :| Moves(mdu, Start(ids), moves) == Some(w);
    StartIsKnown(ids);
    ClientsStay(mdu, Start(ids), moves);
  }

  /**
   Client to server, with any number of clients whose session ids coincide: a session
   that the server runs for a link belongs to the client that owns the link, and has
   written to its target only what this client's session of that id has read.
   */
  lemma UploadsAreTransparent(mdu: nat, w: World, link: LinkId, sid: u32)
    requires Possible(mdu, w) && link in w.servers && sid in w.servers[link].tasks
    ensures link in w.owner && w.owner[link] in w.clients
    ensures Unwrapped(w, w.owner[link]) ==>
              var c := w.clients[w.owner[link]].endpoint;
              sid in c.tasks && Transparent(w.servers[link].tasks[sid], c.tasks[sid])
  {
    hide View, Reachable, Transparent, Possible;
    ServersAreOwned(mdu, w);
    var id := w.owner[link];
    if Unwrapped(w, id) {
      ServerIsInView(w, id, link);
      ViewIsReachable(mdu, w, id);
      UploadIsTransparent(mdu, View(w, id), link, sid);
    }
  }

  /** Server to client: what a client session has written, a server session of its id on a link of its own has read. */
  lemma DownloadsAreTransparent(mdu: nat, w: World, id: ClientId, sid: u32)
    requires Possible(mdu, w) && Unwrapped(w, id) && sid in w.clients[id].endpoint.tasks
    ensures var ss := w.clients[id].endpoint.tasks[sid];
            || (ss.written == [] && Written(ss) == [])
            || (&& ss.via.Some? && Owns(w, id, ss.via.value)
                && ss.via.value in w.servers && sid in w.servers[ss.via.value].tasks
                && Transparent(ss, w.servers[ss.via.value].tasks[sid]))
  {
    hide Reachable, Transparent, Possible, Written;
    ViewIsReachable(mdu, w, id);
    DownloadIsTransparent(mdu, View(w, id), sid);
  }

  /**
   Link isolation at the server. A session that the server runs for a link was opened
   by a Connect that the owner of the link put on it, and received Data and Close
   frames of its id that the owner put on this very link after that Connect, in order;
   what other clients send under the same id goes to their sessions. Of the owner's
   own links no other has a session of that id.
   */
  lemma LinksAreIsolated(mdu: nat, w: World, link: LinkId, sid: u32)
    requires Possible(mdu, w) && link in w.servers && sid in w.servers[link].tasks
    requires link in w.owner && Unwrapped(w, w.owner[link])
    ensures var c := w.clients[w.owner[link]].endpoint;
            && link in c.links && SpanOk(c, link)
            && var t := Trace(FramesOn(c, link), sid);
               && t != [] && t[0].frameType.Connect?
               && w.servers[link].tasks[sid].inbox <= Body(t[1..])
               && forall f | f in t :: f.sessionId == sid && f in FramesOn(c, link)
    ensures forall other | other in w.servers && other != link && Owns(w, w.owner[link], other) ::
              sid !in w.servers[other].tasks
  {
    hide View, Reachable, Possible, Trace, Body, SpanOk;
    var id := w.owner[link];
    ServerIsInView(w, id, link);
    ViewIsReachable(mdu, w, id);
    ServerSessionsAreIsolated(mdu, View(w, id), link, sid);
    forall other | other in w.servers && other != link && Owns(w, id, other)
      ensures sid !in w.servers[other].tasks
    {
      ServerIsInView(w, id, other);
    }
  }

  /**
   A server session is for the request of the session of its id of the link's owner, and
   runs the protocol it asked for, if the host is at most 255 bytes long.
   */
  lemma RequestsAreHonoured(mdu: nat, w: World, link: LinkId, sid: u32)
    requires Possible(mdu, w) && link in w.servers && sid in w.servers[link].tasks
    requires link in w.owner && Unwrapped(w, w.owner[link])
    ensures var c, sv := w.clients[w.owner[link]].endpoint, w.servers[link];
            && sid in c.tasks && c.tasks[sid].asked.Some?
            && (sv.tasks[sid].asked == c.tasks[sid].asked <==> |c.tasks[sid].asked.value.host| <= 255)
            && (|c.tasks[sid].asked.value.host| <= 255 ==> sv.tasks[sid].udp == c.tasks[sid].udp)
  {
    hide View, Reachable, Possible;
    var id := w.owner[link];
    ServerIsInView(w, id, link);
    ViewIsReachable(mdu, w, id);
    RequestsReachTheServer(mdu, View(w, id), link, sid);
  }

  /**
   Fragments of different links never meet: the frames decoded from a link and the
   bytes in its reassembly buffer are exactly the bytes delivered of that link.
   */
  lemma BuffersAreSeparate(mdu: nat, w: World, link: LinkId)
    requires Possible(mdu, w) && link in w.servers && link in w.owner && Unwrapped(w, w.owner[link])
    ensures var sv, out := w.servers[link], Out(w.clients[w.owner[link]].endpoint, link);
            && Count(w.up, link) <= |out|
            && EncodeAll(Routed(sv, link) + sv.todo) + sv.mux.recvBuf == out[..Count(w.up, link)]
  {
    hide View, Reachable, Possible, EncodeAll, Routed, ServerInv, ClientInv, DownBytes, Out;
    var id := w.owner[link];
    ServerIsInView(w, id, link);
    ViewIsReachable(mdu, w, id);
    ReachableInv(mdu, View(w, id));
    assert LinkInv(View(w, id), link);
  }

  /** And none of them makes the server's decoder fail. */
  lemma DecodersNeverFail(mdu: nat, w: World, id: ClientId, link: LinkId, n: nat)
    requires Possible(mdu, w) && Unwrapped(w, id) && Permitted(w, Move(id, DeliverUp(link, n)))
    ensures var k := Count(w.up, link);
            Drain(w.servers[link].mux.recvBuf + Out(w.clients[id].endpoint, link)[k..k + n]).discarded == []
  {
    hide Reachable, Possible, Drain;
    LinkIsOwned(w, Move(id, DeliverUp(link, n)));
    ServerIsInView(w, id, link);
    ViewIsReachable(mdu, w, id);
    ServerDecodingNeverFails(mdu, View(w, id), link, n);
  }

  /**
   For each client and session id there are at most two Close frames: one from the
   client and one from the server, the latter on a single one of the client's links.
   */
  lemma ClosesPerClient(mdu: nat, w: World, id: ClientId, sid: u32, link: LinkId)
    requires Possible(mdu, w) && Unwrapped(w, id) && Owns(w, id, link) && link in w.servers
    ensures Closes(Trace(w.clients[id].endpoint.enqueued, sid)) <= 1
    ensures Closes(Trace(w.servers[link].enqueued, sid)) <= 1
    ensures Closes(Trace(w.servers[link].enqueued, sid)) == 1 ==>
              forall other | other in w.servers && other != link && Owns(w, id, other) ::
                Trace(w.servers[other].enqueued, sid) == []
  {
    hide View, Reachable, Possible, Trace, Closes;
    ServerIsInView(w, id, link);
    ViewIsReachable(mdu, w, id);
    AtMostTwoCloses(mdu, View(w, id), sid, link);
    forall other | other in w.servers && other != link && Owns(w, id, other)
      ensures Closes(Trace(w.servers[link].enqueued, sid)) == 1 ==> Trace(w.servers[other].enqueued, sid) == []
    {
      ServerIsInView(w, id, other);
    }
  }

  // ---------------------------------------------------------------------------
  // Equal ids do occur
  // ---------------------------------------------------------------------------

  /** One client connects and opens session 1, whatever the others have done, if the server is idle. */
  lemma OpensSessionOne(mdu: nat, w: World, id: ClientId, link: LinkId) returns (moves: seq<Move>, w': World)
    requires mdu >= |Encode(OPENING)|
    requires Known(w) && id in w.clients && View(w, id) == Init() && OthersIdle(w, id) && link !in w.owner
    ensures Moves(mdu, w, moves) == Some(w') && Known(w') && w'.clients.Keys == w.clients.Keys
    ensures View(w', id).servers == map[link := Opened(link)] && View(w', id).issued == 1 && View(w', id).links == {link}
    ensures forall other | other in w.clients && other != id :: View(w', other) == View(w, other)
  {
    hide Run, Encode, View, Known, OthersIdle, Init, Opened;
    var s := ArrivingRun(mdu, link);
    var steps := OpeningSteps(link) + ArrivingSteps(link);
    RunFits(mdu, w, id, steps);
    moves := MovesOf(id, steps);
    w' := Moves(mdu, w, moves).value;
  }

  lemma {:induction false} MovesConcat(mdu: nat, w: World, a: seq<Move>, b: seq<Move>)
    requires Moves(mdu, w, a).Some?
    ensures Moves(mdu, w, a + b) == Moves(mdu, Moves(mdu, w, a).value, b)
    decreases |b|
  {
    hide Permitted, Moved;
    if b == [] {
      assert a + b == a;
    } else {
      assert (a + b)[..|a + b| - 1] == a + b[..|b| - 1];
      MovesConcat(mdu, w, a, b[..|b| - 1]);
    }
  }

  /** After one client has opened its session, another that has done nothing can do the same on a new link. */
  lemma RoomForAnother(w: World, id: ClientId, link: LinkId, other: ClientId, next: LinkId)
    requires Known(w) && w.clients.Keys == {id, other} && id != other && next != link
    requires View(w, id).servers == map[link := Opened(link)] && View(w, id).links == {link}
    requires View(w, other) == Init()
    ensures OthersIdle(w, other) && next !in w.owner
  {
    hide Opened;
    NothingToDo(link);
    forall l | l in w.servers && !Owns(w, other, l)
      ensures w.servers[l].todo == []
    {
      assert l in View(w, id).servers;
    }
    assert forall l | l in w.owner :: l in View(w, w.owner[l]).links;
  }

  lemma OpenInWorld(w: World, id: ClientId, link: LinkId)
    requires id in w.clients && View(w, id).servers == map[link := Opened(link)]
    ensures Owns(w, id, link) && link in w.servers && Open(w.servers[link], 1)
    ensures w.clients[id].issued == View(w, id).issued
  {
    hide Opened, Open;
    NothingToDo(link);
    assert link in View(w, id).servers;
  }

  /**
   Two clients, two links, one id: both clients number their first session 1, and the
   server runs a session 1 for each of the two links at the same time.
   */
  lemma SameIdOnTwoLinks(mdu: nat) returns (w: World)
    requires mdu >= |Encode(OPENING)|
    ensures Possible(mdu, w) && Unwrapped(w, 1) && Unwrapped(w, 2)
    ensures Owns(w, 1, 10) && Owns(w, 2, 20)
    ensures 10 in w.servers && Open(w.servers[10], 1) && 20 in w.servers && Open(w.servers[20], 1)
  {
    hide Encode, Init, View, Known, Opened, Moves, Open, OthersIdle, Owns;
    var w0 := Start({1, 2});
    StartIsInit({1, 2}, 1);
    StartIsInit({1, 2}, 2);
    StartHasNothing({1, 2}, 1);
    var a, w1 := OpensSessionOne(mdu, w0, 1, 10);
    RoomForAnother(w1, 1, 10, 2, 20);
    var b;
    b, w := OpensSessionOne(mdu, w1, 2, 20);
    MovesConcat(mdu, w0, a, b);
    OpenInWorld(w, 1, 10);
    OpenInWorld(w, 2, 20);
  }

  lemma StartHasNothing(ids: set<ClientId>, id: ClientId)
    ensures OthersIdle(Start(ids), id) && Start(ids).owner == map[] && Start(ids).clients.Keys == ids
  {
  }
}
