/**
 Many clients and one server. Each client has its own mux, its own session ids,
 all starting from 1, and its own links; the server keeps one table of muxes for
 the links of all of them and works through one queue of events. What a single
 client sees of this is a `System`.
 */
module World {
  import opened Basics
  import opened Frames
  import opened Mux
  import opened Sessions
  import opened Endpoints
  import opened System

  type ClientId = nat

  datatype Client = Client(endpoint: Endpoint, phase: ClientPhase, accepted: nat, issued: nat, down: map<LinkId, nat>)

  datatype World = World(
    clients: map<ClientId, Client>,
    owner: map<LinkId, ClientId>,   // whose create_link returned this id
    servers: map<LinkId, Endpoint>, // the mux of every established link, of whatever client
    table: set<LinkId>,             // the keys of link_muxes
    up: map<LinkId, nat>)           // bytes delivered to the server, by link

  function Start(ids: set<ClientId>): World {
    World(map id | id in ids :: Client(NewEndpoint(false), Reconnecting, 0, 0, map[]), map[], map[], {}, map[])
  }

  predicate Owns(w: World, id: ClientId, link: LinkId) {
    link in w.owner && w.owner[link] == id
  }

  function Restrict<T>(owner: map<LinkId, ClientId>, id: ClientId, m: map<LinkId, T>): map<LinkId, T> {
    map link | link in m && link in owner && owner[link] == id :: m[link]
  }

  function Within(owner: map<LinkId, ClientId>, id: ClientId, links: set<LinkId>): set<LinkId> {
    set link | link in links && link in owner && owner[link] == id
  }

  /** What concerns one client: itself, its links, and the server's muxes for them. */
  function View(w: World, id: ClientId): System
    requires id in w.clients
  {
    var c := w.clients[id];
    System(c.endpoint, c.phase, c.accepted, c.issued,
           Within(w.owner, id, w.owner.Keys),
           Restrict(w.owner, id, w.servers), Within(w.owner, id, w.table), Restrict(w.owner, id, w.up),
           c.down)
  }

  /** A step, and the client whose own step it is or whose link it is about. */
  datatype Move = Move(id: ClientId, step: Step)

  /** The server's event loop takes the next event. */
  predicate TakesEvent(step: Step) {
    step.ServerEstablished? || step.ServerClosed? || step.DeliverUp?
  }

  /** The event loop has finished its last event, whichever link that was about; link ids are new to everybody. */
  predicate Permitted(w: World, m: Move) {
    && m.id in w.clients
    && Enabled(View(w, m.id), m.step)
    && (TakesEvent(m.step) ==> forall link | link in w.servers :: w.servers[link].todo == [])
    && (m.step.CreateLink? ==> m.step.link !in w.owner)
  }

  function ClientOf(s: System): Client {
    Client(s.client, s.phase, s.accepted, s.issued, s.down)
  }

  /** The server finds the mux in its one table, by link id alone; a client's steps change that client only. */
  function Moved(mdu: nat, w: World, m: Move): World
    requires Permitted(w, m)
  {
    match m.step
    case ServerLocal(link, local) =>
      w.(servers := w.servers[link := LocalNext(mdu, w.servers[link], local)])
    case ServerEstablished(link) =>
      w.(servers := w.servers[link := NewServer(link)], table := w.table + {link})
    case ServerClosed(link) =>
      w.(table := w.table - {link})
    case DeliverUp(link, n) =>
      var k := Count(w.up, link);
      w.(servers := w.servers[link := ReceiveBytes(w.servers[link], Out(w.clients[m.id].endpoint, link)[k..k + n])],
         up := w.up[link := k + n])
    case RouteUp(link) =>
      w.(servers := w.servers[link := RouteAtServer(w.servers[link], link)])
    case CreateLink(link) =>
      w.(clients := w.clients[m.id := ClientOf(Next(mdu, View(w, m.id), m.step))], owner := w.owner[link := m.id])
    case _ =>
      w.(clients := w.clients[m.id := ClientOf(Next(mdu, View(w, m.id), m.step))])
  }

  function Moves(mdu: nat, start: World, moves: seq<Move>): Option<World>
    decreases |moves|
  {
    if moves == [] then Some(start)
    else
      var last := moves[|moves| - 1];
      match Moves(mdu, start, moves[..|moves| - 1])
      case None => None
      case Some(w) => if Permitted(w, last) then Some(Moved(mdu, w, last)) else None
  }

  /** A state the world can be in, with any number of clients. */
  ghost predicate Possible(mdu: nat, w: World) {
    exists ids, moves :: Moves(mdu, Start(ids), moves) == Some(w)
  }

  /** The client has not used up its session ids. */
  predicate Unwrapped(w: World, id: ClientId) {
    id in w.clients && w.clients[id].issued < 0x1_0000_0000
  }

  // ---------------------------------------------------------------------------
  // What the clients see
  // ---------------------------------------------------------------------------

  /** The server knows only links that some client created. */
  ghost predicate Known(w: World) {
    && (forall link | link in w.servers || link in w.table || link in w.up :: link in w.owner)
    && (forall link | link in w.owner :: w.owner[link] in w.clients)
  }

  lemma RestrictPut<T>(owner: map<LinkId, ClientId>, id: ClientId, m: map<LinkId, T>, link: LinkId, v: T)
    requires link in owner
    ensures Restrict(owner, id, m[link := v]) ==
            if owner[link] == id then Restrict(owner, id, m)[link := v] else Restrict(owner, id, m)
  {
  }

  lemma WithinPut(owner: map<LinkId, ClientId>, id: ClientId, links: set<LinkId>, link: LinkId)
    requires link in owner
    ensures Within(owner, id, links + {link}) ==
            Within(owner, id, links) + (if owner[link] == id then {link} else {})
    ensures Within(owner, id, links - {link}) ==
            if owner[link] == id then Within(owner, id, links) - {link} else Within(owner, id, links)
  {
  }

  /** A link nobody has seen yet changes what is seen of no other. */
  lemma NewOwner(w: World, id: ClientId, link: LinkId, who: ClientId)
    requires Known(w) && link !in w.owner
    ensures var owner := w.owner[link := who];
            && Restrict(owner, id, w.servers) == Restrict(w.owner, id, w.servers)
            && Restrict(owner, id, w.up) == Restrict(w.owner, id, w.up)
            && Within(owner, id, w.table) == Within(w.owner, id, w.table)
            && Within(owner, id, owner.Keys) ==
                 Within(w.owner, id, w.owner.Keys) + (if id == who then {link} else {})
  {
  }

  /** A client's own step is a step of its view, and no other client sees it. */
  lemma ClientMoveSeen(mdu: nat, w: World, m: Move, id: ClientId)
    requires Known(w) && Permitted(w, m) && id in w.clients
    requires !m.step.ServerLocal? && !TakesEvent(m.step) && !m.step.RouteUp?
    ensures var w' := Moved(mdu, w, m);
            && id in w'.clients
            && View(w', id) == if id == m.id then Next(mdu, View(w, id), m.step) else View(w, id)
  {
    hide LocalNext, LocalEnabled, RouteAtClient, ReceiveBytes, Restrict, Within, Known, Enabled;
    if m.step.CreateLink? {
      NewOwner(w, id, m.step.link, m.id);
    } else {
      ClientStepIsLocal(mdu, View(w, m.id), m.step);
      hide Next;
    }
  }

  /** A client's step leaves the server and the links alone. */
  lemma ClientStepIsLocal(mdu: nat, s: System, step: Step)
    requires Enabled(s, step) && !step.ServerLocal? && !TakesEvent(step) && !step.RouteUp? && !step.CreateLink?
    ensures var s' := Next(mdu, s, step);
            s'.servers == s.servers && s'.table == s.table && s'.up == s.up && s'.links == s.links
  {
    hide LocalNext, LocalEnabled, RouteAtClient, ReceiveBytes;
  }

  /** So is what the server does about one link, for the client that owns it. */
  lemma ServerMoveSeen(mdu: nat, w: World, m: Move, id: ClientId)
    requires Known(w) && Permitted(w, m) && id in w.clients
    requires m.step.ServerLocal? || TakesEvent(m.step) || m.step.RouteUp?
    ensures var w' := Moved(mdu, w, m);
            && id in w'.clients
            && View(w', id) == if id == m.id then Next(mdu, View(w, id), m.step) else View(w, id)
  {
    hide LocalNext, LocalEnabled, RouteAtServer, ReceiveBytes, NewServer, Restrict, Within, Known;
    var w', link := Moved(mdu, w, m), m.step.link;
    LinkIsOwned(w, m);
    if m.step.ServerClosed? {
      WithinPut(w.owner, id, w.table, link);
    } else {
      assert w'.servers == w.servers[link := w'.servers[link]];
      RestrictPut(w.owner, id, w.servers, link, w'.servers[link]);
      if m.step.ServerEstablished? {
        WithinPut(w.owner, id, w.table, link);
      } else if m.step.DeliverUp? {
        RestrictPut(w.owner, id, w.up, link, w'.up[link]);
      }
    }
  }

  lemma LinkIsOwned(w: World, m: Move)
    requires Permitted(w, m) && (m.step.ServerLocal? || TakesEvent(m.step) || m.step.RouteUp?)
    ensures var link := m.step.link;
            && Owns(w, m.id, link)
            && Count(Restrict(w.owner, m.id, w.up), link) == Count(w.up, link)
            && (!m.step.ServerEstablished? && !m.step.ServerClosed? ==>
                  link in w.servers && Restrict(w.owner, m.id, w.servers)[link] == w.servers[link])
  {
    hide LocalEnabled;
  }

  lemma MoveKeepsKnown(mdu: nat, w: World, m: Move)
    requires Known(w) && Permitted(w, m)
    ensures Known(Moved(mdu, w, m)) && Moved(mdu, w, m).clients.Keys == w.clients.Keys
  {
    hide LocalNext, LocalEnabled, RouteAtServer, RouteAtClient, ReceiveBytes, NewServer, Next, Restrict, Within;
    if m.step.ServerLocal? || TakesEvent(m.step) || m.step.RouteUp? {
      LinkIsOwned(w, m);
    }
  }

  /** The steps of a run that concern one client. */
  function Own(moves: seq<Move>, id: ClientId): seq<Step> {
    if moves == [] then []
    else
      var last := moves[|moves| - 1];
      Own(moves[..|moves| - 1], id) + (if last.id == id then [last.step] else [])
  }

  lemma MoveSeen(mdu: nat, w: World, m: Move, id: ClientId)
    requires Known(w) && Permitted(w, m) && id in w.clients
    ensures var w' := Moved(mdu, w, m);
            && Known(w') && id in w'.clients
            && View(w', id) == if id == m.id then Next(mdu, View(w, id), m.step) else View(w, id)
  {
    hide Next, Enabled, View, Moved, Known;
    MoveKeepsKnown(mdu, w, m);
    if m.step.ServerLocal? || TakesEvent(m.step) || m.step.RouteUp? {
      ServerMoveSeen(mdu, w, m, id);
    } else {
      ClientMoveSeen(mdu, w, m, id);
    }
  }

  /**
   Clients do not interfere. Whatever all the others do on their links, with whatever
   session ids, a client and the server's muxes for its links go through exactly the
   steps that concern them.
   */
  lemma {:induction false} RunsAreSeparate(mdu: nat, start: World, moves: seq<Move>, id: ClientId)
    requires Known(start) && id in start.clients && Moves(mdu, start, moves).Some?
    ensures var w := Moves(mdu, start, moves).value;
            && Known(w) && id in w.clients
            && Run(mdu, View(start, id), Own(moves, id)) == Some(View(w, id))
    decreases |moves|
  {
    hide Next, Enabled, View, Moved, Known;
    if moves != [] {
      var init, last := moves[..|moves| - 1], moves[|moves| - 1];
      RunsAreSeparate(mdu, start, init, id);
      MoveSeen(mdu, Moves(mdu, start, init).value, last, id);
      assert last.id == id ==> Own(moves, id)[..|Own(moves, id)| - 1] == Own(init, id);
      assert last.id != id ==> Own(moves, id) == Own(init, id);
    }
  }

  lemma StartIsInit(ids: set<ClientId>, id: ClientId)
    requires id in ids
    ensures Known(Start(ids)) && View(Start(ids), id) == Init()
  {
    var s := View(Start(ids), id);
    assert s.links == {} && s.servers == map[] && s.table == {} && s.up == map[];
  }

  lemma {:induction false} ClientsStay(mdu: nat, start: World, moves: seq<Move>)
    requires Known(start) && Moves(mdu, start, moves).Some?
    ensures var w := Moves(mdu, start, moves).value; Known(w) && w.clients.Keys == start.clients.Keys
    decreases |moves|
  {
    hide Permitted, Moved, Known;
    if moves != [] {
      var init := moves[..|moves| - 1];
      ClientsStay(mdu, start, init);
      MoveKeepsKnown(mdu, Moves(mdu, start, init).value, moves[|moves| - 1]);
    }
  }

  lemma StartIsKnown(ids: set<ClientId>)
    ensures Known(Start(ids)) && Start(ids).clients.Keys == ids
  {
  }

  /** What a client sees of the world is a reachable state of its own system, and all that is proved about those holds. */
  lemma ViewIsReachable(mdu: nat, w: World, id: ClientId)
    requires Possible(mdu, w) && Unwrapped(w, id)
    ensures Known(w) && Reachable(mdu, View(w, id))
  {
    hide Next, Enabled, View, Moved, Known, Start;
    var ids, moves :| Moves(mdu, Start(ids), moves) == Some(w);
    StartIsKnown(ids);
    ClientsStay(mdu, Start(ids), moves);
    StartIsInit(ids, id);
    RunsAreSeparate(mdu, Start(ids), moves, id);
    assert View(w, id).issued == w.clients[id].issued by { ViewIssued(w, id); }
    assert Run(mdu, Init(), Own(moves, id)) == Some(View(w, id));
  }

  lemma ViewIssued(w: World, id: ClientId)
    requires id in w.clients
    ensures View(w, id).issued == w.clients[id].issued
  {
  }

  // ---------------------------------------------------------------------------
  // Every run of one client fits in
  // ---------------------------------------------------------------------------

  function MovesOf(id: ClientId, steps: seq<Step>): seq<Move> {
    seq(|steps|, i requires 0 <= i < |steps| => Move(id, steps[i]))
  }

  /** The server is idle as far as the other clients are concerned. */
  ghost predicate OthersIdle(w: World, id: ClientId) {
    forall link | link in w.servers && !Owns(w, id, link) :: w.servers[link].todo == []
  }

  lemma ServersIdle(w: World, w1: World, id: ClientId)
    requires Known(w1) && id in w1.clients && ServerIdle(View(w1, id)) && OthersIdle(w, id)
    requires forall other | other in w1.clients && other != id :: other in w.clients && View(w1, other) == View(w, other)
    ensures forall link | link in w1.servers :: w1.servers[link].todo == []
  {
    forall link | link in w1.servers
      ensures w1.servers[link].todo == []
    {
      var other := w1.owner[link];
      assert link in View(w1, other).servers && View(w1, other).servers[link] == w1.servers[link];
      if other != id {
        assert link in View(w, other).servers && !Owns(w, id, link);
      }
    }
  }

  lemma LinkIsNew(w: World, w1: World, id: ClientId, link: LinkId)
    requires Known(w1) && id in w1.clients && link !in View(w1, id).links && link !in w.owner
    requires forall other | other in w1.clients && other != id :: other in w.clients && View(w1, other) == View(w, other)
    ensures link !in w1.owner
  {
    assert link in w1.owner ==> link in View(w1, w1.owner[link]).links;
  }

  lemma StepFits(mdu: nat, w: World, w1: World, id: ClientId, step: Step)
    requires Known(w1) && id in w1.clients && Enabled(View(w1, id), step)
    requires forall other | other in w1.clients && other != id :: other in w.clients && View(w1, other) == View(w, other)
    requires OthersIdle(w, id) && (step.CreateLink? ==> step.link !in w.owner)
    ensures Permitted(w1, Move(id, step))
  {
    hide LocalEnabled, View, Known, OthersIdle, ServerIdle;
    if TakesEvent(step) {
      ServersIdle(w, w1, id);
    } else if step.CreateLink? {
      LinkIsNew(w, w1, id, step.link);
    }
  }

  /**
   Any run of one client's system is possible while the others rest: nothing in the
   world, however far the other clients are, makes one of its steps impossible.
   */
  lemma {:induction false} RunFits(mdu: nat, w: World, id: ClientId, steps: seq<Step>)
    requires Known(w) && id in w.clients && Run(mdu, View(w, id), steps).Some?
    requires OthersIdle(w, id) && forall step | step in steps && step.CreateLink? :: step.link !in w.owner
    ensures var r := Moves(mdu, w, MovesOf(id, steps));
            && r.Some? && Known(r.value) && r.value.clients.Keys == w.clients.Keys
            && View(r.value, id) == Run(mdu, View(w, id), steps).value
            && forall other | other in w.clients && other != id :: View(r.value, other) == View(w, other)
    decreases |steps|
  {
    hide Next, Enabled, View, Moved, Known, OthersIdle, Permitted;
    if steps != [] {
      var init, last := steps[..|steps| - 1], steps[|steps| - 1];
      RunFits(mdu, w, id, init);
      var w1 := Moves(mdu, w, MovesOf(id, init)).value;
      assert MovesOf(id, steps)[..|steps| - 1] == MovesOf(id, init);
      StepFits(mdu, w, w1, id, last);
      forall other | other in w.clients
        ensures other in Moved(mdu, w1, Move(id, last)).clients
        ensures View(Moved(mdu, w1, Move(id, last)), other) ==
                if other == id then Next(mdu, View(w1, id), last) else View(w1, other)
      {
        MoveSeen(mdu, w1, Move(id, last), other);
      }
      MoveKeepsKnown(mdu, w1, Move(id, last));
    }
  }
}
