/** Results about two moments of one run: what a dropped session, or a reset, rules out for the future. */
module Isolation {
  import opened Basics
  import opened Frames
  import opened Reassembly
  import opened Traces
  import opened Mux
  import opened Sessions
  import opened Endpoints
  import opened EndpointProofs
  import opened System
  import opened Invariant
  import opened SystemProofs
  import opened Theorems

  /** The session has been registered and is no longer. */
  predicate Dropped(e: Endpoint, sid: u32) {
    sid in e.tasks && !e.tasks[sid].phase.Allocated? && sid !in e.mux.sessions
  }

  /** The receiving half of its channel is gone: it has returned without a relay, or its writer is over. */
  predicate Deaf(e: Endpoint, sid: u32) {
    sid in e.tasks && !e.tasks[sid].writing && (!e.tasks[sid].reader.Off? || e.tasks[sid].phase.Done?)
  }

  /** A session that is one or the other stays so, and its channel gets nothing more. */
  predicate StaysDropped(e: Endpoint, e': Endpoint, sid: u32) {
    && (Dropped(e, sid) ==> Dropped(e', sid) && e'.tasks[sid].inbox == e.tasks[sid].inbox)
    && (Deaf(e, sid) ==> Deaf(e', sid) && e'.tasks[sid].inbox == e.tasks[sid].inbox)
  }

  lemma GrowsStaysDropped(e: Endpoint, e': Endpoint, sid: u32)
    requires Grows(e, e')
    ensures StaysDropped(e, e', sid)
  {
    hide Trace;
  }

  /** Routing and receiving change no registration at a client, and only fill channels of registered sessions. */
  lemma RouteStaysDropped(c: Endpoint, link: LinkId, sid: u32)
    requires c.todo != []
    ensures StaysDropped(c, RouteAtClient(c, link), sid)
  {
  }

  lemma AllocateStaysDropped(s: System, udp: bool, sid: u32)
    requires ClientInv(s.client, s.phase, s.links, s.issued) && s.issued + 1 < 0x1_0000_0000
    ensures StaysDropped(s.client, AllocateSession(s, udp).client, sid)
  {
    hide EndpointInv, RegisteredInbox, ClientInbox;
    assert Successor(s.client.mux.nextSid) == s.issued + 1;
  }

  lemma ClientStepStaysDropped(mdu: nat, s: System, step: Step, sid: u32)
    requires SystemInv(s) && Enabled(s, step) && Next(mdu, s, step).issued < 0x1_0000_0000
    ensures StaysDropped(s.client, Next(mdu, s, step).client, sid)
  {
    hide EndpointInv, LocalNext, LocalEnabled, RouteAtServer, RouteAtClient, LinkInv, ClientInv;
    ClientParts(s);
    match step
    case ClientLocal(local) =>
      LocalGrows(mdu, s.client, local);
      GrowsStaysDropped(s.client, LocalNext(mdu, s.client, local), sid);
    case Allocate(udp) => AllocateStaysDropped(s, udp, sid);
    case RouteDown => RouteStaysDropped(s.client, s.phase.link, sid);
    case _ =>
  }

  lemma ServerRouteStaysDropped(c: Endpoint, sv: Endpoint, link: LinkId, up: nat, sid: u32)
    requires EndpointInv(c) && !c.server && UpBytes(c, sv, link, up) && Asked(sv, link) && sv.todo != []
    ensures StaysDropped(sv, RouteAtServer(sv, link), sid)
  {
    hide EndpointInv, UpBytes, Asked, Trace, Encode;
    if sv.todo[0].frameType.Connect? {
      ConnectIsNew(c, sv, link, up);
    }
  }

  /** The server endpoint of a link after a step: its own steps aside, a step only adds decoded frames to it. */
  lemma OtherStepsKeepServers(mdu: nat, s: System, step: Step, link: LinkId)
    requires Enabled(s, step) && link in s.servers
    requires step.ServerLocal? ==> step.link != link
    requires step.RouteUp? ==> step.link != link
    ensures link in Next(mdu, s, step).servers
    ensures var sv' := Next(mdu, s, step).servers[link];
            sv'.tasks == s.servers[link].tasks && sv'.mux.sessions == s.servers[link].mux.sessions
  {
    hide LocalNext, LocalEnabled, RouteAtServer, RouteAtClient, Drain;
  }

  lemma ServerPremises(s: System, link: LinkId)
    requires SystemInv(s) && link in s.servers
    ensures EndpointInv(s.client) && !s.client.server && EndpointInv(s.servers[link])
    ensures UpBytes(s.client, s.servers[link], link, Count(s.up, link)) && Asked(s.servers[link], link)
  {
    hide EndpointInv, UpBytes, DownBytes, Asked, Answered, ServerInbox, ClientInv;
    ClientParts(s);
    assert LinkInv(s, link);
  }

  lemma OwnStepStaysDropped(mdu: nat, sv: Endpoint, link: LinkId, step: LocalStep, sid: u32)
    requires EndpointInv(sv) && LocalEnabled(sv, step)
    ensures StaysDropped(sv, LocalNext(mdu, sv, step), sid)
  {
    hide EndpointInv, LocalNext, LocalEnabled, Grows, StaysDropped;
    LocalGrows(mdu, sv, step);
    GrowsStaysDropped(sv, LocalNext(mdu, sv, step), sid);
  }

  lemma ServerStepStaysDropped(mdu: nat, s: System, step: Step, link: LinkId, sid: u32)
    requires SystemInv(s) && Enabled(s, step) && link in s.servers
    ensures link in Next(mdu, s, step).servers
    ensures StaysDropped(s.servers[link], Next(mdu, s, step).servers[link], sid)
  {
    hide SystemInv, EndpointInv, LocalNext, LocalEnabled, RouteAtServer, UpBytes, Asked;
    ServerPremises(s, link);
    if step.ServerLocal? && step.link == link {
      hide StaysDropped;
      OwnStepStaysDropped(mdu, s.servers[link], link, step.serverStep, sid);
    } else if step == RouteUp(link) {
      hide StaysDropped;
      ServerRouteStaysDropped(s.client, s.servers[link], link, Count(s.up, link), sid);
    } else {
      hide Next, Enabled;
      OtherStepsKeepServers(mdu, s, step, link);
    }
  }

  /**
   Once a session is dropped, its id is never registered again, and no later frame
   is delivered to it, nor to a session whose receiver is gone; at the client and at
   every server endpoint.
   */
  lemma {:induction false} DroppedForGood(mdu: nat, s: System, steps: seq<Step>, sid: u32)
    requires SystemInv(s) && Run(mdu, s, steps).Some? && Run(mdu, s, steps).value.issued < 0x1_0000_0000
    ensures var s' := Run(mdu, s, steps).value;
            && StaysDropped(s.client, s'.client, sid)
            && forall link | link in s.servers :: link in s'.servers && StaysDropped(s.servers[link], s'.servers[link], sid)
    decreases |steps|
  {
    hide SystemInv, Enabled, Next;
    if steps != [] {
      var before := steps[..|steps| - 1];
      var last := steps[|steps| - 1];
      var m := Run(mdu, s, before).value;
      IssuedGrows(mdu, m, last);
      RunFromInv(mdu, s, before);
      DroppedForGood(mdu, s, before, sid);
      ClientStepStaysDropped(mdu, m, last, sid);
      forall link | link in s.servers
        ensures link in Next(mdu, m, last).servers
        ensures StaysDropped(s.servers[link], Next(mdu, m, last).servers[link], sid)
      {
        ServerStepStaysDropped(mdu, m, last, link, sid);
      }
    }
  }

  lemma IssuedGrows(mdu: nat, s: System, step: Step)
    requires Enabled(s, step)
    ensures s.issued <= Next(mdu, s, step).issued
  {
    hide LocalNext, LocalEnabled, RouteAtServer, RouteAtClient, ReceiveBytes;
  }

  lemma RunFromInv(mdu: nat, s: System, steps: seq<Step>)
    requires SystemInv(s) && Run(mdu, s, steps).Some? && Run(mdu, s, steps).value.issued < 0x1_0000_0000
    ensures SystemInv(Run(mdu, s, steps).value)
  {
    hide SystemInv, Run;
    RunKeepsInv(mdu, s, steps);
  }

  /** At this moment nothing anywhere bears the session's id: no frame was ever enqueued for it or by it. */
  ghost predicate Unheard(s: System, sid: u32) {
    && Trace(s.client.enqueued, sid) == []
    && forall link | link in s.links :: sid !in Peer(s, link).tasks && Trace(Peer(s, link).enqueued, sid) == []
  }

  /**
   Reconnect isolation. Take any state right after a reset, and any later state.
   Sessions registered before the reset are out of the sessions map for good and
   receive nothing more, although their frames may still be queued or sent on the
   new link. A session registered after it receives only frames of its own id, and
   at the reset no frame of that id existed at either end.
   */
  lemma ResetIsolates(mdu: nat, before: System, steps: seq<Step>, sid: u32)
    requires Reachable(mdu, before) && Enabled(before, SessionsCleared)
    requires var reset := Next(mdu, before, SessionsCleared);
             Run(mdu, reset, steps).Some? && Run(mdu, reset, steps).value.issued < 0x1_0000_0000
    ensures var reset := Next(mdu, before, SessionsCleared);
            var s := Run(mdu, reset, steps).value;
            && (sid in reset.client.tasks && !reset.client.tasks[sid].phase.Allocated? ==>
                  && sid in s.client.tasks && sid !in s.client.mux.sessions
                  && s.client.tasks[sid].inbox == before.client.tasks[sid].inbox)
            && (sid in s.client.tasks && !Dropped(reset.client, sid) ==>
                  && Unheard(reset, sid)
                  && forall f | f in s.client.tasks[sid].inbox :: f.sessionId == sid)
  {
    hide Reachable, SystemInv, Run, EndpointInv, Trace;
    var reset := Next(mdu, before, SessionsCleared);
    ReachableInv(mdu, before);
    assert Inv(reset) by { StepKeepsInv(mdu, before, SessionsCleared); }
    IssuedGrowsAlong(mdu, reset, steps);
    var s := Run(mdu, reset, steps).value;
    RunFromInv(mdu, reset, steps);
    DroppedForGood(mdu, reset, steps, sid);
    if sid in s.client.tasks && !Dropped(reset.client, sid) {
      InboxHasSid(s, sid);
      UnregisteredIsUnheard(reset, sid);
    }
  }

  lemma UnregisteredIsUnheard(s: System, sid: u32)
    requires SystemInv(s)
    requires sid !in s.client.tasks || s.client.tasks[sid].phase.Allocated?
    ensures Unheard(s, sid)
  {
    hide EndpointInv, LinkInv, Trace;
    ClientSilent(s.client, sid);
    forall link | link in s.links
      ensures sid !in Peer(s, link).tasks && Trace(Peer(s, link).enqueued, sid) == []
    {
      UnknownBeforeConnect(s, link, sid);
    }
  }

  lemma ClientSilent(c: Endpoint, sid: u32)
    requires EndpointInv(c) && !c.server
    requires sid !in c.tasks || c.tasks[sid].phase.Allocated?
    ensures Trace(c.enqueued, sid) == []
  {
    hide Trace;
    if sid in c.tasks {
      AllocatedIsSilent(c, sid);
    } else {
      assert StrayTrace(c.server, Trace(c.enqueued, sid));
    }
  }

  lemma InboxHasSid(s: System, sid: u32)
    requires SystemInv(s) && sid in s.client.tasks
    ensures forall f | f in s.client.tasks[sid].inbox :: f.sessionId == sid
  {
    hide EndpointInv, LinkInv, Trace;
    assert ClientInbox(s.client, sid);
    if s.client.tasks[sid].inbox != [] {
      TraceHasSid(Routed(s.client, s.client.tasks[sid].via.value), sid);
    }
  }

  lemma {:induction false} IssuedGrowsAlong(mdu: nat, s: System, steps: seq<Step>)
    requires Run(mdu, s, steps).Some?
    ensures s.issued <= Run(mdu, s, steps).value.issued
    decreases |steps|
  {
    hide Enabled, Next;
    if steps != [] {
      IssuedGrowsAlong(mdu, s, steps[..|steps| - 1]);
      IssuedGrows(mdu, Run(mdu, s, steps[..|steps| - 1]).value, steps[|steps| - 1]);
    }
  }

  // ---------------------------------------------------------------------------
  // Links closing at the server
  // ---------------------------------------------------------------------------

  /** The server has had a mux for the link and looks it up no more. */
  predicate Retired(s: System, link: LinkId) {
    link in s.servers && link !in s.table
  }

  lemma StepStaysRetired(mdu: nat, s: System, step: Step, link: LinkId)
    requires Enabled(s, step) && Retired(s, link)
    ensures var s' := Next(mdu, s, step); Retired(s', link) && Count(s'.up, link) == Count(s.up, link)
  {
    hide LocalNext, LocalEnabled, RouteAtServer, RouteAtClient, ReceiveBytes, NewServer;
  }

  lemma {:induction false} RunStaysRetired(mdu: nat, s: System, steps: seq<Step>, link: LinkId)
    requires Retired(s, link) && Run(mdu, s, steps).Some?
    ensures var s' := Run(mdu, s, steps).value; Retired(s', link) && Count(s'.up, link) == Count(s.up, link)
    decreases |steps|
  {
    hide Enabled, Next;
    if steps != [] {
      RunStaysRetired(mdu, s, steps[..|steps| - 1], link);
      StepStaysRetired(mdu, Run(mdu, s, steps[..|steps| - 1]).value, steps[|steps| - 1], link);
    }
  }

  /**
   A link that closes at the server ends none of its sessions, all of which go on as they
   are; but from then on not a byte of that link reaches the server, whatever happens.
   */
  lemma ClosedLinkIsDeaf(mdu: nat, s: System, steps: seq<Step>, link: LinkId)
    requires Enabled(s, ServerClosed(link)) && link in s.servers
    requires Run(mdu, Next(mdu, s, ServerClosed(link)), steps).Some?
    ensures Next(mdu, s, ServerClosed(link)).servers == s.servers
    ensures var s' := Run(mdu, Next(mdu, s, ServerClosed(link)), steps).value;
            link !in s'.table && Count(s'.up, link) == Count(s.up, link)
  {
    hide Run;
    RunStaysRetired(mdu, Next(mdu, s, ServerClosed(link)), steps, link);
  }

  // ---------------------------------------------------------------------------
  // Connections before the first link
  // ---------------------------------------------------------------------------

  /** Sessions are for connections that were accepted while a link was up. */
  predicate AcceptedOnLink(s: System) {
    && (s.accepted > 0 || s.issued > 0 ==> s.client.links != map[])
    && (s.client.mux.linkId.Some? ==> s.client.mux.linkId.value in s.client.links)
  }

  lemma StepAcceptsOnLink(mdu: nat, s: System, step: Step)
    requires AcceptedOnLink(s) && SystemInv(s) && Enabled(s, step)
    ensures AcceptedOnLink(Next(mdu, s, step))
  {
    hide EndpointInv, ClientInv, LinkInv, RouteAtServer, Drain, TaskNext, TaskEnabled, Emits, Encode;
    ClientParts(s);
    if step.ClientLocal? {
      LocalGrows(mdu, s.client, step.step);
      GrowsKeepsLinks(s.client, LocalNext(mdu, s.client, step.step));
      hide LocalNext, LocalEnabled;
    }
  }

  lemma GrowsKeepsLinks(e: Endpoint, e': Endpoint)
    requires Grows(e, e')
    ensures e'.links.Keys == e.links.Keys && (e'.mux.linkId == e.mux.linkId || e'.mux.linkId == None)
    ensures e.links != map[] ==> e'.links != map[]
  {
    hide Trace;
    assert e.links != map[] ==> exists l :: l in e.links;
  }

  /** Without a link there are no sessions: a connection that comes while no link is up is rejected. */
  lemma NoSessionBeforeLink(mdu: nat, steps: seq<Step>)
    requires Run(mdu, Init(), steps).Some? && Run(mdu, Init(), steps).value.issued < 0x1_0000_0000
    ensures AcceptedOnLink(Run(mdu, Init(), steps).value)
    decreases |steps|
  {
    hide SystemInv, Enabled, Next, AcceptedOnLink;
    if steps == [] {
      assert AcceptedOnLink(Init()) by { NothingAccepted(); }
    } else {
      var before := steps[..|steps| - 1];
      var m := Run(mdu, Init(), before).value;
      IssuedGrows(mdu, m, steps[|steps| - 1]);
      NoSessionBeforeLink(mdu, before);
      InitInv();
      RunFromInv(mdu, Init(), before);
      StepAcceptsOnLink(mdu, m, steps[|steps| - 1]);
    }
  }

  lemma NothingAccepted()
    ensures AcceptedOnLink(Init())
  {
  }
}
