/**
 The sender task in the system, compared with the loop of `MuxHandle.SendChunks`,
 and what its way of clearing the link costs when it fails late.
 */
module SenderTask {
  import opened Basics
  import opened Frames
  import opened Reassembly
  import opened Mux
  import opened Sessions
  import opened Endpoints
  import opened System
  import opened Invariant
  import opened SystemProofs
  import opened Examples

  /** The task's steps for one frame when nothing else runs: a chunk is sent or refused, as the link answers. */
  function SendSteps(mdu: nat, e: Endpoint, accepts: nat -> bool, i: nat): Endpoint
    requires mdu > 0
    decreases if e.sender.Sending? then |e.sender.left| + 1 else 0
  {
    if !e.sender.Sending? then e
    else if e.sender.left == [] then e.(sender := Idle)
    else if !accepts(i) then LocalNext(mdu, e, ChunkRefused)
    else SendSteps(mdu, LocalNext(mdu, e, ChunkSent), accepts, i + 1)
  }

  lemma HandOverTwice(e: Endpoint, link: LinkId, a: Bytes, b: Bytes)
    ensures HandOver(HandOver(e, link, a), link, b) == HandOver(e, link, a + b)
  {
    if link in e.links {
      assert e.links[link].out + a + b == e.links[link].out + (a + b);
    }
  }

  lemma HandOverNothing(e: Endpoint, link: LinkId)
    ensures HandOver(e, link, []) == e
  {
    if link in e.links {
      assert e.links[link].out + [] == e.links[link].out;
      assert e.links[link := e.links[link]] == e.links;
    }
  }

  lemma HandOverCommutes(e: Endpoint, sender: Sender, link: LinkId, a: Bytes)
    ensures HandOver(e.(sender := sender), link, a) == HandOver(e, link, a).(sender := sender)
  {
  }

  /**
   Step by step the task does what the chunk loop does in one go: it hands over
   the same bytes, to the link it read and no other, and clears the link exactly
   when a chunk is refused.
   */
  lemma {:induction false} StepsMatchLoop(mdu: nat, e: Endpoint, accepts: nat -> bool, i: nat)
    requires mdu > 0 && e.sender.Sending? && e.sender.left != [] && e.sender.link in e.links
    ensures var link, data := e.sender.link, e.sender.left;
            var n := Transmitted(|data|, mdu, accepts, i);
            SendSteps(mdu, e, accepts, i) ==
              HandOver(e, link, data[..n]).(
                sender := Idle,
                mux := if n == |data| then e.mux else e.mux.(linkId := None))
    decreases |e.sender.left|
  {
    hide HandOver, LocalNext;
    var link, data := e.sender.link, e.sender.left;
    if !accepts(i) {
      RefusalIs(mdu, e);
      HandOverNothing(e, link);
      assert data[..0] == [];
    } else {
      var n := Min(mdu, |data|);
      var sent := HandOver(e, link, data[..n]);
      ChunkIs(mdu, e);
      HandOverKeeps(e, link, data[..n]);
      if n == |data| {
        assert data[..n] == data && data[n..] == [];
      } else {
        var e1, rest := sent.(sender := Sending(link, data[n..])), data[n..];
        StepsMatchLoop(mdu, e1, accepts, i + 1);
        var k := Transmitted(|rest|, mdu, accepts, i + 1);
        assert data[..n] + rest[..k] == data[..n + k];
        HandOverCommutes(sent, e1.sender, link, rest[..k]);
        HandOverTwice(e, link, data[..n], rest[..k]);
      }
    }
  }

  lemma RefusalIs(mdu: nat, e: Endpoint)
    requires e.sender.Sending?
    ensures LocalNext(mdu, e, ChunkRefused) == e.(sender := Idle, mux := e.mux.(linkId := None))
  {
  }

  lemma ChunkIs(mdu: nat, e: Endpoint)
    requires e.sender.Sending?
    ensures var link, data, n := e.sender.link, e.sender.left, Min(mdu, |e.sender.left|);
            LocalNext(mdu, e, ChunkSent) ==
              HandOver(e, link, data[..n]).(sender := if data[n..] == [] then Idle else Sending(link, data[n..]))
  {
  }

  /**
   A whole turn of the task does what `SenderTurn` does: a frame leaves the queue; with
   no link it is dropped, and otherwise it goes out on the link that is current then, up
   to the first refusal, which clears the link.
   */
  lemma TurnMatchesLoop(mdu: nat, e: Endpoint, accepts: nat -> bool)
    requires mdu > 0 && e.sender.Idle? && e.mux.queue != [] && e.mux.queue[0] != []
    requires e.mux.linkId.Some? ==> e.mux.linkId.value in e.links
    ensures LocalEnabled(e, TakeFrame)
    ensures var taken := LocalNext(mdu, e, TakeFrame);
            && LocalEnabled(taken, ReadLink)
            && var after := SendSteps(mdu, LocalNext(mdu, taken, ReadLink), accepts, 0);
               && after.sender == Idle && after.mux.queue == e.mux.queue[1..]
               && match e.mux.linkId
                  case None =>
                    after.mux.linkId == None && forall l | l in e.links :: Out(after, l) == Out(e, l)
                  case Some(link) =>
                    var data := e.mux.queue[0];
                    var n := Transmitted(|data|, mdu, accepts, 0);
                    && after.mux.linkId == (if n == |data| then Some(link) else None)
                    && Out(after, link) == Out(e, link) + data[..n]
                    && forall l | l in e.links && l != link :: Out(after, l) == Out(e, l)
  {
    var reading := LocalNext(mdu, LocalNext(mdu, e, TakeFrame), ReadLink);
    if e.mux.linkId.Some? {
      StepsMatchLoop(mdu, reading, accepts, 0);
      assert reading.sender == Sending(e.mux.linkId.value, e.mux.queue[0]);
    }
  }

  lemma HandOverKeeps(e: Endpoint, link: LinkId, a: Bytes)
    ensures var e' := HandOver(e, link, a); e'.mux == e.mux && e'.sender == e.sender && e'.links.Keys == e.links.Keys
  {
  }

  // ---------------------------------------------------------------------------
  // Late failures
  // ---------------------------------------------------------------------------

  /** The step is this link's refusal of a chunk. */
  predicate RefusedBy(s: System, step: Step, link: LinkId) {
    step == ClientLocal(ChunkRefused) && s.client.sender.Sending? && s.client.sender.link == link
  }

  /** Some step of the run is. */
  predicate RefusedDuring(mdu: nat, start: System, steps: seq<Step>, link: LinkId)
    decreases |steps|
  {
    steps != [] &&
    (|| RefusedDuring(mdu, start, steps[..|steps| - 1], link)
     || match Run(mdu, start, steps[..|steps| - 1])
        case Some(s) => RefusedBy(s, steps[|steps| - 1], link)
        case None => false)
  }

  /** However the system goes on, until the link closes it is the current one, unless it refuses a chunk itself. */
  ghost predicate KeptUnlessRefused(mdu: nat, s: System, link: LinkId) {
    forall steps | Run(mdu, s, steps).Some? && ClientClosed !in steps ::
      Run(mdu, s, steps).value.client.mux.linkId == if RefusedDuring(mdu, s, steps, link) then None else Some(link)
  }

  /** The sender task is not busy with a link other than this one, which the client is on. */
  predicate SenderFollows(s: System, link: LinkId) {
    s.phase == Dispatching(link) && (s.client.sender.Sending? ==> s.client.sender.link == link)
  }

  /** One step: the link is given up exactly by its own refusal, and the sender takes up no other link. */
  lemma StepKeepsLink(mdu: nat, s: System, step: Step, link: LinkId)
    requires Enabled(s, step) && !step.ClientClosed? && SenderFollows(s, link)
    requires s.client.mux.linkId == None || s.client.mux.linkId == Some(link)
    ensures var s' := Next(mdu, s, step);
            && SenderFollows(s', link)
            && s'.client.mux.linkId == if RefusedBy(s, step, link) then None else s.client.mux.linkId
  {
    hide TaskNext, TaskEnabled, Emits, Encode, Drain, RouteAtServer;
  }

  lemma {:induction false} RunKeepsLink(mdu: nat, s: System, steps: seq<Step>, link: LinkId)
    requires Run(mdu, s, steps).Some? && ClientClosed !in steps
    requires SenderFollows(s, link) && s.client.mux.linkId == Some(link)
    ensures SenderFollows(Run(mdu, s, steps).value, link)
    ensures Run(mdu, s, steps).value.client.mux.linkId ==
            if RefusedDuring(mdu, s, steps, link) then None else Some(link)
    decreases |steps|
  {
    hide Next, Enabled, SenderFollows, RefusedBy;
    if steps != [] {
      var init := steps[..|steps| - 1];
      RunKeepsLink(mdu, s, init, link);
      StepKeepsLink(mdu, Run(mdu, s, init).value, steps[|steps| - 1], link);
    }
  }

  lemma OneStepRun(mdu: nat, s: System, step: Step)
    requires Enabled(s, step)
    ensures Run(mdu, s, [step]) == Some(Next(mdu, s, step))
  {
    hide Next, Enabled;
    assert [step][..0] == [];
    assert Run(mdu, s, []) == Some(s);
  }

  lemma NotRefused(mdu: nat, s: System, step: Step, link: LinkId)
    ensures RefusedDuring(mdu, s, [step], link) <==> RefusedBy(s, step, link)
  {
    assert [step][..0] == [];
    assert Run(mdu, s, []) == Some(s);
  }

  /** A sender still busy with an older link can clear the new one at once. */
  lemma BusySenderClearsLink(mdu: nat, s: System, link: LinkId)
    requires s.client.sender.Sending? && s.client.sender.link != link
    ensures !KeptUnlessRefused(mdu, s, link)
  {
    var step := ClientLocal(ChunkRefused);
    OneStepRun(mdu, s, step);
    NotRefused(mdu, s, step, link);
    assert Run(mdu, s, [step]).value.client.mux.linkId == None;
    assert ClientClosed !in [step];
  }

  /**
   What a refusal may cost. A refused chunk clears whatever link is current by then.
   A link that has just been established is safe from that, whatever happens before
   it closes, if and only if the sender task was not in the middle of a frame when
   it was established.
   */
  lemma RefusalSparesOtherLinks(mdu: nat, before: System)
    requires Reachable(mdu, before) && Enabled(before, ClientEstablished)
    ensures KeptUnlessRefused(mdu, Next(mdu, before, ClientEstablished), before.phase.link)
            <==> !before.client.sender.Sending?
  {
    hide Reachable, EndpointInv, LinkInv, RegisteredInbox, ClientInbox, Run, RefusedDuring;
    ReachableInv(mdu, before);
    var link, s := before.phase.link, Next(mdu, before, ClientEstablished);
    if before.client.sender.Sending? {
      BusyLinkIsKnown(before.client);
      BusySenderClearsLink(mdu, s, link);
    } else {
      forall steps | Run(mdu, s, steps).Some? && ClientClosed !in steps
        ensures Run(mdu, s, steps).value.client.mux.linkId ==
                if RefusedDuring(mdu, s, steps, link) then None else Some(link)
      {
        RunKeepsLink(mdu, s, steps, link);
      }
    }
  }

  lemma BusyLinkIsKnown(c: Endpoint)
    requires EndpointInv(c) && c.sender.Sending?
    ensures c.sender.link in c.links
  {
  }

  // ---------------------------------------------------------------------------
  // A run in which it happens
  // ---------------------------------------------------------------------------

  /** Link 1 is closed and replaced by link 2 while the sender task is still busy on link 1; then that send fails. */
  const LATE_FAILURE: seq<Step> := [
    ClientClosed, SessionsCleared, BufferCleared, CreateLink(2), ClientEstablished, ClientLocal(ChunkRefused)]

  /** It happens: link 2 is up and has refused nothing, and yet the client has no link and sends nothing on it. */
  lemma LateFailureClearsNewLink(mdu: nat)
    ensures var end := Run(mdu, Init(), OpeningSteps(1) + LATE_FAILURE);
            end.Some? && end.value.phase == Dispatching(2) && end.value.client.mux.linkId == None
            && Out(end.value.client, 2) == []
  {
    hide Run, Encode;
    var s := OpeningRun(mdu, 1);
    RunConcat(mdu, Init(), OpeningSteps(1), LATE_FAILURE);
    var steps, t := LATE_FAILURE, s;
    assert Run(mdu, s, steps[..0]) == Some(s) by { EmptyRun(mdu, s); }
    t := Extend(mdu, s, steps, 0, t);
    t := Extend(mdu, s, steps, 1, t);
    t := Extend(mdu, s, steps, 2, t);
    t := Extend(mdu, s, steps, 3, t);
    t := Extend(mdu, s, steps, 4, t);
    t := Extend(mdu, s, steps, 5, t);
    assert steps[..6] == steps;
  }
}
