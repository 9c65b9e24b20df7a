/** Every step an endpoint takes by itself keeps its invariant and only extends its histories. */
module EndpointProofs {
  import opened Basics
  import opened Frames
  import opened ConnectPayload
  import opened Traces
  import opened Mux
  import opened Sessions
  import opened Endpoints

  predicate LogGrows(log: LinkLog, log': LinkLog) {
    log'.lo == log.lo && log.hi <= log'.hi && log.out <= log'.out && log'.routed == log.routed
  }

  /** What a local step may change, as far as the other endpoint can tell. */
  ghost predicate Grows(e: Endpoint, e': Endpoint) {
    && e'.server == e.server && e'.forgotten == e.forgotten
    && e.enqueued <= e'.enqueued
    && (forall link :: link in e'.links <==> link in e.links)
    && (forall link | link in e.links :: LogGrows(e.links[link], e'.links[link]))
    && e'.todo == e.todo && e'.mux.recvBuf == e.mux.recvBuf && e'.mux.nextSid == e.mux.nextSid
    && e'.mux.sessions <= e.mux.sessions
    && (e'.mux.linkId == e.mux.linkId || e'.mux.linkId == None)
    && e'.tasks.Keys == e.tasks.Keys
    && (forall sid | sid in e.tasks ::
          && e'.tasks[sid].inbox == e.tasks[sid].inbox && e'.tasks[sid].via == e.tasks[sid].via
          && (e'.tasks[sid].phase.Allocated? ==> e.tasks[sid].phase.Allocated?)
          && e'.tasks[sid].udp == e.tasks[sid].udp
          && (e.tasks[sid].asked.Some? ==> e'.tasks[sid].asked == e.tasks[sid].asked)
          && (Listening(e'.tasks[sid]) ==> Listening(e.tasks[sid])))
    && (forall sid: u32 | sid !in e.tasks :: Trace(e'.enqueued, sid) == Trace(e.enqueued, sid))
  }

  lemma NewEndpointInv(server: bool)
    ensures EndpointInv(NewEndpoint(server))
  {
  }

  lemma NothingEncoded()
    ensures EncodeAll([]) == []
  {
  }

  lemma AttachKeepsWire(e: Endpoint, link: LinkId, l: LinkId)
    requires link !in e.links && e.started <= |e.enqueued| && (e.sender.Sending? ==> e.sender.link in e.links)
    requires l != link ==> SpanOk(e, l) && WireInv(e, l)
    ensures SpanOk(AttachLink(e, link), l) && WireInv(AttachLink(e, link), l)
  {
    hide EncodeAll;
    if l == link {
      assert FramesOn(AttachLink(e, link), link) == [];
      NothingEncoded();
    }
  }

  lemma AttachKeepsSpans(e: Endpoint, link: LinkId)
    requires QueueInv(e) && SpansInv(e) && DisjointSpans(e) && link !in e.links
    ensures var e' := AttachLink(e, link); QueueInv(e') && SpansInv(e') && DisjointSpans(e')
  {
    hide Encode, AllFit;
    var e' := AttachLink(e, link);
    forall l | l in e'.links
      ensures SpanOk(e', l)
    {
      assert l != link ==> SpanOk(e, l);
    }
  }

  /** A link that is attached for the first time starts with nothing on it. */
  lemma AttachKeepsInv(e: Endpoint, link: LinkId)
    requires EndpointInv(e) && link !in e.links
    ensures EndpointInv(AttachLink(e, link))
  {
    hide DisjointSpans, SessionInv, Trace, WireInv, Encode, AllFit;
    var e' := AttachLink(e, link);
    AttachKeepsSpans(e, link);
    forall l | l in e'.links
      ensures SpanOk(e', l) && WireInv(e', l)
    {
      AttachKeepsWire(e, link, l);
    }
    SameTasks(e, e');
  }

  lemma SameTasks(e: Endpoint, e': Endpoint)
    requires TasksInv(e)
    requires e'.server == e.server && e'.tasks == e.tasks && e'.enqueued == e.enqueued
    requires e'.mux.sessions == e.mux.sessions && e'.forgotten == e.forgotten
    ensures TasksInv(e')
  {
    hide SessionInv, WriterEnd, Trace;
    forall sid | sid in e'.tasks
      ensures TaskInv(e', sid)
    {
      assert TaskInv(e, sid);
    }
  }

  // ---------------------------------------------------------------------------
  // The sender task
  // ---------------------------------------------------------------------------

  lemma TakeFrameKeepsInv(mdu: nat, e: Endpoint)
    requires EndpointInv(e) && LocalEnabled(e, TakeFrame)
    ensures EndpointInv(LocalNext(mdu, e, TakeFrame))
  {
    hide SessionInv, Trace, EncodeAll, Encode, AllFit;
    var e' := LocalNext(mdu, e, TakeFrame);
    assert e.mux.queue[0] == Encode(e.enqueued[Dequeued(e) + 0]);
    forall i | 0 <= i < |e'.mux.queue|
      ensures e'.mux.queue[i] == Encode(e'.enqueued[Dequeued(e') + i])
    {
      assert e'.mux.queue[i] == e.mux.queue[i + 1];
    }
    forall l | l in e'.links
      ensures SpanOk(e', l) && WireInv(e', l)
    {
      assert SpanOk(e, l) && WireInv(e, l);
    }
    SameTasks(e, e');
  }

  lemma ReadLinkKeepsSpans(e: Endpoint)
    requires QueueInv(e) && SpansInv(e) && DisjointSpans(e) && e.sender.Holding?
    ensures SpansInv(StartFrame(e)) && DisjointSpans(StartFrame(e)) && QueueInv(StartFrame(e))
  {
    hide Encode, AllFit;
    var e' := StartFrame(e);
    forall l | l in e'.links
      ensures SpanOk(e', l)
    {
      assert SpanOk(e, l);
    }
  }

  /** The frame whose link is read now is the next one of that link's span, and none of its bytes are out yet. */
  lemma ReadLinkKeepsWire(e: Endpoint, l: LinkId)
    requires QueueInv(e) && e.sender.Holding? && SpanOk(e, l) && WireInv(e, l)
    ensures SpanOk(StartFrame(e), l) && WireInv(StartFrame(e), l)
  {
    hide Encode, EncodeAll, AllFit;
    var e' := StartFrame(e);
    if e.mux.linkId == Some(l) {
      var f := e.enqueued[e.started];
      assert FramesOn(e', l) == FramesOn(e, l) + [f];
      EncodeAllConcat(FramesOn(e, l), [f]);
      EncodeAllOne(f);
    } else {
      assert FramesOn(e', l) == FramesOn(e, l);
    }
  }

  lemma ReadLinkKeepsInv(mdu: nat, e: Endpoint)
    requires EndpointInv(e) && LocalEnabled(e, ReadLink)
    ensures EndpointInv(LocalNext(mdu, e, ReadLink))
  {
    hide SpansInv, DisjointSpans, QueueInv, SessionInv, Trace, WireInv;
    var e' := StartFrame(e);
    ReadLinkKeepsSpans(e);
    forall l | l in e'.links
      ensures SpanOk(e', l) && WireInv(e', l)
    {
      ReadLinkKeepsWire(e, l);
    }
    SameTasks(e, e');
  }

  lemma ChunkKeepsWire(mdu: nat, e: Endpoint, step: LocalStep, l: LinkId)
    requires e.sender.Sending? && (step.ChunkSent? || step.ChunkRefused?)
    requires SpanOk(e, l) && WireInv(e, l)
    ensures var e' := LocalNext(mdu, e, step); SpanOk(e', l) && WireInv(e', l)
  {
    hide EncodeAll;
    var e' := LocalNext(mdu, e, step);
    assert FramesOn(e', l) == FramesOn(e, l);
    if l == e.sender.link && step.ChunkSent? {
      var n := Min(mdu, |e.sender.left|);
      assert Out(e, l) + e.sender.left[..n] + e.sender.left[n..] == Out(e, l) + e.sender.left;
    }
  }

  /** A chunk changes only what a link was handed, whose turn it is, and perhaps gives up the current link. */
  lemma ChunkChanges(mdu: nat, e: Endpoint, step: LocalStep)
    requires e.sender.Sending? && (step.ChunkSent? || step.ChunkRefused?)
    ensures var e' := LocalNext(mdu, e, step);
            && e'.enqueued == e.enqueued && e'.started == e.started && e'.mux.queue == e.mux.queue
            && (e'.mux.linkId == e.mux.linkId || e'.mux.linkId == None)
            && (e'.sender.Idle? || (e'.sender.Sending? && e'.sender.link == e.sender.link))
            && (forall l :: l in e'.links <==> l in e.links)
            && forall l | l in e.links :: e'.links[l].lo == e.links[l].lo && e'.links[l].hi == e.links[l].hi
  {
  }

  lemma ChunkKeepsSpans(mdu: nat, e: Endpoint, step: LocalStep)
    requires QueueInv(e) && SpansInv(e) && DisjointSpans(e)
    requires e.sender.Sending? && (step.ChunkSent? || step.ChunkRefused?)
    ensures var e' := LocalNext(mdu, e, step); QueueInv(e') && SpansInv(e') && DisjointSpans(e')
  {
    hide Encode, AllFit, LocalNext;
    var e' := LocalNext(mdu, e, step);
    ChunkChanges(mdu, e, step);
    forall l | l in e'.links
      ensures SpanOk(e', l)
    {
      assert SpanOk(e, l);
    }
    assert e.mux.linkId.Some? ==> LatestSpan(e, e.mux.linkId.value);
  }

  lemma ChunkKeepsInv(mdu: nat, e: Endpoint, step: LocalStep)
    requires EndpointInv(e) && LocalEnabled(e, step)
    requires step.ChunkSent? || step.ChunkRefused?
    ensures EndpointInv(LocalNext(mdu, e, step))
  {
    hide SpansInv, DisjointSpans, QueueInv, SessionInv, Trace, WireInv;
    var e' := LocalNext(mdu, e, step);
    ChunkKeepsSpans(mdu, e, step);
    forall l | l in e'.links
      ensures SpanOk(e', l) && WireInv(e', l)
    {
      ChunkKeepsWire(mdu, e, step, l);
    }
    SameTasks(e, e');
  }

  // ---------------------------------------------------------------------------
  // Frames entering the queue
  // ---------------------------------------------------------------------------

  lemma EnqueueKeepsQueue(e: Endpoint, f: Frame)
    requires QueueInv(e) && HasRoom(e.mux) && Fits(f)
    ensures QueueInv(Enqueue(e, f))
  {
    var e' := Enqueue(e, f);
    forall i | 0 <= i < |e'.mux.queue|
      ensures e'.mux.queue[i] == Encode(e'.enqueued[Dequeued(e') + i])
    {
      if i < |e.mux.queue| {
        assert e.mux.queue[i] == Encode(e.enqueued[Dequeued(e) + i]);
      }
    }
  }

  lemma EnqueueKeepsWire(e: Endpoint, f: Frame, l: LinkId)
    requires SpanOk(e, l) && WireInv(e, l)
    ensures SpanOk(Enqueue(e, f), l) && WireInv(Enqueue(e, f), l)
  {
    hide EncodeAll, Encode;
    assert FramesOn(Enqueue(e, f), l) == FramesOn(e, l);
  }

  lemma EnqueueKeepsSpans(e: Endpoint, f: Frame)
    requires SpansInv(e) && DisjointSpans(e) && WiresInv(e)
    ensures var e' := Enqueue(e, f); SpansInv(e') && DisjointSpans(e') && WiresInv(e')
  {
    hide WireInv, Encode;
    var e' := Enqueue(e, f);
    forall l | l in e'.links
      ensures SpanOk(e', l) && WireInv(e', l)
    {
      EnqueueKeepsWire(e, f, l);
    }
  }

  lemma EmittedFits(server: bool, sid: u32, ss: Session, registered: bool, step: TaskStep)
    requires ChunkSizes(ss) && TaskEnabled(server, ss, registered, step)
    ensures Emits(sid, ss, step).Some? ==>
              Fits(Emits(sid, ss, step).value) && Emits(sid, ss, step).value.sessionId == sid
  {
  }

  lemma TaskTrace(e: Endpoint, sid: u32, step: TaskStep, x: u32)
    requires EndpointInv(e) && LocalEnabled(e, Task(sid, step))
    ensures Trace(RunTask(e, sid, step).enqueued, x) ==
            if x == sid then TraceAfter(sid, e.tasks[sid], step, Trace(e.enqueued, sid)) else Trace(e.enqueued, x)
  {
    hide SessionInv, Trace, TaskNext, TaskEnabled, QueueInv, SpansInv, DisjointSpans, WiresInv, WriterEnd, RegistrationLaw, Encode;
    var ss := e.tasks[sid];
    assert TaskInv(e, sid);
    if Emits(sid, ss, step).Some? {
      EmittedSid(e.server, sid, ss, sid in e.mux.sessions, step, Trace(e.enqueued, sid));
      Append(e.enqueued, Emits(sid, ss, step).value, x);
    }
  }

  /** A task's step changes its own session and registration, and the latter only by dropping it. */
  lemma TaskChanges(e: Endpoint, sid: u32, step: TaskStep)
    requires LocalEnabled(e, Task(sid, step))
    ensures var e' := RunTask(e, sid, step);
            && e'.server == e.server && e'.forgotten == e.forgotten
            && e'.tasks == e.tasks[sid := TaskNext(e.server, e.tasks[sid], sid in e.mux.sessions, step)]
            && e'.mux.sessions == if step.DropRegistration? then e.mux.sessions - {sid} else e.mux.sessions
  {
    hide TaskNext, TaskEnabled, Emits, Encode;
  }

  lemma TaskKeepsOwn(e: Endpoint, sid: u32, step: TaskStep)
    requires EndpointInv(e) && LocalEnabled(e, Task(sid, step))
    ensures sid in RunTask(e, sid, step).tasks && TaskInv(RunTask(e, sid, step), sid)
  {
    hide SessionInv, Trace, TaskNext, TaskEnabled, QueueInv, SpansInv, DisjointSpans, WiresInv, WriterEnd, Emits, TraceAfter, RunTask;
    var ss, registered, t := e.tasks[sid], sid in e.mux.sessions, Trace(e.enqueued, sid);
    assert TaskInv(e, sid);
    TaskChanges(e, sid, step);
    TaskTrace(e, sid, step, sid);
    StepKeepsSession(e.server, sid, ss, registered, step, t);
    SessionStepEnds(e.server, ss, registered, step, t);
  }

  lemma SessionStepEnds(server: bool, ss: Session, registered: bool, step: TaskStep, t: seq<Frame>)
    requires SessionInv(server, ss, t) && WriterEnd(ss, registered) && TaskEnabled(server, ss, registered, step)
    requires WaitInv(server, TaskNext(server, ss, registered, step))
    ensures var ss' := TaskNext(server, ss, registered, step);
            && ss'.openedAt <= ss'.taken <= |ss'.inbox|
            && WriterEnd(ss', registered && !step.DropRegistration?)
            && !ss.phase.Allocated? && !ss'.phase.Allocated?
            && ss'.dropped == (ss.dropped || step.DropRegistration?)
  {
    hide ScriptInv, WriterInv, WriterEnd, TaskNext, TaskEnabled, Payloads;
    WaitBounds(server, TaskNext(server, ss, registered, step));
    StepKeepsEnd(server, ss, registered, step, t);
    StepKeepsFlags(server, ss, registered, step, t);
  }

  lemma TaskKeepsTasks(mdu: nat, e: Endpoint, sid: u32, step: TaskStep)
    requires EndpointInv(e) && LocalEnabled(e, Task(sid, step))
    ensures TasksInv(RunTask(e, sid, step))
  {
    hide SessionInv, Trace, TaskNext, TaskEnabled, QueueInv, SpansInv, DisjointSpans, WiresInv, WriterEnd, TraceAfter, RunTask;
    var e' := RunTask(e, sid, step);
    TaskChanges(e, sid, step);
    forall x: u32
      ensures x != sid ==> Trace(e'.enqueued, x) == Trace(e.enqueued, x)
    {
      TaskTrace(e, sid, step, x);
    }
    forall x | x in e'.tasks
      ensures TaskInv(e', x)
    {
      if x == sid {
        TaskKeepsOwn(e, sid, step);
      } else {
        assert TaskInv(e, x);
      }
    }
  }

  lemma EmittedSid(server: bool, sid: u32, ss: Session, registered: bool, step: TaskStep, t: seq<Frame>)
    requires SessionInv(server, ss, t) && TaskEnabled(server, ss, registered, step) && Emits(sid, ss, step).Some?
    ensures Fits(Emits(sid, ss, step).value) && Emits(sid, ss, step).value.sessionId == sid
  {
    EmittedFits(server, sid, ss, registered, step);
  }

  /** A task step is an enqueue, if it emits a frame, and then changes nothing the sender task looks at. */
  lemma TaskKeepsSending(mdu: nat, e: Endpoint, sid: u32, step: TaskStep)
    requires EndpointInv(e) && LocalEnabled(e, Task(sid, step))
    ensures var e' := RunTask(e, sid, step); QueueInv(e') && SpansInv(e') && DisjointSpans(e') && WiresInv(e')
  {
    hide QueueInv, SpansInv, DisjointSpans, WiresInv, SessionInv, Trace, Encode, TaskEnabled, TaskNext;
    var ss := e.tasks[sid];
    assert TaskInv(e, sid);
    var e1 := e;
    if Emits(sid, ss, step).Some? {
      var f := Emits(sid, ss, step).value;
      EmittedSid(e.server, sid, ss, sid in e.mux.sessions, step, Trace(e.enqueued, sid));
      e1 := Enqueue(e, f);
      EnqueueKeepsQueue(e, f);
      EnqueueKeepsSpans(e, f);
    }
    SameSending(e1, RunTask(e, sid, step));
  }

  lemma SameSending(e: Endpoint, e': Endpoint)
    requires QueueInv(e) && SpansInv(e) && DisjointSpans(e) && WiresInv(e)
    requires e'.sender == e.sender && e'.mux.queue == e.mux.queue && e'.mux.linkId == e.mux.linkId
    requires e'.enqueued == e.enqueued && e'.started == e.started
    requires e'.links == e.links
    ensures QueueInv(e') && SpansInv(e') && DisjointSpans(e') && WiresInv(e')
  {
    hide Encode, EncodeAll, AllFit, WireOk;
    forall l | l in e'.links
      ensures SpanOk(e', l) && WireInv(e', l)
    {
      assert SpanOk(e, l) && WireInv(e, l);
    }
  }

  lemma TaskKeepsInv(mdu: nat, e: Endpoint, sid: u32, step: TaskStep)
    requires EndpointInv(e) && LocalEnabled(e, Task(sid, step))
    ensures EndpointInv(LocalNext(mdu, e, Task(sid, step)))
  {
    hide QueueInv, SpansInv, DisjointSpans, WiresInv, TasksInv, RunTask;
    TaskKeepsTasks(mdu, e, sid, step);
    TaskKeepsSending(mdu, e, sid, step);
  }

  /** All local steps. */
  lemma LocalKeepsInv(mdu: nat, e: Endpoint, step: LocalStep)
    requires EndpointInv(e) && LocalEnabled(e, step)
    ensures EndpointInv(LocalNext(mdu, e, step))
  {
    match step
    case TakeFrame => TakeFrameKeepsInv(mdu, e);
    case ReadLink => ReadLinkKeepsInv(mdu, e);
    case ChunkSent => ChunkKeepsInv(mdu, e, step);
    case ChunkRefused => ChunkKeepsInv(mdu, e, step);
    case Task(sid, s) => TaskKeepsInv(mdu, e, sid, s);
  }

  lemma SenderGrows(mdu: nat, e: Endpoint, step: LocalStep)
    requires SpansInv(e) && LocalEnabled(e, step) && !step.Task?
    ensures Grows(e, LocalNext(mdu, e, step))
  {
    hide Trace;
  }

  /** What a task step leaves alone: all that belongs to the sender task and the event loop. */
  lemma TaskLeaves(e: Endpoint, sid: u32, step: TaskStep)
    requires LocalEnabled(e, Task(sid, step))
    ensures var e' := RunTask(e, sid, step);
            && e.enqueued <= e'.enqueued && e'.links == e.links && e'.todo == e.todo
            && e'.mux.recvBuf == e.mux.recvBuf && e'.mux.nextSid == e.mux.nextSid && e'.mux.linkId == e.mux.linkId
  {
    hide TaskNext, TaskEnabled, Emits, Encode;
  }

  /** A task step as an enqueue, and a change to one session and to the registrations. */
  lemma TaskGrows(mdu: nat, e: Endpoint, sid: u32, step: TaskStep)
    requires EndpointInv(e) && LocalEnabled(e, Task(sid, step))
    ensures Grows(e, RunTask(e, sid, step))
  {
    hide Trace, EndpointInv, TaskNext, TaskEnabled, Emits, Listening, RunTask, TraceAfter;
    TaskChanges(e, sid, step);
    TaskLeaves(e, sid, step);
    TaskMovesOn(e, sid, step);
    forall x: u32 | x !in e.tasks
      ensures Trace(RunTask(e, sid, step).enqueued, x) == Trace(e.enqueued, x)
    {
      TaskTrace(e, sid, step, x);
    }
  }

  lemma TaskMovesOn(e: Endpoint, sid: u32, step: TaskStep)
    requires EndpointInv(e) && LocalEnabled(e, Task(sid, step))
    ensures var ss, ss' := e.tasks[sid], TaskNext(e.server, e.tasks[sid], sid in e.mux.sessions, step);
            && ss'.inbox == ss.inbox && ss'.via == ss.via && ss'.udp == ss.udp
            && (ss.asked.Some? ==> ss'.asked == ss.asked)
            && (ss'.phase.Allocated? ==> ss.phase.Allocated?)
            && (Listening(ss') ==> Listening(ss))
  {
    hide Trace, QueueInv, SessionInv, SpansInv, DisjointSpans, WiresInv, TaskNext, TaskEnabled, Listening;
    assert TaskInv(e, sid);
    TaskOnlyReads(e.server, e.tasks[sid], sid in e.mux.sessions, step, Trace(e.enqueued, sid));
  }

  lemma LocalGrows(mdu: nat, e: Endpoint, step: LocalStep)
    requires EndpointInv(e) && LocalEnabled(e, step)
    ensures Grows(e, LocalNext(mdu, e, step))
  {
    hide Grows, RunTask;
    match step
    case Task(sid, s) => TaskGrows(mdu, e, sid, s);
    case _ => SenderGrows(mdu, e, step);
  }

  /** A task never fills its own channel, nor does a receiver that is gone come back. */
  lemma TaskOnlyReads(server: bool, ss: Session, registered: bool, step: TaskStep, t: seq<Frame>)
    requires SessionInv(server, ss, t) && TaskEnabled(server, ss, registered, step)
    ensures var ss' := TaskNext(server, ss, registered, step);
            && ss'.inbox == ss.inbox && ss'.via == ss.via && ss'.udp == ss.udp
            && (ss.asked.Some? ==> ss'.asked == ss.asked)
            && (ss'.phase.Allocated? ==> ss.phase.Allocated?)
            && (Listening(ss') ==> Listening(ss))
  {
    hide Script, Closes, Payloads, ReaderInv, WaitInv, WriterInv;
  }
}
