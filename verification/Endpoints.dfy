/**
 One end of the proxy: a multiplexer, its sender task, the sessions it serves
 and the frames its event loop still has to route. The fields marked history
 record the past and are read by no step.
 */
module Endpoints {
  import opened Basics
  import opened Frames
  import opened Traces
  import opened Mux
  import opened Sessions

  datatype Sender =
    | Idle
    | Holding(encoded: Bytes)            // taken off the queue, link not read yet
    | Sending(link: LinkId, left: Bytes) // link read; these bytes are still to be handed over

  /** The history of one link, as this endpoint saw it. */
  datatype LinkLog = LinkLog(
    lo: nat, hi: nat,      // the frames enqueued[lo..hi] are those whose link was read as this one
    out: Bytes,            // the bytes handed to it
    routed: seq<Frame>)    // the frames received over it and routed

  datatype Endpoint = Endpoint(
    server: bool,
    mux: MuxState,
    sender: Sender,
    tasks: map<u32, Session>,
    todo: seq<Frame>,                 // returned by receive_data, not routed yet
    enqueued: seq<Frame>,             // history: every frame put into the queue
    started: nat,                     // history: how many of them had their link read
    forgotten: set<u32>,              // history: the sessions whose registration a reset cleared
    links: map<LinkId, LinkLog>)      // history: every link that was ever attached

  function NewEndpoint(server: bool): Endpoint {
    Endpoint(server, NewMux(), Idle, map[], [], [], 0, {}, map[])
  }

  /** set_link_id for a link that was never used before. */
  function AttachLink(e: Endpoint, link: LinkId): Endpoint {
    e.(mux := e.mux.(linkId := Some(link)),
       links := e.links[link := LinkLog(e.started, e.started, [], [])])
  }

  function Out(e: Endpoint, link: LinkId): Bytes {
    if link in e.links then e.links[link].out else []
  }

  function Routed(e: Endpoint, link: LinkId): seq<Frame> {
    if link in e.links then e.links[link].routed else []
  }

  function Enqueue(e: Endpoint, f: Frame): Endpoint {
    e.(mux := Push(e.mux, Encode(f)), enqueued := e.enqueued + [f])
  }

  // ---------------------------------------------------------------------------
  // Steps an endpoint takes by itself
  // ---------------------------------------------------------------------------

  datatype LocalStep =
    | TakeFrame                             // the sender task receives from the queue
    | ReadLink                              // and reads the link, once per frame
    | ChunkSent
    | ChunkRefused
    | Task(sid: u32, step: TaskStep)

  predicate LocalEnabled(e: Endpoint, step: LocalStep) {
    match step
    case TakeFrame => e.sender.Idle? && e.mux.queue != []
    case ReadLink => e.sender.Holding?
    case ChunkSent => e.sender.Sending?
    case ChunkRefused => e.sender.Sending?
    case Task(sid, step) =>
      && sid in e.tasks
      && TaskEnabled(e.server, e.tasks[sid], sid in e.mux.sessions, step)
      && (Emits(sid, e.tasks[sid], step).Some? ==> HasRoom(e.mux))
  }

  function LocalNext(mdu: nat, e: Endpoint, step: LocalStep): Endpoint
    requires LocalEnabled(e, step)
  {
    match step
    case TakeFrame =>
      e.(sender := Holding(e.mux.queue[0]), mux := e.mux.(queue := e.mux.queue[1..]))
    case ReadLink => StartFrame(e)
    case ChunkSent =>
      var n := Min(mdu, |e.sender.left|);
      var left := e.sender.left[n..];
      HandOver(e, e.sender.link, e.sender.left[..n]).(
        sender := if left == [] then Idle else e.sender.(left := left))
    case ChunkRefused => e.(sender := Idle, mux := ClearLink(e.mux))
    case Task(sid, step) => RunTask(e, sid, step)
  }

  function HandOver(e: Endpoint, link: LinkId, bytes: Bytes): Endpoint {
    if link !in e.links then e
    else e.(links := e.links[link := e.links[link].(out := e.links[link].out + bytes)])
  }

  /** With no link the frame is dropped; otherwise it is sent on the link read here, whatever happens later. */
  function StartFrame(e: Endpoint): Endpoint
    requires e.sender.Holding?
  {
    match e.mux.linkId
    case None => e.(sender := Idle, started := e.started + 1)
    case Some(link) =>
      e.(sender := Sending(link, e.sender.encoded),
         started := e.started + 1,
         links := if link in e.links then e.links[link := e.links[link].(hi := e.started + 1)] else e.links)
  }

  function RunTask(e: Endpoint, sid: u32, step: TaskStep): Endpoint
    requires LocalEnabled(e, Task(sid, step))
  {
    var ss := e.tasks[sid];
    var e1 := match Emits(sid, ss, step)
      case None => e
      case Some(f) => Enqueue(e, f);
    e1.(tasks := e.tasks[sid := TaskNext(e.server, ss, sid in e.mux.sessions, step)],
        mux := if step.DropRegistration? then Unregister(e1.mux, sid) else e1.mux)
  }

  // ---------------------------------------------------------------------------
  // What holds of an endpoint at all times
  // ---------------------------------------------------------------------------

  /** How many enqueued frames have left the queue. */
  function Dequeued(e: Endpoint): nat {
    e.started + (if e.sender.Holding? then 1 else 0)
  }

  /** The queue holds the encodings of the frames enqueued last, at most five of them. */
  ghost predicate QueueInv(e: Endpoint) {
    && |e.mux.queue| <= QUEUE_CAPACITY
    && Dequeued(e) + |e.mux.queue| == |e.enqueued|
    && (forall i | 0 <= i < |e.mux.queue| :: e.mux.queue[i] == Encode(e.enqueued[Dequeued(e) + i]))
    && (e.sender.Holding? ==> e.sender.encoded == Encode(e.enqueued[e.started]))
    && AllFit(e.enqueued)
  }

  ghost predicate SpanOk(e: Endpoint, link: LinkId) {
    link in e.links && e.links[link].lo <= e.links[link].hi <= e.started <= |e.enqueued|
  }

  /** The frames whose link was read as `link`. */
  ghost function FramesOn(e: Endpoint, link: LinkId): seq<Frame>
    requires SpanOk(e, link)
  {
    e.enqueued[e.links[link].lo..e.links[link].hi]
  }

  /** While a link is current, every other span ends before its own begins; spans never overlap. */
  ghost predicate SpansInv(e: Endpoint) {
    && (forall link | link in e.links :: SpanOk(e, link))
    && (e.mux.linkId.Some? ==> LatestSpan(e, e.mux.linkId.value))
    && (e.sender.Sending? ==> e.sender.link in e.links)
  }

  ghost predicate LatestSpan(e: Endpoint, link: LinkId) {
    && link in e.links
    && forall other | other in e.links && other != link :: e.links[other].hi <= e.links[link].lo
  }

  ghost predicate DisjointSpans(e: Endpoint) {
    forall a, b | a in e.links && b in e.links && a != b ::
      e.links[a].hi <= e.links[b].lo || e.links[b].hi <= e.links[a].lo
  }

  /** What is left to hand over of the frame being sent on a link. */
  function LeftOn(e: Endpoint, link: LinkId): Option<Bytes> {
    if e.sender.Sending? && e.sender.link == link then Some(e.sender.left) else None
  }

  /**
   What a link has been handed is a prefix of whole encoded frames; the prefix is
   everything while the link is current, and short by what is left while a frame
   is being sent. A link that is neither will never be handed anything again.
   */
  ghost predicate WireOk(out: Bytes, all: Bytes, left: Option<Bytes>, current: bool, atEnd: bool) {
    match left
    case Some(bytes) => atEnd && out + bytes == all
    case None => out <= all && (current ==> atEnd && out == all)
  }

  ghost predicate WireInv(e: Endpoint, link: LinkId)
    requires SpanOk(e, link)
  {
    WireOk(Out(e, link), EncodeAll(FramesOn(e, link)), LeftOn(e, link),
           e.mux.linkId == Some(link), e.links[link].hi == e.started)
  }

  ghost predicate WiresInv(e: Endpoint) {
    forall link | link in e.links :: SpanOk(e, link) && WireInv(e, link)
  }

  /** The payload of the ConnectErr for a Connect that does not decode. */
  const INVALID_PAYLOAD: Bytes := [105, 110, 118, 97, 108, 105, 100, 32, 112, 97, 121, 108, 111, 97, 100]

  lemma InvalidPayloadText()
    ensures |INVALID_PAYLOAD| == |"invalid payload"|
    ensures forall i | 0 <= i < |INVALID_PAYLOAD| :: INVALID_PAYLOAD[i] == "invalid payload"[i] as int
  {
  }

  /** The frames of sessions that do not exist: none at a client, at most a ConnectErr at a server. */
  ghost predicate StrayTrace(server: bool, t: seq<Frame>) {
    t == [] || (server && Refused(t) && t[0].payload == INVALID_PAYLOAD)
  }

  /** A session is registered from its registration until it drops it or a reset clears it, and at no other time. */
  predicate RegistrationLaw(e: Endpoint, sid: u32)
    requires sid in e.tasks
  {
    sid in e.mux.sessions <==>
      !e.tasks[sid].phase.Allocated? && !e.tasks[sid].dropped && sid !in e.forgotten
  }

  ghost predicate TasksInv(e: Endpoint) {
    && e.mux.sessions <= e.tasks.Keys
    && e.forgotten <= e.tasks.Keys
    && (forall sid | sid in e.tasks :: TaskInv(e, sid))
    && (forall sid: u32 | sid !in e.tasks :: StrayTrace(e.server, Trace(e.enqueued, sid)))
  }

  ghost predicate TaskInv(e: Endpoint, sid: u32)
    requires sid in e.tasks
  {
    && SessionInv(e.server, e.tasks[sid], Trace(e.enqueued, sid))
    && WriterEnd(e.tasks[sid], sid in e.mux.sessions)
    && RegistrationLaw(e, sid)
    && (e.tasks[sid].phase.Allocated? ==> sid !in e.forgotten)
  }

  ghost predicate EndpointInv(e: Endpoint) {
    && QueueInv(e)
    && SpansInv(e)
    && DisjointSpans(e)
    && WiresInv(e)
    && TasksInv(e)
  }
}
